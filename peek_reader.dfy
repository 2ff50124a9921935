/**
 * libteal/peek_reader.py: a read-only cursor over a file descriptor that
 * reads with pread at its own position, so the descriptor's offset is never
 * moved. The file's contents are a byte sequence; pread is the slice of it at
 * the cursor.
 */
module PeekReading {
  import opened Results

  newtype byte = b: int | 0 <= b < 256

  const NEWLINE: byte := 10
  const CHUNK: nat := 65536

  const SEEK_SET: int := 0
  const SEEK_CUR: int := 1
  const SEEK_END: int := 2

  /** ValueError on a closed reader, OSError(EINVAL) from pread, ValueError("empty separator") from bytes.partition. */
  datatype ReadError = Closed | InvalidArgument | EmptySeparator

  function Min(a: int, b: int): int { if a < b then a else b }

  /** os.pread(fd, size, pos) on a file holding data, for size and pos not negative. */
  function Pread(data: seq<byte>, pos: nat, size: nat): (r: seq<byte>)
    ensures |r| <= size
    ensures pos < |data| && size > 0 ==> |r| > 0
    ensures r == [] || (pos + |r| <= |data| && r == data[pos..pos + |r|])
  {
    if pos >= |data| then [] else data[pos..Min(|data|, pos + size)]
  }

  /** One read(size) from position pos: the bytes, or the error it raises. */
  function ReadAt(data: seq<byte>, closed: bool, pos: int, size: int): Result<seq<byte>, ReadError>
  {
    if closed then Err(Closed)
    else if size < 0 || pos < 0 then Err(InvalidArgument)
    else Ok(Pread(data, pos, size))
  }

  /** s occurs in chunk at index k. */
  predicate Occurs(chunk: seq<byte>, s: seq<byte>, k: int)
  {
    0 <= k && k + |s| <= |chunk| && chunk[k..k + |s|] == s
  }

  /** The first occurrence of s in chunk at or after i: `s in chunk` and the split point of chunk.partition(s). */
  function FindFrom(chunk: seq<byte>, s: seq<byte>, i: nat): (r: Option<nat>)
    decreases |chunk| - i
    ensures r.Some? ==> i <= r.value && Occurs(chunk, s, r.value)
    ensures r.Some? ==> forall k :: i <= k < r.value ==> !Occurs(chunk, s, k)
    ensures r.None? ==> forall k :: i <= k ==> !Occurs(chunk, s, k)
  {
    if i + |s| > |chunk| then None
    else if chunk[i..i + |s|] == s then Some(i)
    else FindFrom(chunk, s, i + 1)
  }

  /** What read_to leaves behind: its result or error, and the reader's position. */
  datatype Outcome = Outcome(result: Result<seq<byte>, ReadError>, position: int)

  function Remaining(data: seq<byte>, pos: int): nat
  {
    if 0 <= pos < |data| then |data| - pos else 0
  }

  /** The loop of read_to from position pos, with size left and the bytes gathered so far. */
  function ReadToFrom(data: seq<byte>, closed: bool, pos: int, size: int, sentinel: Option<seq<byte>>, full: seq<byte>): Outcome
    decreases Remaining(data, pos)
  {
    var rsize := if size < 0 then CHUNK else size;
    match ReadAt(data, closed, pos, rsize)
    case Err(e) => Outcome(Err(e), pos)
    case Ok(chunk) =>
      var next := pos + |chunk|;
      if |chunk| == 0 then Outcome(Ok(full), next)
      else if sentinel.Some? && FindFrom(chunk, sentinel.value, 0).Some? then
        if sentinel.value == [] then Outcome(Err(EmptySeparator), next)
        else
          var k := FindFrom(chunk, sentinel.value, 0).value;
          Outcome(Ok(full + chunk[..k] + sentinel.value), next - (|chunk| - (k + |sentinel.value|)))
      else ReadToFrom(data, closed, next, if size > 0 then size - |chunk| else size, sentinel, full + chunk)
  }

  /** The position seek(offset, whence) sets; handleTell is tell() of the wrapped file object, if there is one. */
  function SeekTarget(position: int, handleTell: Option<int>, offset: int, whence: int): (r: int)
    ensures whence == SEEK_CUR ==> r == position + offset
    ensures whence == SEEK_END ==> r == (if handleTell.Some? then handleTell.value else position) + offset
    ensures whence != SEEK_CUR && whence != SEEK_END ==> r == offset
  {
    if whence == SEEK_CUR then position + offset
    else if whence == SEEK_END then
      match handleTell
      case Some(t) => t + offset
      case None => position + offset
    else offset
  }

  class PeekReader {
    /** The bytes of the file behind the descriptor; the reader never writes them. */
    const data: seq<byte>
    /** Whether the reader wraps a file object (and not a bare descriptor). */
    const wrapsHandle: bool
    var position: int
    var isClosed: bool

    /** PeekReader(fh_or_fd): open, at position 0, whichever was given. */
    constructor (contents: seq<byte>, handle: bool)
      ensures data == contents && wrapsHandle == handle
      ensures position == 0 && !isClosed
    {
      data := contents;
      wrapsHandle := handle;
      isClosed := false;
      position := 0;
    }

    /** close only sets the flag; the reader is then neither readable nor seekable. */
    method Close()
      modifies this
      ensures isClosed && position == old(position)
      ensures !Readable() && !Seekable()
    {
      isClosed := true;
    }

    function Readable(): (r: bool)
      reads this
      ensures r <==> !isClosed
    {
      !isClosed
    }

    function Seekable(): (r: bool)
      reads this
      ensures r <==> !isClosed
    {
      !isClosed
    }

    function Writable(): (r: bool)
      ensures !r
    {
      false
    }

    function IsAtty(): (r: bool)
      ensures !r
    {
      false
    }

    function Tell(): (r: int)
      reads this
      ensures r == position
    {
      position
    }

    /** read(size): pread at the position, which then moves past the bytes returned. */
    method Read(size: int) returns (r: Result<seq<byte>, ReadError>)
      modifies this
      ensures r == ReadAt(data, isClosed, old(position), size)
      ensures isClosed == old(isClosed)
      ensures position == old(position) + (if r.Ok? then |r.value| else 0)
    {
      if isClosed {
        return Err(Closed);
      }
      if size < 0 || position < 0 {
        return Err(InvalidArgument);
      }
      var raw := Pread(data, position, size);
      position := position + |raw|;
      r := Ok(raw);
    }

    /**
     * read_to(size, sentinel): chunks of size (65536 when size is negative)
     * until EOF, a chunk holding the sentinel, or size used up; the position is
     * wound back to just after the sentinel.
     */
    method ReadTo(size: int, sentinel: Option<seq<byte>>) returns (r: Result<seq<byte>, ReadError>)
      modifies this
      ensures Outcome(r, position) == ReadToFrom(data, old(isClosed), old(position), size, sentinel, [])
      ensures isClosed == old(isClosed)
    {
      var happy := false;
      var full: seq<byte> := [];
      var left := size;
      ghost var start := position;
      while !happy
        invariant isClosed == old(isClosed)
        invariant !happy ==> ReadToFrom(data, isClosed, start, size, sentinel, []) == ReadToFrom(data, isClosed, position, left, sentinel, full)
        invariant happy ==> ReadToFrom(data, isClosed, start, size, sentinel, []) == Outcome(Ok(full), position)
        decreases Remaining(data, position), if happy then 0 else 1
      {
        var rsize := if left < 0 then CHUNK else left;
        var before := position;
        var got := Read(rsize);
        if got.Err? {
          return Err(got.error);
        }
        var chunk := got.value;
        if |chunk| == 0 {
          happy := true;
        } else if sentinel.Some? && FindFrom(chunk, sentinel.value, 0).Some? {
          if sentinel.value == [] {
            return Err(EmptySeparator);
          }
          var k := FindFrom(chunk, sentinel.value, 0).value;
          full := full + chunk[..k] + sentinel.value;
          position := position - (|chunk| - (k + |sentinel.value|));
          happy := true;
        } else {
          if left > 0 {
            left := left - |chunk|;
          }
          full := full + chunk;
        }
      }
      r := Ok(full);
    }

    /** readline(size): read_to with the newline sentinel (the UTF-8 decoding is not modelled). */
    method ReadLine(size: int) returns (r: Result<seq<byte>, ReadError>)
      modifies this
      ensures Outcome(r, position) == ReadToFrom(data, old(isClosed), old(position), size, Some([NEWLINE]), [])
      ensures isClosed == old(isClosed)
    {
      r := ReadTo(size, Some([NEWLINE]));
    }

    /** seek(offset, whence): only the position changes; handleTell is the wrapped file object's tell(). */
    method Seek(offset: int, whence: int, handleTell: int)
      modifies this
      ensures position == SeekTarget(old(position), if wrapsHandle then Some(handleTell) else None, offset, whence)
      ensures isClosed == old(isClosed)
    {
      if whence == SEEK_CUR {
        position := position + offset;
      } else if whence == SEEK_END {
        if wrapsHandle {
          position := handleTell + offset;
        } else {
          position := position + offset;
        }
      } else {
        position := offset;
      }
    }
  }
}

/** What read_to and readline return, for all files and positions. */
module PeekTheorems {
  import opened Results
  import opened PeekReading

  /**
   * An outcome of read_to from pos, having gathered full: on success the result
   * is full followed by data[pos..position], and a size that is not negative
   * caps what was added.
   */
  predicate Consumes(o: Outcome, data: seq<byte>, pos: int, size: int, full: seq<byte>)
  {
    o.result.Ok? ==>
      var r := o.result.value;
      && |full| <= |r| && r[..|full|] == full && o.position == pos + (|r| - |full|)
      && (o.position != pos ==> 0 <= pos && o.position <= |data| && r[|full|..] == data[pos..o.position])
      && (size >= 0 ==> |r| <= |full| + size)
  }

  /** The iteration that finds the sentinel consumes up to and including it. */
  lemma {:induction false} SentinelStep(data: seq<byte>, pos: int, chunk: seq<byte>, s: seq<byte>, k: nat, full: seq<byte>, size: int)
    requires 0 <= pos && pos + |chunk| <= |data| && chunk == data[pos..pos + |chunk|]
    requires size >= 0 ==> |chunk| <= size
    requires Occurs(chunk, s, k) && s != []
    ensures Consumes(Outcome(Ok(full + chunk[..k] + s), pos + |chunk| - (|chunk| - (k + |s|))), data, pos, size, full)
  {
    var r := full + chunk[..k] + s;
    assert chunk[..k] + s == chunk[..k + |s|];
    assert r[|full|..] == chunk[..k + |s|];
    assert data[pos..pos + k + |s|] == chunk[..k + |s|];
  }

  /** An iteration that takes a whole chunk and goes on: what the rest consumes, the whole loop consumes. */
  lemma {:induction false} ChunkStep(data: seq<byte>, pos: int, chunk: seq<byte>, full: seq<byte>, size: int, left: int, o: Outcome)
    requires 0 <= pos && pos + |chunk| <= |data| && chunk == data[pos..pos + |chunk|] && |chunk| > 0
    requires size >= 0 ==> |chunk| <= size && left == size - |chunk|
    requires Consumes(o, data, pos + |chunk|, left, full + chunk)
    ensures Consumes(o, data, pos, size, full)
  {
    var next := pos + |chunk|;
    if o.result.Ok? {
      var r := o.result.value;
      assert r[..|full|] == (r[..|full + chunk|])[..|full|];
      if o.position != next {
        assert r[|full|..] == chunk + r[|full + chunk|..];
        assert data[pos..o.position] == data[pos..next] + data[next..o.position];
      } else {
        assert r[|full|..] == chunk;
      }
    }
  }

  /** read_to returns exactly the bytes it moves past, and never more than a non-negative size. */
  lemma {:induction false} ReadToConsumes(data: seq<byte>, closed: bool, pos: int, size: int, sentinel: Option<seq<byte>>, full: seq<byte>)
    ensures Consumes(ReadToFrom(data, closed, pos, size, sentinel, full), data, pos, size, full)
    decreases Remaining(data, pos)
  {
    var rsize := if size < 0 then CHUNK else size;
    var got := ReadAt(data, closed, pos, rsize);
    if got.Ok? && |got.value| > 0 {
      var chunk := got.value;
      var next := pos + |chunk|;
      if sentinel.Some? && FindFrom(chunk, sentinel.value, 0).Some? {
        if sentinel.value != [] {
          SentinelStep(data, pos, chunk, sentinel.value, FindFrom(chunk, sentinel.value, 0).value, full, size);
        }
      } else {
        var left := if size > 0 then size - |chunk| else size;
        ReadToConsumes(data, closed, next, left, sentinel, full + chunk);
        ChunkStep(data, pos, chunk, full, size, left, ReadToFrom(data, closed, next, left, sentinel, full + chunk));
      }
    } else if got.Ok? {
      assert full[..|full|] == full;
    }
  }

  /** For a fresh call: read_to's result is data[pos..position], at most size bytes when size >= 0. */
  lemma {:induction false} ReadToResult(data: seq<byte>, closed: bool, pos: int, size: int, sentinel: Option<seq<byte>>)
    ensures var o := ReadToFrom(data, closed, pos, size, sentinel, []);
      o.result.Ok? ==>
        && o.position == pos + |o.result.value|
        && (size >= 0 ==> |o.result.value| <= size)
        && (o.result.value == [] || (0 <= pos && o.position <= |data| && o.result.value == data[pos..o.position]))
  {
    ReadToConsumes(data, closed, pos, size, sentinel, []);
    var o := ReadToFrom(data, closed, pos, size, sentinel, []);
    if o.result.Ok? {
      assert o.result.value[0..] == o.result.value;
    }
  }

  /** read_to() with no size and no sentinel returns the rest of the file and leaves the position at its end. */
  lemma {:induction false} ReadAll(data: seq<byte>, pos: int, full: seq<byte>)
    requires 0 <= pos <= |data|
    ensures ReadToFrom(data, false, pos, -1, None, full) == Outcome(Ok(full + data[pos..]), |data|)
    decreases |data| - pos
  {
    var chunk := Pread(data, pos, CHUNK);
    assert ReadAt(data, false, pos, CHUNK) == Ok(chunk);
    if pos < |data| {
      var next := pos + |chunk|;
      assert chunk == data[pos..next];
      ReadAll(data, next, full + chunk);
      assert ReadToFrom(data, false, pos, -1, None, full) == ReadToFrom(data, false, next, -1, None, full + chunk);
      assert full + chunk + data[next..] == full + data[pos..];
    } else {
      assert chunk == [];
      assert full + data[pos..] == full;
    }
  }

  /** read_to(size) with size >= 0 and no sentinel returns the next size bytes, or fewer at the end of the file. */
  lemma {:induction false} ReadUpTo(data: seq<byte>, pos: int, size: int)
    requires 0 <= pos <= |data| && size >= 0
    ensures ReadToFrom(data, false, pos, size, None, []) == Outcome(Ok(data[pos..Min(|data|, pos + size)]), Min(|data|, pos + size))
  {
    var chunk := Pread(data, pos, size);
    assert ReadAt(data, false, pos, size) == Ok(chunk);
    var next := pos + |chunk|;
    if |chunk| > 0 {
      assert chunk == data[pos..Min(|data|, pos + size)];
      var left := size - |chunk|;
      assert Pread(data, next, left) == [];
      assert ReadAt(data, false, next, left) == Ok([]);
      assert ReadToFrom(data, false, next, left, None, [] + chunk) == Outcome(Ok([] + chunk), next);
      assert ReadToFrom(data, false, pos, size, None, []) == ReadToFrom(data, false, next, left, None, [] + chunk);
      assert [] + chunk == chunk;
    } else {
      assert Min(|data|, pos + size) == pos;
    }
  }

  /** Just past the first newline at or after i, or the end of the file if there is none. */
  function LineEnd(data: seq<byte>, i: nat): (e: nat)
    decreases |data| - i
    ensures i <= |data| ==> i <= e <= |data|
  {
    if i >= |data| then |data| else if data[i] == NEWLINE then i + 1 else LineEnd(data, i + 1)
  }

  lemma {:induction false} LineEndSkip(data: seq<byte>, i: nat, j: nat)
    requires i <= j <= |data|
    requires forall k :: i <= k < j ==> data[k] != NEWLINE
    ensures LineEnd(data, i) == LineEnd(data, j)
    decreases j - i
  {
    if i < j {
      LineEndSkip(data, i + 1, j);
    }
  }

  lemma {:induction false} LineEndAt(data: seq<byte>, i: nat, j: nat)
    requires i <= j < |data| && data[j] == NEWLINE
    requires forall k :: i <= k < j ==> data[k] != NEWLINE
    ensures LineEnd(data, i) == j + 1
    decreases j - i
  {
    if i < j {
      LineEndAt(data, i + 1, j);
    }
  }

  /** A one-byte sentinel occurs exactly where that byte is. */
  lemma {:induction false} OccursByte(chunk: seq<byte>, b: byte, k: int)
    requires 0 <= k < |chunk|
    ensures Occurs(chunk, [b], k) <==> chunk[k] == b
  {
    assert chunk[k..k + 1] == [chunk[k]];
  }

  /**
   * readline() returns everything up to and including the next newline (the
   * rest of the file if there is none) and leaves the position just after it.
   */
  /** A chunk holding a newline: readline stops just after the first one. */
  lemma {:induction false} LineInChunk(data: seq<byte>, pos: int, full: seq<byte>)
    requires 0 <= pos < |data|
    requires FindFrom(Pread(data, pos, CHUNK), [NEWLINE], 0).Some?
    ensures ReadToFrom(data, false, pos, -1, Some([NEWLINE]), full) == Outcome(Ok(full + data[pos..LineEnd(data, pos)]), LineEnd(data, pos))
  {
    var chunk := Pread(data, pos, CHUNK);
    assert ReadAt(data, false, pos, CHUNK) == Ok(chunk);
    var next := pos + |chunk|;
    assert chunk == data[pos..next];
    var k := FindFrom(chunk, [NEWLINE], 0).value;
    OccursByte(chunk, NEWLINE, k);
    forall j | pos <= j < pos + k ensures data[j] != NEWLINE {
      OccursByte(chunk, NEWLINE, j - pos);
    }
    LineEndAt(data, pos, pos + k);
    assert chunk[..k] + [NEWLINE] == data[pos..pos + k + 1];
    assert full + chunk[..k] + [NEWLINE] == full + data[pos..pos + k + 1];
  }

  /** A chunk without a newline: readline takes it whole and goes on from the next position. */
  lemma {:induction false} NoLineInChunk(data: seq<byte>, pos: int, full: seq<byte>)
    requires 0 <= pos < |data|
    requires FindFrom(Pread(data, pos, CHUNK), [NEWLINE], 0).None?
    ensures pos < pos + |Pread(data, pos, CHUNK)| <= |data|
    ensures Pread(data, pos, CHUNK) == data[pos..pos + |Pread(data, pos, CHUNK)|]
    ensures LineEnd(data, pos) == LineEnd(data, pos + |Pread(data, pos, CHUNK)|)
    ensures ReadToFrom(data, false, pos, -1, Some([NEWLINE]), full)
      == ReadToFrom(data, false, pos + |Pread(data, pos, CHUNK)|, -1, Some([NEWLINE]), full + Pread(data, pos, CHUNK))
  {
    var chunk := Pread(data, pos, CHUNK);
    assert ReadAt(data, false, pos, CHUNK) == Ok(chunk);
    var next := pos + |chunk|;
    assert chunk == data[pos..next];
    forall j | pos <= j < next ensures data[j] != NEWLINE {
      OccursByte(chunk, NEWLINE, j - pos);
    }
    LineEndSkip(data, pos, next);
  }

  /**
   * readline() returns everything up to and including the next newline (the
   * rest of the file if there is none) and leaves the position just after it.
   */
  lemma {:induction false} ReadLineMeaning(data: seq<byte>, pos: int, full: seq<byte>)
    requires 0 <= pos <= |data|
    ensures ReadToFrom(data, false, pos, -1, Some([NEWLINE]), full) == Outcome(Ok(full + data[pos..LineEnd(data, pos)]), LineEnd(data, pos))
    decreases |data| - pos
  {
    if pos == |data| {
      assert ReadAt(data, false, pos, CHUNK) == Ok([]);
      assert full + data[pos..pos] == full;
    } else if FindFrom(Pread(data, pos, CHUNK), [NEWLINE], 0).Some? {
      LineInChunk(data, pos, full);
    } else {
      var chunk := Pread(data, pos, CHUNK);
      var next := pos + |chunk|;
      NoLineInChunk(data, pos, full);
      ReadLineMeaning(data, next, full + chunk);
      var e := LineEnd(data, pos);
      assert data[pos..e] == chunk + data[next..e];
      assert full + chunk + data[next..e] == full + data[pos..e];
    }
  }

  /** "Hello\nWorld\n1234\n" as bytes. */
  const HELLO_FILE: seq<byte> := [72, 101, 108, 108, 111, 10, 87, 111, 114, 108, 100, 10, 49, 50, 51, 52, 10]
  const HELLO_LINE: seq<byte> := [72, 101, 108, 108, 111, 10]

  lemma HelloLine()
    ensures ReadToFrom(HELLO_FILE, false, 0, -1, Some([NEWLINE]), []) == Outcome(Ok(HELLO_LINE), 6)
  {
    ReadLineMeaning(HELLO_FILE, 0, []);
    LineEndAt(HELLO_FILE, 0, 5);
    assert [] + HELLO_FILE[0..6] == HELLO_LINE;
  }

  /** The module's own demonstration: after read() and seek(0), readline() gives "Hello\n" and tell() gives 6. */
  method HelloDemo() returns (line: Result<seq<byte>, ReadError>, told: int)
    ensures line == Ok(HELLO_LINE) && told == 6
  {
    var p := new PeekReader(HELLO_FILE, true);
    var all := p.Read(CHUNK);
    p.Seek(0, SEEK_SET, 0);
    assert p.position == 0 && !p.isClosed && p.data == HELLO_FILE;
    line := p.ReadLine(-1);
    told := p.Tell();
    HelloLine();
  }
}
