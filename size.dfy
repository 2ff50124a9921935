/**
 * libteal/size.py: human-readable data sizes. parse_size reads strings such as
 * "125.2 K", "4 GiB" or "12Mb" into a whole number of bytes; human_size picks
 * an IEC or SI prefix and a B/b suffix for display. Python floats are replaced
 * by exact reals; the rounding of the displayed number is not modelled, the
 * display keeps the exact quotient instead.
 */
module Size {
  import opened Results
  import opened Text

  /** A prefix table in the order Python's dict literal lists it: name and exponent. */
  type Table = seq<(string, nat)>

  const IEC: Table := [("Ki", 10), ("Mi", 20), ("Gi", 30), ("Ti", 40), ("Pi", 50), ("Ei", 60), ("Zi", 70), ("Yi", 80)]
  const SI: Table := [("k", 3), ("M", 6), ("G", 9), ("T", 12), ("P", 15), ("E", 18), ("Z", 21), ("Y", 24)]

  const BYTES: nat := 1
  const BITS: nat := 8

  /** `key in table` and `table[key]` of a dict: the exponent of the first entry named key. */
  function Lookup(table: Table, key: string): (r: Option<nat>)
    ensures r.Some? <==> exists j :: 0 <= j < |table| && table[j].0 == key
    ensures r.Some? ==> exists j :: 0 <= j < |table| && table[j] == (key, r.value)
  {
    if table == [] then None
    else if table[0].0 == key then Some(table[0].1)
    else
      var r := Lookup(table[1..], key);
      assert forall j :: 0 <= j < |table[1..]| ==> table[1..][j] == table[j + 1];
      r
  }

  // parse_size

  /** The loop variables of parse_size: the digits read so far, whether a dot was taken, the prefix letters. */
  datatype SizeScan = SizeScan(acc: string, dp: bool, prefix: string)

  const Start: SizeScan := SizeScan("", false, "")

  /** One iteration of parse_size's loop; None where the loop breaks. */
  function ScanChar(st: SizeScan, c: char): Option<SizeScan>
  {
    if |st.prefix| == 0 then
      if IsDigit(c) then Some(st.(acc := st.acc + [c]))
      else if |st.acc| > 0 then
        if c == '.' && !st.dp then Some(st.(dp := true, acc := st.acc + [c]))
        else if !IsSpace(c) then Some(st.(prefix := [c]))
        else Some(st)
      else Some(st)
    else if IsAlpha(c) then Some(st.(prefix := st.prefix + [c]))
    else None
  }

  /** The whole loop over s, from state st. */
  function ScanFrom(st: SizeScan, s: string): SizeScan
    decreases |s|
  {
    if s == [] then st
    else
      match ScanChar(st, s[0])
      case None => st
      case Some(next) => ScanFrom(next, s[1..])
  }

  /** The prefix without a trailing b (bits) or B/o (bytes) marker, and the unit the marker selects. */
  function Marker(prefix: string): (string, nat)
  {
    if |prefix| > 0 && prefix[|prefix| - 1] == 'b' then (prefix[..|prefix| - 1], BITS)
    else if |prefix| > 0 && (prefix[|prefix| - 1] == 'B' || prefix[|prefix| - 1] == 'o') then (prefix[..|prefix| - 1], BYTES)
    else (prefix, BYTES)
  }

  /** The multiplier of a prefix: 2^exp for IEC, 10^exp for SI, none for anything else; a bare K means Ki. */
  function Multiplier(prefix: string): Option<nat>
  {
    var p := if prefix == "K" then "Ki" else prefix;
    match Lookup(IEC, p)
    case Some(e) => Some(Pow(2, e))
    case None =>
      match Lookup(SI, p)
      case Some(e) => Some(Pow(10, e))
      case None => None
  }

  /** value times a whole factor. */
  function Times(value: real, factor: nat): real
  {
    value * factor as real
  }

  /** Whole bytes for a number of bits, a partial byte counting as one. */
  function BitsToBytes(bits: int): int
  {
    bits / BITS + (if bits % BITS != 0 then 1 else 0)
  }

  /** What parse_size makes of the loop's final state. */
  function Interpret(st: SizeScan): int
  {
    var (p, unit) := Marker(st.prefix);
    var value := if |st.acc| > 0 then NumeralValue(st.acc) else 0.0;
    var scaled := match Multiplier(p) case Some(m) => Times(value, m) case None => value;
    var whole := scaled.Floor;
    if unit == BITS then BitsToBytes(whole) else whole
  }

  /** get_size(s), and the value parse_size stores and returns. */
  function ParsedSize(s: string): int
  {
    Interpret(ScanFrom(Start, s))
  }

  // human_size

  /** The dict a table denotes: each name to its exponent, read as Lookup reads it. */
  function Dict(table: Table): map<string, nat>
  {
    if table == [] then map[] else Dict(table[1..])[table[0].0 := table[0].1]
  }

  /**
   * log10 and base 10 for a table equal to SI, log2 and base 2 for any other;
   * the tables are compared as dicts, so the order of their entries does not matter.
   */
  function Base(prefixes: Table): nat
  {
    if Dict(prefixes) == Dict(SI) then 10 else 2
  }

  /**
   * `magnitude < prefixes[entry]`, where magnitude is log_base(size) for a
   * positive size and 1 otherwise; for a positive size, log_base(size) < e
   * exactly when size < base^e.
   */
  predicate Below(size: int, base: nat, e: nat)
  {
    if size > 0 then size < Pow(base, e) else 1 < e
  }

  /** The automatic prefix loop from entry i on, with the prefix and divisor chosen so far. */
  function AutoScan(table: Table, base: nat, size: int, i: nat, prefix: string, dividend: nat): (string, nat)
    requires i <= |table|
    decreases |table| - i
  {
    if i == |table| || Below(size, base, table[i].1) then (prefix, dividend)
    else AutoScan(table, base, size, i + 1, table[i].0, Pow(base, table[i].1))
  }

  function AutoPrefix(table: Table, size: int): (string, nat)
  {
    AutoScan(table, Base(table), size, 0, "", 1)
  }

  datatype SizeError = NoMatchingPrefix(force: string)

  /** The forced prefix and divisor: "" means base units, an entry of the table fixes both, anything else is a ValueError. */
  function Forced(prefixes: Table, force: string): Result<(string, nat), SizeError>
  {
    if force == "" then Ok(("", 1))
    else
      match Lookup(prefixes, force)
      case None => Err(NoMatchingPrefix(force))
      case Some(e) => Ok((force, Pow(Base(prefixes), e)))
  }

  /** The number shown: an exact integer, or size*unit/dividend before rounding. */
  datatype Amount = Exact(n: int) | Ratio(numerator: int, dividend: nat)

  /** human_size's result: the number, then " ", the prefix and the B/b suffix. */
  datatype Friendly = Friendly(amount: Amount, caption: string)

  function Suffix(unit: int): string
  {
    if unit == BITS then "b" else "B"
  }

  function Display(size: int, unit: int, prefix: string, dividend: nat): Friendly
  {
    var amount := if prefix == "" && unit == BITS then Exact(size * unit) else Ratio(size * unit, dividend);
    Friendly(amount, " " + prefix + Suffix(unit))
  }

  /** DataSize(size).human_size(prefixes, places, unit, force), up to the rounding of the number. */
  function Human(size: int, prefixes: Table, unit: int, force: Option<string>): Result<Friendly, SizeError>
  {
    var choice := match force
      case None => Ok(AutoPrefix(prefixes, size))
      case Some(f) => Forced(prefixes, f);
    match choice
    case Err(e) => Err(e)
    case Ok(pd) => Ok(Display(size, unit, pd.0, pd.1))
  }

  class DataSize {
    var size: int

    constructor (startSize: int)
      ensures size == startSize
    {
      size := startSize;
    }

    /** parse_size: one pass over the characters, then the unit marker, the K rule, the scaling and the bit rounding. */
    method ParseSize(sizeString: string) returns (r: int)
      modifies this
      ensures r == ParsedSize(sizeString) && size == r
    {
      var accumulator, dp, prefix := "", false, "";
      var unit := BYTES;
      var i := 0;
      while i < |sizeString|
        invariant 0 <= i <= |sizeString|
        invariant ScanFrom(Start, sizeString) == ScanFrom(SizeScan(accumulator, dp, prefix), sizeString[i..])
      {
        var c := sizeString[i];
        assert sizeString[i..][0] == c && sizeString[i..][1..] == sizeString[i + 1..];
        if |prefix| == 0 {
          if IsDigit(c) {
            accumulator := accumulator + [c];
          } else if |accumulator| > 0 {
            if c == '.' && !dp {
              dp := true;
              accumulator := accumulator + [c];
            } else if !IsSpace(c) {
              prefix := [c];
            }
          }
        } else {
          if IsAlpha(c) {
            prefix := prefix + [c];
          } else {
            break;
          }
        }
        i := i + 1;
      }
      assert ScanFrom(Start, sizeString) == SizeScan(accumulator, dp, prefix);

      var marked := Marker(prefix);
      if |prefix| > 0 {
        if prefix[|prefix| - 1] == 'b' {
          prefix := prefix[..|prefix| - 1];
          unit := BITS;
        } else if prefix[|prefix| - 1] == 'B' || prefix[|prefix| - 1] == 'o' {
          prefix := prefix[..|prefix| - 1];
        }
      }
      assert (prefix, unit) == marked;
      var factor := Multiplier(prefix);
      if prefix == "K" {
        prefix := "Ki";
      }

      var value := 0.0;
      if |accumulator| > 0 {
        value := NumeralValue(accumulator);
      }
      var iec := Lookup(IEC, prefix);
      if iec.Some? {
        value := Times(value, Pow(2, iec.value));
      } else {
        var si := Lookup(SI, prefix);
        if si.Some? {
          value := Times(value, Pow(10, si.value));
        }
      }
      assert factor.Some? ==> value == Times(if |accumulator| > 0 then NumeralValue(accumulator) else 0.0, factor.value);

      size := value.Floor;
      if unit == BITS {
        var total := size / BITS;
        if size % BITS != 0 {
          total := total + 1;
        }
        size := total;
      }
      r := size;
    }

    /** human_size: the forced or automatically chosen prefix, its divisor and the suffix. */
    method HumanSize(prefixes: Table, unit: int, force: Option<string>) returns (r: Result<Friendly, SizeError>)
      ensures r == Human(size, prefixes, unit, force)
    {
      var base := if Dict(prefixes) == Dict(SI) then 10 else 2;
      var dividend := 1;
      var prefix := "";
      if force.Some? {
        if force.value == "" {
        } else {
          var e := Lookup(prefixes, force.value);
          if e.None? {
            return Err(NoMatchingPrefix(force.value));
          }
          prefix := force.value;
          dividend := Pow(base, e.value);
        }
      } else {
        var i := 0;
        while i < |prefixes|
          invariant 0 <= i <= |prefixes|
          invariant AutoPrefix(prefixes, size) == AutoScan(prefixes, base, size, i, prefix, dividend)
        {
          var magnitudeBelow := if size > 0 then size < Pow(base, prefixes[i].1) else 1 < prefixes[i].1;
          if magnitudeBelow {
            break;
          }
          prefix := prefixes[i].0;
          dividend := Pow(base, prefixes[i].1);
          i := i + 1;
        }
      }
      r := Ok(Display(size, unit, prefix, dividend));
    }
  }

  /** The module function get_size: a fresh DataSize parses the string. */
  method GetSize(sizeString: string) returns (r: int)
    ensures r == ParsedSize(sizeString)
  {
    var d := new DataSize(0);
    r := d.ParseSize(sizeString);
  }

  /**
   * The module function human_size as written: it builds a DataSize and
   * calls human_size(prefixes, places, unit) without passing force on.
   */
  method HumanSizeOf(sizeInBytes: int, prefixes: Table, unit: int, force: Option<string>) returns (r: Result<Friendly, SizeError>)
    ensures r == Human(sizeInBytes, prefixes, unit, None)
  {
    var d := new DataSize(sizeInBytes);
    r := d.HumanSize(prefixes, unit, None);
  }

  /** The module function human_size with force passed on, as its docstring describes. */
  method CorrectedHumanSizeOf(sizeInBytes: int, prefixes: Table, unit: int, force: Option<string>) returns (r: Result<Friendly, SizeError>)
    ensures r == Human(sizeInBytes, prefixes, unit, force)
  {
    var d := new DataSize(sizeInBytes);
    r := d.HumanSize(prefixes, unit, force);
  }
}
