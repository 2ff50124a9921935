/**
 * libteal/lockfile.py: a single-instance lock that stores the holder's pid in
 * a lock file. The file's content (absent, or the pid written in it), the
 * process table seen through /proc (pid to status text) and os.getpid() are
 * the state the checks read.
 */
module PidLocking {
  import opened Results

  /** Python's `sub in text` on strings. */
  predicate Contains(text: string, sub: string)
    decreases |text|
  {
    |sub| <= |text| && (text[..|sub|] == sub || Contains(text[1..], sub))
  }

  /** The lock is held against us: the file names another pid whose /proc status mentions python. */
  predicate HeldByOther(file: Option<int>, pid: int, procs: map<int, string>)
  {
    file.Some? && file.value != pid && file.value in procs && Contains(procs[file.value], "python")
  }

  /**
   * check_lock as a value: its answer and the lock file afterwards. No file,
   * or our own pid, passes; another pid with no /proc entry, or whose status
   * does not mention python, is a stale lock that passes and is removed; a
   * live python process holding it fails and the file stays.
   */
  function Check(file: Option<int>, pid: int, procs: map<int, string>): (bool, Option<int>)
  {
    if file.None? then (true, file)
    else if file.value == pid then (true, file)
    else if file.value in procs then
      if !Contains(procs[file.value], "python") then (true, None) else (false, file)
    else (true, None)
  }

  class PidLock {
    /** What the lock file holds: None when it does not exist. */
    var file: Option<int>
    /** The status text of each live process, as /proc shows it while the calls run. */
    const procs: map<int, string>
    /** os.getpid() of this process. */
    const pid: int

    constructor (pid: int, file: Option<int>, procs: map<int, string>)
      ensures this.pid == pid && this.file == file && this.procs == procs
    {
      this.pid := pid;
      this.file := file;
      this.procs := procs;
    }

    /** check_lock(): may we take the lock? A stale lock file is removed on the way. */
    method CheckLock() returns (r: bool)
      modifies this
      ensures (r, file) == Check(old(file), pid, procs)
    {
      r := false;
      if file.Some? {
        var checkPid := file.value;
        if pid == checkPid {
          r := true;
        } else {
          if checkPid in procs {
            var data := procs[checkPid];
            if !Contains(data, "python") {
              r := true;
              file := None;
            }
          } else {
            r := true;
            file := None;
          }
        }
      } else {
        r := true;
      }
    }

    /** lock(): when the check passes, write our pid to the file and check again. */
    method Lock() returns (r: bool)
      modifies this
      ensures r == Check(old(file), pid, procs).0
      ensures file == if r then Some(pid) else old(file)
    {
      r := false;
      var free := CheckLock();
      if free {
        file := Some(pid);
        r := CheckLock();
      }
    }

    /** unlock(): when the check passes, remove the lock file. */
    method Unlock() returns (r: bool)
      modifies this
      ensures r == Check(old(file), pid, procs).0
      ensures file == if r then None else old(file)
    {
      r := false;
      var free := CheckLock();
      if free {
        file := None;
        r := true;
      }
    }
  }
}

/** What the lock guarantees. */
module PidLockTheorems {
  import opened Results
  import opened PidLocking

  /**
   * The check passes exactly when no live python process other than us
   * holds the file; it only ever keeps the file or removes it, and keeps it
   * whenever it fails or the file is ours.
   */
  lemma {:induction false} CheckMeaning(file: Option<int>, pid: int, procs: map<int, string>)
    ensures Check(file, pid, procs).0 <==> !HeldByOther(file, pid, procs)
    ensures Check(file, pid, procs).1 == file || Check(file, pid, procs).1 == None
    ensures !Check(file, pid, procs).0 ==> Check(file, pid, procs).1 == file
    ensures file == Some(pid) ==> Check(file, pid, procs) == (true, file)
    ensures Check(file, pid, procs).0 ==> Check(file, pid, procs).1 == None || Check(file, pid, procs).1 == Some(pid)
  {
  }

  /** A lock file naming a pid with no /proc entry is stale: the check passes and removes it. */
  lemma {:induction false} StaleRemoved(other: int, pid: int, procs: map<int, string>)
    requires other != pid && other !in procs
    ensures Check(Some(other), pid, procs) == (true, None)
  {
  }

  /** A pid reused by a process whose status does not mention python does not hold the lock. */
  lemma {:induction false} ReusedPidRemoved(other: int, pid: int, procs: map<int, string>)
    requires other != pid && other in procs && !Contains(procs[other], "python")
    ensures Check(Some(other), pid, procs) == (true, None)
  {
  }

  /**
   * Mutual exclusion: while process a holds the lock and its status mentions
   * python, any other process b fails to lock and to unlock, and the file
   * still names a.
   */
  lemma {:induction false} Exclusive(a: int, b: int, procs: map<int, string>)
    requires a != b && a in procs && Contains(procs[a], "python")
    ensures Check(Some(a), b, procs) == (false, Some(a))
  {
  }

  /** Locking twice succeeds twice: once we hold the file the check passes and keeps it. */
  lemma {:induction false} LockIdempotent(file: Option<int>, pid: int, procs: map<int, string>)
    requires Check(file, pid, procs).0
    ensures Check(Some(pid), pid, procs) == (true, Some(pid))
  {
  }

  /** The methods run in sequence: lock, a second lock and unlock all succeed, and the file is gone. */
  method LockCycle(lock: PidLock) returns (first: bool, second: bool, released: bool)
    requires !HeldByOther(lock.file, lock.pid, lock.procs)
    modifies lock
    ensures first && second && released && lock.file == None
  {
    CheckMeaning(lock.file, lock.pid, lock.procs);
    first := lock.Lock();
    second := lock.Lock();
    released := lock.Unlock();
  }
}
