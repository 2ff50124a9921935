/**
 * libteal/filetest.py: shell-style permission tests on a path. The process's
 * effective ids and supplementary groups and the path's stat record are
 * parameters; the path's existence and a PermissionError while probing it are
 * folded into one Probe value.
 */
module FileTest {
  import opened Results

  const READ: int := 4
  const WRITE: int := 2
  const EXECUTE: int := 1

  /** The stat module's permission bits. */
  const S_IRUSR: bv32 := 0x100
  const S_IWUSR: bv32 := 0x80
  const S_IXUSR: bv32 := 0x40
  const S_IRGRP: bv32 := 0x20
  const S_IWGRP: bv32 := 0x10
  const S_IXGRP: bv32 := 0x8
  const S_IROTH: bv32 := 0x4
  const S_IWOTH: bv32 := 0x2
  const S_IXOTH: bv32 := 0x1

  /** os.geteuid(), os.getegid() and os.getgroups() of the calling process. */
  datatype Process = Process(euid: int, egid: int, groups: seq<int>)

  /** The fields of os.stat that test_file_mode reads. */
  datatype FileStat = FileStat(owner: int, group: int, mode: bv32)

  /** What probing the path gives: it does not exist, probing raises PermissionError, or its stat record. */
  datatype Probe = Missing | Denied | Found(stat: FileStat)

  datatype FileTestError = InvalidPermission

  /** The user, group and other bits test_file_mode checks for a permission; OSError for anything else. */
  function ModeBits(permission: int): Result<(bv32, bv32, bv32), FileTestError>
  {
    if permission == WRITE then Ok((S_IWUSR, S_IWGRP, S_IWOTH))
    else if permission == EXECUTE then Ok((S_IXUSR, S_IXGRP, S_IXOTH))
    else if permission != READ then Err(InvalidPermission)
    else Ok((S_IRUSR, S_IRGRP, S_IROTH))
  }

  /** `mode & mask` is truthy: some bit of the mask is set in the mode. */
  predicate Has(mode: bv32, mask: bv32)
  {
    mode & mask != 0
  }

  /** The loop over os.getgroups(): (group_matched, result) after scanning groups, from the values so far. */
  function GroupScan(groups: seq<int>, group: int, gBit: bv32, mode: bv32, matched: bool, result: bool): (bool, bool)
  {
    if groups == [] then (matched, result)
    else if group == groups[0] then
      if Has(mode, gBit) then (true, true)
      else GroupScan(groups[1..], group, gBit, mode, true, result)
    else GroupScan(groups[1..], group, gBit, mode, matched, result)
  }

  /** The decision for an existing path, with the bits already chosen. */
  function Decide(p: Process, st: FileStat, permission: int, u: bv32, g: bv32, o: bv32): bool
  {
    if p.euid == 0 then
      if permission == READ || permission == WRITE then true
      else Has(st.mode, u | g | o)
    else if st.owner == p.euid then
      Has(st.mode, u)
    else
      var (matched, result) :=
        if st.group == p.egid then (true, Has(st.mode, g))
        else GroupScan(p.groups, st.group, g, st.mode, false, false);
      if !matched then Has(st.mode, o) else result
  }

  /** TealPosixPath.test_file_mode(permission). */
  function TestFileMode(p: Process, probe: Probe, permission: int): (r: Result<bool, FileTestError>)
    ensures r.Err? <==> permission != READ && permission != WRITE && permission != EXECUTE
    ensures r.Ok? && r.value ==> probe.Found?
  {
    match ModeBits(permission)
    case Err(e) => Err(e)
    case Ok((u, g, o)) =>
      match probe
      case Found(st) => Ok(Decide(p, st, permission, u, g, o))
      case _ => Ok(false)
  }

  function IsReadable(p: Process, probe: Probe): (r: bool)
    ensures TestFileMode(p, probe, READ) == Ok(r)
  {
    match TestFileMode(p, probe, READ) case Ok(b) => b case Err(_) => false
  }

  function IsWritable(p: Process, probe: Probe): (r: bool)
    ensures TestFileMode(p, probe, WRITE) == Ok(r)
  {
    match TestFileMode(p, probe, WRITE) case Ok(b) => b case Err(_) => false
  }

  function IsExecutable(p: Process, probe: Probe): (r: bool)
    ensures TestFileMode(p, probe, EXECUTE) == Ok(r)
  {
    match TestFileMode(p, probe, EXECUTE) case Ok(b) => b case Err(_) => false
  }
}

/** What test_file_mode decides, stated by the class of the process relative to the file. */
module FileTestTheorems {
  import opened Results
  import opened FileTest

  /** Who the process is to the file: root, the owner, a group member (effective or supplementary) or other. */
  datatype Standing = Root | Owner | Member | Other

  function StandingOf(p: Process, st: FileStat): Standing
  {
    if p.euid == 0 then Root
    else if st.owner == p.euid then Owner
    else if st.group == p.egid || st.group in p.groups then Member
    else Other
  }

  /**
   * The mode bit for a permission in octal position k (0 other, 1 group,
   * 2 user): READ, WRITE and EXECUTE are 4, 2 and 1 in that octal digit.
   */
  function Shifted(permission: int, k: nat): (b: bv32)
    requires permission == READ || permission == WRITE || permission == EXECUTE
    requires k < 3
  {
    var digit: bv32 := if permission == READ then 4 else if permission == WRITE then 2 else 1;
    if k == 0 then digit else if k == 1 then digit << 3 else digit << 6
  }

  /** The stat constants are READ/WRITE/EXECUTE in the user, group and other octal digits. */
  lemma {:induction false} ModeBitsShifted(permission: int)
    requires permission == READ || permission == WRITE || permission == EXECUTE
    ensures ModeBits(permission) == Ok((Shifted(permission, 2), Shifted(permission, 1), Shifted(permission, 0)))
  {
  }

  /**
   * Reference rule over the user, group and other bits u, g and o: root may
   * read and write anything and execute when any of the three bits is set;
   * everyone else gets exactly the bit of their standing.
   */
  predicate AllowedBits(p: Process, st: FileStat, permission: int, u: bv32, g: bv32, o: bv32)
  {
    match StandingOf(p, st)
    case Root => permission != EXECUTE || Has(st.mode, u | g | o)
    case Owner => Has(st.mode, u)
    case Member => Has(st.mode, g)
    case Other => Has(st.mode, o)
  }

  /** The reference rule at the bits of a permission. */
  predicate Allowed(p: Process, st: FileStat, permission: int)
    requires permission == READ || permission == WRITE || permission == EXECUTE
  {
    AllowedBits(p, st, permission, Shifted(permission, 2), Shifted(permission, 1), Shifted(permission, 0))
  }

  /** The groups loop finds a match exactly when the group is among them, and then the result is the group bit. */
  lemma {:induction false} GroupScanMembership(groups: seq<int>, group: int, g: bv32, mode: bv32, matched: bool, result: bool)
    requires matched ==> result == (Has(mode, g))
    requires !matched ==> !result
    ensures GroupScan(groups, group, g, mode, matched, result) == (matched || group in groups, (matched || group in groups) && Has(mode, g))
  {
    if groups != [] {
      assert group in groups <==> group == groups[0] || group in groups[1..];
      if group == groups[0] {
        if !Has(mode, g) {
          GroupScanMembership(groups[1..], group, g, mode, true, result);
        }
      } else {
        GroupScanMembership(groups[1..], group, g, mode, matched, result);
      }
    }
  }

  /** For a valid permission, the decision for an existing path is the reference rule, whatever the bits. */
  lemma {:induction false} DecideMeaning(p: Process, st: FileStat, permission: int, u: bv32, g: bv32, o: bv32)
    requires permission == READ || permission == WRITE || permission == EXECUTE
    ensures Decide(p, st, permission, u, g, o) == AllowedBits(p, st, permission, u, g, o)
  {
    if p.euid != 0 && st.owner != p.euid && st.group != p.egid {
      GroupScanMembership(p.groups, st.group, g, st.mode, false, false);
    }
  }

  /**
   * test_file_mode agrees with the reference rule: OSError for an unknown
   * permission, False for a missing or unreadable path, the rule otherwise.
   */
  lemma {:induction false} TestFileModeMeaning(p: Process, probe: Probe, permission: int)
    ensures permission != READ && permission != WRITE && permission != EXECUTE ==> TestFileMode(p, probe, permission) == Err(InvalidPermission)
    ensures permission == READ || permission == WRITE || permission == EXECUTE ==>
      TestFileMode(p, probe, permission) == Ok(probe.Found? && Allowed(p, probe.stat, permission))
  {
    if (permission == READ || permission == WRITE || permission == EXECUTE) && probe.Found? {
      ModeBitsShifted(permission);
      var u, g, o := Shifted(permission, 2), Shifted(permission, 1), Shifted(permission, 0);
      DecideMeaning(p, probe.stat, permission, u, g, o);
    }
  }

  /** Root reads and writes any existing path. */
  lemma {:induction false} RootReadsAndWrites(p: Process, st: FileStat)
    requires p.euid == 0
    ensures IsReadable(p, Found(st)) && IsWritable(p, Found(st))
  {
    TestFileModeMeaning(p, Found(st), READ);
    TestFileModeMeaning(p, Found(st), WRITE);
  }

  /** Root executes exactly what has at least one execute bit. */
  lemma {:induction false} RootExecutes(p: Process, st: FileStat)
    requires p.euid == 0
    ensures IsExecutable(p, Found(st)) <==> Has(st.mode, 0x49)
  {
    TestFileModeMeaning(p, Found(st), EXECUTE);
  }

  /** The owner gets exactly the user bit, whatever the group and other bits say. */
  lemma {:induction false} OwnerUserBitOnly(p: Process, st: FileStat, permission: int)
    requires permission == READ || permission == WRITE || permission == EXECUTE
    requires p.euid != 0 && st.owner == p.euid
    ensures TestFileMode(p, Found(st), permission) == Ok(Has(st.mode, Shifted(permission, 2)))
  {
    TestFileModeMeaning(p, Found(st), permission);
  }

  /** A group member who is not the owner gets exactly the group bit; the other bits are not a fallback. */
  lemma {:induction false} MemberGroupBitOnly(p: Process, st: FileStat, permission: int)
    requires permission == READ || permission == WRITE || permission == EXECUTE
    requires p.euid != 0 && st.owner != p.euid && (st.group == p.egid || st.group in p.groups)
    ensures TestFileMode(p, Found(st), permission) == Ok(Has(st.mode, Shifted(permission, 1)))
  {
    TestFileModeMeaning(p, Found(st), permission);
  }

  /** Anyone else gets exactly the other bit. */
  lemma {:induction false} OtherBitOnly(p: Process, st: FileStat, permission: int)
    requires permission == READ || permission == WRITE || permission == EXECUTE
    requires p.euid != 0 && st.owner != p.euid && st.group != p.egid && st.group !in p.groups
    ensures TestFileMode(p, Found(st), permission) == Ok(Has(st.mode, Shifted(permission, 0)))
  {
    TestFileModeMeaning(p, Found(st), permission);
  }

  /** A missing path and a PermissionError both give False for every valid permission. */
  lemma {:induction false} NotFoundIsFalse(p: Process, probe: Probe)
    requires !probe.Found?
    ensures !IsReadable(p, probe) && !IsWritable(p, probe) && !IsExecutable(p, probe)
  {
  }
}
