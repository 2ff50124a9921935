/**
 * The operating system as libteal's pipelines see it: a process table that
 * Popen adds to, poll and wait read, and an ordered log of what the parent
 * asked for (spawns with their wiring, pipe ends closed, signals sent). Real
 * processes, descriptors and signal delivery stay outside the model; the exit
 * status a process will eventually have is a parameter of the system.
 */
module Processes {
  import opened Results

  type Pid = nat

  /**
   * Where a stream of a subprocess goes or comes from: None (inherit the
   * parent's), subprocess.PIPE, DEVNULL, STDOUT (stderr joins stdout), a file
   * object or descriptor the caller supplied, or the parent's read end of a
   * spawned stage's stdout (fd 1) or stderr (fd 2).
   */
  datatype Stream = Inherit | Pipe | DevNull | ToStdout | Opened(id: int) | ReadEnd(pid: Pid, fd: int)

  /** The Popen arguments that are not streams: pipeline.py passes ids and a umask, subpipe.py a text flag. */
  datatype Extras =
    | Identity(user: Option<string>, group: Option<string>, extraGroups: Option<seq<string>>, umask: int)
    | TextMode(text: bool)

  /** One Popen call. */
  datatype SpawnSpec = SpawnSpec(command: seq<string>, stdin: Stream, stdout: Stream, stderr: Stream,
                                 cwd: Option<string>, env: map<string, string>, extras: Extras)

  datatype Event = Spawned(pid: Pid, spec: SpawnSpec) | Closed(pid: Pid, fd: int) | Signalled(pid: Pid, signal: int)

  const SIGKILL: int := 9
  const SIGTERM: int := 15

  /**
   * A copy of env with every exported variable written over it: the keys of
   * both, an exported value winning over the inherited one.
   */
  function Overlay(env: map<string, string>, exports: map<string, string>): (r: map<string, string>)
    ensures r.Keys == env.Keys + exports.Keys
    ensures forall k :: k in exports ==> r[k] == exports[k]
    ensures forall k :: k in env && k !in exports ==> r[k] == env[k]
  {
    env + exports
  }

  /** The loop of the env merges: each export key in turn written over a copy of env. */
  method MergeEnv(env: map<string, string>, exports: map<string, string>) returns (out: map<string, string>)
    ensures out == Overlay(env, exports)
  {
    out := env;
    var keys := exports.Keys;
    while keys != {}
      invariant keys <= exports.Keys
      invariant out == env + (map k | k in exports.Keys - keys :: exports[k])
      decreases keys
    {
      var key :| key in keys;
      out := out[key := exports[key]];
      keys := keys - {key};
    }
    assert exports.Keys - keys == exports.Keys;
  }

  /** A process that has exited keeps its code; a process still running may have exited since. */
  predicate Later(before: map<Pid, Option<int>>, after: map<Pid, Option<int>>)
  {
    && before.Keys <= after.Keys
    && forall p :: p in before && before[p].Some? ==> after[p] == before[p]
  }

  /** The process table after n spawns from first: the new pids are all running. */
  function RunningFrom(status: map<Pid, Option<int>>, first: Pid, n: nat): map<Pid, Option<int>>
  {
    if n == 0 then status else RunningFrom(status, first, n - 1)[first + n - 1 := None]
  }

  /** After n spawns from first the table holds every earlier process unchanged and the n new ones running. */
  lemma {:induction false} RunningFromHolds(status: map<Pid, Option<int>>, first: Pid, n: nat)
    ensures forall p :: p in status && !(first <= p < first + n) ==> p in RunningFrom(status, first, n) && RunningFrom(status, first, n)[p] == status[p]
    ensures forall p :: first <= p < first + n ==> p in RunningFrom(status, first, n) && RunningFrom(status, first, n)[p] == None
    ensures forall p :: p in RunningFrom(status, first, n) ==> p in status || first <= p < first + n
  {
    if n > 0 {
      RunningFromHolds(status, first, n - 1);
    }
  }

  /** The signal requests a loop over process handles makes: one per launched handle, in order. */
  function SignalLog(handles: seq<Option<Pid>>, signal: int): (r: seq<Event>)
    ensures |r| <= |handles|
  {
    if handles == [] then []
    else (if handles[0].Some? then [Signalled(handles[0].value, signal)] else []) + SignalLog(handles[1..], signal)
  }

  /** The loop signals exactly the launched handles, with the given signal. */
  lemma {:induction false} SignalLogExact(handles: seq<Option<Pid>>, signal: int, e: Event)
    ensures e in SignalLog(handles, signal) <==>
      exists j :: 0 <= j < |handles| && handles[j].Some? && e == Signalled(handles[j].value, signal)
  {
    if handles != [] {
      SignalLogExact(handles[1..], signal, e);
      if e in SignalLog(handles[1..], signal) {
        var j :| 1 <= j + 1 < |handles| && handles[1..][j].Some? && e == Signalled(handles[1..][j].value, signal);
        assert handles[j + 1] == handles[1..][j];
      }
      if exists j :: 0 <= j < |handles| && handles[j].Some? && e == Signalled(handles[j].value, signal) {
        var j :| 0 <= j < |handles| && handles[j].Some? && e == Signalled(handles[j].value, signal);
        if j > 0 {
          assert handles[1..][j - 1] == handles[j];
        }
      }
    }
  }

  class System {
    /** poll() of each process spawned so far: None while running, the return code once exited. */
    var status: map<Pid, Option<int>>
    var nextPid: Pid
    var log: seq<Event>
    /** The return code each process exits with when it is waited for. */
    const fate: Pid -> int

    predicate Valid()
      reads this
    {
      forall p :: p in status ==> p < nextPid
    }

    constructor (exitCodes: Pid -> int)
      ensures Valid() && status == map[] && log == [] && nextPid == 0 && fate == exitCodes
    {
      status := map[];
      nextPid := 0;
      log := [];
      fate := exitCodes;
    }

    /** Popen: a new process, running, under a fresh pid; the call is logged with its wiring. */
    method Spawn(spec: SpawnSpec) returns (pid: Pid)
      requires Valid()
      modifies this
      ensures Valid()
      ensures pid == old(nextPid) && pid !in old(status) && nextPid == pid + 1
      ensures status == old(status)[pid := None] && log == old(log) + [Spawned(pid, spec)]
    {
      pid := nextPid;
      status := status[pid := None];
      nextPid := nextPid + 1;
      log := log + [Spawned(pid, spec)];
    }

    /** The parent closes its read end of a stage's stdout (1) or stderr (2). */
    method Close(pid: Pid, fd: int)
      modifies this
      ensures status == old(status) && nextPid == old(nextPid) && log == old(log) + [Closed(pid, fd)]
    {
      log := log + [Closed(pid, fd)];
    }

    /** send_signal (terminate and kill send SIGTERM and SIGKILL); only the request is modelled. */
    method Signal(pid: Pid, signal: int)
      modifies this
      ensures status == old(status) && nextPid == old(nextPid) && log == old(log) + [Signalled(pid, signal)]
    {
      log := log + [Signalled(pid, signal)];
    }

    /** Popen.wait(): blocks until the process has exited and returns its code. */
    method WaitFor(pid: Pid) returns (code: int)
      requires Valid() && pid in status
      modifies this
      ensures Valid() && nextPid == old(nextPid) && log == old(log)
      ensures code == (if old(status[pid]).Some? then old(status[pid]).value else fate(pid))
      ensures status == old(status)[pid := Some(code)]
    {
      code := if status[pid].Some? then status[pid].value else fate(pid);
      status := status[pid := Some(code)];
    }

    /** Time passes: some running processes may have exited. */
    method Advance(next: map<Pid, Option<int>>)
      requires Valid() && Later(status, next) && forall p :: p in next ==> p < nextPid
      modifies this
      ensures Valid() && status == next && nextPid == old(nextPid) && log == old(log)
    {
      status := next;
    }
  }
}
