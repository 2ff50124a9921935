/**
 * libteal/subpipe.py: a second, unfinished pipeline of subprocesses. The
 * module is modelled as written: its constructor fails on an undefined name,
 * every command loses its stream selector, launch never remembers the previous
 * command (so no command reads another's output and nothing is closed), poll
 * folds the exit codes into one, and wait returns the first such code.
 */
module SubPipe {
  import opened Results
  import opened Processes
  import opened Pipelines

  /** The record subpipe.py's Command keeps per command. */
  datatype SubCommand = SubCommand(command: seq<string>, cwd: Option<string>, env: map<string, string>, text: bool,
                                   stdin: Stream, stdout: Stream, stderr: Stream, stream: Option<int>,
                                   subproc: Option<Pid>)

  /**
   * Command(command, cwd, env, text, pipe): stdout and stderr from the pipe
   * mode; the stream the mode names is stored and then overwritten with None.
   */
  function NewCommand(command: seq<string>, cwd: Option<string>, env: map<string, string>, text: bool,
                      pipe: PipeMode): (c: SubCommand)
    ensures c.stream == None && c.stdin == Inherit && c.subproc == None
    ensures c.stdout == Wiring(pipe).0 && c.stderr == Wiring(pipe).1
    ensures c.command == command && c.cwd == cwd && c.env == env && c.text == text
  {
    var withMode := SubCommand(command, cwd, env, text, Inherit, Wiring(pipe).0, Wiring(pipe).1, Some(Wiring(pipe).2), None);
    withMode.(stream := None)
  }

  datatype InitError = NameError(name: string)

  /**
   * Pipeline.__init__ as written: its first statement reads pipe_stdin, a
   * name nothing defines, so every call raises NameError and no field is set.
   */
  function InitAsWritten(stdin: Stream, stdinText: bool, stderr: Stream, cwd: Option<string>,
                         env: Option<map<string, string>>, exports: Option<map<string, string>>,
                         text: bool): (r: Result<(), InitError>)
    ensures r.Err? && r.error == NameError("pipe_stdin")
  {
    Err(NameError("pipe_stdin"))
  }

  /**
   * _build_env(env, export): a copy of env (os.environ, passed as ambient,
   * when None) with export, when given, written over it.
   */
  function BuildEnv(env: Option<map<string, string>>, exports: Option<map<string, string>>,
                    ambient: map<string, string>): (r: map<string, string>)
    ensures var base := if env.None? then ambient else env.value;
      && (exports.None? ==> r == base)
      && (exports.Some? ==> r.Keys == base.Keys + exports.value.Keys)
      && (exports.Some? ==> forall k :: k in exports.value ==> r[k] == exports.value[k])
      && (forall k :: k in base && (exports.None? || k !in exports.value) ==> r[k] == base[k])
  {
    Overlay(if env.None? then ambient else env.value, if exports.None? then map[] else exports.value)
  }

  /** What launch sets before its loop: the first command reads the pipeline's stdin; the last writes stdout to PIPE and stderr to the pipeline's. */
  function Prepared(cmds: seq<SubCommand>, stdin: Stream, stderr: Stream): (r: seq<SubCommand>)
    ensures |r| == |cmds|
  {
    if cmds == [] then cmds
    else
      var first := cmds[0 := cmds[0].(stdin := stdin)];
      first[|cmds| - 1 := first[|cmds| - 1].(stdout := Pipe, stderr := stderr)]
  }

  /** The Popen call for a command: its own stdin, whatever the commands before it. */
  function SubSpawn(c: SubCommand): SpawnSpec
  {
    SpawnSpec(c.command, c.stdin, c.stdout, c.stderr, c.cwd, c.env, TextMode(c.text))
  }

  /** The system log the first n iterations of the launch loop append: one spawn each, nothing closed. */
  function SubLaunchLog(cmds: seq<SubCommand>, first: Pid, n: nat): (r: seq<Event>)
    requires n <= |cmds|
    ensures |r| == n
  {
    if n == 0 then [] else SubLaunchLog(cmds, first, n - 1) + [Spawned(first + n - 1, SubSpawn(cmds[n - 1]))]
  }

  // SubStarted, SubStartedAt, SubKnown and SubHandles restate Started, StartedAt,
  // Known and Handles of the Pipelines module for this module's own record:
  // subpipe.py defines a Command class of its own (stdin, text and an optional
  // stream, no user, group or umask), so the two records share only the subproc
  // field these four definitions read.

  /** The commands after the first n have been spawned with consecutive pids from first. */
  function SubStarted(cmds: seq<SubCommand>, first: Pid, n: nat): (r: seq<SubCommand>)
    requires n <= |cmds|
    ensures |r| == |cmds|
  {
    if n == 0 then cmds else SubStarted(cmds, first, n - 1)[n - 1 := cmds[n - 1].(subproc := Some(first + n - 1))]
  }

  lemma {:induction false} SubStartedAt(cmds: seq<SubCommand>, first: Pid, n: nat, j: nat)
    requires n <= |cmds| && j < |cmds|
    ensures SubStarted(cmds, first, n)[j] == if j < n then cmds[j].(subproc := Some(first + j)) else cmds[j]
  {
    if n > 0 {
      SubStartedAt(cmds, first, n - 1, j);
    }
  }

  predicate SubKnown(cmds: seq<SubCommand>, status: map<Pid, Option<int>>)
  {
    forall i :: 0 <= i < |cmds| && cmds[i].subproc.Some? ==> cmds[i].subproc.value in status
  }

  lemma {:induction false} SubStartedKnown(cmds: seq<SubCommand>, status: map<Pid, Option<int>>, first: Pid, n: nat)
    requires SubKnown(cmds, status) && n <= |cmds|
    ensures SubKnown(SubStarted(cmds, first, n), RunningFrom(status, first, n))
  {
    RunningFromHolds(status, first, n);
    forall j | 0 <= j < |cmds|
      ensures SubStarted(cmds, first, n)[j] == if j < n then cmds[j].(subproc := Some(first + j)) else cmds[j]
    {
      SubStartedAt(cmds, first, n, j);
    }
  }

  // poll: the fold of the exit codes

  /** The poll() results of the launched commands, in order; commands never launched are skipped. */
  function Codes(cmds: seq<SubCommand>, status: map<Pid, Option<int>>): (r: seq<Option<int>>)
    requires SubKnown(cmds, status)
    ensures |r| <= |cmds|
  {
    if cmds == [] then []
    else
      assert SubKnown(cmds[1..], status) by {
        forall i | 0 <= i < |cmds| - 1 && cmds[1..][i].subproc.Some? ensures cmds[1..][i].subproc.value in status {
          assert cmds[1..][i] == cmds[i + 1];
        }
      }
      (if cmds[0].subproc.Some? then [status[cmds[0].subproc.value]] else []) + Codes(cmds[1..], status)
  }

  /** One step of poll's loop: the first code seen is kept unless it is 0 and a later command has exited. */
  function Step(code: Option<int>, next: Option<int>): Option<int>
  {
    if next.None? then code
    else if code.None? then next
    else if code.value == 0 then next
    else code
  }

  function Fold(codes: seq<Option<int>>, code: Option<int>): Option<int>
  {
    if codes == [] then code else Fold(codes[1..], Step(code, codes[0]))
  }

  /** The codes of the commands that have exited, in order. */
  function Exits(codes: seq<Option<int>>): (r: seq<int>)
    ensures |r| <= |codes|
  {
    if codes == [] then []
    else (if codes[0].Some? then [codes[0].value] else []) + Exits(codes[1..])
  }

  /** The first non-zero code, or 0 when every code is 0 (or there is none). */
  function FirstFailure(xs: seq<int>): int
  {
    if xs == [] then 0 else if xs[0] != 0 then xs[0] else FirstFailure(xs[1..])
  }

  /** FirstFailure is 0 exactly when all codes are 0, and otherwise the code at the first non-zero position. */
  lemma {:induction false} FirstFailureMeaning(xs: seq<int>)
    ensures FirstFailure(xs) == 0 <==> forall i :: 0 <= i < |xs| ==> xs[i] == 0
    ensures FirstFailure(xs) != 0 ==>
      exists i :: 0 <= i < |xs| && xs[i] == FirstFailure(xs) && forall j :: 0 <= j < i ==> xs[j] == 0
  {
    if xs != [] && xs[0] == 0 {
      FirstFailureMeaning(xs[1..]);
      assert forall i :: 1 <= i < |xs| ==> xs[i] == xs[1..][i - 1];
      if FirstFailure(xs) != 0 {
        var i :| 0 <= i < |xs[1..]| && xs[1..][i] == FirstFailure(xs) && forall j :: 0 <= j < i ==> xs[1..][j] == 0;
        assert xs[i + 1] == FirstFailure(xs);
      }
    }
  }

  /** Reference for poll(): None while no command has exited, else the first non-zero exit code, else 0. */
  function Combined(codes: seq<Option<int>>): Option<int>
  {
    if Exits(codes) == [] then None else Some(FirstFailure(Exits(codes)))
  }

  /** The fold of poll's loop agrees with the reference from every state the loop can be in. */
  lemma {:induction false} FoldMeaning(codes: seq<Option<int>>, code: Option<int>)
    ensures Fold(codes, code) ==
      if code.None? then Combined(codes)
      else if code.value == 0 then Some(FirstFailure(Exits(codes)))
      else code
  {
    if codes != [] {
      var next := Step(code, codes[0]);
      FoldMeaning(codes[1..], next);
      assert Fold(codes, code) == Fold(codes[1..], next);
      if codes[0].Some? {
        var v := codes[0].value;
        var xs := Exits(codes);
        assert xs == [v] + Exits(codes[1..]);
        assert xs != [] && xs[0] == v && xs[1..] == Exits(codes[1..]);
        assert FirstFailure(xs) == if v != 0 then v else FirstFailure(Exits(codes[1..]));
        assert Combined(codes) == Some(FirstFailure(xs));
      } else {
        assert Exits(codes) == Exits(codes[1..]);
        assert next == code;
      }
    }
  }

  /** What the schedule of later process tables may be: exits only accumulate, and no unknown process appears. */
  predicate Schedule(status: map<Pid, Option<int>>, later: seq<map<Pid, Option<int>>>, bound: Pid)
  {
    && (|later| > 0 ==> Later(status, later[0]))
    && (forall k :: 0 < k < |later| ==> Later(later[k - 1], later[k]))
    && (forall k, p :: 0 <= k < |later| && p in later[k] ==> p < bound)
  }

  lemma {:induction false} ScheduleKnown(cmds: seq<SubCommand>, status: map<Pid, Option<int>>,
                                         later: seq<map<Pid, Option<int>>>, bound: Pid, k: nat)
    requires SubKnown(cmds, status) && Schedule(status, later, bound) && k < |later|
    ensures SubKnown(cmds, later[k])
  {
    if k > 0 {
      ScheduleKnown(cmds, status, later, bound, k - 1);
    }
  }

  /** What wait() returns when the process table goes through snapshots in turn: the first poll() that is not None. */
  function FirstSettled(cmds: seq<SubCommand>, snapshots: seq<map<Pid, Option<int>>>): Option<int>
    requires forall k :: 0 <= k < |snapshots| ==> SubKnown(cmds, snapshots[k])
  {
    if snapshots == [] then None
    else if Combined(Codes(cmds, snapshots[0])).Some? then Combined(Codes(cmds, snapshots[0]))
    else FirstSettled(cmds, snapshots[1..])
  }

  class SubPipeline {
    var pipeStdin: Stream
    var pipeStderr: Stream
    var pipeCwd: Option<string>
    var pipeEnv: Option<map<string, string>>
    var pipeExport: Option<map<string, string>>
    var pipeText: bool
    var commands: seq<SubCommand>
    /** os.environ, read when a command has no env of its own. */
    const ambient: map<string, string>
    const sys: System

    predicate Valid()
      reads this, sys
    {
      sys.Valid() && SubKnown(commands, sys.status)
    }

    /**
     * The state __init__ evidently means to build, with pipe_stdin taken
     * from the stdin argument (a stdin_text temporary file is not modelled).
     */
    constructor (stdin: Stream, stderr: Stream, cwd: Option<string>, env: Option<map<string, string>>,
                 exports: Option<map<string, string>>, text: bool, ambient: map<string, string>, sys: System)
      requires sys.Valid()
      ensures Valid() && this.sys == sys && this.ambient == ambient && commands == []
      ensures pipeStdin == stdin && pipeStderr == stderr && pipeCwd == cwd
      ensures pipeEnv == env && pipeExport == exports && pipeText == text
    {
      pipeStdin := stdin;
      pipeStderr := stderr;
      pipeCwd := cwd;
      pipeEnv := env;
      pipeExport := exports;
      pipeText := text;
      commands := [];
      this.ambient := ambient;
      this.sys := sys;
    }

    /**
     * append(...): one command at the end, cwd and text falling back to the
     * pipeline's; its environment comes from the append arguments alone (the
     * pipeline's env and export are never consulted).
     */
    method Append(command: seq<string>, cwd: Option<string>, env: Option<map<string, string>>,
                  exports: Option<map<string, string>>, text: Option<bool>, pipe: PipeMode)
      requires Valid()
      modifies this
      ensures Valid()
      ensures commands == old(commands) + [NewCommand(command, if cwd.None? then pipeCwd else cwd,
                                                      BuildEnv(env, exports, ambient),
                                                      if text.None? then pipeText else text.value, pipe)]
      ensures pipeStdin == old(pipeStdin) && pipeStderr == old(pipeStderr) && pipeCwd == old(pipeCwd)
      ensures pipeEnv == old(pipeEnv) && pipeExport == old(pipeExport) && pipeText == old(pipeText)
    {
      var useCwd := if cwd.None? then pipeCwd else cwd;
      var useText := if text.None? then pipeText else text.value;
      var cmd := NewCommand(command, useCwd, BuildEnv(env, exports, ambient), useText, pipe);
      commands := commands + [cmd];
    }

    /**
     * launch(): the first command reads the pipeline's stdin, the last
     * writes stdout to PIPE and stderr to the pipeline's, and each command is
     * spawned with its own stdin. prev_command is never assigned, so the
     * branches that would read and close a predecessor's stream never run.
     */
    method Launch()
      requires Valid()
      modifies this, sys
      ensures Valid()
      ensures |commands| == |old(commands)|
      ensures commands == SubStarted(Prepared(old(commands), pipeStdin, pipeStderr), old(sys.nextPid), |commands|)
      ensures sys.log == old(sys.log) + SubLaunchLog(Prepared(old(commands), pipeStdin, pipeStderr), old(sys.nextPid), |commands|)
      ensures sys.status == RunningFrom(old(sys.status), old(sys.nextPid), |commands|)
      ensures sys.nextPid == old(sys.nextPid) + |commands|
      ensures pipeStdin == old(pipeStdin) && pipeStderr == old(pipeStderr) && pipeCwd == old(pipeCwd)
      ensures pipeEnv == old(pipeEnv) && pipeExport == old(pipeExport) && pipeText == old(pipeText)
    {
      if |commands| > 0 {
        commands := commands[0 := commands[0].(stdin := pipeStdin)];
        var last := |commands| - 1;
        commands := commands[last := commands[last].(stdout := Pipe, stderr := pipeStderr)];
        assert commands == Prepared(old(commands), pipeStdin, pipeStderr);
        ghost var first := sys.nextPid;
        ghost var prepared := commands;
        commands := SpawnEach(sys, commands);
        SubStartedKnown(prepared, old(sys.status), first, |commands|);
      }
    }

    /** The loop of launch(): each command spawned in turn with its own streams. */
    static method SpawnEach(sys: System, cmds: seq<SubCommand>) returns (items: seq<SubCommand>)
      requires sys.Valid()
      modifies sys
      ensures sys.Valid() && sys.nextPid == old(sys.nextPid) + |cmds|
      ensures items == SubStarted(cmds, old(sys.nextPid), |cmds|)
      ensures sys.status == RunningFrom(old(sys.status), old(sys.nextPid), |cmds|)
      ensures sys.log == old(sys.log) + SubLaunchLog(cmds, old(sys.nextPid), |cmds|)
    {
      ghost var first := sys.nextPid;
      items := cmds;
      var i := 0;
      while i < |items|
        invariant 0 <= i <= |items| == |cmds|
        invariant items == SubStarted(cmds, first, i)
        invariant sys.Valid() && sys.nextPid == first + i
        invariant sys.status == RunningFrom(old(sys.status), first, i)
        invariant sys.log == old(sys.log) + SubLaunchLog(cmds, first, i)
      {
        SubStartedAt(cmds, first, i, i);
        var command := items[i];
        var stdin := command.stdin;
        var pid := sys.Spawn(SpawnSpec(command.command, stdin, command.stdout, command.stderr, command.cwd,
                                       command.env, TextMode(command.text)));
        items := items[i := command.(subproc := Some(pid))];
        i := i + 1;
      }
    }

    /**
     * poll(): None while no launched command has exited; otherwise the
     * first non-zero exit code among those that have, or 0.
     */
    method Poll() returns (code: Option<int>)
      requires Valid()
      ensures code == Combined(Codes(commands, sys.status))
    {
      code := PollOf(sys, commands);
    }

    /** The loop of poll() over the commands, folding each launched command's code into one. */
    static method PollOf(sys: System, cmds: seq<SubCommand>) returns (code: Option<int>)
      requires SubKnown(cmds, sys.status)
      ensures code == Combined(Codes(cmds, sys.status))
    {
      code := None;
      var i := 0;
      while i < |cmds|
        invariant 0 <= i <= |cmds|
        invariant SubKnown(cmds[i..], sys.status)
        invariant Fold(Codes(cmds[i..], sys.status), code) == Fold(Codes(cmds, sys.status), None)
      {
        var command := cmds[i];
        assert cmds[i..][1..] == cmds[i + 1..];
        assert cmds[i..][0] == command;
        ghost var head := if command.subproc.Some? then [sys.status[command.subproc.value]] else [];
        ghost var rest := Codes(cmds[i + 1..], sys.status);
        assert Codes(cmds[i..], sys.status) == head + rest;
        if head != [] {
          assert (head + rest)[0] == head[0] && (head + rest)[1..] == rest;
          assert Fold(head + rest, code) == Fold(rest, Step(code, head[0]));
        } else {
          assert head + rest == rest;
        }
        if command.subproc.Some? {
          var thisCode := sys.status[command.subproc.value];
          if thisCode.Some? {
            if code.None? {
              code := thisCode;
            } else if code.value == 0 {
              code := thisCode;
            }
          }
        }
        i := i + 1;
      }
      FoldMeaning(Codes(cmds, sys.status), None);
    }

    /**
     * wait(): polls, and while poll gives None lets time pass (the process
     * table moves to the next snapshot) and polls again. None means the
     * snapshots ran out with nothing exited, where the source would go on
     * sleeping.
     */
    method Wait(later: seq<map<Pid, Option<int>>>) returns (r: Option<int>)
      requires Valid() && Schedule(sys.status, later, sys.nextPid)
      modifies sys
      ensures Valid() && sys.log == old(sys.log) && sys.nextPid == old(sys.nextPid)
      ensures forall k :: 0 <= k < |later| ==> SubKnown(commands, later[k])
      ensures r == FirstSettled(commands, [old(sys.status)] + later)
    {
      r := WaitOn(sys, commands, later);
    }

    /** The loop of wait(): poll each snapshot of the process table in turn until a code appears. */
    static method WaitOn(sys: System, cmds: seq<SubCommand>, later: seq<map<Pid, Option<int>>>) returns (r: Option<int>)
      requires sys.Valid() && SubKnown(cmds, sys.status) && Schedule(sys.status, later, sys.nextPid)
      modifies sys
      ensures sys.Valid() && SubKnown(cmds, sys.status) && sys.log == old(sys.log) && sys.nextPid == old(sys.nextPid)
      ensures forall k :: 0 <= k < |later| ==> SubKnown(cmds, later[k])
      ensures r == FirstSettled(cmds, [old(sys.status)] + later)
    {
      forall k | 0 <= k < |later| ensures SubKnown(cmds, later[k]) {
        ScheduleKnown(cmds, sys.status, later, sys.nextPid, k);
      }
      ghost var snapshots := [sys.status] + later;
      assert forall j :: 0 <= j < |snapshots| ==> SubKnown(cmds, snapshots[j]) by {
        forall j | 0 < j < |snapshots| ensures SubKnown(cmds, snapshots[j]) {
          assert snapshots[j] == later[j - 1];
        }
      }
      r := PollOf(sys, cmds);
      var k := 0;
      while r.None? && k < |later|
        invariant 0 <= k <= |later|
        invariant sys.Valid() && sys.log == old(sys.log) && sys.nextPid == old(sys.nextPid)
        invariant sys.status == snapshots[k] && SubKnown(cmds, sys.status)
        invariant (if r.Some? then r else FirstSettled(cmds, snapshots[k + 1..])) == FirstSettled(cmds, snapshots)
      {
        assert snapshots[k + 1..][0] == later[k] && snapshots[k + 1..][1..] == snapshots[k + 2..];
        sys.Advance(later[k]);
        r := PollOf(sys, cmds);
        k := k + 1;
      }
      if r.None? {
        assert snapshots[k + 1..] == [];
      }
    }

    /** send_signal(signal): the signal goes to every launched command, in order. */
    method SendSignal(signal: int)
      requires Valid()
      modifies sys
      ensures Valid() && sys.status == old(sys.status) && sys.nextPid == old(sys.nextPid)
      ensures sys.log == old(sys.log) + SignalLog(SubHandles(commands), signal)
    {
      var i := 0;
      while i < |commands|
        invariant 0 <= i <= |commands|
        invariant sys.Valid() && sys.status == old(sys.status) && sys.nextPid == old(sys.nextPid)
        invariant sys.log + SignalLog(SubHandles(commands)[i..], signal) == old(sys.log) + SignalLog(SubHandles(commands), signal)
      {
        var command := commands[i];
        assert SubHandles(commands)[i..][1..] == SubHandles(commands)[i + 1..];
        if command.subproc.Some? {
          sys.Signal(command.subproc.value, signal);
        }
        i := i + 1;
      }
    }

    /** terminate(): Popen.terminate, that is SIGTERM, to every launched command. */
    method Terminate()
      requires Valid()
      modifies sys
      ensures Valid() && sys.status == old(sys.status) && sys.nextPid == old(sys.nextPid)
      ensures sys.log == old(sys.log) + SignalLog(SubHandles(commands), SIGTERM)
    {
      SendSignal(SIGTERM);
    }

    /** kill(): Popen.kill, that is SIGKILL, to every launched command. */
    method Kill()
      requires Valid()
      modifies sys
      ensures Valid() && sys.status == old(sys.status) && sys.nextPid == old(sys.nextPid)
      ensures sys.log == old(sys.log) + SignalLog(SubHandles(commands), SIGKILL)
    {
      SendSignal(SIGKILL);
    }
  }

  function SubHandles(cmds: seq<SubCommand>): (r: seq<Option<Pid>>)
    ensures |r| == |cmds| && forall i :: 0 <= i < |cmds| ==> r[i] == cmds[i].subproc
  {
    seq(|cmds|, i requires 0 <= i < |cmds| => cmds[i].subproc)
  }

  /** subpipe(*args, ...): a stub whose body is pass; it builds nothing and returns None. */
  function Subpipe(args: seq<seq<string>>, stdin: Stream, stdinText: bool, stderr: Stream, cwd: Option<string>,
                   env: Option<map<string, string>>, exports: Option<map<string, string>>, text: bool): (r: Option<SubPipeline>)
    ensures r == None
  {
    None
  }
}
