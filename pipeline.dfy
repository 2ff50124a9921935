/**
 * libteal/pipeline.py: a shell-like pipeline of subprocesses. Each appended
 * command says, through its pipe mode, which of its output streams feeds the
 * next command; launch spawns every command in order, giving each the read end
 * of its predecessor's captured stream and closing the parent's copy of that
 * end once the next process holds it.
 */
module Pipelines {
  import opened Results
  import opened Processes

  /** PIPE_STDOUT, PIPE_STDERR, PIPE_BOTH, PIPE_STDOUT_QUIET and PIPE_STDERR_QUIET. */
  datatype PipeMode = PipeStdout | PipeStderr | PipeBoth | PipeStdoutQuiet | PipeStderrQuiet

  /** The stdout, stderr and stream entries of a pipe mode; stream 2 feeds stderr to the next command, 1 stdout. */
  function Wiring(m: PipeMode): (w: (Stream, Stream, int))
    ensures w.2 == 1 || w.2 == 2
    ensures w.2 == 2 ==> w.1 == Pipe
    ensures w.2 == 1 ==> w.0 == Pipe
  {
    match m
    case PipeStdout => (Pipe, Inherit, 1)
    case PipeStderr => (Inherit, Pipe, 2)
    case PipeBoth => (Pipe, ToStdout, 1)
    case PipeStdoutQuiet => (Pipe, DevNull, 1)
    case PipeStderrQuiet => (DevNull, Pipe, 2)
  }

  /** The per-command record pipeline.py's Command class holds; subproc is the Popen handle once launched. */
  datatype Command = Command(command: seq<string>, cwd: Option<string>, environ: map<string, string>,
                             user: Option<string>, group: Option<string>, extraGroups: Option<seq<string>>,
                             umask: int, stdout: Stream, stderr: Stream, stream: int, subproc: Option<Pid>)

  /** What poll and wait report for a command: False before launch, None while running, else the return code. */
  datatype StageStatus = NotStarted | Running | Exited(code: int)

  /** The descriptor of the stream a command feeds to the next one. */
  function Fd(stream: int): (fd: int)
    ensures fd == 1 || fd == 2
    ensures fd == 2 <==> stream == 2
  {
    if stream == 2 then 2 else 1
  }

  /** The stream the next command reads is one the command was spawned with as PIPE. */
  predicate Captures(c: Command)
  {
    if c.stream == 2 then c.stderr == Pipe else c.stdout == Pipe
  }

  // The launch, as the values it produces

  /** Before the loop, launch sends the last command's output to the pipeline's stdout and stderr. */
  function Wired(cmds: seq<Command>, stdout: Stream, stderr: Stream): (r: seq<Command>)
    ensures |r| == |cmds|
    ensures forall i :: 0 <= i < |cmds| - 1 ==> r[i] == cmds[i]
    ensures |cmds| > 0 ==> r[|cmds| - 1] == cmds[|cmds| - 1].(stdout := stdout, stderr := stderr)
  {
    if |cmds| == 0 then cmds else cmds[|cmds| - 1 := cmds[|cmds| - 1].(stdout := stdout, stderr := stderr)]
  }

  /** The commands after the first n have been spawned with consecutive pids from first. */
  function Started(cmds: seq<Command>, first: Pid, n: nat): (r: seq<Command>)
    requires n <= |cmds|
    ensures |r| == |cmds|
  {
    if n == 0 then cmds else Started(cmds, first, n - 1)[n - 1 := cmds[n - 1].(subproc := Some(first + n - 1))]
  }

  /** Command j after n spawns: its own record, with the handle first + j when it is among the first n. */
  lemma {:induction false} StartedAt(cmds: seq<Command>, first: Pid, n: nat, j: nat)
    requires n <= |cmds| && j < |cmds|
    ensures Started(cmds, first, n)[j] == if j < n then cmds[j].(subproc := Some(first + j)) else cmds[j]
  {
    if n > 0 {
      StartedAt(cmds, first, n - 1, j);
    }
  }

  /** The stdin command i is spawned with: the pipeline's stdin for the first, else the predecessor's captured stream. */
  function StageInput(cmds: seq<Command>, stdin: Stream, first: Pid, i: nat): (s: Stream)
    requires i < |cmds|
    ensures i > 0 ==> s == ReadEnd(first + i - 1, if cmds[i - 1].stream == 2 then 2 else 1)
  {
    if i == 0 then stdin else ReadEnd(first + i - 1, Fd(cmds[i - 1].stream))
  }

  function StageSpawn(cmds: seq<Command>, stdin: Stream, first: Pid, i: nat): SpawnSpec
    requires i < |cmds|
  {
    var c := cmds[i];
    SpawnSpec(c.command, StageInput(cmds, stdin, first, i), c.stdout, c.stderr, c.cwd, c.environ,
              Identity(c.user, c.group, c.extraGroups, c.umask))
  }

  /** What the loop does for command i: spawn it, then close the parent's end of the predecessor's stream. */
  function StageEvents(cmds: seq<Command>, stdin: Stream, first: Pid, i: nat): seq<Event>
    requires i < |cmds|
  {
    [Spawned(first + i, StageSpawn(cmds, stdin, first, i))]
      + (if i > 0 then [Closed(first + i - 1, Fd(cmds[i - 1].stream))] else [])
  }

  /** The system log the first n iterations of the launch loop append. */
  function LaunchLog(cmds: seq<Command>, stdin: Stream, first: Pid, n: nat): (r: seq<Event>)
    requires n <= |cmds|
    ensures |r| == if n == 0 then 0 else 2 * n - 1
  {
    if n == 0 then [] else LaunchLog(cmds, stdin, first, n - 1) + StageEvents(cmds, stdin, first, n - 1)
  }

  /** Every handle a launch leaves in the commands is in the process table it leaves. */
  lemma {:induction false} StartedKnown(cmds: seq<Command>, status: map<Pid, Option<int>>, first: Pid, n: nat)
    requires Known(cmds, status) && n <= |cmds|
    ensures Known(Started(cmds, first, n), RunningFrom(status, first, n))
  {
    RunningFromHolds(status, first, n);
    forall j | 0 <= j < |cmds|
      ensures Started(cmds, first, n)[j] == if j < n then cmds[j].(subproc := Some(first + j)) else cmds[j]
    {
      StartedAt(cmds, first, n, j);
    }
  }

  /** poll() of one command against a process table. */
  function Observed(c: Command, status: map<Pid, Option<int>>): (s: StageStatus)
    requires c.subproc.Some? ==> c.subproc.value in status
    ensures s == NotStarted <==> c.subproc.None?
    ensures s == Running <==> c.subproc.Some? && status[c.subproc.value].None?
  {
    if c.subproc.None? then NotStarted
    else match status[c.subproc.value]
      case None => Running
      case Some(code) => Exited(code)
  }

  predicate Known(cmds: seq<Command>, status: map<Pid, Option<int>>)
  {
    forall i :: 0 <= i < |cmds| && cmds[i].subproc.Some? ==> cmds[i].subproc.value in status
  }

  /** The return code wait() gets for a process: the one it already has, else the one it exits with. */
  function Settled(status: map<Pid, Option<int>>, fate: Pid -> int, p: Pid): int
    requires p in status
  {
    if status[p].Some? then status[p].value else fate(p)
  }

  /** The process table after waiting for the processes of the first n commands. */
  function SettleFirst(status: map<Pid, Option<int>>, fate: Pid -> int, cmds: seq<Command>, n: nat): (r: map<Pid, Option<int>>)
    requires n <= |cmds| && Known(cmds, status)
    ensures r.Keys == status.Keys
  {
    map p | p in status :: if exists j :: 0 <= j < n && cmds[j].subproc == Some(p) then Some(Settled(status, fate, p)) else status[p]
  }

  /** The Popen handle of each command, in order. */
  function Handles(cmds: seq<Command>): (r: seq<Option<Pid>>)
    ensures |r| == |cmds| && forall i :: 0 <= i < |cmds| ==> r[i] == cmds[i].subproc
  {
    seq(|cmds|, i requires 0 <= i < |cmds| => cmds[i].subproc)
  }

  class Pipeline {
    var cwd: Option<string>
    var user: Option<string>
    var group: Option<string>
    var extraGroups: Option<seq<string>>
    var umask: int
    var environ: map<string, string>
    var stdin: Stream
    var stdout: Stream
    var stderr: Stream
    var commands: seq<Command>
    /** The operating system the pipeline spawns into. */
    const sys: System

    predicate Valid()
      reads this, sys
    {
      sys.Valid() && Known(commands, sys.status)
    }

    /**
     * Pipeline(...): the settings every command inherits, and the environment
     * base_env (os.environ, passed as ambient, when None) overlaid with export.
     * stdin, stdout and stderr are the streams after PIPE and file names have
     * been turned into files.
     */
    constructor (cwd: Option<string>, baseEnv: Option<map<string, string>>, exports: map<string, string>,
                 stdout: Stream, stderr: Stream, stdin: Stream, user: Option<string>, group: Option<string>,
                 extraGroups: Option<seq<string>>, umask: int, ambient: map<string, string>, sys: System)
      requires sys.Valid()
      ensures Valid() && this.sys == sys && commands == []
      ensures environ == Overlay(if baseEnv.Some? then baseEnv.value else ambient, exports)
      ensures this.cwd == cwd && this.user == user && this.group == group && this.extraGroups == extraGroups
      ensures this.umask == umask && this.stdin == stdin && this.stdout == stdout && this.stderr == stderr
    {
      var env := MergeEnv(if baseEnv.Some? then baseEnv.value else ambient, exports);
      this.cwd := cwd;
      this.user := user;
      this.group := group;
      this.extraGroups := extraGroups;
      this.umask := umask;
      this.environ := env;
      this.stdin := stdin;
      this.stdout := stdout;
      this.stderr := stderr;
      this.commands := [];
      this.sys := sys;
    }

    /**
     * append(...): one command at the end, each setting falling back to the
     * pipeline's (umask when negative), its environment overlaid with export,
     * and its streams from the pipe mode.
     */
    method Append(command: seq<string>, cwd: Option<string>, baseEnv: Option<map<string, string>>,
                  exports: map<string, string>, user: Option<string>, group: Option<string>,
                  extraGroups: Option<seq<string>>, umask: int, pipe: PipeMode)
      requires Valid()
      modifies this
      ensures Valid()
      ensures commands == old(commands) + [Command(command,
        if cwd.None? then old(this.cwd) else cwd,
        Overlay(if baseEnv.None? then old(environ) else baseEnv.value, exports),
        if user.None? then old(this.user) else user,
        if group.None? then old(this.group) else group,
        if extraGroups.None? then old(this.extraGroups) else extraGroups,
        if umask < 0 then old(this.umask) else umask,
        Wiring(pipe).0, Wiring(pipe).1, Wiring(pipe).2, None)]
      ensures Captures(commands[|commands| - 1])
      ensures this.cwd == old(this.cwd) && this.user == old(this.user) && this.group == old(this.group)
      ensures this.extraGroups == old(this.extraGroups) && this.umask == old(this.umask) && environ == old(environ)
      ensures stdin == old(stdin) && stdout == old(stdout) && stderr == old(stderr)
    {
      var env := MergeEnv(if baseEnv.None? then environ else baseEnv.value, exports);
      var (out, err, stream) := Wiring(pipe);
      var cmd := Command(command,
        if cwd.None? then this.cwd else cwd,
        env,
        if user.None? then this.user else user,
        if group.None? then this.group else group,
        if extraGroups.None? then this.extraGroups else extraGroups,
        if umask < 0 then this.umask else umask,
        out, err, stream, None);
      commands := commands + [cmd];
    }

    /**
     * launch(): the last command writes to the pipeline's stdout and stderr;
     * command i is spawned reading the pipeline's stdin (i = 0) or the
     * predecessor's captured stream, and the parent then closes its end of
     * that stream.
     */
    method Launch()
      requires Valid()
      modifies this, sys
      ensures Valid()
      ensures |commands| == |old(commands)|
      ensures commands == Started(Wired(old(commands), stdout, stderr), old(sys.nextPid), |commands|)
      ensures sys.log == old(sys.log) + LaunchLog(Wired(old(commands), stdout, stderr), stdin, old(sys.nextPid), |commands|)
      ensures sys.status == RunningFrom(old(sys.status), old(sys.nextPid), |commands|)
      ensures sys.nextPid == old(sys.nextPid) + |commands|
      ensures cwd == old(cwd) && user == old(user) && group == old(group) && extraGroups == old(extraGroups)
      ensures umask == old(umask) && environ == old(environ)
      ensures stdin == old(stdin) && stdout == old(stdout) && stderr == old(stderr)
    {
      if |commands| > 0 {
        var last := |commands| - 1;
        commands := commands[last := commands[last].(stdout := stdout, stderr := stderr)];
        assert commands == Wired(old(commands), stdout, stderr);
        ghost var first := sys.nextPid;
        ghost var wired := commands;
        commands := SpawnStages(sys, commands, stdin);
        StartedKnown(wired, old(sys.status), first, |commands|);
      }
    }

    /** One iteration's calls on the system: spawn, then close the parent's end of the predecessor's stream. */
    static method SpawnThenClose(sys: System, spec: SpawnSpec, closing: Option<(Pid, int)>) returns (pid: Pid)
      requires sys.Valid()
      modifies sys
      ensures sys.Valid() && pid == old(sys.nextPid) && sys.nextPid == pid + 1 && sys.status == old(sys.status)[pid := None]
      ensures sys.log == old(sys.log) + ([Spawned(pid, spec)] + (if closing.Some? then [Closed(closing.value.0, closing.value.1)] else []))
    {
      pid := sys.Spawn(spec);
      if closing.Some? {
        sys.Close(closing.value.0, closing.value.1);
      }
    }

    /**
     * The loop of launch(): command i is spawned reading stdin (i = 0) or
     * the predecessor's captured stream, whose parent end is then closed.
     */
    static method SpawnStages(sys: System, cmds: seq<Command>, stdin: Stream) returns (items: seq<Command>)
      requires sys.Valid()
      modifies sys
      ensures sys.Valid() && sys.nextPid == old(sys.nextPid) + |cmds|
      ensures items == Started(cmds, old(sys.nextPid), |cmds|)
      ensures sys.status == RunningFrom(old(sys.status), old(sys.nextPid), |cmds|)
      ensures sys.log == old(sys.log) + LaunchLog(cmds, stdin, old(sys.nextPid), |cmds|)
    {
      ghost var first := sys.nextPid;
      items := cmds;
      var i := 0;
      ghost var added: seq<Event> := [];
      while i < |items|
        invariant 0 <= i <= |items| == |cmds|
        invariant items == Started(cmds, first, i)
        invariant sys.Valid() && sys.nextPid == first + i
        invariant sys.status == RunningFrom(old(sys.status), first, i)
        invariant sys.log == old(sys.log) + added
        invariant added == LaunchLog(cmds, stdin, first, i)
      {
        StartedAt(cmds, first, i, i);
        var input := stdin;
        var closing: Option<(Pid, int)> := None;
        if i > 0 {
          StartedAt(cmds, first, i, i - 1);
          var prev := items[i - 1];
          input := ReadEnd(prev.subproc.value, Fd(prev.stream));
          closing := Some((prev.subproc.value, Fd(prev.stream)));
        }
        var item := items[i];
        var spec := SpawnSpec(item.command, input, item.stdout, item.stderr, item.cwd, item.environ,
                              Identity(item.user, item.group, item.extraGroups, item.umask));
        ghost var events := [Spawned(first + i, spec)] + (if closing.Some? then [Closed(closing.value.0, closing.value.1)] else []);
        assert events == StageEvents(cmds, stdin, first, i);
        var pid := SpawnThenClose(sys, spec, closing);
        items := items[i := item.(subproc := Some(pid))];
        added := added + events;
        i := i + 1;
      }
    }

    /** is_running(): true when some launched command polls None. */
    method IsRunning() returns (r: bool)
      requires Valid()
      ensures r <==> exists i :: 0 <= i < |commands| && Observed(commands[i], sys.status) == Running
    {
      r := false;
      var i := 0;
      while i < |commands|
        invariant 0 <= i <= |commands|
        invariant forall j :: 0 <= j < i ==> Observed(commands[j], sys.status) != Running
      {
        var item := commands[i];
        if item.subproc.Some? {
          if sys.status[item.subproc.value].None? {
            r := true;
            break;
          }
        }
        i := i + 1;
      }
    }

    /** poll(): one entry per command, False before launch, None while running, else the return code. */
    method Poll() returns (r: seq<StageStatus>)
      requires Valid()
      ensures |r| == |commands|
      ensures forall i :: 0 <= i < |commands| ==> r[i] == Observed(commands[i], sys.status)
    {
      r := [];
      var i := 0;
      while i < |commands|
        invariant 0 <= i <= |commands| && |r| == i
        invariant forall j :: 0 <= j < i ==> r[j] == Observed(commands[j], sys.status)
      {
        var item := commands[i];
        if item.subproc.Some? {
          r := r + [match sys.status[item.subproc.value] case None => Running case Some(code) => Exited(code)];
        } else {
          r := r + [NotStarted];
        }
        i := i + 1;
      }
    }

    /**
     * wait(): waits for every launched command in order; one entry per
     * command, False before launch, else the return code the process has or
     * exits with. Afterwards every launched command has exited.
     */
    method Wait() returns (r: seq<StageStatus>)
      requires Valid()
      modifies sys
      ensures Valid() && sys.log == old(sys.log) && sys.nextPid == old(sys.nextPid)
      ensures sys.status == SettleFirst(old(sys.status), sys.fate, commands, |commands|)
      ensures |r| == |commands|
      ensures forall i :: 0 <= i < |commands| ==>
        r[i] == if commands[i].subproc.None? then NotStarted
                else Exited(Settled(old(sys.status), sys.fate, commands[i].subproc.value))
    {
      r := [];
      var i := 0;
      while i < |commands|
        invariant 0 <= i <= |commands| && |r| == i
        invariant sys.Valid() && sys.log == old(sys.log) && sys.nextPid == old(sys.nextPid)
        invariant sys.status == SettleFirst(old(sys.status), sys.fate, commands, i)
        invariant forall j :: 0 <= j < i ==>
          r[j] == if commands[j].subproc.None? then NotStarted
                  else Exited(Settled(old(sys.status), sys.fate, commands[j].subproc.value))
      {
        var item := commands[i];
        if item.subproc.Some? {
          var code := sys.WaitFor(item.subproc.value);
          r := r + [Exited(code)];
        } else {
          r := r + [NotStarted];
        }
        i := i + 1;
      }
    }

    /** send_signal(signal): the signal goes to every launched command, in order. */
    method SendSignal(signal: int)
      requires Valid()
      modifies sys
      ensures Valid() && sys.status == old(sys.status) && sys.nextPid == old(sys.nextPid)
      ensures sys.log == old(sys.log) + SignalLog(Handles(commands), signal)
    {
      var i := 0;
      while i < |commands|
        invariant 0 <= i <= |commands|
        invariant sys.Valid() && sys.status == old(sys.status) && sys.nextPid == old(sys.nextPid)
        invariant sys.log + SignalLog(Handles(commands)[i..], signal) == old(sys.log) + SignalLog(Handles(commands), signal)
      {
        var item := commands[i];
        assert Handles(commands)[i..][1..] == Handles(commands)[i + 1..];
        if item.subproc.Some? {
          sys.Signal(item.subproc.value, signal);
        }
        i := i + 1;
      }
    }

    /** terminate(): SIGTERM to every launched command. */
    method Terminate()
      requires Valid()
      modifies sys
      ensures Valid() && sys.status == old(sys.status) && sys.nextPid == old(sys.nextPid)
      ensures sys.log == old(sys.log) + SignalLog(Handles(commands), SIGTERM)
    {
      SendSignal(SIGTERM);
    }

    /** kill(): SIGKILL to every launched command. */
    method Kill()
      requires Valid()
      modifies sys
      ensures Valid() && sys.status == old(sys.status) && sys.nextPid == old(sys.nextPid)
      ensures sys.log == old(sys.log) + SignalLog(Handles(commands), SIGKILL)
    {
      SendSignal(SIGKILL);
    }
  }
}
