/** What a launched pipeline looks like: its wiring, its processes, and what poll, wait and the signals see. */
module PipelineTheorems {
  import opened Results
  import opened Processes
  import opened Pipelines

  /** Where the spawn of command i sits in the launch log: after one spawn, then a spawn and a close per command. */
  function SpawnIndex(i: nat): nat
  {
    if i == 0 then 0 else 2 * i - 1
  }

  /**
   * The launch log in order: command i is spawned at SpawnIndex(i) reading the
   * pipeline's stdin (i = 0) or its predecessor's stderr (stream 2) or stdout,
   * and the parent's end of that stream is closed right after, before the
   * next spawn.
   */
  lemma {:induction false} LaunchOrder(cmds: seq<Command>, stdin: Stream, first: Pid, n: nat, i: nat)
    requires i < n <= |cmds|
    ensures SpawnIndex(i) < |LaunchLog(cmds, stdin, first, n)|
    ensures LaunchLog(cmds, stdin, first, n)[SpawnIndex(i)] == Spawned(first + i, StageSpawn(cmds, stdin, first, i))
    ensures StageSpawn(cmds, stdin, first, i).stdin ==
      if i == 0 then stdin else ReadEnd(first + i - 1, if cmds[i - 1].stream == 2 then 2 else 1)
    ensures i > 0 ==> LaunchLog(cmds, stdin, first, n)[2 * i] == Closed(first + i - 1, if cmds[i - 1].stream == 2 then 2 else 1)
  {
    var prefix := LaunchLog(cmds, stdin, first, n - 1);
    if i < n - 1 {
      LaunchOrder(cmds, stdin, first, n - 1, i);
      assert LaunchLog(cmds, stdin, first, n)[..|prefix|] == prefix;
    } else {
      assert |prefix| == SpawnIndex(i);
    }
  }

  /**
   * Every command but the last reads nothing the previous command does not
   * pipe: when the commands came from append (each captures the stream its
   * mode names), command i > 0 reads the read end of a stream its predecessor
   * was spawned with as PIPE.
   */
  lemma {:induction false} ReadsCapturedPipe(cmds: seq<Command>, stdout: Stream, stderr: Stream, stdin: Stream, first: Pid, i: nat)
    requires forall j :: 0 <= j < |cmds| ==> Captures(cmds[j])
    requires 0 < i < |cmds|
    ensures var w := Wired(cmds, stdout, stderr);
      var prev := StageSpawn(w, stdin, first, i - 1);
      var fd := if w[i - 1].stream == 2 then 2 else 1;
      && StageSpawn(w, stdin, first, i).stdin == ReadEnd(first + i - 1, fd)
      && (if fd == 2 then prev.stderr else prev.stdout) == Pipe
  {
    var w := Wired(cmds, stdout, stderr);
    assert w[i - 1] == cmds[i - 1];
    assert Captures(cmds[i - 1]);
  }

  /** Launch gives every command its own new process: the handles are distinct and none was in the table before. */
  lemma {:induction false} LaunchedDistinct(cmds: seq<Command>, first: Pid, status: map<Pid, Option<int>>)
    requires forall p :: p in status ==> p < first
    ensures forall j :: 0 <= j < |cmds| ==>
      Started(cmds, first, |cmds|)[j].subproc.Some? && Started(cmds, first, |cmds|)[j].subproc.value !in status
    ensures forall j, k :: 0 <= j < k < |cmds| ==>
      Started(cmds, first, |cmds|)[j].subproc != Started(cmds, first, |cmds|)[k].subproc
  {
    forall j | 0 <= j < |cmds|
      ensures Started(cmds, first, |cmds|)[j] == cmds[j].(subproc := Some(first + j))
    {
      StartedAt(cmds, first, |cmds|, j);
    }
  }

  /** Right after launch every command polls None, so is_running holds for a non-empty pipeline. */
  lemma {:induction false} RunningAfterLaunch(cmds: seq<Command>, first: Pid, status: map<Pid, Option<int>>, j: nat)
    requires j < |cmds|
    ensures Started(cmds, first, |cmds|)[j].subproc.Some?
    ensures Started(cmds, first, |cmds|)[j].subproc.value in RunningFrom(status, first, |cmds|)
    ensures Observed(Started(cmds, first, |cmds|)[j], RunningFrom(status, first, |cmds|)) == Running
  {
    StartedAt(cmds, first, |cmds|, j);
    RunningFromHolds(status, first, |cmds|);
  }

  /** After wait, poll reports for each command exactly what wait returned for it, and nothing is running. */
  lemma {:induction false} PollAfterWait(cmds: seq<Command>, status: map<Pid, Option<int>>, fate: Pid -> int, j: nat)
    requires Known(cmds, status) && j < |cmds|
    ensures Known(cmds, SettleFirst(status, fate, cmds, |cmds|))
    ensures Observed(cmds[j], SettleFirst(status, fate, cmds, |cmds|)) ==
      if cmds[j].subproc.None? then NotStarted else Exited(Settled(status, fate, cmds[j].subproc.value))
    ensures Observed(cmds[j], SettleFirst(status, fate, cmds, |cmds|)) != Running
  {
  }
}
