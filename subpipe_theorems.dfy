/** What subpipe.py's launch, poll and wait amount to, as written. */
module SubPipeTheorems {
  import opened Results
  import opened Processes
  import opened Pipelines
  import opened SubPipe

  lemma {:induction false} SubLaunchLogAt(cmds: seq<SubCommand>, first: Pid, n: nat, i: nat)
    requires i < n <= |cmds|
    ensures SubLaunchLog(cmds, first, n)[i] == Spawned(first + i, SubSpawn(cmds[i]))
  {
    if i < n - 1 {
      SubLaunchLogAt(cmds, first, n - 1, i);
    }
  }

  /**
   * Launch connects nothing: for commands built by append, the first reads
   * the pipeline's stdin and every later one inherits the parent's stdin
   * instead of reading its predecessor's output; only the last command's
   * stdout is a pipe and its stderr the pipeline's; no stream is closed.
   */
  lemma {:induction false} LaunchUnconnected(cmds: seq<SubCommand>, stdin: Stream, stderr: Stream, first: Pid, i: nat)
    requires forall j :: 0 <= j < |cmds| ==> cmds[j].stdin == Inherit
    requires i < |cmds|
    ensures var log := SubLaunchLog(Prepared(cmds, stdin, stderr), first, |cmds|);
      && log[i].Spawned? && log[i].pid == first + i
      && log[i].spec.stdin == (if i == 0 then stdin else Inherit)
      && log[i].spec.command == cmds[i].command
      && (i == |cmds| - 1 ==> log[i].spec.stdout == Pipe && log[i].spec.stderr == stderr)
      && (i < |cmds| - 1 ==> log[i].spec.stdout == cmds[i].stdout && log[i].spec.stderr == cmds[i].stderr)
  {
    SubLaunchLogAt(Prepared(cmds, stdin, stderr), first, |cmds|, i);
  }

  /** Every entry launch adds to the log is a spawn: no pipe end is ever closed. */
  lemma {:induction false} NothingClosed(cmds: seq<SubCommand>, first: Pid, n: nat)
    requires n <= |cmds|
    ensures forall e :: e in SubLaunchLog(cmds, first, n) ==> e.Spawned?
  {
    if n > 0 {
      NothingClosed(cmds, first, n - 1);
    }
  }

  // poll

  /** poll() is not None exactly when some launched command has exited. */
  lemma {:induction false} SettledIffExited(codes: seq<Option<int>>)
    ensures Combined(codes).Some? <==> exists i :: 0 <= i < |codes| && codes[i].Some?
  {
    if codes != [] {
      SettledIffExited(codes[1..]);
      if codes[0].None? {
        assert Exits(codes) == Exits(codes[1..]);
        if exists i :: 0 <= i < |codes| && codes[i].Some? {
          var i :| 0 <= i < |codes| && codes[i].Some?;
          assert codes[1..][i - 1] == codes[i];
        }
        if exists i :: 0 <= i < |codes[1..]| && codes[1..][i].Some? {
          var i :| 0 <= i < |codes[1..]| && codes[1..][i].Some?;
          assert codes[i + 1] == codes[1..][i];
        }
      } else {
        assert Exits(codes) != [];
      }
    }
  }

  lemma {:induction false} ExitsAppend(a: seq<Option<int>>, b: seq<Option<int>>)
    ensures Exits(a + b) == Exits(a) + Exits(b)
  {
    if a != [] {
      ExitsAppend(a[1..], b);
      assert (a + b)[1..] == a[1..] + b;
    } else {
      assert a + b == b;
    }
  }

  /** As time passes the exited commands only accumulate: once poll() has a code it never goes back to None. */
  lemma {:induction false} ExitsAccumulate(cmds: seq<SubCommand>, s1: map<Pid, Option<int>>, s2: map<Pid, Option<int>>)
    requires SubKnown(cmds, s1) && Later(s1, s2)
    ensures SubKnown(cmds, s2)
    ensures |Exits(Codes(cmds, s1))| <= |Exits(Codes(cmds, s2))|
    ensures Combined(Codes(cmds, s1)).Some? ==> Combined(Codes(cmds, s2)).Some?
  {
    if cmds != [] {
      assert SubKnown(cmds[1..], s1) by {
        forall i | 0 <= i < |cmds| - 1 && cmds[1..][i].subproc.Some? ensures cmds[1..][i].subproc.value in s1 {
          assert cmds[1..][i] == cmds[i + 1];
        }
      }
      ExitsAccumulate(cmds[1..], s1, s2);
      var h1 := if cmds[0].subproc.Some? then [s1[cmds[0].subproc.value]] else [];
      var h2 := if cmds[0].subproc.Some? then [s2[cmds[0].subproc.value]] else [];
      ExitsAppend(h1, Codes(cmds[1..], s1));
      ExitsAppend(h2, Codes(cmds[1..], s2));
      assert |Exits(h1)| <= |Exits(h2)|;
    }
  }

  /** The fold keeps the first non-zero code in command order: 0, running, 3, 4 polls as 3. */
  lemma FirstFailureWins()
    ensures Combined([Some(0), None, Some(3), Some(4)]) == Some(3)
  {
    assert Exits([Some(0), None, Some(3), Some(4)]) == [0, 3, 4] by {
      assert [Some(0), None, Some(3), Some(4)][1..] == [None, Some(3), Some(4)];
      assert [None, Some(3), Some(4)][1..] == [Some(3), Some(4)];
      assert [Some(3), Some(4)][1..] == [Some(4)];
    }
    assert [0, 3, 4][1..] == [3, 4];
  }

  // wait

  /** wait() finds nothing to return exactly when no snapshot shows an exited command. */
  lemma {:induction false} SettledNever(cmds: seq<SubCommand>, snapshots: seq<map<Pid, Option<int>>>)
    requires forall k :: 0 <= k < |snapshots| ==> SubKnown(cmds, snapshots[k])
    ensures FirstSettled(cmds, snapshots).None? <==>
      forall k :: 0 <= k < |snapshots| ==> Combined(Codes(cmds, snapshots[k])).None?
  {
    if snapshots != [] {
      SettledNever(cmds, snapshots[1..]);
      assert forall k :: 1 <= k < |snapshots| ==> snapshots[k] == snapshots[1..][k - 1];
    }
  }

  /**
   * wait() returns as soon as one command has exited: with the first command
   * done (code 0) and the second still running, the result is already 0.
   */
  lemma {:induction false} WaitReturnsWhileRunning(a: SubCommand, b: SubCommand)
    requires a.subproc == Some(0) && b.subproc == Some(1)
    ensures SubKnown([a, b], map[0 := Some(0), 1 := None])
    ensures FirstSettled([a, b], [map[0 := Some(0), 1 := None]]) == Some(0)
  {
    var status := map[0 := Some(0), 1 := None];
    assert [a, b][1..] == [b] && [b][1..] == [];
    assert Codes([a, b], status) == [Some(0), None];
    assert Exits([Some(0), None]) == [0] by {
      assert [Some(0), None][1..] == [None];
    }
  }
}
