/** Runs that show where the guarantees of the two publisher threads end. */
module PacedStreamsLimits {
  import opened Wrappers
  import opened PacedStreams
  import opened PacedStreamsInvariant
  import opened PacedStreamsTheorems

  lemma Then(tolerance: nat, run: seq<Action>, st: State, a: Action) returns (longer: seq<Action>, next: State)
    requires After(tolerance, run) == Some(st) && Enabled(st, a)
    ensures longer == run + [a] && next == Apply(st, a)
    ensures After(tolerance, longer) == Some(next)
  {
    longer, next := run + [a], Apply(st, a);
    assert longer[..|longer| - 1] == run;
  }

  /** The camera waits in the rendezvous at index 0, which the LiDAR has left alone; the LiDAR has
      published `n` frames and is back at its FIFO. */
  ghost predicate CameraLeftBehind(st: State, n: nat) {
    && PhaseOf(st, Camera).Waiting? && Published(st, Camera) == 0
    && st.threads.lidar == Thread(Reading, n)
    && st.shared.finished == Pair(false, false)
    && st.shared.counts == Pair(0, n)
    && PhaseOf(st, Camera).slot < |st.shared.slots| && !MayLeaveNow(st, Camera)
  }

  const BLANK: Message := Message(0, 0)

  /** The LiDAR alone at index 0: waiting in the first slot, then gone from it by timeout. */
  ghost function LidarFirst(tolerance: nat, gone: bool): State {
    State(
      Shared(tolerance, Pair(0, 0), Pair(false, false), true,
             if gone then map[] else map[0 := 0],
             [if gone then Slot(0, map[], Some(0)) else Slot(0, map[Lidar := BLANK], None)]),
      Pair(Thread(Reading, 0), Thread(if gone then Publishing(BLANK) else Waiting(0, true, 0), 0)),
      Pair([], if gone then [0] else []),
      {})
  }

  lemma LidarEnters(tolerance: nat) returns (run: seq<Action>, st: State)
    requires 1 <= tolerance
    ensures After(tolerance, run) == Some(st) && st == LidarFirst(tolerance, false)
    ensures |run| == 4 && TimeoutFree(run)
  {
    run, st := [], Initial(tolerance);
    run, st := Then(tolerance, run, st, Line(Lidar));
    run, st := Then(tolerance, run, st, Pass(Lidar));
    run, st := Then(tolerance, run, st, Parse(Lidar));
    run, st := Then(tolerance, run, st, Enter(Lidar, BLANK, 0));
    assert st.shared.slots == [Slot(0, map[Lidar := BLANK], None)];
  }

  lemma LidarTimesOut(tolerance: nat)
    requires 1 <= tolerance
    ensures var st := LidarFirst(tolerance, false);
            Enabled(st, TimeOut(Lidar, 0)) && Apply(st, TimeOut(Lidar, 0)) == LidarFirst(tolerance, true)
  {
    var st := LidarFirst(tolerance, false);
    var slot := Stamped(st.shared.slots[0], 0);
    assert slot.messages == map[Lidar := BLANK];
    assert slot.messages - {Lidar} == map[];
    assert Leaver(st.shared, Lidar, 0, 0) == BLANK;
    assert Leave(st.shared, Lidar, 0, 0, 0).slots == [Slot(0, map[], Some(0))];
    assert Leave(st.shared, Lidar, 0, 0, 0).table == map[];
    assert st.stamps.lidar + [0] == [0];
  }

  lemma CameraArrives(tolerance: nat, run: seq<Action>, st: State) returns (longer: seq<Action>, next: State)
    requires 1 <= tolerance
    requires After(tolerance, run) == Some(st) && st == Apply(LidarFirst(tolerance, true), Record(Lidar))
    ensures After(tolerance, longer) == Some(next) && CameraLeftBehind(next, 1)
    ensures |longer| == |run| + 4 && run <= longer && TimeoutFree(longer[|run|..])
  {
    longer, next := Then(tolerance, run, st, Line(Camera));
    longer, next := Then(tolerance, longer, next, Pass(Camera));
    longer, next := Then(tolerance, longer, next, Parse(Camera));
    longer, next := Then(tolerance, longer, next, Enter(Camera, BLANK, 0));
  }

  lemma SameTimeouts(prefix: seq<Action>, run: seq<Action>)
    requires prefix <= run && TimeoutFree(run[|prefix|..])
    ensures forall i :: 0 <= i < |run| ==>
              (run[i].TimeOut? <==> i < |prefix| && prefix[i].TimeOut?)
  {
    forall i | 0 <= i < |run|
      ensures run[i].TimeOut? <==> i < |prefix| && prefix[i].TimeOut?
    {
      if i < |prefix| {
        assert run[i] == prefix[i];
      } else {
        assert run[i] == run[|prefix|..][i - |prefix|];
      }
    }
  }

  /** One timeout of the LiDAR at index 0, then the camera arrives. */
  lemma OneTimeout(tolerance: nat) returns (run: seq<Action>, st: State)
    requires 1 <= tolerance
    ensures After(tolerance, run) == Some(st) && CameraLeftBehind(st, 1) && |run| == 10
    ensures forall i :: 0 <= i < |run| ==> (run[i].TimeOut? <==> i == 4)
  {
    run, st := LidarEnters(tolerance);
    LidarTimesOut(tolerance);
    run, st := Then(tolerance, run, st, TimeOut(Lidar, 0));
    run, st := Then(tolerance, run, st, Record(Lidar));
    var prefix := run;
    run, st := CameraArrives(tolerance, run, st);
    SameTimeouts(prefix, run);
  }

  /** Whatever the tolerance, a single timeout can leave both streams blocked: at tolerance one the
      LiDAR waits at its gate, at any larger tolerance in the rendezvous at another index. */
  lemma OneTimeoutCanStick(tolerance: nat) returns (run: seq<Action>, st: State)
    requires 1 <= tolerance
    ensures After(tolerance, run) == Some(st) && Stuck(st)
    ensures forall i :: 0 <= i < |run| ==> (run[i].TimeOut? <==> i == 4)
    ensures PhaseOf(st, Camera).Waiting? && Published(st, Camera) == 0 && Published(st, Lidar) == 1
    ensures if tolerance == 1 then PhaseOf(st, Lidar).AtGate? else PhaseOf(st, Lidar).Waiting?
  {
    run, st := OneTimeout(tolerance);
    ToleranceFixed(tolerance, run);
    var start := run;
    run, st := Then(tolerance, run, st, Line(Lidar));
    SameTimeouts(start, run);
    if tolerance > 1 {
      var prefix := run;
      run, st := LidarJoins(tolerance, run, st, 1);
      SameTimeouts(prefix, run);
    }
    assert Blocked(st, Camera) && Blocked(st, Lidar);
  }

  /** The LiDAR goes from its gate into the rendezvous at `n`, while the camera sleeps at index 0. */
  lemma LidarJoins(tolerance: nat, run: seq<Action>, st: State, n: nat) returns (longer: seq<Action>, next: State)
    requires 1 <= n < tolerance && After(tolerance, run) == Some(st)
    requires CameraLeftBehind(Goto(st, Lidar, Reading), n) && PhaseOf(st, Lidar).AtGate?
    ensures After(tolerance, longer) == Some(next)
    ensures |longer| == |run| + 3 && run <= longer && TimeoutFree(longer[|run|..])
    ensures CameraLeftBehind(Goto(next, Lidar, Reading), n)
    ensures PhaseOf(next, Lidar).Waiting? && PhaseOf(next, Lidar).asleep
    ensures Inside(next, Lidar, PhaseOf(next, Lidar).slot) && !MayLeaveNow(next, Lidar)
  {
    longer, next := LidarPasses(tolerance, run, st, n);
    RunKeeps(tolerance, longer);
    LidarEntersAlone(next, n, TimeoutFree(longer));
    longer, next := Then(tolerance, longer, next, Enter(Lidar, BLANK, 0));
  }

  lemma LidarPasses(tolerance: nat, run: seq<Action>, st: State, n: nat) returns (longer: seq<Action>, next: State)
    requires 1 <= n < tolerance && After(tolerance, run) == Some(st)
    requires CameraLeftBehind(Goto(st, Lidar, Reading), n) && PhaseOf(st, Lidar).AtGate?
    ensures After(tolerance, longer) == Some(next) && longer == run + [Pass(Lidar), Parse(Lidar)]
    ensures CameraLeftBehind(Goto(next, Lidar, Reading), n) && PhaseOf(next, Lidar).Built?
  {
    ToleranceFixed(tolerance, run);
    longer, next := Then(tolerance, run, st, Pass(Lidar));
    longer, next := Then(tolerance, longer, next, Parse(Lidar));
  }

  lemma LidarEntersAlone(st: State, n: nat, quiet: bool)
    requires Invariant(st, quiet) && PhaseOf(st, Lidar).Built?
    requires 1 <= n && CameraLeftBehind(Goto(st, Lidar, Reading), n)
    ensures Enabled(st, Enter(Lidar, BLANK, 0))
    ensures var next := Apply(st, Enter(Lidar, BLANK, 0));
            && CameraLeftBehind(Goto(next, Lidar, Reading), n)
            && PhaseOf(next, Lidar).Waiting? && PhaseOf(next, Lidar).asleep
            && Inside(next, Lidar, PhaseOf(next, Lidar).slot) && !MayLeaveNow(next, Lidar)
  {
    EnterCases(st, Lidar, quiet);
    ArriveEffect(st, Lidar, BLANK, quiet);
  }

  // ----- The sweep and the tolerance -----

  /** The LiDAR, alone in its slot, times out; past index 50 its sweep drops the camera's slot. */
  lemma LidarGivesUp(st: State, n: nat, quiet: bool)
    requires Invariant(st, quiet) && CameraLeftBehind(Goto(st, Lidar, Reading), n)
    requires PhaseOf(st, Lidar).Waiting? && !MayLeaveNow(st, Lidar)
    ensures Enabled(st, TimeOut(Lidar, 0))
    ensures var next := Apply(st, TimeOut(Lidar, 0));
            && PhaseOf(next, Lidar).Publishing?
            && CameraLeftBehind(Goto(next, Lidar, Reading), n)
            && (n > SWEEP_WINDOW ==> 0 !in next.shared.table)
  {
    DepartEffect(st, Lidar, PhaseOf(st, Lidar).slot, 0);
  }

  lemma LidarToGate(st: State, n: nat)
    requires CameraLeftBehind(st, n)
    ensures Enabled(st, Line(Lidar))
    ensures CameraLeftBehind(Goto(Apply(st, Line(Lidar)), Lidar, Reading), n)
    ensures PhaseOf(Apply(st, Line(Lidar)), Lidar).AtGate?
  {
  }

  lemma LidarRecords(st: State, n: nat)
    requires CameraLeftBehind(Goto(st, Lidar, Reading), n) && PhaseOf(st, Lidar).Publishing?
    ensures Enabled(st, Record(Lidar))
    ensures CameraLeftBehind(Apply(st, Record(Lidar)), n + 1)
    ensures Apply(st, Record(Lidar)).shared.table == st.shared.table
  {
  }

  /** The LiDAR takes index `n` alone. */
  lemma LidarLap(tolerance: nat, run: seq<Action>, st: State, n: nat) returns (longer: seq<Action>, last: State)
    requires 1 <= n < tolerance && After(tolerance, run) == Some(st) && CameraLeftBehind(st, n)
    ensures After(tolerance, longer) == Some(last) && CameraLeftBehind(last, n + 1)
    ensures n > SWEEP_WINDOW ==> PhaseOf(last, Camera).Waiting? && !InTable(last, Camera)
  {
    LidarToGate(st, n);
    var run1, atGate := Then(tolerance, run, st, Line(Lidar));
    var run2, inside := LidarJoins(tolerance, run1, atGate, n);
    RunKeeps(tolerance, run2);
    LidarLeaves(inside, n, TimeoutFree(run2));
    var run3, out := Then(tolerance, run2, inside, TimeOut(Lidar, 0));
    longer, last := Then(tolerance, run3, out, Record(Lidar));
  }

  lemma LidarLeaves(st: State, n: nat, quiet: bool)
    requires Invariant(st, quiet) && CameraLeftBehind(Goto(st, Lidar, Reading), n)
    requires PhaseOf(st, Lidar).Waiting? && !MayLeaveNow(st, Lidar)
    ensures Enabled(st, TimeOut(Lidar, 0)) && Enabled(Apply(st, TimeOut(Lidar, 0)), Record(Lidar))
    ensures var last := Apply(Apply(st, TimeOut(Lidar, 0)), Record(Lidar));
            CameraLeftBehind(last, n + 1) && (n > SWEEP_WINDOW ==> 0 !in last.shared.table)
  {
    LidarGivesUp(st, n, quiet);
    LidarRecords(Apply(st, TimeOut(Lidar, 0)), n);
  }

  /** Some run brings the LiDAR to index n while the camera sleeps at index 0. */
  ghost predicate CanReach(tolerance: nat, n: nat) {
    exists run: seq<Action> :: After(tolerance, run).Some? && CameraLeftBehind(After(tolerance, run).value, n)
  }

  lemma ReachNext(tolerance: nat, n: nat)
    requires 1 <= n < tolerance && CanReach(tolerance, n)
    ensures CanReach(tolerance, n + 1)
  {
    var run: seq<Action> :| After(tolerance, run).Some? && CameraLeftBehind(After(tolerance, run).value, n);
    var longer, next := LidarLap(tolerance, run, After(tolerance, run).value, n);
  }

  lemma ReachesOne(tolerance: nat)
    requires 1 <= tolerance
    ensures CanReach(tolerance, 1)
  {
    var run, st := OneTimeout(tolerance);
    assert After(tolerance, run).value == st;
  }

  /** After one timeout the LiDAR can go on alone for as long as the tolerance lets it. */
  lemma {:induction false} ReachesEveryIndex(tolerance: nat, n: nat)
    requires 1 <= n <= tolerance
    ensures CanReach(tolerance, n)
  {
    if n == 1 {
      ReachesOne(tolerance);
    } else {
      ReachesEveryIndex(tolerance, n - 1);
      ReachNext(tolerance, n - 1);
    }
  }

  ghost predicate NeverSwept(tolerance: nat) {
    forall run: seq<Action> :: After(tolerance, run).Some? ==>
      InTable(After(tolerance, run).value, Camera) && InTable(After(tolerance, run).value, Lidar)
  }

  /** The sweep leaves every slot in use alone exactly when the tolerance is at most 51. */
  lemma SweepIsSafeUpTo51(tolerance: nat)
    requires 1 <= tolerance
    ensures NeverSwept(tolerance) <==> tolerance <= 51
  {
    if tolerance <= SWEEP_WINDOW + 1 {
      forall run: seq<Action> | After(tolerance, run).Some?
        ensures InTable(After(tolerance, run).value, Camera) && InTable(After(tolerance, run).value, Lidar)
      {
        RunKeeps(tolerance, run);
        ToleranceFixed(tolerance, run);
      }
    } else {
      var n := SWEEP_WINDOW + 1;
      ReachesEveryIndex(tolerance, n);
      var run: seq<Action> :| After(tolerance, run).Some? && CameraLeftBehind(After(tolerance, run).value, n);
      var longer, last := LidarLap(tolerance, run, After(tolerance, run).value, n);
    }
  }
}
