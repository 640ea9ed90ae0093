/** Exactly when the two publisher threads can still block each other without a further timeout. */
module PacedStreamsMissed {
  import opened Wrappers
  import opened PacedStreams
  import opened PacedStreamsInvariant
  import opened PacedStreamsTheorems

  /** The run loop of the stream has neither returned nor raised. */
  predicate Running(st: State, s: Stream) {
    var p := PhaseOf(st, s);
    !p.Stopping? && !p.Announcing? && !p.Done?
  }

  /** The sibling has taken index n out of the rendezvous alone, and the stream has still to get there. */
  ghost predicate Missed(st: State, s: Stream, n: nat) {
    Left(st, s.Sibling(), n) && !Left(st, s, n) && n !in st.met
  }

  /** Some meeting still to come is missed already, and both streams are running. */
  ghost predicate Doomed(st: State) {
    Running(st, Camera) && Running(st, Lidar) && exists s: Stream, n: nat :: Missed(st, s, n)
  }

  // ----- A state with nothing missed ahead stays one until a timeout -----

  lemma StuckMeansDoomed(st: State)
    requires Invariant(st, false) && Stuck(st)
    ensures Doomed(st)
  {
    StuckMeansMissed(st);
    var s: Stream :| MissedBySibling(st, s) && !MayLeaveNow(st, s);
    assert HoldsSlot(st, s) && ThreadOk(st, s);
    var o := s.Sibling();
    assert PhaseOf(st, o).Done? || Blocked(st, o);
    assert !st.shared.finished.At(o);
    assert Missed(st, s, Published(st, s));
  }

  ghost predicate SameLog(st: State, next: State) {
    next.stamps == st.stamps && next.met == st.met
  }

  /** Stream t leaves the rendezvous at the index it was at, met there or past a finished sibling. */
  ghost predicate LeavesInOrder(st: State, next: State, t: Stream) {
    var i := |st.stamps.At(t)|;
    && |next.stamps.At(t)| == i + 1 && next.stamps.At(t.Sibling()) == st.stamps.At(t.Sibling())
    && (forall n: nat :: n in st.met ==> n in next.met)
    && (forall n: nat :: n in next.met ==> n in st.met || n == i)
    && (i in next.met || !Running(next, t.Sibling()))
  }

  lemma EnterLogs(st: State, s: Stream, m: Message, now: Stamp)
    requires Invariant(st, false) && Enabled(st, Enter(s, m, now))
    ensures var next := Apply(st, Enter(s, m, now)); SameLog(st, next) || LeavesInOrder(st, next, s)
  {
    EnterCases(st, s, false);
    ArriveEffect(st, s, m, false);
    DepartEffect(Arrive(st, s, m), s, SlotFor(st.shared, Published(st, s)), now);
  }

  lemma WakeLogs(st: State, s: Stream, now: Stamp)
    requires Invariant(st, false) && Enabled(st, Wake(s, now))
    ensures var next := Apply(st, Wake(s, now)); SameLog(st, next) || LeavesInOrder(st, next, s)
  {
    assert HoldsSlot(st, s);
    DepartEffect(st, s, PhaseOf(st, s).slot, now);
  }

  lemma StepLogs(st: State, a: Action)
    requires Invariant(st, false) && Enabled(st, a) && !a.TimeOut?
    ensures SameLog(st, Apply(st, a)) || LeavesInOrder(st, Apply(st, a), a.s)
  {
    match a
    case Enter(s, m, now) => EnterLogs(st, s, m, now);
    case Wake(s, now) => WakeLogs(st, s, now);
    case _ => LocalSame(st, a);
  }

  lemma RunningBefore(st: State, a: Action, s: Stream)
    requires Enabled(st, a) && Running(Apply(st, a), s)
    ensures Running(st, s)
  {
  }

  /** Only a timeout can make the streams miss each other. */
  lemma OnlyTimeoutsDoom(st: State, a: Action)
    requires Invariant(st, false) && Enabled(st, a) && !a.TimeOut? && Doomed(Apply(st, a))
    ensures Doomed(st)
  {
    var next := Apply(st, a);
    StepLogs(st, a);
    RunningBefore(st, a, Camera);
    RunningBefore(st, a, Lidar);
    var s: Stream, n: nat :| Missed(next, s, n);
    assert Missed(st, s, n);
  }

  /** A timeout does harm exactly when both streams run and the sibling has still to come to that index. */
  lemma TimeoutDoomsExactlyWhen(st: State, s: Stream, now: Stamp)
    requires Invariant(st, false) && Enabled(st, TimeOut(s, now)) && !Doomed(st)
    ensures Doomed(Apply(st, TimeOut(s, now)))
       <==> Running(st, s.Sibling()) && !Left(st, s.Sibling(), Published(st, s))
  {
    var next, o, i := Apply(st, TimeOut(s, now)), s.Sibling(), Published(st, s);
    assert HoldsSlot(st, s) && ThreadOk(st, s);
    DepartEffect(st, s, PhaseOf(st, s).slot, now);
    assert i in st.met ==> MetOk(st, i);
    if Running(st, o) && !Left(st, o, i) {
      assert Missed(next, o, i);
    } else if Doomed(next) {
      var t: Stream, n: nat :| Missed(next, t, n);
      assert Missed(st, t, n);
    }
  }

  // ----- From a missed meeting ahead there is a way to get stuck -----

  /** The run has a continuation without timeouts that ends stuck. */
  ghost predicate CanStick(tolerance: nat, run: seq<Action>) {
    exists more: seq<Action> ::
      TimeoutFree(more) && After(tolerance, run + more).Some? && Stuck(After(tolerance, run + more).value)
  }

  lemma StuckNow(tolerance: nat, run: seq<Action>)
    requires After(tolerance, run).Some? && Stuck(After(tolerance, run).value)
    ensures CanStick(tolerance, run)
  {
    assert run + [] == run;
    assert TimeoutFree([]);
  }

  lemma StuckLater(tolerance: nat, run: seq<Action>, a: Action)
    requires !a.TimeOut? && CanStick(tolerance, run + [a])
    ensures CanStick(tolerance, run)
  {
    var more: seq<Action> :|
      && TimeoutFree(more) && After(tolerance, run + [a] + more).Some?
      && Stuck(After(tolerance, run + [a] + more).value);
    assert run + [a] + more == run + ([a] + more);
    assert TimeoutFree([a] + more);
  }

  /** How far a phase is from the rendezvous of the next index. */
  function Rank(p: Phase): nat {
    match p
    case Publishing(_) => 6
    case Reading => 5
    case AtGate => 4
    case Parsing => 3
    case Built => 2
    case _ => 1
  }

  /** The step that takes a running stream on. */
  function Onward(st: State, s: Stream): Action {
    match PhaseOf(st, s)
    case Publishing(_) => Record(s)
    case Reading => Line(s)
    case AtGate => Pass(s)
    case Parsing => Parse(s)
    case Built => Enter(s, Message(0, 0), 0)
    case _ => Wake(s, 0)
  }

  /** Both streams run and stream s has still to come to index n, which its sibling took alone. */
  ghost predicate Ahead(st: State, s: Stream, n: nat) {
    Invariant(st, false) && Running(st, Camera) && Running(st, Lidar) && Missed(st, s, n)
  }

  lemma SlowMayPass(st: State, s: Stream, n: nat)
    requires Ahead(st, s, n) && PhaseOf(st, s).AtGate?
    ensures GateOpen(st.shared, s, Published(st, s))
  {
    assert ThreadOk(st, s) && ThreadOk(st, s.Sibling());
  }

  /** A running stream that enters while an index is missed ahead finds nobody and falls asleep. */
  lemma EntersAlone(st: State, s: Stream, n: nat, t: Stream)
    requires Ahead(st, s, n) && PhaseOf(st, t).Built?
    ensures var next := Apply(st, Enter(t, Message(0, 0), 0));
            && SameLog(st, next) && PhaseOf(next, t).Waiting? && PhaseOf(next, t).asleep
            && Rank(PhaseOf(next, t.Sibling())) == Rank(PhaseOf(st, t.Sibling()))
            && (Running(next, t.Sibling()) <==> Running(st, t.Sibling()))
  {
    assert ThreadOk(st, Camera) && ThreadOk(st, Lidar);
    EnterCases(st, t, false);
    ArriveEffect(st, t, Message(0, 0), false);
  }

  /** What a step of stream t achieves: it leaves one more index behind, or comes closer to the rendezvous. */
  ghost predicate Advances(st: State, next: State, s: Stream, n: nat, t: Stream) {
    && Ahead(next, s, n)
    && (if |next.stamps.At(s)| == |st.stamps.At(s)|
        then Rank(PhaseOf(next, t)) < Rank(PhaseOf(st, t))
             && Rank(PhaseOf(next, t.Sibling())) == Rank(PhaseOf(st, t.Sibling()))
        else |st.stamps.At(s)| < |next.stamps.At(s)|)
  }

  lemma LocalAdvances(st: State, s: Stream, n: nat, t: Stream)
    requires Ahead(st, s, n) && !PhaseOf(st, t).Waiting? && !PhaseOf(st, t).Built?
    requires Enabled(st, Onward(st, t))
    ensures Advances(st, Apply(st, Onward(st, t)), s, n, t)
  {
    LocalSame(st, Onward(st, t));
    StepKeeps(st, Onward(st, t), false);
  }

  lemma EnterAdvances(st: State, s: Stream, n: nat, t: Stream)
    requires Ahead(st, s, n) && PhaseOf(st, t).Built?
    ensures Enabled(st, Onward(st, t)) && Advances(st, Apply(st, Onward(st, t)), s, n, t)
  {
    EntersAlone(st, s, n, t);
    StepKeeps(st, Onward(st, t), false);
  }

  lemma WakeAdvances(st: State, s: Stream, n: nat)
    requires Ahead(st, s, n) && PhaseOf(st, s).Waiting? && MayLeaveNow(st, s)
    ensures Enabled(st, Wake(s, 0)) && Advances(st, Apply(st, Wake(s, 0)), s, n, s)
  {
    assert HoldsSlot(st, s) && ThreadOk(st, s) && ThreadOk(st, s.Sibling());
    DepartEffect(st, s, PhaseOf(st, s).slot, 0);
    StepKeeps(st, Wake(s, 0), false);
  }

  /** The fast stream never has anything to leave for. */
  lemma FastIsBlocked(st: State, s: Stream, n: nat)
    requires Ahead(st, s, n) && PhaseOf(st, s.Sibling()).Waiting?
    ensures Blocked(st, s.Sibling())
  {
    var o := s.Sibling();
    assert ThreadOk(st, s) && ThreadOk(st, o) && HoldsSlot(st, o) && HoldsSlot(st, s);
    assert Published(st, o) in st.met ==> MetOk(st, Published(st, o));
  }

  /** First the slow stream goes on until it waits for a missed index, then the fast one until it is blocked. */
  lemma {:induction false} WayToStick(tolerance: nat, run: seq<Action>, st: State, s: Stream, n: nat)
    requires 1 <= tolerance && After(tolerance, run) == Some(st) && Ahead(st, s, n)
    ensures CanStick(tolerance, run)
    decreases n + 1 - |st.stamps.At(s)|, Rank(PhaseOf(st, s)) + Rank(PhaseOf(st, s.Sibling()))
  {
    var o := s.Sibling();
    if PhaseOf(st, s).Waiting? && !MayLeaveNow(st, s) {
      assert HoldsSlot(st, s);
      if Blocked(st, o) {
        assert Blocked(st, s);
        StuckNow(tolerance, run);
      } else {
        FastAdvances(st, s, n);
        Step(tolerance, run, st, Onward(st, o));
        WayToStick(tolerance, run + [Onward(st, o)], Apply(st, Onward(st, o)), s, n);
        StuckLater(tolerance, run, Onward(st, o));
      }
    } else {
      SlowAdvances(st, s, n);
      Step(tolerance, run, st, Onward(st, s));
      WayToStick(tolerance, run + [Onward(st, s)], Apply(st, Onward(st, s)), s, n);
      StuckLater(tolerance, run, Onward(st, s));
    }
  }

  lemma Step(tolerance: nat, run: seq<Action>, st: State, a: Action)
    requires After(tolerance, run) == Some(st) && Enabled(st, a)
    ensures After(tolerance, run + [a]) == Some(Apply(st, a))
  {
    assert (run + [a])[..|run + [a]| - 1] == run;
  }

  lemma SlowAdvances(st: State, s: Stream, n: nat)
    requires Ahead(st, s, n) && (PhaseOf(st, s).Waiting? ==> MayLeaveNow(st, s))
    ensures Enabled(st, Onward(st, s)) && Advances(st, Apply(st, Onward(st, s)), s, n, s)
  {
    if PhaseOf(st, s).Waiting? {
      WakeAdvances(st, s, n);
    } else if PhaseOf(st, s).Built? {
      EnterAdvances(st, s, n, s);
    } else {
      if PhaseOf(st, s).AtGate? {
        SlowMayPass(st, s, n);
      }
      LocalAdvances(st, s, n, s);
    }
  }

  lemma FastAdvances(st: State, s: Stream, n: nat)
    requires Ahead(st, s, n) && !Blocked(st, s.Sibling())
    ensures Enabled(st, Onward(st, s.Sibling()))
    ensures Advances(st, Apply(st, Onward(st, s.Sibling())), s, n, s.Sibling())
  {
    var o := s.Sibling();
    if PhaseOf(st, o).Waiting? {
      FastIsBlocked(st, s, n);
    } else if PhaseOf(st, o).Built? {
      EnterAdvances(st, s, n, o);
    } else {
      LocalAdvances(st, s, n, o);
    }
  }

  // ----- The exact condition -----

  lemma {:induction false} NotDoomedNotStuck(tolerance: nat, run: seq<Action>, more: seq<Action>)
    requires 1 <= tolerance && After(tolerance, run + more).Some? && TimeoutFree(more)
    ensures After(tolerance, run).Some?
    ensures Doomed(After(tolerance, run + more).value) ==> Doomed(After(tolerance, run).value)
    decreases |more|
  {
    if more == [] {
      assert run + more == run;
    } else {
      var prefix, a := more[..|more| - 1], more[|more| - 1];
      assert (run + more)[..|run + more| - 1] == run + prefix;
      assert TimeoutFree(prefix);
      NotDoomedNotStuck(tolerance, run, prefix);
      RunKeeps(tolerance, run + prefix);
      var st := After(tolerance, run + prefix).value;
      Weaken(st, TimeoutFree(run + prefix), false);
      if Doomed(Apply(st, a)) {
        OnlyTimeoutsDoom(st, a);
      }
    }
  }

  /**
    * From any reachable state, whatever timed out before: without a further timeout the streams can block each other
    * if and only if both are running and a meeting still to come is missed already.
    */
  lemma SticksExactlyWhenDoomed(tolerance: nat, run: seq<Action>)
    requires 1 <= tolerance && After(tolerance, run).Some?
    ensures CanStick(tolerance, run) <==> Doomed(After(tolerance, run).value)
  {
    var st := After(tolerance, run).value;
    RunKeeps(tolerance, run);
    Weaken(st, TimeoutFree(run), false);
    if CanStick(tolerance, run) {
      var more: seq<Action> :|
        TimeoutFree(more) && After(tolerance, run + more).Some? && Stuck(After(tolerance, run + more).value);
      RunKeeps(tolerance, run + more);
      Weaken(After(tolerance, run + more).value, TimeoutFree(run + more), false);
      StuckMeansDoomed(After(tolerance, run + more).value);
      NotDoomedNotStuck(tolerance, run, more);
    }
    if Doomed(st) {
      var s: Stream, n: nat :| Missed(st, s, n);
      WayToStick(tolerance, run, st, s, n);
    }
  }
}
