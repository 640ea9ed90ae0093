/** What a maintainer may rely on about every run of the two publisher threads. */
module PacedStreamsTheorems {
  import opened Wrappers
  import opened PacedStreams
  import opened PacedStreamsInvariant

  // ----- Progress -----

  /** The stream can go no further without the other one: its gate is closed, or it sleeps in the
      rendezvous, or it is awake there with nothing to leave for. */
  ghost predicate Blocked(st: State, s: Stream) {
    var p := PhaseOf(st, s);
    || (p.AtGate? && !GateOpen(st.shared, s, Published(st, s)))
    || (p.Waiting? && (p.asleep || (p.slot < |st.shared.slots| && !MayLeave(st.shared, s, p.slot))))
  }

  ghost predicate BothDone(st: State) {
    PhaseOf(st, Camera).Done? && PhaseOf(st, Lidar).Done?
  }

  /** Some stream is not done, and none that is not done can move by itself. */
  ghost predicate Stuck(st: State) {
    !BothDone(st) && forall s: Stream :: PhaseOf(st, s).Done? || Blocked(st, s)
  }

  /** The stream waits for an index whose message its sibling has already taken out alone. */
  ghost predicate MissedBySibling(st: State, s: Stream) {
    PhaseOf(st, s).Waiting? && Left(st, s.Sibling(), Published(st, s)) && Published(st, s) !in st.met
  }

  /** Only a missed meeting can stop both streams; the start-up hold and the gate never do. */
  lemma StuckMeansMissed(st: State)
    requires Invariant(st, false) && Stuck(st)
    ensures exists s: Stream :: MissedBySibling(st, s) && !MayLeaveNow(st, s)
  {
    assert Blocked(st, Camera) || PhaseOf(st, Camera).Done?;
    assert Blocked(st, Lidar) || PhaseOf(st, Lidar).Done?;
    assert forall n :: n in st.met ==> MetOk(st, n);
    var c, l := PhaseOf(st, Camera), PhaseOf(st, Lidar);
    assert c.Waiting? || l.Waiting?;
    var s := if c.Waiting? && (!l.Waiting? || Published(st, Camera) < Published(st, Lidar)) then Camera else Lidar;
    assert MissedBySibling(st, s) && !MayLeaveNow(st, s);
  }

  ghost predicate MayLeaveNow(st: State, s: Stream) {
    var p := PhaseOf(st, s);
    p.Waiting? && p.slot < |st.shared.slots| && MayLeave(st.shared, s, p.slot)
  }

  lemma QuietNeverMisses(st: State, s: Stream)
    requires Invariant(st, true)
    ensures !MissedBySibling(st, s)
  {
    assert QuietOk(st, s.Sibling());
  }

  /** Without timeouts some stream that is not done can always move by itself. */
  lemma NoDeadlock(tolerance: nat, run: seq<Action>)
    requires 1 <= tolerance && After(tolerance, run).Some? && TimeoutFree(run)
    ensures !Stuck(After(tolerance, run).value)
  {
    var st := After(tolerance, run).value;
    RunKeeps(tolerance, run);
    Weaken(st, true, false);
    QuietNeverMisses(st, Camera);
    QuietNeverMisses(st, Lidar);
    if Stuck(st) {
      StuckMeansMissed(st);
    }
  }

  lemma StuckAllowsTimeout(st: State, now: Stamp) returns (s: Stream)
    requires Invariant(st, false) && Stuck(st)
    ensures Enabled(st, TimeOut(s, now))
  {
    StuckMeansMissed(st);
    s :| MissedBySibling(st, s) && !MayLeaveNow(st, s);
    assert HoldsSlot(st, s);
  }

  /** With timeouts a stuck state is always one in which a rendezvous timeout is still to fire. */
  lemma TimeoutResolves(tolerance: nat, run: seq<Action>, now: Stamp)
    requires 1 <= tolerance && After(tolerance, run).Some?
    requires Stuck(After(tolerance, run).value)
    ensures exists s: Stream :: Enabled(After(tolerance, run).value, TimeOut(s, now))
  {
    RunKeeps(tolerance, run);
    Weaken(After(tolerance, run).value, TimeoutFree(run), false);
    var s := StuckAllowsTimeout(After(tolerance, run).value, now);
  }

  /** No wake-up is lost: a stream asleep in the rendezvous has nothing to leave for, except between
      the sibling's finished flag and the notification that follows it. */
  lemma NoLostWakeUp(tolerance: nat, run: seq<Action>, s: Stream)
    requires 1 <= tolerance && After(tolerance, run).Some?
    ensures var st := After(tolerance, run).value;
            PhaseOf(st, s).Waiting? && PhaseOf(st, s).asleep && MayLeaveNow(st, s) ==>
              Enabled(st, Notify(s.Sibling())) &&
              PhaseOf(Apply(st, Notify(s.Sibling())), s) == PhaseOf(st, s).(asleep := false)
  {
    RunKeeps(tolerance, run);
  }

  // ----- Alignment -----

  /** Past the gate together, the two streams are within the tolerance, whatever timed out before;
      and a recorded count never leads an unfinished sibling by more than the tolerance. */
  lemma GateAligns(tolerance: nat, run: seq<Action>, s: Stream)
    requires 1 <= tolerance && After(tolerance, run).Some?
    ensures var st := After(tolerance, run).value;
            var o := s.Sibling();
            && (PastGate(PhaseOf(st, s)) && PastGate(PhaseOf(st, o)) ==>
                  Published(st, s) < Published(st, o) + tolerance)
            && (!st.shared.finished.At(o) ==>
                  st.shared.counts.At(s) <= st.shared.counts.At(o) + tolerance)
            && (PastGate(PhaseOf(st, Camera)) && !st.shared.finished.lidar ==> st.shared.lidarReady)
  {
    RunKeeps(tolerance, run);
    ToleranceFixed(tolerance, run);
  }

  /** With tolerance one, no timeout desynchronises: past the gate together means the same index. */
  lemma ToleranceOneStaysAligned(run: seq<Action>)
    requires After(1, run).Some?
    ensures var st := After(1, run).value;
            PastGate(PhaseOf(st, Camera)) && PastGate(PhaseOf(st, Lidar)) ==>
              Published(st, Camera) == Published(st, Lidar)
  {
    GateAligns(1, run, Camera);
    GateAligns(1, run, Lidar);
  }

  lemma {:induction false} ToleranceFixed(tolerance: nat, run: seq<Action>)
    requires After(tolerance, run).Some?
    ensures After(tolerance, run).value.shared.tolerance == tolerance
    decreases |run|
  {
    if run != [] {
      var st := After(tolerance, run[..|run| - 1]).value;
      ToleranceFixed(tolerance, run[..|run| - 1]);
      StepKeepsTolerance(st, run[|run| - 1]);
    }
  }

  lemma StepKeepsTolerance(st: State, a: Action)
    requires Enabled(st, a)
    ensures Apply(st, a).shared.tolerance == st.shared.tolerance
  {
  }

  // ----- One stamp per met index -----

  /** If the two messages of an index were ever in one slot, both leave with the same stamp. */
  lemma MeetingSharesStamp(tolerance: nat, run: seq<Action>, n: nat)
    requires 1 <= tolerance && After(tolerance, run).Some?
    requires var st := After(tolerance, run).value;
             n in st.met && Left(st, Camera, n) && Left(st, Lidar, n)
    ensures var st := After(tolerance, run).value;
            st.stamps.camera[n] == st.stamps.lidar[n]
  {
    RunKeeps(tolerance, run);
    assert MetOk(After(tolerance, run).value, n);
  }

  /** The message of payload `m` that `s` publishes after a step carries the stamp logged for it. */
  ghost predicate Publishes(st: State, next: State, s: Stream, m: int) {
    && PhaseOf(next, s).Publishing?
    && PhaseOf(next, s).message.payload == m
    && |st.stamps.At(s)| == Published(st, s)
    && next.stamps.At(s) == st.stamps.At(s) + [PhaseOf(next, s).message.timestamp]
  }

  /** A stream leaves the rendezvous with the message it brought, carrying the stamp of its index. */
  lemma OwnMessageComesBack(tolerance: nat, run: seq<Action>, a: Action)
    requires 1 <= tolerance && After(tolerance, run).Some?
    requires Enabled(After(tolerance, run).value, a) && (a.Wake? || a.TimeOut?)
    ensures var st := After(tolerance, run).value;
            PhaseOf(Apply(st, a), a.s).Publishing? ==>
              Publishes(st, Apply(st, a), a.s, PhaseOf(st, a.s).payload)
  {
    var st := After(tolerance, run).value;
    RunKeeps(tolerance, run);
    match a
    case Wake(s, now) => DepartsWithOwn(st, s, now, TimeoutFree(run));
    case TimeOut(s, now) => DepartsWithOwn(st, s, now, TimeoutFree(run));
  }

  lemma DepartsWithOwn(st: State, s: Stream, now: Stamp, quiet: bool)
    requires Invariant(st, quiet) && PhaseOf(st, s).Waiting?
    ensures Inside(st, s, PhaseOf(st, s).slot)
    ensures Publishes(st, Depart(st, s, PhaseOf(st, s).slot, now), s, PhaseOf(st, s).payload)
  {
    assert HoldsSlot(st, s);
    DepartEffect(st, s, PhaseOf(st, s).slot, now);
  }

  lemma OwnMessagePassesThrough(tolerance: nat, run: seq<Action>, s: Stream, m: Message, now: Stamp)
    requires 1 <= tolerance && After(tolerance, run).Some?
    requires Enabled(After(tolerance, run).value, Enter(s, m, now))
    ensures var st := After(tolerance, run).value;
            var next := Apply(st, Enter(s, m, now));
            if PhaseOf(next, s).Waiting? then PhaseOf(next, s).payload == m.payload
            else Publishes(st, next, s, m.payload)
  {
    var st := After(tolerance, run).value;
    RunKeeps(tolerance, run);
    ArriveEffect(st, s, m, TimeoutFree(run));
    DepartEffect(Arrive(st, s, m), s, SlotFor(st.shared, Published(st, s)), now);
  }

  /** Without timeouts every index that both streams take through the rendezvous carries one stamp. */
  lemma QuietRunSharesStamps(tolerance: nat, run: seq<Action>, n: nat)
    requires 1 <= tolerance && After(tolerance, run).Some? && TimeoutFree(run)
    requires var st := After(tolerance, run).value;
             Left(st, Camera, n) && Left(st, Lidar, n)
    ensures var st := After(tolerance, run).value;
            n in st.met && st.stamps.camera[n] == st.stamps.lidar[n]
  {
    RunKeeps(tolerance, run);
    assert QuietOk(After(tolerance, run).value, Camera);
    MeetingSharesStamp(tolerance, run, n);
  }

  // ----- The slot table -----

  /** Up to tolerance 51, and at any tolerance as long as nothing times out, the table has an entry for an index
      exactly while some stream is inside the rendezvous at that index, and then it is that stream's slot. */
  lemma TableIsExact(tolerance: nat, run: seq<Action>, n: nat)
    requires 1 <= tolerance && After(tolerance, run).Some? && (tolerance <= SWEEP_WINDOW + 1 || TimeoutFree(run))
    ensures var st := After(tolerance, run).value;
            n in st.shared.table <==>
              exists s: Stream :: PhaseOf(st, s).Waiting? && Published(st, s) == n
    ensures var st := After(tolerance, run).value;
            forall s: Stream :: PhaseOf(st, s).Waiting? && Published(st, s) == n ==>
              n in st.shared.table && st.shared.table[n] == PhaseOf(st, s).slot
  {
    RunKeeps(tolerance, run);
    ToleranceFixed(tolerance, run);
    TableEntryOccupied(After(tolerance, run).value, TimeoutFree(run), n);
  }

  lemma TableEntryOccupied(st: State, quiet: bool, n: nat)
    requires Invariant(st, quiet)
    ensures n in st.shared.table ==>
              exists s: Stream :: PhaseOf(st, s).Waiting? && Published(st, s) == n
  {
    if n in st.shared.table {
      var slot := st.shared.slots[st.shared.table[n]];
      var s := if Camera in slot.messages then Camera else Lidar;
      assert s in slot.messages;
      assert PhaseOf(st, s).Waiting? && Published(st, s) == n;
    }
  }

  /** The table never holds more than two entries, and with tolerance one never more than one. */
  lemma TableIsSmall(tolerance: nat, run: seq<Action>)
    requires 1 <= tolerance && After(tolerance, run).Some?
    ensures |After(tolerance, run).value.shared.table| <= if tolerance == 1 then 1 else 2
  {
    var st := After(tolerance, run).value;
    RunKeeps(tolerance, run);
    ToleranceFixed(tolerance, run);
    forall n | n in st.shared.table
      ensures exists s: Stream :: PhaseOf(st, s).Waiting? && Published(st, s) == n
    {
      TableEntryOccupied(st, TimeoutFree(run), n);
    }
    if PhaseOf(st, Camera).Waiting? && PhaseOf(st, Lidar).Waiting? {
      SubsetSize(st.shared.table.Keys, {Published(st, Camera), Published(st, Lidar)});
    } else if PhaseOf(st, Camera).Waiting? {
      SubsetSize(st.shared.table.Keys, {Published(st, Camera)});
    } else if PhaseOf(st, Lidar).Waiting? {
      SubsetSize(st.shared.table.Keys, {Published(st, Lidar)});
    } else {
      assert st.shared.table.Keys == {};
    }
    assert |st.shared.table| == |st.shared.table.Keys|;
  }

  lemma {:induction false} SubsetSize(small: set<nat>, large: set<nat>)
    requires small <= large
    ensures |small| <= |large|
  {
    if small != {} {
      var x :| x in small;
      SubsetSize(small - {x}, large - {x});
    }
  }

  // ----- Frames and ends -----

  /** The frames of the stream that the run records. */
  function Recorded(run: seq<Action>, s: Stream): nat {
    if run == [] then 0
    else Recorded(run[..|run| - 1], s) + (if run[|run| - 1] == Record(s) then 1 else 0)
  }

  /** The stream's loop ends in the run: its pipeline is gone or something raised. */
  predicate Ends(run: seq<Action>, s: Stream) {
    exists i :: 0 <= i < |run| && (run[i] == Stop(s) || run[i] == Abort(s))
  }

  predicate Over(p: Phase) {
    p.Stopping? || p.Announcing? || p.Done?
  }

  lemma StepAdvances(st: State, a: Action, s: Stream)
    requires Enabled(st, a)
    ensures Published(Apply(st, a), s) == Published(st, s) + (if a == Record(s) then 1 else 0)
    ensures Over(PhaseOf(Apply(st, a), s)) <==> Over(PhaseOf(st, s)) || a == Stop(s) || a == Abort(s)
  {
  }

  /** Over any run a stream's index is the number of frames it recorded, whatever lines it could not parse, and its loop
      is over exactly if something ended it. */
  lemma {:induction false} FramesAreCounted(tolerance: nat, run: seq<Action>, s: Stream)
    requires After(tolerance, run).Some?
    ensures var st := After(tolerance, run).value;
            Published(st, s) == Recorded(run, s) && (Over(PhaseOf(st, s)) <==> Ends(run, s))
    decreases |run|
  {
    if run != [] {
      var prefix, a := run[..|run| - 1], run[|run| - 1];
      FramesAreCounted(tolerance, prefix, s);
      StepAdvances(After(tolerance, prefix).value, a, s);
      assert forall i :: 0 <= i < |prefix| ==> prefix[i] == run[i];
      if a != Stop(s) && a != Abort(s) && Ends(run, s) {
        var i :| 0 <= i < |run| && (run[i] == Stop(s) || run[i] == Abort(s));
        assert prefix[i] == run[i];
      }
    }
  }
}
