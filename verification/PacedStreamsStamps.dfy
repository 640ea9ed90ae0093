/** Where every timestamp of the two publisher threads comes from. */
module PacedStreamsStamps {
  import opened Wrappers
  import opened PacedStreams
  import opened PacedStreamsInvariant

  predicate InRendezvous(a: Action) {
    a.Enter? || a.Wake? || a.TimeOut?
  }

  /** The stamp already chosen in the slot that the stream waits in or is about to enter. */
  function FoundStamp(st: State, s: Stream): Option<Stamp> {
    var n := Published(st, s);
    match PhaseOf(st, s)
    case Waiting(k, _, _) => if k < |st.shared.slots| then st.shared.slots[k].shared else None
    case _ =>
      if n in st.shared.table && st.shared.table[n] < |st.shared.slots|
      then st.shared.slots[st.shared.table[n]].shared
      else None
  }

  /** With this action its stream comes out of the rendezvous. */
  ghost predicate Departs(st: State, a: Action) {
    InRendezvous(a) && Enabled(st, a) && PhaseOf(Apply(st, a), a.s).Publishing?
  }

  /** The slot's stamp if it has one, and the action's time otherwise. */
  function ChosenStamp(st: State, a: Action): Stamp
    requires InRendezvous(a)
  {
    var found := FoundStamp(st, a.s);
    if found.Some? then found.value else a.now
  }

  /** The departure publishes, logs and leaves in its slot the chosen stamp. */
  ghost predicate StampIs(st: State, a: Action, next: State)
    requires InRendezvous(a)
  {
    var t := ChosenStamp(st, a);
    && PhaseOf(next, a.s).Publishing? && PhaseOf(next, a.s).message.timestamp == t
    && next.stamps.At(a.s) == st.stamps.At(a.s) + [t]
    && next.stamps.At(a.s.Sibling()) == st.stamps.At(a.s.Sibling())
    && SlotsFrom(st, next, Published(st, a.s), t)
  }

  /** Every stamp in a slot was there before, or is `t` in a slot for index `n`. */
  ghost predicate SlotsFrom(st: State, next: State, n: nat, t: Stamp) {
    forall k: nat :: k < |next.shared.slots| && next.shared.slots[k].shared.Some? ==>
      || SameStamp(st, next, k)
      || (next.shared.slots[k].index == n && next.shared.slots[k].shared.value == t)
  }

  ghost predicate SameStamp(st: State, next: State, k: nat) {
    && k < |st.shared.slots| && k < |next.shared.slots|
    && next.shared.slots[k].index == st.shared.slots[k].index
    && next.shared.slots[k].shared == st.shared.slots[k].shared
  }

  /** Any other step logs nothing and chooses no stamp. */
  ghost predicate NoStamp(st: State, next: State) {
    && next.stamps == st.stamps
    && forall k: nat :: k < |next.shared.slots| && next.shared.slots[k].shared.Some? ==> SameStamp(st, next, k)
  }

  lemma WaitingStamps(st: State, a: Action, quiet: bool)
    requires Invariant(st, quiet) && Enabled(st, a) && (a.Wake? || a.TimeOut?)
    ensures if PhaseOf(Apply(st, a), a.s).Publishing? then StampIs(st, a, Apply(st, a)) else NoStamp(st, Apply(st, a))
  {
    var k := PhaseOf(st, a.s).slot;
    assert HoldsSlot(st, a.s);
    if a.TimeOut? || MayLeave(st.shared, a.s, k) {
      DepartEffect(st, a.s, k, a.now);
    }
  }

  lemma EnterStamps(st: State, a: Action, quiet: bool)
    requires Invariant(st, quiet) && Enabled(st, a) && a.Enter?
    ensures if PhaseOf(Apply(st, a), a.s).Publishing? then StampIs(st, a, Apply(st, a)) else NoStamp(st, Apply(st, a))
  {
    var k, mid := SlotFor(st.shared, Published(st, a.s)), Arrive(st, a.s, a.message);
    EnterCases(st, a.s, quiet);
    ArriveEffect(st, a.s, a.message, quiet);
    if MayLeave(mid.shared, a.s, k) {
      DepartEffect(mid, a.s, k, a.now);
    }
  }

  lemma OtherStamps(st: State, a: Action)
    requires Enabled(st, a) && !InRendezvous(a)
    ensures NoStamp(st, Apply(st, a))
  {
  }

  /** Over every run: a message leaves with the stamp its slot carries, and with the present time if it carries none. */
  lemma LeavesWithStamp(tolerance: nat, run: seq<Action>, a: Action)
    requires 1 <= tolerance && After(tolerance, run).Some? && Departs(After(tolerance, run).value, a)
    ensures var st := After(tolerance, run).value;
            StampIs(st, a, Apply(st, a))
  {
    var st := After(tolerance, run).value;
    RunKeeps(tolerance, run);
    if a.Enter? {
      EnterStamps(st, a, TimeoutFree(run));
    } else {
      WaitingStamps(st, a, TimeoutFree(run));
    }
  }

  /** Action `i` of the run is a departure at index `n` that happens at time `t`. */
  ghost predicate DepartsAt(tolerance: nat, run: seq<Action>, i: nat, n: nat, t: Stamp) {
    && i < |run|
    && var before := After(tolerance, run[..i]);
       before.Some? && Departs(before.value, run[i]) && Published(before.value, run[i].s) == n && run[i].now == t
  }

  /** `t` is the time of some departure at index `n`. */
  ghost predicate IsDepartureTime(tolerance: nat, run: seq<Action>, n: nat, t: Stamp) {
    exists i: nat :: DepartsAt(tolerance, run, i, n, t)
  }

  lemma DepartureStays(tolerance: nat, run: seq<Action>, longer: seq<Action>, n: nat, t: Stamp)
    requires |run| < |longer| && longer[..|run|] == run && IsDepartureTime(tolerance, run, n, t)
    ensures IsDepartureTime(tolerance, longer, n, t)
  {
    var i: nat :| DepartsAt(tolerance, run, i, n, t);
    assert longer[..i] == run[..i];
    assert DepartsAt(tolerance, longer, i, n, t);
  }

  /** Every logged stamp, and every stamp in a slot, is a departure time of its index. */
  ghost predicate StampsExplained(tolerance: nat, run: seq<Action>, st: State) {
    && LogExplained(tolerance, run, st.stamps.camera) && LogExplained(tolerance, run, st.stamps.lidar)
    && SlotsExplained(tolerance, run, st)
  }

  ghost predicate LogExplained(tolerance: nat, run: seq<Action>, log: seq<Stamp>) {
    forall n: nat :: n < |log| ==> IsDepartureTime(tolerance, run, n, log[n])
  }

  ghost predicate SlotsExplained(tolerance: nat, run: seq<Action>, st: State) {
    forall k: nat :: k < |st.shared.slots| && st.shared.slots[k].shared.Some? ==>
      IsDepartureTime(tolerance, run, st.shared.slots[k].index, st.shared.slots[k].shared.value)
  }

  lemma LogStays(tolerance: nat, run: seq<Action>, longer: seq<Action>, log: seq<Stamp>)
    requires |run| < |longer| && longer[..|run|] == run && LogExplained(tolerance, run, log)
    ensures LogExplained(tolerance, longer, log)
  {
    forall n: nat | n < |log| ensures IsDepartureTime(tolerance, longer, n, log[n]) {
      DepartureStays(tolerance, run, longer, n, log[n]);
    }
  }

  lemma LogGrows(tolerance: nat, run: seq<Action>, longer: seq<Action>, log: seq<Stamp>, t: Stamp)
    requires |run| < |longer| && longer[..|run|] == run && LogExplained(tolerance, run, log)
    requires IsDepartureTime(tolerance, longer, |log|, t)
    ensures LogExplained(tolerance, longer, log + [t])
  {
    var all := log + [t];
    forall n: nat | n < |all| ensures IsDepartureTime(tolerance, longer, n, all[n]) {
      if n < |log| {
        DepartureStays(tolerance, run, longer, n, log[n]);
      }
    }
  }

  lemma NoStampExplains(tolerance: nat, run: seq<Action>, longer: seq<Action>, st: State, next: State)
    requires |run| < |longer| && longer[..|run|] == run
    requires StampsExplained(tolerance, run, st) && NoStamp(st, next)
    ensures StampsExplained(tolerance, longer, next)
  {
    LogStays(tolerance, run, longer, st.stamps.camera);
    LogStays(tolerance, run, longer, st.stamps.lidar);
    forall k: nat | k < |next.shared.slots| && next.shared.slots[k].shared.Some?
      ensures IsDepartureTime(tolerance, longer, next.shared.slots[k].index, next.shared.slots[k].shared.value)
    {
      assert SameStamp(st, next, k);
      DepartureStays(tolerance, run, longer, st.shared.slots[k].index, st.shared.slots[k].shared.value);
    }
  }

  /** Without a stamp in the slot, the departure sets its own time. */
  lemma NewStampExplained(tolerance: nat, run: seq<Action>, longer: seq<Action>, st: State, a: Action)
    requires longer == run + [a] && After(tolerance, run) == Some(st) && Departs(st, a)
    ensures IsDepartureTime(tolerance, longer, Published(st, a.s), a.now)
  {
    assert longer[..|run|] == run;
    assert DepartsAt(tolerance, longer, |run|, Published(st, a.s), a.now);
  }

  /** A stamp in the slot was set by an earlier departure at the same index. */
  lemma FoundStampExplained(tolerance: nat, run: seq<Action>, longer: seq<Action>, st: State, s: Stream)
    requires |run| < |longer| && longer[..|run|] == run
    requires HoldsSlot(st, s) && StampsExplained(tolerance, run, st)
    requires PhaseOf(st, s).Waiting? && FoundStamp(st, s).Some?
    ensures IsDepartureTime(tolerance, longer, Published(st, s), FoundStamp(st, s).value)
  {
    DepartureStays(tolerance, run, longer, Published(st, s), FoundStamp(st, s).value);
  }

  lemma NothingFoundEntering(st: State, a: Action)
    requires Invariant(st, false) && Enabled(st, a) && a.Enter?
    ensures FoundStamp(st, a.s).None?
  {
    EnterCases(st, a.s, false);
  }

  lemma StampExplained(tolerance: nat, run: seq<Action>, longer: seq<Action>, st: State, a: Action)
    requires longer == run + [a] && After(tolerance, run) == Some(st) && Departs(st, a)
    requires StampsExplained(tolerance, run, st)
    requires FoundStamp(st, a.s).None? || (PhaseOf(st, a.s).Waiting? && HoldsSlot(st, a.s))
    ensures IsDepartureTime(tolerance, longer, Published(st, a.s), ChosenStamp(st, a))
  {
    if FoundStamp(st, a.s).None? {
      NewStampExplained(tolerance, run, longer, st, a);
    } else {
      assert longer[..|run|] == run;
      FoundStampExplained(tolerance, run, longer, st, a.s);
    }
  }

  lemma FindsInOwnSlot(st: State, a: Action)
    requires Invariant(st, false) && Enabled(st, a) && InRendezvous(a)
    ensures FoundStamp(st, a.s).None? || (PhaseOf(st, a.s).Waiting? && HoldsSlot(st, a.s))
    ensures |st.stamps.At(a.s)| == Published(st, a.s)
  {
    if a.Enter? {
      NothingFoundEntering(st, a);
    }
  }

  lemma DepartureExplainsSlots(tolerance: nat, run: seq<Action>, longer: seq<Action>, st: State, s: Stream, next: State,
                               t: Stamp)
    requires |run| < |longer| && longer[..|run|] == run && SlotsExplained(tolerance, run, st)
    requires IsDepartureTime(tolerance, longer, Published(st, s), t)
    requires SlotsFrom(st, next, Published(st, s), t)
    ensures SlotsExplained(tolerance, longer, next)
  {
    forall k: nat | k < |next.shared.slots| && next.shared.slots[k].shared.Some?
      ensures IsDepartureTime(tolerance, longer, next.shared.slots[k].index, next.shared.slots[k].shared.value)
    {
      if SameStamp(st, next, k) {
        DepartureStays(tolerance, run, longer, st.shared.slots[k].index, st.shared.slots[k].shared.value);
      }
    }
  }

  lemma LoudInvariant(tolerance: nat, run: seq<Action>)
    requires 1 <= tolerance && After(tolerance, run).Some?
    ensures Invariant(After(tolerance, run).value, false)
  {
    RunKeeps(tolerance, run);
    Weaken(After(tolerance, run).value, TimeoutFree(run), false);
  }

  lemma {:induction false} RunExplains(tolerance: nat, run: seq<Action>)
    requires 1 <= tolerance && After(tolerance, run).Some?
    ensures StampsExplained(tolerance, run, After(tolerance, run).value)
    decreases |run|
  {
    if run != [] {
      var prefix, a := run[..|run| - 1], run[|run| - 1];
      RunExplains(tolerance, prefix);
      LoudInvariant(tolerance, prefix);
      assert run == prefix + [a];
      StepExplains(tolerance, prefix, run, After(tolerance, prefix).value, a);
    }
  }

  lemma StepExplains(tolerance: nat, run: seq<Action>, longer: seq<Action>, st: State, a: Action)
    requires longer == run + [a] && After(tolerance, run) == Some(st) && Enabled(st, a)
    requires Invariant(st, false) && StampsExplained(tolerance, run, st)
    ensures StampsExplained(tolerance, longer, Apply(st, a))
  {
    assert longer[..|run|] == run;
    if a.Enter? {
      EnterStamps(st, a, false);
    } else if InRendezvous(a) {
      WaitingStamps(st, a, false);
    } else {
      OtherStamps(st, a);
    }
    if Departs(st, a) {
      FindsInOwnSlot(st, a);
      StampExplained(tolerance, run, longer, st, a);
      LogGrows(tolerance, run, longer, st.stamps.At(a.s), ChosenStamp(st, a));
      LogStays(tolerance, run, longer, st.stamps.At(a.s.Sibling()));
      DepartureExplainsSlots(tolerance, run, longer, st, a.s, Apply(st, a), ChosenStamp(st, a));
    } else {
      NoStampExplains(tolerance, run, longer, st, Apply(st, a));
    }
  }

  /** Over every run each stamp is the time at which some message of its index left the rendezvous. */
  lemma StampsAreDepartureTimes(tolerance: nat, run: seq<Action>, s: Stream, n: nat)
    requires 1 <= tolerance && After(tolerance, run).Some? && Left(After(tolerance, run).value, s, n)
    ensures IsDepartureTime(tolerance, run, n, After(tolerance, run).value.stamps.At(s)[n])
  {
    RunExplains(tolerance, run);
  }
}
