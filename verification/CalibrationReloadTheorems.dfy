/** What holds after every interleaving of callbacks, Manager changes and the refresher. */
module CalibrationReloadTheorems {
  import opened Wrappers
  import opened CalibrationReload

  ghost predicate NoDuplicates(q: seq<Source>) {
    forall i, j :: 0 <= i < j < |q| ==> q[i] != q[j]
  }

  ghost predicate HoldsUndiscarded(st: State, s: Source) {
    st.refresher.Dequeued? && st.refresher.source == s
  }

  ghost predicate AboutToCapture(st: State, s: Source) {
    (st.refresher.Dequeued? || st.refresher.Due?) && st.refresher.source == s
  }

  ghost predicate InFlight(st: State, s: Source) {
    && (st.refresher.Fetching? || st.refresher.Fetched?)
    && st.refresher.source == s
    && s in st.info && st.refresher.generation == st.info[s].entry.generation
  }

  /** The queue and the pending set agree, up to the source the refresher took outside the lock. */
  ghost predicate QueueOk(st: State) {
    && NoDuplicates(st.queue)
    && (forall s :: s in st.pending <==> s in st.queue || HoldsUndiscarded(st, s))
    && (forall s :: HoldsUndiscarded(st, s) ==> s !in st.queue)
    && (forall s :: s in st.queue ==> s in st.sources)
    && (forall s :: s in st.callbacks ==> s in st.sources)
    && (forall s :: AboutToCapture(st, s) ==> s in st.sources)
  }

  ghost predicate RefresherOk(st: State)
    requires Shaped(st)
  {
    var r := st.refresher;
    && (r.Fetching? || r.Fetched? ==> r.source in st.sources && r.generation == st.info[r.source].captured)
    && (r.Due? || r.Fetching? || r.Fetched? ==> forall s :: s in r.rest ==> s in st.sources)
    && (r.Fetched? && r.outcome.Loaded? && InFlight(st, r.source) && !st.info[r.source].unannounced ==>
          r.outcome.calibration == st.info[r.source].manager)
  }

  ghost predicate SourceOk(st: State, s: Source)
    requires Shaped(st) && s in st.sources
  {
    var i, e := st.info[s], st.info[s].entry;
    && i.captured <= e.generation
    && (i.captured < e.generation ==> s in st.callbacks || s in st.queue || AboutToCapture(st, s))
    && (e.pending ==> i.captured < e.generation || InFlight(st, s) || i.failed)
    && (!e.pending ==> i.accepted == e.generation)
    && (!e.pending && !i.unannounced ==> e.calibration == None || e.calibration == Some(i.manager))
  }

  ghost predicate Invariant(st: State) {
    && Shaped(st) && QueueOk(st) && RefresherOk(st)
    && forall s :: s in st.sources ==> SourceOk(st, s)
  }

  lemma StartOk(st: State)
    requires Start(st)
    ensures Invariant(st)
  {
  }

  lemma StepShaped(st: State, a: Action)
    requires Enabled(st, a)
    ensures Shaped(Apply(st, a)) && Apply(st, a).sources == st.sources
  {
  }

  lemma EnqueueKeepsQueue(st: State, s: Source)
    requires QueueOk(st) && s in st.sources
    ensures QueueOk(Queued(st, s))
  {
  }

  lemma DequeueKeepsQueue(st: State)
    requires Invariant(st) && Enabled(st, Dequeue)
    ensures QueueOk(Apply(st, Dequeue))
  {
    assert forall s :: s in st.queue <==> s == st.queue[0] || s in st.queue[1..];
  }

  /** Actions that leave the queue and the pending set alone, and take nothing from the queue. */
  lemma OtherKeepsQueue(st: State, next: State)
    requires QueueOk(st)
    requires next.queue == st.queue && next.pending == st.pending && next.sources == st.sources
    requires forall s :: HoldsUndiscarded(next, s) <==> HoldsUndiscarded(st, s)
    requires forall s :: s in next.callbacks ==> s in st.sources
    requires forall s :: AboutToCapture(next, s) ==> s in st.sources
    ensures QueueOk(next)
  {
  }

  lemma DiscardKeepsQueue(st: State)
    requires Invariant(st) && Enabled(st, Discard)
    ensures QueueOk(Apply(st, Discard))
  {
  }

  lemma EnvironmentKeepsQueue(st: State, a: Action)
    requires Invariant(st) && Enabled(st, a)
    requires a.Change? || a.Invalidate?
    ensures QueueOk(Apply(st, a))
  {
    OtherKeepsQueue(st, Apply(st, a));
  }

  lemma ThreadKeepsQueue(st: State, a: Action)
    requires Invariant(st) && Enabled(st, a)
    requires a.Connect? || a.Stop?
    ensures QueueOk(Apply(st, a))
  {
    OtherKeepsQueue(st, Apply(st, a));
  }

  lemma ReloadKeepsQueue(st: State, a: Action)
    requires Invariant(st) && Enabled(st, a)
    requires a.RefreshAll? || a.Capture? || a.Load? || a.Finish?
    ensures QueueOk(Apply(st, a))
  {
    OtherKeepsQueue(st, Apply(st, a));
  }

  lemma StepQueue(st: State, a: Action)
    requires Invariant(st) && Enabled(st, a)
    ensures QueueOk(Apply(st, a))
  {
    match a
    case Dequeue => DequeueKeepsQueue(st);
    case Discard => DiscardKeepsQueue(st);
    case Enqueue(s) =>
      EnqueueKeepsQueue(st, s);
      OtherKeepsQueue(Queued(st, s), Apply(st, a));
    case Change(_, _) => EnvironmentKeepsQueue(st, a);
    case Invalidate(_) => EnvironmentKeepsQueue(st, a);
    case Connect => ThreadKeepsQueue(st, a);
    case Stop => ThreadKeepsQueue(st, a);
    case _ => ReloadKeepsQueue(st, a);
  }

  lemma EnvironmentKeepsRefresher(st: State, a: Action)
    requires Invariant(st) && Enabled(st, a) && Shaped(Apply(st, a))
    requires a.Change? || a.Invalidate? || a.Enqueue?
    ensures RefresherOk(Apply(st, a))
  {
    assert st.refresher.Fetched? ==> SourceOk(st, st.refresher.source);
  }

  lemma QueueKeepsRefresher(st: State, a: Action)
    requires Enabled(st, a) && RefresherOk(st) && Shaped(Apply(st, a))
    requires a.Connect? || a.Stop? || a.Dequeue? || a.Discard? || a.RefreshAll?
    ensures RefresherOk(Apply(st, a))
  {
  }

  lemma ReloadKeepsRefresher(st: State, a: Action)
    requires Enabled(st, a) && RefresherOk(st) && Shaped(Apply(st, a))
    requires a.Capture? || a.Load? || a.Finish?
    ensures RefresherOk(Apply(st, a))
  {
  }

  lemma StepRefresher(st: State, a: Action)
    requires Invariant(st) && Enabled(st, a)
    ensures Shaped(Apply(st, a)) && RefresherOk(Apply(st, a))
  {
    StepShaped(st, a);
    if a.Change? || a.Invalidate? || a.Enqueue? {
      EnvironmentKeepsRefresher(st, a);
    } else if a.Capture? || a.Load? || a.Finish? {
      ReloadKeepsRefresher(st, a);
    } else {
      QueueKeepsRefresher(st, a);
    }
  }

  lemma EnvironmentKeepsSource(st: State, a: Action, s: Source)
    requires Invariant(st) && Enabled(st, a) && s in st.sources
    requires a.Change? || a.Invalidate? || a.Enqueue? || a.Connect? || a.Stop?
    ensures Shaped(Apply(st, a)) && s in Apply(st, a).sources && SourceOk(Apply(st, a), s)
  {
    assert SourceOk(st, s);
  }

  lemma QueueKeepsSource(st: State, a: Action, s: Source)
    requires Invariant(st) && Enabled(st, a) && s in st.sources
    requires a.Dequeue? || a.Discard? || a.RefreshAll?
    ensures Shaped(Apply(st, a)) && s in Apply(st, a).sources && SourceOk(Apply(st, a), s)
  {
    assert SourceOk(st, s);
    if a.Dequeue? {
      assert s in st.queue ==> s == st.queue[0] || s in st.queue[1..];
    }
  }

  lemma ReloadKeepsSource(st: State, a: Action, s: Source)
    requires Invariant(st) && Enabled(st, a) && s in st.sources
    requires a.Capture? || a.Load? || a.Finish?
    ensures Shaped(Apply(st, a)) && s in Apply(st, a).sources && SourceOk(Apply(st, a), s)
  {
    assert SourceOk(st, s);
  }

  lemma StepSource(st: State, a: Action, s: Source)
    requires Invariant(st) && Enabled(st, a) && s in st.sources
    ensures Shaped(Apply(st, a)) && s in Apply(st, a).sources && SourceOk(Apply(st, a), s)
  {
    StepShaped(st, a);
    if a.Change? || a.Invalidate? || a.Enqueue? || a.Connect? || a.Stop? {
      EnvironmentKeepsSource(st, a, s);
    } else if a.Dequeue? || a.Discard? || a.RefreshAll? {
      QueueKeepsSource(st, a, s);
    } else {
      ReloadKeepsSource(st, a, s);
    }
  }

  lemma StepKeeps(st: State, a: Action)
    requires Invariant(st) && Enabled(st, a)
    ensures Invariant(Apply(st, a))
  {
    StepShaped(st, a);
    StepQueue(st, a);
    StepRefresher(st, a);
    forall s | s in st.sources ensures SourceOk(Apply(st, a), s) {
      StepSource(st, a, s);
    }
  }

  /** The invariant holds after every run. */
  lemma {:induction false} RunKeeps(start: State, run: seq<Action>)
    requires Start(start) && Ran(start, run).Some?
    ensures Invariant(Ran(start, run).value)
    ensures Ran(start, run).value.sources == start.sources
    decreases |run|
  {
    if run == [] {
      StartOk(start);
    } else {
      var prefix := run[..|run| - 1];
      RunKeeps(start, prefix);
      StepKeeps(Ran(start, prefix).value, run[|run| - 1]);
      StepShaped(Ran(start, prefix).value, run[|run| - 1]);
    }
  }

  // ----- What a maintainer may rely on -----

  /** A source invalidated after its generation was last captured is in the queue, with the refresher
      before its capture, or still inside the callback that invalidated it. */
  lemma NoLostReload(start: State, run: seq<Action>, s: Source)
    requires Start(start) && Ran(start, run).Some? && s in start.sources
    ensures var st := Ran(start, run).value;
            && s in st.info
            && (st.info[s].captured < st.info[s].entry.generation ==>
                  s in st.queue || AboutToCapture(st, s) || s in st.callbacks)
  {
    RunKeeps(start, run);
    assert SourceOk(Ran(start, run).value, s);
  }

  /** A source that is not reload-pending holds the result of a load captured at its present
      generation; and once every change the Manager made to it has been announced, the calibration in
      force, if any, is the Manager's. */
  lemma Freshness(start: State, run: seq<Action>, s: Source)
    requires Start(start) && Ran(start, run).Some? && s in start.sources
    ensures var st := Ran(start, run).value;
            && s in st.info
            && var i := st.info[s];
            !i.entry.pending ==>
              && i.accepted == i.entry.generation
              && (!i.unannounced && i.entry.calibration.Some? ==> i.entry.calibration.value == i.manager)
  {
    RunKeeps(start, run);
    assert SourceOk(Ran(start, run).value, s);
  }

  /** Nothing is queued, in a callback or in the refresher's hands. */
  ghost predicate Quiescent(st: State) {
    st.queue == [] && st.callbacks == multiset{} && st.refresher.Idle?
  }

  /** When all work is done, only a transport error can have left a source reload-pending. */
  lemma QuiescentMeansSettled(start: State, run: seq<Action>, s: Source)
    requires Start(start) && Ran(start, run).Some? && s in start.sources
    requires Quiescent(Ran(start, run).value)
    ensures var st := Ran(start, run).value;
            && s in st.info
            && (st.info[s].entry.pending ==> st.info[s].failed)
            && st.info[s].captured == st.info[s].entry.generation
  {
    RunKeeps(start, run);
    assert SourceOk(Ran(start, run).value, s);
  }

  /** `put_nowait` never finds the queue full, although `get` runs outside the lock. */
  lemma QueueNeverOverflows(start: State, run: seq<Action>, s: Source)
    requires Start(start) && Ran(start, run).Some?
    requires Enabled(Ran(start, run).value, Enqueue(s))
    ensures var st := Ran(start, run).value;
            s !in st.pending ==> !QueueFull(st) && |st.queue| < if |st.sources| > 1 then |st.sources| else 1
  {
    var st := Ran(start, run).value;
    RunKeeps(start, run);
    if s !in st.pending {
      var all := set x | x in st.sources;
      DistinctFit(st.queue, all - {s});
      SequenceFits(st.sources);
    }
  }

  lemma {:induction false} DistinctFit(q: seq<Source>, bound: set<Source>)
    requires NoDuplicates(q) && forall x :: x in q ==> x in bound
    ensures |q| <= |bound|
  {
    if q != [] {
      assert q[0] !in q[1..];
      DistinctFit(q[1..], bound - {q[0]});
    }
  }

  lemma {:induction false} SequenceFits(q: seq<Source>)
    ensures |set x | x in q| <= |q|
  {
    if q != [] {
      SequenceFits(q[1..]);
      assert (set x | x in q) == (set x | x in q[1..]) + {q[0]};
    } else {
      assert (set x | x in q) == {};
    }
  }

  /** Motion continuity is dropped exactly when the calibration in force changes. */
  lemma ResetsCountChanges(st: State, a: Action, s: Source)
    requires Enabled(st, a) && s in st.sources
    ensures Shaped(Apply(st, a)) && s in Apply(st, a).info
    ensures var before, after := st.info[s].entry, Apply(st, a).info[s].entry;
            after.resets == before.resets + (if after.calibration == before.calibration then 0 else 1)
  {
    StepShaped(st, a);
  }

  ghost function EntryAfter(start: State, run: seq<Action>, s: Source): Entry
    requires Start(start) && Ran(start, run).Some? && s in start.sources
  {
    RunKeeps(start, run);
    Ran(start, run).value.info[s].entry
  }

  lemma LastStep(start: State, run: seq<Action>, a: Action)
    requires Ran(start, run + [a]).Some?
    ensures Ran(start, run).Some? && Enabled(Ran(start, run).value, a)
    ensures Ran(start, run + [a]) == Some(Apply(Ran(start, run).value, a))
  {
    assert (run + [a])[..|run + [a]| - 1] == run;
  }

  /** A source whose motion continuity was never dropped meanwhile has the same calibration as before, however many
      invalidations, reloads and failures came in between. */
  lemma {:induction false} ContinuityMeansSameCalibration(start: State, run: seq<Action>, more: seq<Action>, s: Source)
    requires Start(start) && Ran(start, run).Some? && Ran(start, run + more).Some? && s in start.sources
    ensures var before, after := EntryAfter(start, run, s), EntryAfter(start, run + more, s);
            && before.resets <= after.resets
            && (before.resets == after.resets ==> before.calibration == after.calibration)
    decreases |more|
  {
    if more == [] {
      assert run + more == run;
    } else {
      var prefix, a := more[..|more| - 1], more[|more| - 1];
      assert run + more == run + prefix + [a];
      LastStep(start, run + prefix, a);
      ContinuityMeansSameCalibration(start, run, prefix, s);
      RunKeeps(start, run + prefix);
      ResetsCountChanges(Ran(start, run + prefix).value, a, s);
    }
  }

  // ----- What an invalidation keeps -----

  /** The action ends a load of the source, at its present generation, with a calibration or a rejection. */
  ghost predicate Replaces(st: State, a: Action, s: Source)
    requires s in st.info
  {
    && a.Finish? && st.refresher.Fetched? && st.refresher.source == s
    && st.refresher.generation == st.info[s].entry.generation && !st.refresher.outcome.TransportError?
  }

  /** How an action changes what the resolver keeps of a source: an invalidation marks it and keeps calibration and
      continuity, the end of a load that counts replaces the calibration, and nothing else changes anything. */
  lemma EntryChanges(st: State, a: Action, s: Source)
    requires Enabled(st, a) && s in st.sources
    ensures s in st.info && s in Apply(st, a).info
    ensures var before, after := st.info[s].entry, Apply(st, a).info[s].entry;
            && after.generation == before.generation + (if a == Invalidate(s) then 1 else 0)
            && (Replaces(st, a, s) ==>
                  && !after.pending
                  && after.calibration == (if st.refresher.outcome.Loaded? then Some(st.refresher.outcome.calibration)
                                           else None)
                  && after.resets == before.resets + (if after.calibration == before.calibration then 0 else 1))
            && (!Replaces(st, a, s) ==>
                  && after.pending == (before.pending || a == Invalidate(s))
                  && after.calibration == before.calibration && after.resets == before.resets)
  {
    StepShaped(st, a);
  }

  /** No action of the stretch ends a load of the source that counts. */
  ghost predicate NeverReplaced(st: State, more: seq<Action>, s: Source) {
    forall i :: 0 <= i < |more| ==>
      Ran(st, more[..i]).Some? && s in Ran(st, more[..i]).value.info ==>
        !Replaces(Ran(st, more[..i]).value, more[i], s)
  }

  function Invalidations(more: seq<Action>, s: Source): nat {
    if more == [] then 0
    else Invalidations(more[..|more| - 1], s) + (if more[|more| - 1] == Invalidate(s) then 1 else 0)
  }

  /** Over any stretch of a run the generation counts the invalidations of the source, and however many there are,
      calibration and continuity stay until a load of the source ends at its present generation. */
  lemma {:induction false} InvalidationKeepsCalibration(st: State, more: seq<Action>, s: Source)
    requires Shaped(st) && Ran(st, more).Some? && s in st.sources
    ensures var end := Ran(st, more).value;
            && Shaped(end) && end.sources == st.sources && s in st.info && s in end.info
            && end.info[s].entry.generation == st.info[s].entry.generation + Invalidations(more, s)
            && (NeverReplaced(st, more, s) ==>
                  && end.info[s].entry.calibration == st.info[s].entry.calibration
                  && end.info[s].entry.resets == st.info[s].entry.resets)
    decreases |more|
  {
    if more != [] {
      var prefix, a := more[..|more| - 1], more[|more| - 1];
      InvalidationKeepsCalibration(st, prefix, s);
      assert forall i :: 0 <= i < |prefix| ==> prefix[..i] == more[..i] && prefix[i] == more[i];
      StepShaped(Ran(st, prefix).value, a);
      EntryChanges(Ran(st, prefix).value, a, s);
    }
  }

  // ----- The periodic full refresh -----

  /** Steps of a full refresh in which the Manager answers every load. */
  predicate RefreshStep(a: Action) {
    a.RefreshAll? || a.Capture? || a == Load(false, true) || a.Finish?
  }

  /** No callback, no Manager change, no failed load: nothing but the refresher at work. */
  ghost predicate Undisturbed(more: seq<Action>) {
    forall i :: 0 <= i < |more| ==> RefreshStep(more[i])
  }

  /** The source is valid again, with exactly what the Manager has. */
  ghost predicate Recovered(i: Info) {
    !i.entry.pending && i.entry.calibration == Some(i.manager) && !i.failed
  }

  /** The refresher has still to capture the source's generation. */
  ghost predicate Uncaptured(st: State, s: Source) {
    match st.refresher
    case Dequeued(t) => t == s
    case Due(t, rest) => t == s || s in rest
    case Fetching(_, _, rest) => s in rest
    case Fetched(_, _, _, rest) => s in rest
    case _ => false
  }

  ghost predicate Loading(st: State, s: Source) {
    (st.refresher.Fetching? || st.refresher.Fetched?) && st.refresher.source == s
  }

  /** What the refresher loads is for the present generation, and is what the Manager has. */
  ghost predicate LoadsManager(r: Refresher, i: Info)
    requires r.Fetching? || r.Fetched?
  {
    r.generation == i.entry.generation && (r.Fetched? ==> r.outcome == Loaded(i.manager))
  }

  /** Recovered, about to be captured, or being loaded. */
  ghost predicate Recovering(st: State, s: Source)
    requires s in st.info
  {
    || Uncaptured(st, s)
    || (if Loading(st, s) then LoadsManager(st.refresher, st.info[s]) else Recovered(st.info[s]))
  }

  /** With no capture of the source to come, the action announces or makes a change to it, or fails its load. */
  ghost predicate Disturbs(st: State, a: Action, s: Source) {
    && !Uncaptured(st, s)
    && match a
       case Invalidate(t) => t == s
       case Change(t, _) => t == s
       case Load(rejected, reachable) => Loading(st, s) && (rejected || !reachable)
       case _ => false
  }

  /** Nothing after the first action disturbs the source. */
  ghost predicate LeftAlone(st: State, more: seq<Action>, s: Source) {
    forall i :: 1 <= i < |more| ==>
      Ran(st, more[..i]).Some? ==> !Disturbs(Ran(st, more[..i]).value, more[i], s)
  }

  lemma RefreshAllBegins(st: State, s: Source)
    requires Enabled(st, RefreshAll) && s in st.sources
    ensures s in Apply(st, RefreshAll).info && Recovering(Apply(st, RefreshAll), s)
  {
  }

  lemma EnvironmentGoesOn(st: State, a: Action, s: Source)
    requires Enabled(st, a) && s in st.sources && Recovering(st, s) && !Disturbs(st, a, s)
    requires a.Change? || a.Invalidate? || a.Enqueue? || a.Connect? || a.Stop? || a.Dequeue? || a.Discard?
    ensures s in Apply(st, a).info && Recovering(Apply(st, a), s)
  {
  }

  lemma LoadGoesOn(st: State, a: Action, s: Source)
    requires Enabled(st, a) && s in st.sources && Recovering(st, s) && !Disturbs(st, a, s)
    requires a.Capture? || a.Load? || a.Finish?
    ensures s in Apply(st, a).info && Recovering(Apply(st, a), s)
  {
  }

  lemma RefreshGoesOn(st: State, a: Action, s: Source)
    requires Enabled(st, a) && s in st.sources && Recovering(st, s) && !Disturbs(st, a, s)
    ensures s in Apply(st, a).info && Recovering(Apply(st, a), s)
  {
    if a.RefreshAll? {
      RefreshAllBegins(st, s);
    } else if a.Capture? || a.Load? || a.Finish? {
      LoadGoesOn(st, a, s);
    } else {
      EnvironmentGoesOn(st, a, s);
    }
  }

  lemma {:induction false} RefreshInProgress(st: State, more: seq<Action>, s: Source)
    requires more != [] && more[0] == RefreshAll && Ran(st, more).Some?
    requires s in st.sources && LeftAlone(st, more, s)
    ensures var end := Ran(st, more).value;
            end.sources == st.sources && s in end.info && Recovering(end, s)
    decreases |more|
  {
    var prefix, a := more[..|more| - 1], more[|more| - 1];
    if prefix == [] {
      StepShaped(st, a);
      RefreshAllBegins(st, s);
    } else {
      assert forall i :: 1 <= i < |prefix| ==> prefix[..i] == more[..i] && prefix[i] == more[i];
      RefreshInProgress(st, prefix, s);
      StepShaped(Ran(st, prefix).value, a);
      RefreshGoesOn(Ran(st, prefix).value, a, s);
    }
  }

  /** A full refresh brings a source to the Manager's calibration whatever was missed or failed before, and whatever
      happens to other sources, as long as nothing disturbs this one after its last capture. */
  lemma RefreshRecoversSource(start: State, run: seq<Action>, more: seq<Action>, s: Source)
    requires Start(start) && Ran(start, run).Some? && s in start.sources
    requires more != [] && more[0] == RefreshAll && LeftAlone(Ran(start, run).value, more, s)
    requires Ran(start, run + more).Some? && Ran(start, run + more).value.refresher.Idle?
    ensures var st := Ran(start, run + more).value;
            s in st.info && Recovered(st.info[s])
  {
    RunKeeps(start, run);
    RanJoined(start, run, more);
    RefreshInProgress(Ran(start, run).value, more, s);
  }

  lemma {:induction false} RanJoined(start: State, run: seq<Action>, more: seq<Action>)
    requires Ran(start, run).Some?
    ensures Ran(start, run + more) == Ran(Ran(start, run).value, more)
    decreases |more|
  {
    if more == [] {
      assert run + more == run;
    } else {
      var prefix := more[..|more| - 1];
      RanJoined(start, run, prefix);
      assert (run + more)[..|run + more| - 1] == run + prefix;
    }
  }

  lemma {:induction false} FirstIsEnabled(st: State, more: seq<Action>)
    requires more != [] && Ran(st, more).Some?
    ensures Enabled(st, more[0])
    decreases |more|
  {
    var prefix := more[..|more| - 1];
    if prefix != [] {
      FirstIsEnabled(st, prefix);
    }
  }

  /** In particular every undisturbed full refresh from an idle refresher that comes to its end has brought every source
      to the Manager's calibration. */
  lemma FullRefreshRecovers(start: State, run: seq<Action>, more: seq<Action>)
    requires Start(start) && Ran(start, run).Some? && Ran(start, run).value.refresher.Idle?
    requires more != [] && Undisturbed(more)
    requires Ran(start, run + more).Some? && Ran(start, run + more).value.refresher.Idle?
    ensures var st := Ran(start, run + more).value;
            forall s :: s in start.sources ==> s in st.info && Recovered(st.info[s])
  {
    RanJoined(start, run, more);
    FirstIsEnabled(Ran(start, run).value, more);
    forall s | s in start.sources
      ensures s in Ran(start, run + more).value.info && Recovered(Ran(start, run + more).value.info[s])
    {
      RefreshRecoversSource(start, run, more, s);
    }
  }

  lemma Then(start: State, run: seq<Action>, st: State, a: Action) returns (longer: seq<Action>, next: State)
    requires Ran(start, run) == Some(st) && Enabled(st, a)
    ensures longer == run + [a] && next == Apply(st, a)
    ensures Ran(start, longer) == Some(next)
  {
    longer, next := run + [a], Apply(st, a);
    assert longer[..|longer| - 1] == run;
  }

  /** The run has an undisturbed continuation that leaves the refresher idle. */
  ghost predicate CanSettle(start: State, run: seq<Action>) {
    exists more: seq<Action> ::
      Undisturbed(more) && Ran(start, run + more).Some? && Ran(start, run + more).value.refresher.Idle?
  }

  lemma SettledNow(start: State, run: seq<Action>)
    requires Ran(start, run).Some? && Ran(start, run).value.refresher.Idle?
    ensures CanSettle(start, run)
  {
    assert run + [] == run;
    assert Undisturbed([]);
  }

  lemma SettledLater(start: State, run: seq<Action>, a: Action)
    requires RefreshStep(a) && CanSettle(start, run + [a])
    ensures CanSettle(start, run)
  {
    var more: seq<Action> :|
      && Undisturbed(more) && Ran(start, run + [a] + more).Some?
      && Ran(start, run + [a] + more).value.refresher.Idle?;
    assert run + [a] + more == run + ([a] + more);
    assert Undisturbed([a] + more);
  }

  lemma ReloadOne(start: State, run: seq<Action>, st: State) returns (longer: seq<Action>, next: State)
    requires Ran(start, run) == Some(st) && Shaped(st)
    requires st.refresher.Due? && st.refresher.source in st.sources
    ensures Ran(start, longer) == Some(next) && Shaped(next)
    ensures next.refresher == NextDue(st.refresher.rest) && next.sources == st.sources
    ensures CanSettle(start, longer) ==> CanSettle(start, run)
  {
    var run1, st1 := Then(start, run, st, Capture);
    var run2, st2 := Then(start, run1, st1, Load(false, true));
    longer, next := Then(start, run2, st2, Finish);
    if CanSettle(start, longer) {
      SettledLater(start, run2, Finish);
      SettledLater(start, run1, Load(false, true));
      SettledLater(start, run, Capture);
    }
  }

  lemma {:induction false} ReloadRest(start: State, run: seq<Action>, st: State, rest: seq<Source>)
    requires Ran(start, run) == Some(st) && Shaped(st)
    requires st.refresher == NextDue(rest) && forall s :: s in rest ==> s in st.sources
    ensures CanSettle(start, run)
    decreases |rest|
  {
    if rest == [] {
      SettledNow(start, run);
    } else {
      var longer, next := ReloadOne(start, run, st);
      ReloadRest(start, longer, next, rest[1..]);
    }
  }

  lemma RefreshCanSettle(start: State, run: seq<Action>)
    requires Start(start) && Ran(start, run).Some?
    requires Ran(start, run).value.refresher.Idle? && start.sources != []
    ensures CanSettle(start, run + [RefreshAll])
  {
    RunKeeps(start, run);
    var longer, st := Then(start, run, Ran(start, run).value, RefreshAll);
    ReloadRest(start, longer, st, start.sources);
  }

  /** Such a refresh is there to be had in every idle state of a service with sources. */
  lemma FullRefreshEnds(start: State, run: seq<Action>)
    requires Start(start) && Ran(start, run).Some?
    requires Ran(start, run).value.refresher.Idle? && start.sources != []
    ensures exists more: seq<Action> ::
              && more != [] && Undisturbed(more)
              && Ran(start, run + more).Some? && Ran(start, run + more).value.refresher.Idle?
  {
    RefreshCanSettle(start, run);
    var more: seq<Action> :|
      && Undisturbed(more) && Ran(start, run + [RefreshAll] + more).Some?
      && Ran(start, run + [RefreshAll] + more).value.refresher.Idle?;
    var all := [RefreshAll] + more;
    assert run + [RefreshAll] + more == run + all;
    assert Undisturbed(all);
  }
}
