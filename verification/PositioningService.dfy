/** The resolver's calibration state and the service's queue of reload requests, as objects. */
module PositioningService {
  import opened Wrappers
  import opened CalibrationReload
  import opened CalibrationReloadTheorems

  /** Why the resolver does not take a calibration: it is not one, or its history does not fit the ring buffer. */
  datatype Refusal = WrongType | RingBufferTooSmall

  datatype Error = UnknownSource | Refused(why: Refusal) | Full

  /** The source is marked as reload-pending, with its calibration and motion continuity kept. */
  predicate MarkedOnly(before: Entry, after: Entry) {
    && after.generation == before.generation + 1 && after.pending
    && after.calibration == before.calibration && after.resets == before.resets
  }

  /** The calibration is in force at the same generation; continuity is dropped if it differs from the one before. */
  predicate TakesOver(before: Entry, after: Entry, calibration: Option<Calibration>) {
    && after.generation == before.generation && !after.pending && after.calibration == calibration
    && after.resets == before.resets + (if calibration == before.calibration then 0 else 1)
  }

  class Resolver {
    var entries: map<Source, Entry>

    constructor (calibrations: map<Source, Option<Calibration>>)
      ensures entries.Keys == calibrations.Keys
      ensures forall s :: s in calibrations ==> entries[s] == Entry(0, false, calibrations[s], 0)
    {
      entries := map s | s in calibrations :: Entry(0, false, calibrations[s], 0);
    }

    method CalibrationGeneration(s: Source) returns (r: Result<nat, Error>)
      ensures r == if s in entries then Success(entries[s].generation) else Failure(UnknownSource)
    {
      if s !in entries {
        return Failure(UnknownSource);
      }
      return Success(entries[s].generation);
    }

    method InvalidateCalibration(s: Source) returns (r: Result<(), Error>)
      modifies this
      ensures if s in old(entries)
              then r == Success(()) && entries == old(entries)[s := Invalidated(old(entries)[s])]
              else r == Failure(UnknownSource) && entries == old(entries)
      ensures s in old(entries) ==> s in entries && MarkedOnly(old(entries)[s], entries[s])
    {
      if s !in entries {
        return Failure(UnknownSource);
      }
      var e := entries[s];
      e := e.(generation := e.generation + 1);
      e := e.(pending := true);
      entries := entries[s := e];
      return Success(());
    }

    /** The result says whether the update was applied, false when it came too late for the generation it names. A
        calibration of the wrong type or size is refused before anything changes. */
    method UpdateCalibration(
        s: Source, calibration: Option<Calibration>, refusal: Option<Refusal>, generation: Option<nat>)
      returns (r: Result<bool, Error>)
      modifies this
      ensures if s !in old(entries) then r == Failure(UnknownSource) && entries == old(entries)
              else if refusal.Some? then r == Failure(Refused(refusal.value)) && entries == old(entries)
              else
                var e := old(entries)[s];
                var g := if generation.Some? then generation.value else e.generation;
                r == Success(g == e.generation) && entries == old(entries)[s := Updated(e, calibration, g)]
      ensures r == Success(true) ==>
                s in old(entries) && s in entries && TakesOver(old(entries)[s], entries[s], calibration)
      ensures r != Success(true) ==> entries == old(entries)
    {
      if s !in entries {
        return Failure(UnknownSource);
      }
      if refusal.Some? {
        return Failure(Refused(refusal.value));
      }
      var e := entries[s];
      if generation.Some? && generation.value != e.generation {
        assert entries == entries[s := e];
        return Success(false);
      }
      e := e.(pending := false);
      if calibration != e.calibration {
        e := e.(calibration := calibration, resets := e.resets + 1);
      }
      entries := entries[s := e];
      return Success(true);
    }
  }

  /** A load whose calibration the resolver refuses ends like a rejected one. */
  function Effective(outcome: Outcome, refusal: Option<Refusal>): Outcome {
    if outcome.Loaded? && refusal.Some? then Rejected else outcome
  }

  function RefusalOf(refusals: map<Source, Refusal>, s: Source): Option<Refusal> {
    if s in refusals then Some(refusals[s]) else None
  }

  /** What one reload of a full refresh leaves of a source. */
  ghost predicate RefreshedTo(before: Entry, after: Entry, outcome: Outcome) {
    && after.generation == before.generation
    && match outcome
       case Loaded(c) => !after.pending && after.calibration == Some(c)
       case Rejected => !after.pending && after.calibration == None
       case TransportError => after == before
  }

  lemma ReloadedIsRefreshed(e: Entry, again: Entry, outcome: Outcome)
    requires again == e || RefreshedTo(e, again, outcome)
    ensures RefreshedTo(e, Reloaded(again, outcome, again.generation), outcome)
  {
  }

  class Service {
    const sources: seq<Source>
    const resolver: Resolver
    var queue: seq<Source>
    var pending: set<Source>
    var workersStarted: bool

    /** What holds between the locked regions; a request the refresher took out of the queue stays in
        the pending set until it is discarded. */
    ghost predicate Valid()
      reads this
    {
      && NoDuplicates(queue)
      && (forall s :: s in queue ==> s in pending)
      && (forall s :: s in pending ==> s in sources)
    }

    constructor (sources: seq<Source>, resolver: Resolver)
      ensures Valid() && this.sources == sources && this.resolver == resolver
      ensures queue == [] && pending == {} && !workersStarted
    {
      this.sources, this.resolver := sources, resolver;
      queue, pending, workersStarted := [], {}, false;
    }

    /** A callback for a configured source invalidates it and leaves it pending. */
    method OnCameraConfig(camera: Option<Source>) returns (r: Result<(), Error>)
      requires Valid() && forall s :: s in sources ==> s in resolver.entries
      modifies this`queue, this`pending, resolver
      ensures Valid() && r.Success?
      ensures if camera.Some? && camera.value in sources
              then && resolver.entries
                      == old(resolver.entries)[camera.value := Invalidated(old(resolver.entries)[camera.value])]
                   && pending == old(pending) + {camera.value}
                   && queue == (if camera.value in old(pending) then old(queue) else old(queue) + [camera.value])
              else resolver.entries == old(resolver.entries) && queue == old(queue) && pending == old(pending)
      ensures camera.Some? && camera.value in sources ==>
                && camera.value in resolver.entries
                && MarkedOnly(old(resolver.entries)[camera.value], resolver.entries[camera.value])
    {
      if camera.Some? && camera.value in sources {
        r := resolver.InvalidateCalibration(camera.value);
        r := QueueReload(camera.value);
      } else {
        r := Success(());
      }
    }

    /** A source already pending is not queued again; the bounded queue has room for any other. */
    method QueueReload(s: Source) returns (r: Result<(), Error>)
      requires Valid() && s in sources
      modifies this`queue, this`pending
      ensures Valid() && r == Success(())
      ensures pending == old(pending) + {s}
      ensures queue == if s in old(pending) then old(queue) else old(queue) + [s]
    {
      if s in pending {
        assert pending == pending + {s};
        return Success(());
      }
      ghost var all := set x | x in sources;
      DistinctFit(queue, all - {s});
      SequenceFits(sources);
      if |queue| == Capacity(sources) {
        return Failure(Full);
      }
      queue := queue + [s];
      pending := pending + {s};
      return Success(());
    }

    /** `get` on the queue, outside the lock: the request leaves the queue but stays pending. */
    method TakeRequest() returns (s: Option<Source>)
      requires Valid()
      modifies this`queue
      ensures Valid()
      ensures if old(queue) == [] then s == None && queue == []
              else s == Some(old(queue)[0]) && queue == old(queue)[1..] && s.value in pending && s.value !in queue
    {
      if queue == [] {
        return None;
      }
      s := Some(queue[0]);
      queue := queue[1..];
    }

    method DiscardPending(s: Source)
      requires Valid() && s !in queue
      modifies this`pending
      ensures Valid() && pending == old(pending) - {s}
    {
      pending := pending - {s};
    }

    /** The second half of a reload, after the unlocked read: whatever invalidations came in between, the result counts
        for the generation captured before it. */
    method ApplyLoad(s: Source, generation: nat, outcome: Outcome, refusal: Option<Refusal>)
      requires s in resolver.entries
      modifies resolver
      ensures resolver.entries == old(resolver.entries)[
                s := Reloaded(old(resolver.entries)[s], Effective(outcome, refusal), generation)]
      ensures s in resolver.entries
              && if outcome.TransportError? || generation != old(resolver.entries)[s].generation
                 then resolver.entries == old(resolver.entries)
                 else TakesOver(old(resolver.entries)[s], resolver.entries[s],
                                if outcome.Loaded? && refusal.None? then Some(outcome.calibration) else None)
    {
      match outcome {
        case Loaded(c) =>
          var applied := resolver.UpdateCalibration(s, Some(c), refusal, Some(generation));
          if applied.Failure? {
            applied := resolver.UpdateCalibration(s, None, None, Some(generation));
          }
        case Rejected =>
          var applied := resolver.UpdateCalibration(s, None, None, Some(generation));
        case TransportError =>
          assert resolver.entries == resolver.entries[s := resolver.entries[s]];
      }
    }

    /** Both halves, with no invalidation during the load. */
    method ReloadCalibration(s: Source, outcome: Outcome, refusal: Option<Refusal>) returns (r: Result<(), Error>)
      modifies resolver
      ensures if s in old(resolver.entries)
              then && r == Success(())
                   && resolver.entries == old(resolver.entries)[
                        s := Reloaded(old(resolver.entries)[s], Effective(outcome, refusal),
                                      old(resolver.entries)[s].generation)]
              else r == Failure(UnknownSource) && resolver.entries == old(resolver.entries)
    {
      var generation := resolver.CalibrationGeneration(s);
      if generation.Failure? {
        return Failure(UnknownSource);
      }
      ApplyLoad(s, generation.value, outcome, refusal);
      return Success(());
    }

    /** The all-source refresh with no callback in between: every source takes over what its load gave,
        and only a transport error leaves a source as it was. */
    method RefreshAll(outcomes: map<Source, Outcome>, refusals: map<Source, Refusal>) returns (r: Result<(), Error>)
      requires forall s :: s in sources ==> s in resolver.entries && s in outcomes
      modifies resolver
      ensures r.Success? && resolver.entries.Keys == old(resolver.entries.Keys)
      ensures forall s :: s in sources ==>
                RefreshedTo(old(resolver.entries)[s], resolver.entries[s],
                            Effective(outcomes[s], RefusalOf(refusals, s)))
      ensures forall s :: s in resolver.entries && s !in sources ==> resolver.entries[s] == old(resolver.entries)[s]
    {
      ghost var before := resolver.entries;
      r := Success(());
      for i := 0 to |sources|
        invariant r.Success? && resolver.entries.Keys == before.Keys
        invariant forall s :: s in sources[..i] ==>
                    RefreshedTo(before[s], resolver.entries[s], Effective(outcomes[s], RefusalOf(refusals, s)))
        invariant forall s :: s in before && s !in sources[..i] ==> resolver.entries[s] == before[s]
      {
        var s := sources[i];
        ReloadedIsRefreshed(before[s], resolver.entries[s], Effective(outcomes[s], RefusalOf(refusals, s)));
        assert sources[..i + 1] == sources[..i] + [s];
        r := ReloadCalibration(s, outcomes[s], RefusalOf(refusals, s));
      }
      assert sources[..|sources|] == sources;
    }

    /** However often the broker reconnects, the workers are spawned by the first connection only. */
    method StartWorkers() returns (spawn: bool)
      modifies this`workersStarted
      ensures workersStarted && (spawn <==> !old(workersStarted))
    {
      if workersStarted {
        return false;
      }
      workersStarted := true;
      return true;
    }
  }
}
