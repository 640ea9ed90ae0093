/** The calibration context as an object: each uninterrupted call is a run of the lock state machine. */
module CalibrationContext {
  import opened Wrappers
  import opened CalibrationLocks

  datatype Launch = Started | Refused | Raised

  class Context {
    /** The modality used when a request names none, and the strategy of each accepted spelling. */
    const defaultModality: string
    const aliases: map<string, string>
    const strategies: set<string>
    /** Trims and lower-cases. */
    const normalise: string -> string
    var held: set<LockId>
    var results: map<string, Outcome>
    /** Every request made so far, with the phase its threads are in. */
    ghost var requests: map<Id, Request>

    ghost function View(): State
      reads this
    {
      State(requests, held, results)
    }

    ghost predicate Valid()
      reads this
    {
      Invariant(View()) && defaultModality in strategies
    }

    constructor (defaultModality: string, aliases: map<string, string>, strategies: set<string>,
                 normalise: string -> string)
      requires defaultModality in strategies
      ensures Valid() && View() == INITIAL
    {
      this.defaultModality, this.aliases, this.strategies := defaultModality, aliases, strategies;
      this.normalise := normalise;
      held, results, requests := {}, map[], map[];
      new;
      InitialOk();
    }

    /** The strategy for a request's modality; none when it is not supported. */
    function Resolve(modality: Option<string>): (key: Option<string>)
      requires defaultModality in strategies
      ensures key.Some? ==> key.value in strategies
      ensures modality.None? ==> key == Some(defaultModality)
      ensures key.None? <==> modality.Some? && (normalise(modality.value) !in aliases
                                                || aliases[normalise(modality.value)] !in strategies)
    {
      if modality.None? then Some(defaultModality)
      else
        var spelling := normalise(modality.value);
        if spelling in aliases && aliases[spelling] in strategies then Some(aliases[spelling]) else None
    }

    /** Take one step of the state machine on the phases; the fields have taken it already. */
    ghost method Follow(before: State, a: Action)
      requires Invariant(before) && Enabled(before, a) && requests == before.requests
      requires held == Apply(before, a).held && results == Apply(before, a).results && defaultModality in strategies
      modifies this`requests
      ensures View() == Apply(before, a) && Valid()
    {
      StepKeeps(before, a);
      requests := Apply(before, a).requests;
    }

    /** Look at the lock; a sensor request takes it in the same step. */
    method CheckLock(ghost id: Id, lock: LockId, device: string) returns (free: bool)
      requires Valid() && id in requests && requests[id].wrapper.Asked?
      requires requests[id].lock == lock && requests[id].device == device
      modifies this
      ensures Valid() && View() == Apply(old(View()), Check(id)) && free == (lock !in old(held))
    {
      ghost var before := View();
      free := lock !in held;
      if !free {
        results := results[device := Busy];
      } else if lock.Sensor? {
        held := held + {lock};
      }
      Follow(before, Check(id));
    }

    /** Answer that the task has been started. */
    method AnnounceStart(ghost id: Id, device: string)
      requires Valid() && id in requests && requests[id].wrapper.Launched? && requests[id].device == device
      modifies this
      ensures Valid() && View() == Apply(old(View()), Announce(id))
    {
      ghost var before := View();
      results := results[device := Calibrating];
      Follow(before, Announce(id));
    }

    /** Start the background task. When that raises, a sensor request gives its lock back before the error goes on. */
    method LaunchTask(ghost id: Id, lock: LockId, device: string, starts: bool)
      returns (r: Launch, ghost run: seq<Action>)
      requires Valid() && id in requests && requests[id].wrapper.Cleared?
      requires requests[id].lock == lock && requests[id].device == device
      modifies this
      ensures Valid() && After(old(View()), run) == Some(View())
      ensures held == if starts || lock.Camera? then old(held) else old(held) - {lock}
      ensures if starts then r == Started && run == [Start(id), Announce(id)]
              else r == Raised && run == [StartFails(id)]
    {
      ghost var start, st := View(), View();
      run := [];
      if !starts {
        if lock.Sensor? {
          held := held - {lock};
        }
        Follow(st, StartFails(id));
        run, st := Extend(start, run, st, StartFails(id));
        return Raised, run;
      }
      Follow(st, Start(id));
      run, st := Extend(start, run, st, Start(id));
      AnnounceStart(id, device);
      run, st := Extend(start, run, st, Announce(id));
      r := Started;
    }

    /** A sensor request from start to end; `starts` says whether the background task could be started. */
    method CalibrateSensor(ghost id: Id, sensor: string, modality: Option<string>, starts: bool)
      returns (r: Launch, ghost run: seq<Action>)
      requires Valid() && id !in requests
      modifies this
      ensures Valid() && After(old(View()), run) == Some(View())
      ensures var key := Resolve(modality);
              if key.None? then r == Refused && run == [Reject(sensor)]
              else
                var lock := Sensor(key.value);
                if lock in old(held) then r == Refused && run == [Ask(id, lock, sensor), Check(id)]
                else if starts then
                  r == Started && run == [Ask(id, lock, sensor), Check(id), Start(id), Announce(id)]
                else
                  r == Raised && run == [Ask(id, lock, sensor), Check(id), StartFails(id)]
                  && held == old(held) && results == old(results)
    {
      ghost var start, st := View(), View();
      run := [];
      var key := Resolve(modality);
      if key.None? {
        results := results[sensor := Unsupported];
        Follow(start, Reject(sensor));
        run, st := Extend(start, run, st, Reject(sensor));
        return Refused, run;
      }
      var lock := Sensor(key.value);
      Follow(start, Ask(id, lock, sensor));
      run, st := Extend(start, run, st, Ask(id, lock, sensor));
      var free := CheckLock(id, lock, sensor);
      run, st := Extend(start, run, st, Check(id));
      if !free {
        return Refused, run;
      }
      ghost var launched;
      r, launched := LaunchTask(id, lock, sensor, starts);
      AfterJoined(start, run, launched);
      run := run + launched;
    }

    /** A camera request: it only looks at the lock, which its task will take. */
    method CalibrateCamera(ghost id: Id, camera: string, starts: bool) returns (r: Launch, ghost run: seq<Action>)
      requires Valid() && id !in requests
      modifies this
      ensures Valid() && After(old(View()), run) == Some(View()) && held == old(held)
      ensures if Camera in old(held) then r == Refused && run == [Ask(id, Camera, camera), Check(id)]
              else if starts then r == Started && run == [Ask(id, Camera, camera), Check(id), Start(id), Announce(id)]
              else r == Raised && run == [Ask(id, Camera, camera), Check(id), StartFails(id)]
    {
      ghost var start, st := View(), View();
      run := [];
      Follow(start, Ask(id, Camera, camera));
      run, st := Extend(start, run, st, Ask(id, Camera, camera));
      var free := CheckLock(id, Camera, camera);
      run, st := Extend(start, run, st, Check(id));
      if !free {
        return Refused, run;
      }
      ghost var launched;
      r, launched := LaunchTask(id, Camera, camera, starts);
      AfterJoined(start, run, launched);
      run := run + launched;
    }

    /** A background task that has its lock: whether or not it gets as far as a result, the lock is released. */
    method Process(ghost id: Id, lock: LockId, device: string, outcome: Option<Outcome>)
      returns (ghost run: seq<Action>)
      requires Valid() && id in requests && requests[id].task.Running?
      requires requests[id].lock == lock && requests[id].device == device
      modifies this
      ensures Valid() && After(old(View()), run) == Some(View()) && held == old(held) - {lock}
      ensures run == if outcome.Some? then [Store(id, outcome.value), End(id)] else [Abort(id)]
    {
      ghost var start, st := View(), View();
      run := [];
      if outcome.Some? {
        results := results[device := outcome.value];
        Follow(start, Store(id, outcome.value));
        run, st := Extend(start, run, st, Store(id, outcome.value));
      }
      ghost var last := if outcome.Some? then End(id) else Abort(id);
      held := held - {lock};
      Follow(st, last);
      run, st := Extend(start, run, st, last);
    }

    /** The camera's background task is let in once the lock is free. */
    method EnterCamera(ghost id: Id)
      requires Valid() && id in requests && requests[id].task.Waiting? && Camera !in held
      modifies this
      ensures Valid() && View() == Apply(old(View()), Acquire(id)) && Camera in held
    {
      ghost var before := View();
      held := held + {Camera};
      Follow(before, Acquire(id));
    }
  }
}
