/** Who holds the calibration locks while requests and background tasks interleave and fail. */
module CalibrationLocks {
  import opened Wrappers

  /** One lock for all cameras, and one for each sensor modality. */
  datatype LockId = Camera | Sensor(modality: string)

  datatype Outcome = Calibrating | Busy | Unsupported | Finished(code: int)

  /** The thread of the request. A camera request that saw the lock free holds nothing yet. */
  datatype Wrapper = Asked | Cleared | Launched | Returned

  /** The background task. A camera's task waits for the lock; a sensor's takes it over from its request. */
  datatype Task = NotStarted | Waiting | Running | Stored | Ended

  datatype Request = Request(lock: LockId, device: string, wrapper: Wrapper, task: Task, acquires: nat, releases: nat)

  type Id = nat

  datatype State = State(requests: map<Id, Request>, held: set<LockId>, results: map<string, Outcome>)

  datatype Action =
    | Ask(id: Id, lock: LockId, device: string)
    | Reject(device: string)
    | Check(id: Id)
    | Start(id: Id)
    | StartFails(id: Id)
    | Announce(id: Id)
    | Acquire(id: Id)
    | Store(id: Id, outcome: Outcome)
    | Abort(id: Id)
    | End(id: Id)

  const INITIAL := State(map[], {}, map[])

  predicate Enabled(st: State, a: Action) {
    match a
    case Ask(id, _, _) => id !in st.requests
    case Reject(_) => true
    case Check(id) => id in st.requests && st.requests[id].wrapper.Asked?
    case Start(id) => id in st.requests && st.requests[id].wrapper.Cleared?
    case StartFails(id) => id in st.requests && st.requests[id].wrapper.Cleared?
    case Announce(id) => id in st.requests && st.requests[id].wrapper.Launched?
    case Acquire(id) => id in st.requests && st.requests[id].task.Waiting? && st.requests[id].lock !in st.held
    case Store(id, _) => id in st.requests && st.requests[id].task.Running?
    case Abort(id) => id in st.requests && st.requests[id].task.Running?
    case End(id) => id in st.requests && st.requests[id].task.Stored?
  }

  function Put(st: State, id: Id, r: Request): State {
    st.(requests := st.requests[id := r])
  }

  function Reply(st: State, device: string, outcome: Outcome): State {
    st.(results := st.results[device := outcome])
  }

  function Locked(st: State, lock: LockId): State {
    st.(held := st.held + {lock})
  }

  function Unlocked(st: State, lock: LockId): State {
    st.(held := st.held - {lock})
  }

  function Apply(st: State, a: Action): State
    requires Enabled(st, a)
  {
    match a
    case Ask(id, lock, device) => Put(st, id, Request(lock, device, Asked, NotStarted, 0, 0))
    case Reject(device) => Reply(st, device, Unsupported)
    case Check(id) =>
      var r := st.requests[id];
      if r.lock in st.held then Put(Reply(st, r.device, Busy), id, r.(wrapper := Returned))
      else if r.lock.Sensor? then Put(Locked(st, r.lock), id, r.(wrapper := Cleared, acquires := r.acquires + 1))
      else Put(st, id, r.(wrapper := Cleared))
    case Start(id) =>
      var r := st.requests[id];
      Put(st, id, r.(wrapper := Launched, task := if r.lock.Sensor? then Running else Waiting))
    case StartFails(id) =>
      var r := st.requests[id];
      if r.lock.Sensor? then Put(Unlocked(st, r.lock), id, r.(wrapper := Returned, releases := r.releases + 1))
      else Put(st, id, r.(wrapper := Returned))
    case Announce(id) =>
      var r := st.requests[id];
      Put(Reply(st, r.device, Calibrating), id, r.(wrapper := Returned))
    case Acquire(id) =>
      var r := st.requests[id];
      Put(Locked(st, r.lock), id, r.(task := Running, acquires := r.acquires + 1))
    case Store(id, outcome) =>
      var r := st.requests[id];
      Put(Reply(st, r.device, outcome), id, r.(task := Stored))
    case Abort(id) =>
      var r := st.requests[id];
      Put(Unlocked(st, r.lock), id, r.(task := Ended, releases := r.releases + 1))
    case End(id) =>
      var r := st.requests[id];
      Put(Unlocked(st, r.lock), id, r.(task := Ended, releases := r.releases + 1))
  }

  /** The state after a whole run, or None when some action of it was not enabled. */
  function After(start: State, run: seq<Action>): Option<State>
    decreases |run|
  {
    if run == [] then Some(start)
    else if Enabled(start, run[0]) then After(Apply(start, run[0]), run[1..])
    else None
  }

  // ----- Ownership -----

  /** The request or its task holds the lock. */
  predicate Owns(r: Request) {
    (r.wrapper.Cleared? && r.lock.Sensor?) || r.task.Running? || r.task.Stored?
  }

  predicate Done(r: Request) {
    r.wrapper.Returned? && (r.task.NotStarted? || r.task.Ended?)
  }

  /** Acquires and releases so far fit the phase. */
  predicate Counted(r: Request) {
    && (r.wrapper.Asked? || r.wrapper.Cleared? ==> r.task.NotStarted?)
    && (r.wrapper.Launched? ==> !r.task.NotStarted?)
    && (r.task.Waiting? ==> r.lock.Camera?)
    && r.acquires == r.releases + (if Owns(r) then 1 else 0)
    && r.acquires <= 1
    && (r.wrapper.Asked? || r.task.Waiting? || (r.wrapper.Cleared? && r.lock.Camera?) ==> r.acquires == 0)
    && (r.task.Ended? ==> r.acquires == 1)
  }

  ghost predicate OwnerOf(st: State, id: Id, lock: LockId) {
    id in st.requests && st.requests[id].lock == lock && Owns(st.requests[id])
  }

  ghost predicate LockOk(st: State, lock: LockId) {
    && (lock in st.held <==> exists id: Id :: OwnerOf(st, id, lock))
    && forall i: Id, j: Id :: OwnerOf(st, i, lock) && OwnerOf(st, j, lock) ==> i == j
  }

  ghost predicate Invariant(st: State) {
    && (forall id: Id :: id in st.requests ==> Counted(st.requests[id]))
    && forall lock: LockId :: LockOk(st, lock)
  }

  lemma StepKeepsLock(st: State, a: Action, lock: LockId)
    requires Enabled(st, a) && LockOk(st, lock) && forall id: Id :: id in st.requests ==> Counted(st.requests[id])
    ensures LockOk(Apply(st, a), lock)
  {
    var next := Apply(st, a);
    if a.Reject? {
      assert forall id: Id :: OwnerOf(next, id, lock) <==> OwnerOf(st, id, lock);
    } else {
      assert forall id: Id :: id != a.id ==> (OwnerOf(next, id, lock) <==> OwnerOf(st, id, lock));
      assert OwnerOf(next, a.id, lock) || !OwnerOf(next, a.id, lock);
      assert OwnerOf(st, a.id, lock) || !OwnerOf(st, a.id, lock);
    }
  }

  lemma StepKeeps(st: State, a: Action)
    requires Invariant(st) && Enabled(st, a)
    ensures Invariant(Apply(st, a))
  {
    forall lock: LockId ensures LockOk(Apply(st, a), lock) {
      assert LockOk(st, lock);
      StepKeepsLock(st, a, lock);
    }
  }

  lemma {:induction false} RunKeeps(st: State, run: seq<Action>)
    requires Invariant(st) && After(st, run).Some?
    ensures Invariant(After(st, run).value)
    decreases |run|
  {
    if run != [] {
      StepKeeps(st, run[0]);
      RunKeeps(Apply(st, run[0]), run[1..]);
    }
  }

  lemma InitialOk()
    ensures Invariant(INITIAL)
  {
  }

  /** In every reachable state a lock is held exactly while one request or task owns it. */
  lemma HeldByExactlyOne(run: seq<Action>, lock: LockId)
    requires After(INITIAL, run).Some?
    ensures var st := After(INITIAL, run).value;
            lock in st.held <==> exists i: Id :: OwnerOf(st, i, lock) && forall j: Id :: OwnerOf(st, j, lock) ==> j == i
  {
    RunKeeps(INITIAL, run);
    assert LockOk(After(INITIAL, run).value, lock);
  }

  /** Whatever fails, a finished request has released as often as it acquired, and at most once. */
  lemma ReleasedOncePerAcquire(run: seq<Action>, id: Id)
    requires After(INITIAL, run).Some? && id in After(INITIAL, run).value.requests
    ensures var r := After(INITIAL, run).value.requests[id];
            && r.releases <= r.acquires <= 1
            && (Done(r) ==> r.acquires == r.releases)
            && (r.task.Ended? ==> r.releases == 1)
  {
    RunKeeps(INITIAL, run);
  }

  predicate Releases(st: State, a: Action) {
    && Enabled(st, a)
    && (a.Abort? || a.End? || (a.StartFails? && a.id in st.requests && st.requests[a.id].lock.Sensor?))
  }

  /** No step releases a lock that is not held, or that another request holds. */
  lemma ReleasesOnlyItsOwn(run: seq<Action>, a: Action)
    requires After(INITIAL, run).Some? && Releases(After(INITIAL, run).value, a)
    ensures var st := After(INITIAL, run).value;
            var lock := st.requests[a.id].lock;
            lock in st.held && OwnerOf(st, a.id, lock) && forall j: Id :: OwnerOf(st, j, lock) ==> j == a.id
  {
    var st := After(INITIAL, run).value;
    RunKeeps(INITIAL, run);
    assert LockOk(st, st.requests[a.id].lock);
    assert OwnerOf(st, a.id, st.requests[a.id].lock);
  }

  predicate Calibrates(r: Request) {
    r.task.Running? || r.task.Stored?
  }

  /** Camera calibrations never overlap, although the first check is not atomic with the start; nor do those of one
      modality. */
  lemma NeverOverlap(run: seq<Action>, i: Id, j: Id)
    requires After(INITIAL, run).Some?
    requires i in After(INITIAL, run).value.requests && j in After(INITIAL, run).value.requests
    ensures var st := After(INITIAL, run).value;
            var (r, q) := (st.requests[i], st.requests[j]);
            Calibrates(r) && Calibrates(q) && r.lock == q.lock ==> i == j
  {
    var st := After(INITIAL, run).value;
    RunKeeps(INITIAL, run);
    assert LockOk(st, st.requests[i].lock);
    assert Calibrates(st.requests[i]) ==> OwnerOf(st, i, st.requests[i].lock);
    assert Calibrates(st.requests[j]) ==> OwnerOf(st, j, st.requests[j].lock);
  }

  /** A request is answered busy only while another request owns its lock: one modality never blocks another. */
  lemma BusyMeansOwned(run: seq<Action>, id: Id)
    requires After(INITIAL, run).Some? && Enabled(After(INITIAL, run).value, Check(id))
    ensures var st := After(INITIAL, run).value;
            var next := Apply(st, Check(id));
            next.requests[id].wrapper.Returned? <==> exists j: Id :: j != id && OwnerOf(st, j, st.requests[id].lock)
  {
    var st := After(INITIAL, run).value;
    RunKeeps(INITIAL, run);
    assert LockOk(st, st.requests[id].lock);
  }

  /** An action of a request already made. */
  predicate Moves(a: Action) {
    !a.Ask? && !a.Reject?
  }

  /** While a request is unfinished some request can move: no lock is lost. */
  lemma SomeoneCanMove(run: seq<Action>, id: Id) returns (a: Action)
    requires After(INITIAL, run).Some? && id in After(INITIAL, run).value.requests
    requires !Done(After(INITIAL, run).value.requests[id])
    ensures Moves(a) && Enabled(After(INITIAL, run).value, a)
  {
    var st := After(INITIAL, run).value;
    RunKeeps(INITIAL, run);
    var r := st.requests[id];
    if r.task.Waiting? && r.lock in st.held && r.wrapper.Returned? {
      assert LockOk(st, r.lock);
      var owner: Id :| OwnerOf(st, owner, r.lock);
      a := MoveOf(st, owner);
    } else {
      a := MoveOf(st, id);
    }
  }

  /** The next step of a request that is not blocked. */
  function MoveOf(st: State, id: Id): (a: Action)
    requires id in st.requests && Counted(st.requests[id]) && !Done(st.requests[id])
    requires st.requests[id].task.Waiting? && st.requests[id].wrapper.Returned? ==> st.requests[id].lock !in st.held
    ensures Moves(a) && Enabled(st, a)
  {
    var r := st.requests[id];
    if r.wrapper.Asked? then Check(id)
    else if r.wrapper.Cleared? then Start(id)
    else if r.wrapper.Launched? then Announce(id)
    else if r.task.Waiting? then Acquire(id)
    else if r.task.Running? then Store(id, Finished(0))
    else End(id)
  }

  // ----- What the check and the announcement do not guarantee -----

  lemma {:induction false} AfterJoined(st: State, first: seq<Action>, second: seq<Action>)
    requires After(st, first).Some?
    ensures After(st, first + second) == After(After(st, first).value, second)
    decreases |first|
  {
    if first == [] {
      assert first + second == second;
    } else {
      assert (first + second)[1..] == first[1..] + second;
      AfterJoined(Apply(st, first[0]), first[1..], second);
    }
  }

  lemma OneStep(st: State, a: Action)
    requires Enabled(st, a)
    ensures After(st, [a]) == Some(Apply(st, a))
  {
    assert [a][1..] == [];
  }

  lemma Extend(start: State, run: seq<Action>, st: State, a: Action) returns (longer: seq<Action>, next: State)
    requires After(start, run) == Some(st) && Enabled(st, a)
    ensures longer == run + [a] && next == Apply(st, a) && After(start, longer) == Some(next)
  {
    longer, next := run + [a], Apply(st, a);
    AfterJoined(start, run, [a]);
    OneStep(st, a);
  }

  /** Two camera requests can both find the lock free: neither is told busy, and one task waits for the other. */
  lemma TwoCamerasPassTheCheck() returns (run: seq<Action>, st: State)
    ensures After(INITIAL, run) == Some(st) && 0 in st.requests && 1 in st.requests
    ensures st.requests[0].task.Running? && st.requests[1].task.Waiting?
    ensures st.requests[0].lock == st.requests[1].lock == Camera
    ensures forall d: string :: d in st.results ==> st.results[d] != Busy
  {
    run, st := [], INITIAL;
    run, st := Extend(INITIAL, run, st, Ask(0, Camera, "a"));
    run, st := Extend(INITIAL, run, st, Ask(1, Camera, "b"));
    run, st := Extend(INITIAL, run, st, Check(0));
    run, st := Extend(INITIAL, run, st, Check(1));
    run, st := Extend(INITIAL, run, st, Start(0));
    run, st := Extend(INITIAL, run, st, Start(1));
    run, st := Extend(INITIAL, run, st, Acquire(0));
  }

  /** The announcement can come after the task is over: the finished result is lost from view. */
  lemma LateAnnouncementHidesResult(modality: string) returns (run: seq<Action>, st: State)
    ensures After(INITIAL, run) == Some(st) && 0 in st.requests && Done(st.requests[0])
    ensures st.requests[0].task.Ended? && "a" in st.results && st.results["a"] == Calibrating
  {
    run, st := [], INITIAL;
    run, st := Extend(INITIAL, run, st, Ask(0, Sensor(modality), "a"));
    run, st := Extend(INITIAL, run, st, Check(0));
    run, st := Extend(INITIAL, run, st, Start(0));
    run, st := Extend(INITIAL, run, st, Store(0, Finished(7)));
    run, st := Extend(INITIAL, run, st, End(0));
    run, st := Extend(INITIAL, run, st, Announce(0));
  }

  /** What an action tells the user of a device: refused, busy, calibrating, or the result of the task. */
  function Says(st: State, a: Action, device: string): Option<Outcome>
    requires Enabled(st, a)
  {
    match a
    case Reject(d) => if d == device then Some(Unsupported) else None
    case Check(id) =>
      if st.requests[id].device == device && st.requests[id].lock in st.held then Some(Busy) else None
    case Announce(id) => if st.requests[id].device == device then Some(Calibrating) else None
    case Store(id, outcome) => if st.requests[id].device == device then Some(outcome) else None
    case _ => None
  }

  /** The last thing a run says of the device. */
  function LastSaid(st: State, run: seq<Action>, device: string): Option<Outcome>
    requires After(st, run).Some?
    decreases |run|
  {
    if run == [] then None
    else
      var later := LastSaid(Apply(st, run[0]), run[1..], device);
      if later.Some? then later else Says(st, run[0], device)
  }

  function Shown(st: State, device: string): Option<Outcome> {
    if device in st.results then Some(st.results[device]) else None
  }

  /** What is shown of a device is what the run said of it last, or what was shown before the run if it said nothing. */
  lemma {:induction false} LastSaidIsShown(st: State, run: seq<Action>, device: string)
    requires After(st, run).Some?
    ensures var said := LastSaid(st, run, device);
            Shown(After(st, run).value, device) == if said.Some? then said else Shown(st, device)
    decreases |run|
  {
    if run != [] {
      SaysWhatIsShown(st, run[0], device);
      LastSaidIsShown(Apply(st, run[0]), run[1..], device);
    }
  }

  lemma SaysWhatIsShown(st: State, a: Action, device: string)
    requires Enabled(st, a)
    ensures var said := Says(st, a, device);
            Shown(Apply(st, a), device) == if said.Some? then said else Shown(st, device)
  {
  }

  /** The action writes no result for the device, unless it is one of request id's own. */
  predicate LeavesDevice(st: State, a: Action, id: Id, device: string) {
    match a
    case Reject(d) => d != device
    case Ask(i, _, d) => i != id && d != device
    case _ => a.id == id || (a.id in st.requests ==> st.requests[a.id].device != device)
  }

  predicate LeaveDevice(st: State, run: seq<Action>, id: Id, device: string)
    requires After(st, run).Some?
    decreases |run|
  {
    run == [] || (LeavesDevice(st, run[0], id, device) && LeaveDevice(Apply(st, run[0]), run[1..], id, device))
  }

  /**
    * When no other request concerns the device, its stored result stays visible exactly as long as the announcement
    * of its own request does not come after it.
    */
  lemma {:induction false} ResultStaysUnlessAnnounced(st: State, run: seq<Action>, id: Id, outcome: Outcome)
    requires After(st, run).Some? && id in st.requests && (st.requests[id].task.Stored? || st.requests[id].task.Ended?)
    requires LeaveDevice(st, run, id, st.requests[id].device)
    requires st.requests[id].device in st.results && st.results[st.requests[id].device] == outcome != Calibrating
    requires Counted(st.requests[id])
    ensures var end := After(st, run).value;
            && st.requests[id].device in end.results
            && end.results[st.requests[id].device] == if Announce(id) in run then Calibrating else outcome
    ensures Announce(id) in run ==> st.requests[id].wrapper.Launched?
    decreases |run|
  {
    if run != [] {
      var next := Apply(st, run[0]);
      if run[0] == Announce(id) {
        AnnouncedOnce(next, run[1..], id);
      } else {
        ResultStaysUnlessAnnounced(next, run[1..], id, outcome);
      }
    }
  }

  /** Once the request has returned, nothing writes a result for a device that only it concerns. */
  lemma {:induction false} AnnouncedOnce(st: State, run: seq<Action>, id: Id)
    requires After(st, run).Some? && id in st.requests && st.requests[id].wrapper.Returned?
    requires st.requests[id].task.Stored? || st.requests[id].task.Ended?
    requires LeaveDevice(st, run, id, st.requests[id].device)
    requires st.requests[id].device in st.results
    ensures var end := After(st, run).value;
            && st.requests[id].device in end.results
            && end.results[st.requests[id].device] == st.results[st.requests[id].device]
    decreases |run|
  {
    if run != [] {
      AnnouncedOnce(Apply(st, run[0]), run[1..], id);
    }
  }

  /** However the run goes on, as long as no other request concerns the device of request id, its result stays. */
  ghost predicate StaysVisible(st: State, id: Id)
    requires id in st.requests && st.requests[id].device in st.results
  {
    var device := st.requests[id].device;
    forall run :: After(st, run).Some? && LeaveDevice(st, run, id, device) ==>
      var end := After(st, run).value;
      device in end.results && end.results[device] == st.results[device]
  }

  /** Once the task has stored its result, that result is safe exactly when the announcement is already behind it. */
  lemma ResultStaysExactlyWhenReturned(st: State, id: Id)
    requires id in st.requests && Counted(st.requests[id])
    requires st.requests[id].task.Stored? || st.requests[id].task.Ended?
    requires st.requests[id].device in st.results && st.results[st.requests[id].device] != Calibrating
    ensures StaysVisible(st, id) <==> st.requests[id].wrapper.Returned?
  {
    var device := st.requests[id].device;
    if st.requests[id].wrapper.Returned? {
      forall run | After(st, run).Some? && LeaveDevice(st, run, id, device)
        ensures device in After(st, run).value.results
        ensures After(st, run).value.results[device] == st.results[device]
      {
        AnnouncedOnce(st, run, id);
      }
    } else {
      OneStep(st, Announce(id));
      assert LeaveDevice(Apply(st, Announce(id)), [], id, device);
      assert LeaveDevice(st, [Announce(id)], id, device);
    }
  }
}
