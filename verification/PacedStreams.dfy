/**
 The two publisher threads (camera and LiDAR) as a state machine. Each action is one region that
 the source runs under a condition's lock, or one thread-local stretch between two such regions.
 */
module PacedStreams {
  import opened Wrappers

  datatype Stream = Camera | Lidar {
    function Sibling(): Stream {
      if Camera? then Lidar else Camera
    }
  }

  /** A dictionary keyed by the two stream names. */
  datatype Pair<T> = Pair(camera: T, lidar: T) {
    function At(s: Stream): T {
      if s.Camera? then camera else lidar
    }

    function With(s: Stream, v: T): Pair<T> {
      if s.Camera? then this.(camera := v) else this.(lidar := v)
    }
  }

  /** Rendered wall-clock time. */
  type Stamp = int

  datatype Message = Message(payload: int, timestamp: Stamp)

  /** One rendezvous slot: the messages waiting in it and, once chosen, the shared stamp.
      `index` is the frame index the slot was created for. */
  datatype Slot = Slot(index: nat, messages: map<Stream, Message>, shared: Option<Stamp>)

  predicate Occupied(slot: Slot) {
    Camera in slot.messages || Lidar in slot.messages
  }

  /** Everything the threads share. A slot is held by reference, in the table and by the threads
      inside it, so slots live in `slots` and are named by their position there. */
  datatype Shared = Shared(
    tolerance: nat,
    counts: Pair<nat>,
    finished: Pair<bool>,
    lidarReady: bool,
    table: map<nat, nat>,
    slots: seq<Slot>)

  /** How many frame indices behind the leaver the sweep leaves alone. */
  const SWEEP_WINDOW: nat := 50

  // ----- The regions of the source, as functions on the shared state -----

  predicate GateOpen(sh: Shared, s: Stream, published: nat) {
    || sh.finished.At(s.Sibling())
    || ((s.Camera? ==> sh.lidarReady) && published < sh.counts.At(s.Sibling()) + sh.tolerance)
  }

  /** The slot that `setdefault` returns for frame `n`. */
  function SlotFor(sh: Shared, n: nat): nat {
    if n in sh.table then sh.table[n] else |sh.slots|
  }

  ghost predicate TableOk(sh: Shared) {
    forall n :: n in sh.table ==> sh.table[n] < |sh.slots|
  }

  function Put(sh: Shared, s: Stream, n: nat, m: Message): (r: Shared)
    requires TableOk(sh)
    ensures TableOk(r)
  {
    var k := SlotFor(sh, n);
    var slots := if k < |sh.slots| then sh.slots else sh.slots + [Slot(n, map[], None)];
    sh.(table := sh.table[n := k],
        slots := slots[k := slots[k].(messages := slots[k].messages[s := m])])
  }

  predicate MayLeave(sh: Shared, s: Stream, k: nat)
    requires k < |sh.slots|
  {
    || sh.slots[k].shared.Some?
    || s.Sibling() in sh.slots[k].messages
    || sh.finished.At(s.Sibling())
  }

  /** Choose the shared stamp if nobody has, and write it into every waiting message. */
  function Stamped(slot: Slot, now: Stamp): Slot {
    if slot.shared.Some? then slot
    else slot.(
      shared := Some(now),
      messages := map s | s in slot.messages :: slot.messages[s].(timestamp := now))
  }

  /** Drop the table's entry for `n` and every entry more than the sweep window behind `n`. */
  function Swept(table: map<nat, nat>, n: nat): map<nat, nat> {
    map i | i in table && n <= i + SWEEP_WINDOW :: table[i]
  }

  /** The message that leaves slot `k`. */
  function Leaver(sh: Shared, s: Stream, k: nat, now: Stamp): Message
    requires k < |sh.slots| && s in sh.slots[k].messages
  {
    var slot := Stamped(sh.slots[k], now);
    slot.messages[s].(timestamp := slot.shared.value)
  }

  function Leave(sh: Shared, s: Stream, n: nat, k: nat, now: Stamp): (r: Shared)
    requires TableOk(sh) && k < |sh.slots| && s in sh.slots[k].messages
    ensures TableOk(r)
  {
    var slot := Stamped(sh.slots[k], now);
    var rest := slot.(messages := slot.messages - {s});
    var table := if Occupied(rest) then sh.table else sh.table - {n};
    sh.(slots := sh.slots[k := rest], table := Swept(table, n))
  }

  // ----- Threads, actions and runs -----

  datatype Phase =
    | Reading                           // waiting for a line from the FIFO
    | AtGate                            // inside the pace gate
    | Parsing                           // past the gate, line not parsed yet
    | Built                             // message built, about to enter the rendezvous
    | Waiting(slot: nat, asleep: bool, payload: int)  // inside the rendezvous with its message
    | Publishing(message: Message)      // out of the rendezvous with a stamped message
    | Stopping                          // the run loop returned or raised
    | Announcing                        // finished flag set, rendezvous not notified yet
    | Done

  datatype Thread = Thread(phase: Phase, published: nat)

  /** `stamps` is, per stream, the stamp of every message that left the rendezvous, by frame index;
      `met` the indices whose two messages were in one slot together. */
  datatype State = State(
    shared: Shared,
    threads: Pair<Thread>,
    stamps: Pair<seq<Stamp>>,
    met: set<nat>)

  datatype Action =
    | Line(s: Stream)
    | Pass(s: Stream)
    | Abort(s: Stream)
    | BadLine(s: Stream)
    | Parse(s: Stream)
    | Enter(s: Stream, message: Message, now: Stamp)
    | Wake(s: Stream, now: Stamp)
    | TimeOut(s: Stream, now: Stamp)
    | Record(s: Stream)
    | Stop(s: Stream)
    | Announce(s: Stream)
    | Notify(s: Stream)

  function Initial(tolerance: nat): State {
    State(
      Shared(tolerance, Pair(0, 0), Pair(false, false), false, map[], []),
      Pair(Thread(Reading, 0), Thread(Reading, 0)),
      Pair([], []),
      {})
  }

  function PhaseOf(st: State, s: Stream): Phase {
    st.threads.At(s).phase
  }

  function Published(st: State, s: Stream): nat {
    st.threads.At(s).published
  }

  function Goto(st: State, s: Stream, p: Phase): State {
    st.(threads := st.threads.With(s, st.threads.At(s).(phase := p)))
  }

  /** `notify_all` on the rendezvous condition, called by `s`. */
  function Rouse(st: State, s: Stream): State {
    match PhaseOf(st, s.Sibling())
    case Waiting(k, _, m) => Goto(st, s.Sibling(), Waiting(k, false, m))
    case _ => st
  }

  ghost predicate Inside(st: State, s: Stream, k: nat) {
    k < |st.shared.slots| && s in st.shared.slots[k].messages && TableOk(st.shared)
  }

  ghost predicate Enabled(st: State, a: Action) {
    var p := PhaseOf(st, a.s);
    match a
    case Line(_) => p.Reading?
    case Pass(s) => p.AtGate? && GateOpen(st.shared, s, Published(st, s))
    case Abort(s) => p.AtGate? && !GateOpen(st.shared, s, Published(st, s))
    case BadLine(_) => p.Parsing?
    case Parse(_) => p.Parsing?
    case Enter(_, _, _) => p.Built? && TableOk(st.shared)
    case Wake(s, _) => p.Waiting? && Inside(st, s, p.slot)
    case TimeOut(s, _) => p.Waiting? && Inside(st, s, p.slot) && !MayLeave(st.shared, s, p.slot)
    case Record(_) => p.Publishing?
    case Stop(_) => p.Reading? || p.Parsing? || p.Built? || p.Publishing?
    case Announce(_) => p.Stopping?
    case Notify(_) => p.Announcing?
  }

  /** Stamp, take the own message out and go on to publish it. */
  ghost function Depart(st: State, s: Stream, k: nat, now: Stamp): State
    requires Inside(st, s, k)
  {
    var out := Leaver(st.shared, s, k, now);
    var told := if st.shared.slots[k].shared.None? then Rouse(st, s) else st;
    Goto(told, s, Publishing(out)).(
      shared := Leave(st.shared, s, Published(st, s), k, now),
      stamps := st.stamps.With(s, st.stamps.At(s) + [out.timestamp]))
  }

  ghost function Arrive(st: State, s: Stream, m: Message): (r: State)
    requires TableOk(st.shared)
    ensures PhaseOf(r, s).Waiting?
  {
    var n := Published(st, s);
    var k := SlotFor(st.shared, n);
    var shared := Put(st.shared, s, n, m);
    Rouse(Goto(st, s, Waiting(k, false, m.payload)), s).(
      shared := shared,
      met := if s.Sibling() in shared.slots[k].messages then st.met + {n} else st.met)
  }

  ghost function Apply(st: State, a: Action): State
    requires Enabled(st, a)
  {
    match a
    case Line(s) => Goto(st, s, AtGate)
    case Pass(s) => Goto(st, s, Parsing)
    case Abort(s) => Goto(st, s, Stopping)
    case BadLine(s) => Goto(st, s, Reading)
    case Parse(s) =>
      Goto(st, s, Built).(shared := st.shared.(lidarReady := st.shared.lidarReady || s.Lidar?))
    case Enter(s, m, now) =>
      var inside := Arrive(st, s, m);
      var k := SlotFor(st.shared, Published(st, s));
      if MayLeave(inside.shared, s, k) then Depart(inside, s, k, now)
      else Goto(inside, s, PhaseOf(inside, s).(asleep := true))
    case Wake(s, now) =>
      var k := PhaseOf(st, s).slot;
      if MayLeave(st.shared, s, k) then Depart(st, s, k, now)
      else Goto(st, s, PhaseOf(st, s).(asleep := true))
    case TimeOut(s, now) => Depart(st, s, PhaseOf(st, s).slot, now)
    case Record(s) =>
      var n := Published(st, s) + 1;
      st.(threads := st.threads.With(s, Thread(Reading, n)),
          shared := st.shared.(counts := st.shared.counts.With(s, n)))
    case Stop(s) => Goto(st, s, Stopping)
    case Announce(s) =>
      Goto(st, s, Announcing).(
        shared := st.shared.(finished := st.shared.finished.With(s, true)))
    case Notify(s) => Rouse(Goto(st, s, Done), s)
  }

  /** The state after a whole run, or None when some action of it was not enabled. */
  ghost function After(tolerance: nat, run: seq<Action>): Option<State>
  {
    if run == [] then Some(Initial(tolerance))
    else
      var prefix := After(tolerance, run[..|run| - 1]);
      if prefix.Some? && Enabled(prefix.value, run[|run| - 1])
      then Some(Apply(prefix.value, run[|run| - 1]))
      else None
  }

  /** No rendezvous timeout fires in the run. */
  ghost predicate TimeoutFree(run: seq<Action>) {
    forall i :: 0 <= i < |run| ==> !run[i].TimeOut?
  }
}
