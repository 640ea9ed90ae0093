/**
 Calibration reloads of the positioning service as a state machine: MQTT callbacks invalidate a source
 and queue it, one refresher thread takes it from the queue, captures its generation, reads the
 Manager and hands the result to the resolver. Each action is one locked region or one call outside
 every lock.
 */
module CalibrationReload {
  import opened Wrappers

  type Source = string

  /** The content of a calibration. */
  type Calibration = int

  /** What the resolver keeps per source; `resets` counts how often motion continuity was dropped. */
  datatype Entry = Entry(generation: nat, pending: bool, calibration: Option<Calibration>, resets: nat)

  /** How one load ends: a calibration, a rejection, or an error that leaves everything unchanged. */
  datatype Outcome = Loaded(calibration: Calibration) | Rejected | TransportError

  // ----- The resolver's regions -----

  function Invalidated(e: Entry): Entry {
    e.(generation := e.generation + 1, pending := true)
  }

  /** The result is applied unless an invalidation came after `generation` was captured. */
  function Updated(e: Entry, calibration: Option<Calibration>, generation: nat): Entry {
    if generation != e.generation then e
    else if calibration == e.calibration then e.(pending := false)
    else e.(pending := false, calibration := calibration, resets := e.resets + 1)
  }

  function Reloaded(e: Entry, outcome: Outcome, generation: nat): Entry {
    match outcome
    case Loaded(c) => Updated(e, Some(c), generation)
    case Rejected => Updated(e, None, generation)
    case TransportError => e
  }

  // ----- State and actions -----

  /** Where the refresher is. `rest` holds the sources a full refresh has still to reload. */
  datatype Refresher =
    | NotStarted
    | Idle
    | Dequeued(source: Source)
    | Due(source: Source, rest: seq<Source>)
    | Fetching(source: Source, generation: nat, rest: seq<Source>)
    | Fetched(source: Source, generation: nat, outcome: Outcome, rest: seq<Source>)
    | Stopped

  /** One source: its resolver entry, the calibration the Manager has for it, and history: the
      generation last captured and last accepted, whether the last attempt at the present generation
      ended in a transport error, and whether the Manager has changed it with no invalidation since. */
  datatype Info = Info(
    entry: Entry,
    manager: Calibration,
    captured: nat,
    accepted: nat,
    failed: bool,
    unannounced: bool)

  /** `callbacks` holds the sources that callbacks have invalidated but not queued yet. */
  datatype State = State(
    sources: seq<Source>,
    queue: seq<Source>,
    pending: set<Source>,
    info: map<Source, Info>,
    refresher: Refresher,
    callbacks: multiset<Source>)

  datatype Action =
    | Change(source: Source, calibration: Calibration)
    | Invalidate(source: Source)
    | Enqueue(source: Source)
    | Connect
    | Dequeue
    | Discard
    | RefreshAll
    | Capture
    | Load(rejected: bool, reachable: bool)
    | Finish
    | Stop

  function Capacity(sources: seq<Source>): nat {
    if |sources| > 1 then |sources| else 1
  }

  /** `put_nowait` raises when the queue is full. */
  predicate QueueFull(st: State) {
    |st.queue| == Capacity(st.sources)
  }

  ghost predicate Shaped(st: State) {
    forall s :: s in st.sources ==> s in st.info
  }

  /** The service starts with whatever the initial loads gave: the Manager's calibration or none. */
  ghost predicate Start(st: State) {
    && st.queue == [] && st.pending == {} && st.refresher == NotStarted && st.callbacks == multiset{}
    && Shaped(st)
    && forall s :: s in st.sources ==> Fresh(st.info[s])
  }

  ghost predicate Fresh(i: Info) {
    && (i.entry == Entry(0, false, None, 0) || i.entry == Entry(0, false, Some(i.manager), 0))
    && i.captured == 0 && i.accepted == 0 && !i.failed && !i.unannounced
  }

  ghost predicate Enabled(st: State, a: Action) {
    && Shaped(st)
    && match a
       case Change(s, _) => s in st.sources
       case Invalidate(s) => s in st.sources
       case Enqueue(s) => s in st.callbacks
       case Connect => true
       case Dequeue => st.refresher.Idle? && st.queue != []
       case Discard => st.refresher.Dequeued?
       case RefreshAll => st.refresher.Idle? && st.sources != []
       case Capture => st.refresher.Due? && st.refresher.source in st.sources
       case Load(_, _) => st.refresher.Fetching? && st.refresher.source in st.sources
       case Finish => st.refresher.Fetched? && st.refresher.source in st.sources
       case Stop => st.refresher.Idle?
  }

  function NextDue(rest: seq<Source>): Refresher {
    if rest == [] then Idle else Due(rest[0], rest[1..])
  }

  function Queued(st: State, s: Source): State {
    if s in st.pending then st
    else st.(queue := st.queue + [s], pending := st.pending + {s})
  }

  function Changed(i: Info, c: Calibration): Info {
    i.(manager := c, unannounced := true)
  }

  function AfterInvalidation(i: Info): Info {
    i.(entry := Invalidated(i.entry), failed := false, unannounced := false)
  }

  function Settled(i: Info, outcome: Outcome, generation: nat): Info {
    var done := i.(entry := Reloaded(i.entry, outcome, generation));
    if generation != i.entry.generation then done
    else if outcome.TransportError? then done.(failed := true)
    else done.(accepted := generation, failed := false)
  }

  ghost function Apply(st: State, a: Action): State
    requires Enabled(st, a)
  {
    match a
    case Change(s, c) => st.(info := st.info[s := Changed(st.info[s], c)])
    case Invalidate(s) =>
      st.(info := st.info[s := AfterInvalidation(st.info[s])], callbacks := st.callbacks + multiset{s})
    case Enqueue(s) => Queued(st, s).(callbacks := st.callbacks - multiset{s})
    case Connect => if st.refresher.NotStarted? then st.(refresher := Idle) else st
    case Dequeue => st.(refresher := Dequeued(st.queue[0]), queue := st.queue[1..])
    case Discard =>
      st.(refresher := Due(st.refresher.source, []), pending := st.pending - {st.refresher.source})
    case RefreshAll => st.(refresher := NextDue(st.sources))
    case Capture =>
      var s, g := st.refresher.source, st.info[st.refresher.source].entry.generation;
      st.(refresher := Fetching(s, g, st.refresher.rest), info := st.info[s := st.info[s].(captured := g)])
    case Load(rejected, reachable) =>
      var s := st.refresher.source;
      var outcome :=
        if !reachable then TransportError else if rejected then Rejected else Loaded(st.info[s].manager);
      st.(refresher := Fetched(s, st.refresher.generation, outcome, st.refresher.rest))
    case Finish =>
      var s := st.refresher.source;
      st.(info := st.info[s := Settled(st.info[s], st.refresher.outcome, st.refresher.generation)],
          refresher := NextDue(st.refresher.rest))
    case Stop => st.(refresher := Stopped)
  }

  /** The state after a whole run, or None when some action of it was not enabled. */
  ghost function Ran(start: State, run: seq<Action>): Option<State> {
    if run == [] then Some(start)
    else
      var prefix := Ran(start, run[..|run| - 1]);
      if prefix.Some? && Enabled(prefix.value, run[|run| - 1])
      then Some(Apply(prefix.value, run[|run| - 1]))
      else None
  }
}
