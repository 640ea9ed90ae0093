/** What every action of the two publisher threads keeps, in any interleaving. */
module PacedStreamsInvariant {
  import opened Wrappers
  import opened PacedStreams

  ghost predicate PastGate(p: Phase) {
    p.Parsing? || p.Built? || p.Waiting? || p.Publishing?
  }

  /** The message of stream `s` for index `n` has left the rendezvous. */
  ghost predicate Left(st: State, s: Stream, n: nat) {
    n < |st.stamps.At(s)|
  }

  /** Counters, finished flag, gate and start-up hold of one stream. */
  ghost predicate ThreadOk(st: State, s: Stream) {
    var p := PhaseOf(st, s);
    var n := Published(st, s);
    var sh := st.shared;
    var o := s.Sibling();
    && sh.counts.At(s) == n
    && (sh.finished.At(s) <==> p.Announcing? || p.Done?)
    && n <= |st.stamps.At(s)| <= n + 1
    && (p.Publishing? ==> |st.stamps.At(s)| == n + 1)
    && (p.Reading? || p.AtGate? || p.Parsing? || p.Built? || p.Waiting? ==> |st.stamps.At(s)| == n)
    && (PastGate(p) ==> sh.finished.At(o) || n < sh.counts.At(o) + sh.tolerance)
    && (sh.finished.At(o) || n <= sh.counts.At(o) + sh.tolerance)
    && (s.Lidar? && (p.Built? || p.Waiting? || p.Publishing? || n > 0) ==> sh.lidarReady)
    && (s.Camera? && (PastGate(p) || n > 0) ==> sh.lidarReady || sh.finished.lidar)
  }

  /** A stream inside the rendezvous has its message in its slot, and the slot is for its index. */
  ghost predicate HoldsSlot(st: State, s: Stream) {
    var p := PhaseOf(st, s);
    p.Waiting? ==>
      && p.slot < |st.shared.slots|
      && s in st.shared.slots[p.slot].messages
      && st.shared.slots[p.slot].messages[s].payload == p.payload
      && st.shared.slots[p.slot].index == Published(st, s)
      && (st.shared.slots[p.slot].shared.Some? ==> Published(st, s) in st.met)
  }

  /** Every entry of the table is an occupied slot for its index. */
  ghost predicate EntriesOk(st: State) {
    && TableOk(st.shared)
    && (forall n :: n in st.shared.table ==> st.shared.slots[st.shared.table[n]].index == n)
    && (forall n :: n in st.shared.table ==> Occupied(st.shared.slots[st.shared.table[n]]))
  }

  /** A message is in a slot only while its stream waits there. */
  ghost predicate MessagesOk(st: State) {
    forall k: nat, s: Stream :: k < |st.shared.slots| && s in st.shared.slots[k].messages ==>
      PhaseOf(st, s).Waiting? && PhaseOf(st, s).slot == k
  }

  ghost predicate SlotsOk(st: State) {
    && EntriesOk(st) && MessagesOk(st)
    && HoldsSlot(st, Camera) && HoldsSlot(st, Lidar)
    && (PhaseOf(st, Camera).Waiting? && PhaseOf(st, Lidar).Waiting? ==>
          PhaseOf(st, Camera).slot != PhaseOf(st, Lidar).slot)
  }

  /** Index `n` was met: whoever is not out yet waits in a slot that already carries the stamp the
      sibling left with; once both are out they carry one stamp. */
  ghost predicate MetOk(st: State, n: nat) {
    && (Left(st, Camera, n) || Left(st, Lidar, n))
    && StillIn(st, Camera, n) && StillIn(st, Lidar, n)
    && (Left(st, Camera, n) && Left(st, Lidar, n) ==> st.stamps.camera[n] == st.stamps.lidar[n])
  }

  ghost predicate StillIn(st: State, s: Stream, n: nat) {
    var p := PhaseOf(st, s);
    !Left(st, s, n) ==>
      && p.Waiting? && Published(st, s) == n
      && p.slot < |st.shared.slots|
      && Left(st, s.Sibling(), n)
      && st.shared.slots[p.slot].shared == Some(st.stamps.At(s.Sibling())[n])
  }

  /** A stream asleep in the rendezvous has nothing to leave for, unless the sibling has set its
      finished flag and is about to notify. */
  ghost predicate AwakeOk(st: State, s: Stream) {
    var p := PhaseOf(st, s);
    p.Waiting? && p.asleep && p.slot < |st.shared.slots| && MayLeave(st.shared, s, p.slot) ==>
      PhaseOf(st, s.Sibling()).Announcing?
  }

  /** The slot of a stream inside the rendezvous is the one the table has for its index. */
  ghost predicate InTable(st: State, s: Stream) {
    PhaseOf(st, s).Waiting? ==>
      && Published(st, s) in st.shared.table
      && st.shared.table[Published(st, s)] == PhaseOf(st, s).slot
  }

  /** Only a sibling already past its index can have removed the slot of a waiting stream. */
  ghost predicate InTableOrPassed(st: State, s: Stream) {
    PhaseOf(st, s).Waiting? && !Left(st, s.Sibling(), Published(st, s)) ==> InTable(st, s)
  }

  /** Without timeouts a message leaves only after a meeting or past a finished sibling. */
  ghost predicate QuietOk(st: State, s: Stream) {
    forall n: nat :: Left(st, s, n) ==>
      n in st.met || (st.shared.finished.At(s.Sibling()) && !Left(st, s.Sibling(), n))
  }

  ghost predicate Invariant(st: State, quiet: bool) {
    && 1 <= st.shared.tolerance
    && ThreadOk(st, Camera) && ThreadOk(st, Lidar)
    && SlotsOk(st)
    && (forall n :: n in st.met ==> MetOk(st, n))
    && AwakeOk(st, Camera) && AwakeOk(st, Lidar)
    && InTableOrPassed(st, Camera) && InTableOrPassed(st, Lidar)
    && (quiet || st.shared.tolerance <= SWEEP_WINDOW + 1 ==> InTable(st, Camera) && InTable(st, Lidar))
    && (quiet ==> QuietOk(st, Camera) && QuietOk(st, Lidar))
  }

  lemma InitialOk(tolerance: nat, quiet: bool)
    requires 1 <= tolerance
    ensures Invariant(Initial(tolerance), quiet)
  {
  }

  /** Nothing about the rendezvous changed except, perhaps, who is asleep. */
  ghost predicate SameRendezvous(st: State, next: State) {
    && next.shared.slots == st.shared.slots && next.shared.table == st.shared.table
    && next.shared.tolerance == st.shared.tolerance
    && next.stamps == st.stamps && next.met == st.met
    && SameWait(st, next, Camera) && SameWait(st, next, Lidar)
  }

  ghost predicate SameWait(st: State, next: State, s: Stream) {
    var p, q := PhaseOf(st, s), PhaseOf(next, s);
    && (p.Waiting? <==> q.Waiting?)
    && (p.Waiting? ==> q.slot == p.slot && q.payload == p.payload && Published(next, s) == Published(st, s))
    && (st.shared.finished.At(s) ==> next.shared.finished.At(s))
  }

  lemma SameSlotsOk(st: State, next: State)
    requires SlotsOk(st) && SameRendezvous(st, next)
    ensures SlotsOk(next)
  {
  }

  lemma SameMetOk(st: State, next: State)
    requires SameRendezvous(st, next)
    requires forall n :: n in st.met ==> MetOk(st, n)
    ensures forall n :: n in next.met ==> MetOk(next, n)
  {
    forall n | n in next.met ensures MetOk(next, n) {
      assert MetOk(st, n);
    }
  }

  lemma SameQuietOk(st: State, next: State, s: Stream)
    requires SameRendezvous(st, next) && QuietOk(st, s)
    ensures QuietOk(next, s)
  {
    forall n: nat | Left(next, s, n)
      ensures n in next.met || (next.shared.finished.At(s.Sibling()) && !Left(next, s.Sibling(), n))
    {
      assert Left(st, s, n);
    }
  }

  lemma SameRendezvousKeeps(st: State, next: State, quiet: bool)
    requires Invariant(st, quiet) && SameRendezvous(st, next)
    requires ThreadOk(next, Camera) && ThreadOk(next, Lidar)
    requires AwakeOk(next, Camera) && AwakeOk(next, Lidar)
    ensures Invariant(next, quiet)
  {
    SameSlotsOk(st, next);
    SameMetOk(st, next);
    if quiet {
      SameQuietOk(st, next, Camera);
      SameQuietOk(st, next, Lidar);
    }
  }

  ghost predicate Local(a: Action) {
    !a.Enter? && !a.Wake? && !a.TimeOut?
  }

  lemma LocalSame(st: State, a: Action)
    requires Enabled(st, a) && Local(a)
    ensures SameRendezvous(st, Apply(st, a))
  {
  }

  lemma LocalThreads(st: State, a: Action, s: Stream)
    requires Enabled(st, a) && Local(a)
    requires ThreadOk(st, Camera) && ThreadOk(st, Lidar)
    ensures ThreadOk(Apply(st, a), s)
  {
    if a.s == s {
      OwnThread(st, a);
    } else {
      OtherThread(st, a);
    }
  }

  lemma OwnThread(st: State, a: Action)
    requires Enabled(st, a) && Local(a)
    requires ThreadOk(st, a.s)
    ensures ThreadOk(Apply(st, a), a.s)
  {
  }

  lemma OtherThread(st: State, a: Action)
    requires Enabled(st, a) && Local(a)
    requires ThreadOk(st, Camera) && ThreadOk(st, Lidar)
    ensures ThreadOk(Apply(st, a), a.s.Sibling())
  {
    if a.Record? || a.Announce? || a.Notify? {
      OtherThreadTold(st, a);
    } else {
      OtherThreadAlone(st, a);
    }
  }

  /** Steps that change what the sibling's gate looks at, or wake it. */
  lemma OtherThreadTold(st: State, a: Action)
    requires Enabled(st, a) && (a.Record? || a.Announce? || a.Notify?)
    requires ThreadOk(st, Camera) && ThreadOk(st, Lidar)
    ensures ThreadOk(Apply(st, a), a.s.Sibling())
  {
    var o := a.s.Sibling();
    assert st.threads.At(o).published == Apply(st, a).threads.At(o).published;
  }

  lemma OtherThreadAlone(st: State, a: Action)
    requires Enabled(st, a) && Local(a) && !a.Record? && !a.Announce? && !a.Notify?
    requires ThreadOk(st, a.s.Sibling())
    ensures ThreadOk(Apply(st, a), a.s.Sibling())
  {
    assert Apply(st, a).threads.At(a.s.Sibling()) == st.threads.At(a.s.Sibling());
  }

  lemma LocalAwake(st: State, a: Action, s: Stream)
    requires Enabled(st, a) && Local(a)
    requires AwakeOk(st, s)
    ensures AwakeOk(Apply(st, a), s)
  {
  }

  lemma LocalKeeps(st: State, a: Action, quiet: bool)
    requires Invariant(st, quiet) && Enabled(st, a) && Local(a)
    ensures Invariant(Apply(st, a), quiet)
  {
    LocalSame(st, a);
    LocalThreads(st, a, Camera);
    LocalThreads(st, a, Lidar);
    LocalAwake(st, a, Camera);
    LocalAwake(st, a, Lidar);
    SameRendezvousKeeps(st, Apply(st, a), quiet);
  }

  // ----- Leaving the rendezvous -----

  /** What one departure does to the state, slot by slot. */
  lemma DepartEffect(st: State, s: Stream, k: nat, now: Stamp)
    requires Inside(st, s, k)
    ensures var next := Depart(st, s, k, now);
            var o := s.Sibling();
            var slot := next.shared.slots[k];
            && next.shared.slots == st.shared.slots[k := slot]
            && slot.index == st.shared.slots[k].index
            && (s !in slot.messages)
            && (o in slot.messages <==> o in st.shared.slots[k].messages)
            && (o in slot.messages ==> slot.messages[o].payload == st.shared.slots[k].messages[o].payload)
            && PhaseOf(next, s) == Publishing(Message(st.shared.slots[k].messages[s].payload, slot.shared.value))
            && slot.shared == (if st.shared.slots[k].shared.Some? then st.shared.slots[k].shared else Some(now))
            && next.stamps.At(s) == st.stamps.At(s) + [slot.shared.value]
            && next.stamps.At(o) == st.stamps.At(o)
            && Published(next, s) == Published(st, s) && Published(next, o) == Published(st, o)
            && (PhaseOf(st, o).Waiting? ==>
                  PhaseOf(next, o) == PhaseOf(st, o).(
                    asleep := PhaseOf(st, o).asleep && st.shared.slots[k].shared.Some?))
            && (!PhaseOf(st, o).Waiting? ==> PhaseOf(next, o) == PhaseOf(st, o))
            && next.met == st.met
  {
  }

  lemma DepartThreads(st: State, s: Stream, k: nat, now: Stamp, t: Stream)
    requires Inside(st, s, k) && PhaseOf(st, s).Waiting?
    requires ThreadOk(st, Camera) && ThreadOk(st, Lidar)
    ensures ThreadOk(Depart(st, s, k, now), t)
  {
    DepartEffect(st, s, k, now);
  }

  lemma DepartSlots(st: State, s: Stream, k: nat, now: Stamp)
    requires Inside(st, s, k) && PhaseOf(st, s).Waiting? && PhaseOf(st, s).slot == k
    requires SlotsOk(st)
    ensures SlotsOk(Depart(st, s, k, now))
  {
    DepartEntries(st, s, k, now);
    DepartMessages(st, s, k, now);
    DepartEffect(st, s, k, now);
  }

  lemma DepartEntries(st: State, s: Stream, k: nat, now: Stamp)
    requires Inside(st, s, k) && PhaseOf(st, s).Waiting? && PhaseOf(st, s).slot == k
    requires SlotsOk(st)
    ensures EntriesOk(Depart(st, s, k, now))
  {
    DepartEffect(st, s, k, now);
  }

  lemma DepartMessages(st: State, s: Stream, k: nat, now: Stamp)
    requires Inside(st, s, k) && PhaseOf(st, s).Waiting? && PhaseOf(st, s).slot == k
    requires SlotsOk(st)
    ensures MessagesOk(Depart(st, s, k, now))
  {
    DepartEffect(st, s, k, now);
  }

  lemma DepartMet(st: State, s: Stream, k: nat, now: Stamp, n: nat)
    requires Inside(st, s, k) && PhaseOf(st, s).Waiting? && PhaseOf(st, s).slot == k
    requires SlotsOk(st) && ThreadOk(st, s)
    requires MetOk(st, n)
    ensures MetOk(Depart(st, s, k, now), n)
  {
    DepartEffect(st, s, k, now);
  }

  lemma DepartAwake(st: State, s: Stream, k: nat, now: Stamp, t: Stream)
    requires Inside(st, s, k) && PhaseOf(st, s).Waiting? && PhaseOf(st, s).slot == k
    requires SlotsOk(st) && AwakeOk(st, t)
    ensures AwakeOk(Depart(st, s, k, now), t)
  {
    DepartEffect(st, s, k, now);
  }

  /** Without timeouts a stream is at most one message behind an unfinished sibling. */
  lemma QuietLag(st: State, s: Stream)
    requires ThreadOk(st, s.Sibling()) && QuietOk(st, s)
    requires forall n :: n in st.met ==> MetOk(st, n)
    requires !st.shared.finished.At(s.Sibling())
    ensures |st.stamps.At(s)| <= |st.stamps.At(s.Sibling())| + 1
  {
    var n := |st.stamps.At(s)|;
    if n > 0 {
      assert Left(st, s, n - 1);
      assert MetOk(st, n - 1);
    }
  }

  lemma DepartInTableOrPassed(st: State, s: Stream, k: nat, now: Stamp, t: Stream)
    requires Inside(st, s, k) && PhaseOf(st, s).Waiting? && PhaseOf(st, s).slot == k
    requires SlotsOk(st) && ThreadOk(st, s)
    requires InTableOrPassed(st, t)
    ensures InTableOrPassed(Depart(st, s, k, now), t)
  {
    DepartEffect(st, s, k, now);
  }

  lemma DepartInTable(st: State, s: Stream, k: nat, now: Stamp, quiet: bool, t: Stream)
    requires Inside(st, s, k) && PhaseOf(st, s).Waiting? && PhaseOf(st, s).slot == k
    requires Invariant(st, quiet)
    requires quiet || st.shared.tolerance <= SWEEP_WINDOW + 1
    ensures InTable(Depart(st, s, k, now), t)
  {
    DepartEffect(st, s, k, now);
    if t != s && PhaseOf(st, t).Waiting? && quiet {
      QuietLag(st, s);
    }
  }

  lemma DepartQuiet(st: State, s: Stream, k: nat, now: Stamp, t: Stream)
    requires Inside(st, s, k) && PhaseOf(st, s).Waiting? && PhaseOf(st, s).slot == k
    requires Invariant(st, true) && MayLeave(st.shared, s, k)
    ensures QuietOk(Depart(st, s, k, now), t)
  {
    DepartEffect(st, s, k, now);
    var next := Depart(st, s, k, now);
    forall n: nat | Left(next, t, n)
      ensures n in next.met || (next.shared.finished.At(t.Sibling()) && !Left(next, t.Sibling(), n))
    {
      if Left(st, t, n) {
      } else if Left(st, t.Sibling(), n) {
        assert n in st.met;
      }
    }
  }

  lemma DepartKeeps(st: State, s: Stream, k: nat, now: Stamp, quiet: bool)
    requires Inside(st, s, k) && PhaseOf(st, s).Waiting? && PhaseOf(st, s).slot == k
    requires Invariant(st, quiet) && (quiet ==> MayLeave(st.shared, s, k))
    ensures Invariant(Depart(st, s, k, now), quiet)
  {
    var next := Depart(st, s, k, now);
    DepartEffect(st, s, k, now);
    DepartSlots(st, s, k, now);
    forall n | n in next.met ensures MetOk(next, n) {
      DepartMet(st, s, k, now, n);
    }
    forall t: Stream
      ensures ThreadOk(next, t) && AwakeOk(next, t) && InTableOrPassed(next, t)
    {
      DepartThreads(st, s, k, now, t);
      DepartInTableOrPassed(st, s, k, now, t);
      DepartAwake(st, s, k, now, t);
    }
    forall t: Stream | quiet || st.shared.tolerance <= SWEEP_WINDOW + 1
      ensures InTable(next, t)
    {
      DepartInTable(st, s, k, now, quiet, t);
    }
    forall t: Stream | quiet ensures QuietOk(next, t) {
      DepartQuiet(st, s, k, now, t);
    }
  }

  // ----- Entering the rendezvous -----

  /** The slot a stream is about to enter is new, or the sibling waits in it unstamped. */
  lemma EnterCases(st: State, s: Stream, quiet: bool)
    requires Invariant(st, quiet) && PhaseOf(st, s).Built?
    ensures var n, o := Published(st, s), s.Sibling();
            && n !in st.met
            && (n in st.shared.table ==>
                  && PhaseOf(st, o).Waiting? && PhaseOf(st, o).slot == st.shared.table[n]
                  && Published(st, o) == n
                  && st.shared.slots[st.shared.table[n]].messages.Keys == {o}
                  && st.shared.slots[st.shared.table[n]].shared.None?)
  {
    var n := Published(st, s);
    assert n in st.met ==> MetOk(st, n);
    if n in st.shared.table {
      var slot := st.shared.slots[st.shared.table[n]];
      assert slot.index == n && Occupied(slot);
      assert s !in slot.messages;
      assert forall t :: t in slot.messages ==> t == s.Sibling();
    }
  }

  lemma ArriveEffect(st: State, s: Stream, m: Message, quiet: bool)
    requires Invariant(st, quiet) && PhaseOf(st, s).Built?
    ensures var next := Arrive(st, s, m);
            var n, k, o := Published(st, s), SlotFor(st.shared, Published(st, s)), s.Sibling();
            && Inside(next, s, k)
            && PhaseOf(next, s) == Waiting(k, false, m.payload)
            && next.shared.slots[k].messages[s].payload == m.payload
            && Published(next, s) == n && Published(next, o) == Published(st, o)
            && next.stamps == st.stamps
            && next.shared.table == st.shared.table[n := k]
            && next.shared.slots[k].index == n
            && next.shared.slots[k].shared.None?
            && |next.shared.slots| == (if n in st.shared.table then |st.shared.slots| else |st.shared.slots| + 1)
            && (forall i :: 0 <= i < |st.shared.slots| && i != k ==> next.shared.slots[i] == st.shared.slots[i])
            && (PhaseOf(st, o).Waiting? ==> PhaseOf(next, o) == PhaseOf(st, o).(asleep := false))
            && (o in next.shared.slots[k].messages ==>
                  next.shared.slots[k].messages[o] == st.shared.slots[k].messages[o])
            && (!PhaseOf(st, o).Waiting? ==> PhaseOf(next, o) == PhaseOf(st, o))
            && (o in next.shared.slots[k].messages <==> n in st.shared.table)
            && next.met == (if n in st.shared.table then st.met + {n} else st.met)
            && next.shared.finished == st.shared.finished
            && next.shared.counts == st.shared.counts
            && next.shared.tolerance == st.shared.tolerance
            && next.shared.lidarReady == st.shared.lidarReady
  {
    EnterCases(st, s, quiet);
  }

  lemma ArriveThreads(st: State, s: Stream, m: Message, quiet: bool, t: Stream)
    requires Invariant(st, quiet) && PhaseOf(st, s).Built?
    ensures ThreadOk(Arrive(st, s, m), t)
  {
    ArriveEffect(st, s, m, quiet);
  }

  lemma ArriveAloneSlots(st: State, s: Stream, m: Message, quiet: bool)
    requires Invariant(st, quiet) && PhaseOf(st, s).Built?
    requires Published(st, s) !in st.shared.table
    ensures SlotsOk(Arrive(st, s, m))
  {
    ArriveEffect(st, s, m, quiet);
    ArriveAloneEntries(st, s, m, quiet);
    ArriveAloneMessages(st, s, m, quiet);
  }

  lemma ArriveAloneEntries(st: State, s: Stream, m: Message, quiet: bool)
    requires Invariant(st, quiet) && PhaseOf(st, s).Built?
    requires Published(st, s) !in st.shared.table
    ensures EntriesOk(Arrive(st, s, m))
  {
    ArriveEffect(st, s, m, quiet);
  }

  lemma ArriveAloneMessages(st: State, s: Stream, m: Message, quiet: bool)
    requires Invariant(st, quiet) && PhaseOf(st, s).Built?
    requires Published(st, s) !in st.shared.table
    ensures MessagesOk(Arrive(st, s, m))
  {
    ArriveEffect(st, s, m, quiet);
  }

  lemma ArriveAloneKeeps(st: State, s: Stream, m: Message, quiet: bool)
    requires Invariant(st, quiet) && PhaseOf(st, s).Built?
    requires Published(st, s) !in st.shared.table
    ensures Invariant(Arrive(st, s, m), quiet)
  {
    var next := Arrive(st, s, m);
    ArriveEffect(st, s, m, quiet);
    ArriveAloneSlots(st, s, m, quiet);
    ArriveThreads(st, s, m, quiet, Camera);
    ArriveThreads(st, s, m, quiet, Lidar);
    forall n | n in next.met ensures MetOk(next, n) {
      assert MetOk(st, n);
    }
    forall t: Stream | quiet ensures QuietOk(next, t) {
      forall n: nat | Left(next, t, n)
        ensures n in next.met || (next.shared.finished.At(t.Sibling()) && !Left(next, t.Sibling(), n))
      {
        assert Left(st, t, n);
      }
    }
  }

  // ----- Meeting: the sibling is already in the slot -----

  ghost predicate Meets(st: State, s: Stream, quiet: bool) {
    Invariant(st, quiet) && PhaseOf(st, s).Built? && Published(st, s) in st.shared.table
  }

  /** The state after `s` enters a slot in which the sibling waits: it stamps both and leaves. */
  ghost function AfterMeeting(st: State, s: Stream, m: Message, now: Stamp, quiet: bool): State
    requires Meets(st, s, quiet)
  {
    ArriveEffect(st, s, m, quiet);
    Depart(Arrive(st, s, m), s, SlotFor(st.shared, Published(st, s)), now)
  }

  lemma MeetEffect(st: State, s: Stream, m: Message, now: Stamp, quiet: bool)
    requires Meets(st, s, quiet)
    ensures var next := AfterMeeting(st, s, m, now, quiet);
            var n, k, o := Published(st, s), st.shared.table[Published(st, s)], s.Sibling();
            && k < |st.shared.slots|
            && next.shared.slots == st.shared.slots[k := next.shared.slots[k]]
            && next.shared.slots[k].index == n
            && next.shared.slots[k].shared.Some?
            && s !in next.shared.slots[k].messages && o in next.shared.slots[k].messages
            && next.shared.table == Swept(st.shared.table, n)
            && PhaseOf(next, s).Publishing? && PhaseOf(next, o).Waiting?
            && PhaseOf(next, o) == PhaseOf(st, o).(asleep := false)
            && PhaseOf(next, o).slot == k
            && next.shared.slots[k].messages[o].payload == st.shared.slots[k].messages[o].payload
            && Published(next, s) == n && Published(next, o) == n
            && next.stamps.At(s) == st.stamps.At(s) + [next.shared.slots[k].shared.value]
            && next.stamps.At(o) == st.stamps.At(o)
            && next.met == st.met + {n}
            && next.shared.finished == st.shared.finished
            && next.shared.tolerance == st.shared.tolerance
  {
    EnterCases(st, s, quiet);
    ArriveEffect(st, s, m, quiet);
    var k := st.shared.table[Published(st, s)];
    var mid := Arrive(st, s, m);
    DepartEffect(mid, s, k, now);
    assert st.shared.table[Published(st, s) := k] == st.shared.table;
  }

  lemma MeetThreads(st: State, s: Stream, m: Message, now: Stamp, quiet: bool, t: Stream)
    requires Meets(st, s, quiet)
    ensures ThreadOk(AfterMeeting(st, s, m, now, quiet), t)
  {
    ArriveEffect(st, s, m, quiet);
    ArriveThreads(st, s, m, quiet, Camera);
    ArriveThreads(st, s, m, quiet, Lidar);
    DepartThreads(Arrive(st, s, m), s, st.shared.table[Published(st, s)], now, t);
  }

  lemma MeetSlots(st: State, s: Stream, m: Message, now: Stamp, quiet: bool)
    requires Meets(st, s, quiet)
    ensures SlotsOk(AfterMeeting(st, s, m, now, quiet))
  {
    EnterCases(st, s, quiet);
    MeetEffect(st, s, m, now, quiet);
    MeetEntries(st, s, m, now, quiet);
    MeetMessages(st, s, m, now, quiet);
  }

  lemma MeetEntries(st: State, s: Stream, m: Message, now: Stamp, quiet: bool)
    requires Meets(st, s, quiet)
    ensures EntriesOk(AfterMeeting(st, s, m, now, quiet))
  {
    EnterCases(st, s, quiet);
    MeetEffect(st, s, m, now, quiet);
  }

  lemma MeetMessages(st: State, s: Stream, m: Message, now: Stamp, quiet: bool)
    requires Meets(st, s, quiet)
    ensures MessagesOk(AfterMeeting(st, s, m, now, quiet))
  {
    EnterCases(st, s, quiet);
    MeetEffect(st, s, m, now, quiet);
  }

  lemma MeetMet(st: State, s: Stream, m: Message, now: Stamp, quiet: bool, n: nat)
    requires Meets(st, s, quiet)
    requires n in st.met || n == Published(st, s)
    ensures MetOk(AfterMeeting(st, s, m, now, quiet), n)
  {
    EnterCases(st, s, quiet);
    MeetEffect(st, s, m, now, quiet);
    assert n in st.met ==> MetOk(st, n);
  }

  lemma MeetQuiet(st: State, s: Stream, m: Message, now: Stamp, t: Stream)
    requires Meets(st, s, true)
    ensures QuietOk(AfterMeeting(st, s, m, now, true), t)
  {
    var next := AfterMeeting(st, s, m, now, true);
    EnterCases(st, s, true);
    MeetEffect(st, s, m, now, true);
    forall n: nat | Left(next, t, n)
      ensures n in next.met || (next.shared.finished.At(t.Sibling()) && !Left(next, t.Sibling(), n))
    {
      assert Left(st, t, n) || n == Published(st, s);
    }
  }

  lemma MeetKeeps(st: State, s: Stream, m: Message, now: Stamp, quiet: bool)
    requires Meets(st, s, quiet)
    ensures Invariant(AfterMeeting(st, s, m, now, quiet), quiet)
  {
    var next := AfterMeeting(st, s, m, now, quiet);
    EnterCases(st, s, quiet);
    MeetEffect(st, s, m, now, quiet);
    MeetSlots(st, s, m, now, quiet);
    MeetThreads(st, s, m, now, quiet, Camera);
    MeetThreads(st, s, m, now, quiet, Lidar);
    forall n | n in next.met ensures MetOk(next, n) {
      MeetMet(st, s, m, now, quiet, n);
    }
    forall t: Stream | quiet ensures QuietOk(next, t) {
      MeetQuiet(st, s, m, now, t);
    }
  }

  // ----- All actions -----

  lemma EnterKeeps(st: State, s: Stream, m: Message, now: Stamp, quiet: bool)
    requires Invariant(st, quiet) && Enabled(st, Enter(s, m, now))
    ensures Invariant(Apply(st, Enter(s, m, now)), quiet)
  {
    var next := Arrive(st, s, m);
    var k := SlotFor(st.shared, Published(st, s));
    ArriveEffect(st, s, m, quiet);
    if Published(st, s) in st.shared.table {
      MeetKeeps(st, s, m, now, quiet);
    } else {
      ArriveAloneKeeps(st, s, m, quiet);
      if MayLeave(next.shared, s, k) {
        DepartKeeps(next, s, k, now, quiet);
      } else {
        SleepKeeps(next, s, k, quiet);
      }
    }
  }

  lemma SleepKeeps(st: State, s: Stream, k: nat, quiet: bool)
    requires Invariant(st, quiet) && Inside(st, s, k)
    requires PhaseOf(st, s).Waiting? && PhaseOf(st, s).slot == k && !MayLeave(st.shared, s, k)
    ensures Invariant(Goto(st, s, PhaseOf(st, s).(asleep := true)), quiet)
  {
    SameRendezvousKeeps(st, Goto(st, s, PhaseOf(st, s).(asleep := true)), quiet);
  }

  /** Every action keeps the invariant; a timeout only the part that does not speak of quiet runs. */
  lemma StepKeeps(st: State, a: Action, quiet: bool)
    requires Invariant(st, quiet) && Enabled(st, a)
    requires quiet ==> !a.TimeOut?
    ensures Invariant(Apply(st, a), quiet)
  {
    match a
    case Enter(s, m, now) => EnterKeeps(st, s, m, now, quiet);
    case Wake(s, now) =>
      var k := PhaseOf(st, s).slot;
      if MayLeave(st.shared, s, k) {
        DepartKeeps(st, s, k, now, quiet);
      } else {
        SleepKeeps(st, s, k, quiet);
      }
    case TimeOut(s, now) => DepartKeeps(st, s, PhaseOf(st, s).slot, now, quiet);
    case _ => LocalKeeps(st, a, quiet);
  }

  /** The invariant holds after every run. */
  lemma {:induction false} RunKeeps(tolerance: nat, run: seq<Action>)
    requires 1 <= tolerance && After(tolerance, run).Some?
    ensures Invariant(After(tolerance, run).value, TimeoutFree(run))
    decreases |run|
  {
    if run == [] {
      InitialOk(tolerance, true);
    } else {
      var prefix, a := run[..|run| - 1], run[|run| - 1];
      RunKeeps(tolerance, prefix);
      var quiet := TimeoutFree(run);
      assert quiet ==> TimeoutFree(prefix);
      Weaken(After(tolerance, prefix).value, TimeoutFree(prefix), quiet);
      StepKeeps(After(tolerance, prefix).value, a, quiet);
    }
  }

  lemma Weaken(st: State, strong: bool, quiet: bool)
    requires Invariant(st, strong) && (quiet ==> strong)
    ensures Invariant(st, quiet)
  {
  }
}
