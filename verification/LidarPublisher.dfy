/** The shared state of the publisher process and the regions its threads run under a lock. */
module LidarPublisher {
  import opened Wrappers
  import opened PacedStreams

  datatype Verdict = Go | Halt | Hold

  const PUBLISH_PAIR: seq<Stream> := [Camera, Lidar]

  class Publisher {
    const tolerance: nat
    var counts: Pair<nat>
    var finished: Pair<bool>
    var lidarReady: bool
    var table: map<nat, nat>
    var slots: seq<Slot>

    ghost function View(): Shared
      reads this
    {
      Shared(tolerance, counts, finished, lidarReady, table, slots)
    }

    ghost predicate Valid()
      reads this
    {
      1 <= tolerance && TableOk(View())
    }

    constructor (configured: int)
      ensures Valid() && View() == Initial(tolerance).shared
      ensures tolerance == if configured < 1 then 1 else configured
    {
      tolerance := if configured < 1 then 1 else configured;
      counts := Pair(0, 0);
      finished := Pair(false, false);
      lidarReady := false;
      table := map[];
      slots := [];
    }

    /** One evaluation of the pace gate: go on, stop because the pipeline exited, or keep waiting. */
    method CheckPace(s: Stream, published: nat, exited: bool) returns (verdict: Verdict)
      requires Valid()
      ensures verdict.Go? <==> GateOpen(View(), s, published)
      ensures verdict.Halt? <==> !GateOpen(View(), s, published) && exited
    {
      var startupHold := s.Camera? && !lidarReady;
      if finished.At(s.Sibling()) {
        return Go;
      }
      var ahead := published - counts.At(s.Sibling());
      if !startupHold && ahead < tolerance {
        return Go;
      }
      return if exited then Halt else Hold;
    }

    method ReleaseCamera()
      requires Valid()
      modifies this`lidarReady
      ensures Valid() && View() == old(View()).(lidarReady := true)
    {
      if !lidarReady {
        lidarReady := true;
      }
    }

    method RecordFrame(s: Stream, published: nat)
      requires Valid()
      modifies this`counts
      ensures Valid() && View() == old(View()).(counts := old(counts).With(s, published))
    {
      counts := counts.With(s, published);
    }

    method MarkFinished(s: Stream)
      requires Valid()
      modifies this`finished
      ensures Valid() && View() == old(View()).(finished := old(finished).With(s, true))
    {
      finished := finished.With(s, true);
    }

    /** Put the message into the slot of frame `n`, and leave at once if there is nothing to wait for. */
    method EnterRendezvous(s: Stream, n: nat, m: Message, now: Stamp) returns (k: nat, out: Option<Message>)
      requires Valid()
      modifies this`table, this`slots
      ensures Valid() && k == SlotFor(old(View()), n)
      ensures var inside := Put(old(View()), s, n, m);
              if MayLeave(inside, s, k)
              then View() == Leave(inside, s, n, k, now) && out == Some(Leaver(inside, s, k, now))
              else View() == inside && out == None
      ensures out.Some? ==>
                && out.value.payload == m.payload
                && out.value.timestamp
                   == if n in old(table) && old(slots)[old(table)[n]].shared.Some?
                      then old(slots)[old(table)[n]].shared.value
                      else now
    {
      if n !in table {
        table := table[n := |slots|];
        slots := slots + [Slot(n, map[], None)];
      }
      k := table[n];
      slots := slots[k := slots[k].(messages := slots[k].messages[s := m])];
      assert old(table)[n := k] == table;
      out := LeaveIfReady(s, n, k, now, false);
    }

    /** One turn of the wait loop; `expired` says that the deadline has passed. */
    method LeaveIfReady(s: Stream, n: nat, k: nat, now: Stamp, expired: bool) returns (out: Option<Message>)
      requires Valid() && k < |slots| && s in slots[k].messages
      modifies this`table, this`slots
      ensures Valid()
      ensures if old(MayLeave(View(), s, k)) || expired
              then View() == Leave(old(View()), s, n, k, now) && out == Some(Leaver(old(View()), s, k, now))
              else View() == old(View()) && out == None
      ensures out.Some? ==>
                && out.value.payload == old(slots[k].messages[s].payload)
                && out.value.timestamp == if old(slots[k].shared.Some?) then old(slots[k].shared.value) else now
    {
      var siblingReady := s.Sibling() in slots[k].messages;
      var siblingGone := finished.At(s.Sibling());
      if slots[k].shared.None? && !siblingReady && !siblingGone && !expired {
        return None;
      }
      StampSlot(k, now);
      var m := slots[k].messages[s];
      out := Some(m.(timestamp := slots[k].shared.value));
      slots := slots[k := slots[k].(messages := slots[k].messages - {s})];
      if !Occupied(slots[k]) {
        table := table - {n};
      }
      Sweep(n);
    }

    method StampSlot(k: nat, now: Stamp)
      requires Valid() && k < |slots|
      modifies this`slots
      ensures Valid() && View() == old(View()).(slots := old(slots)[k := Stamped(old(slots)[k], now)])
      ensures k < |slots| && slots[k].shared == if old(slots[k].shared.Some?) then old(slots[k].shared) else Some(now)
      ensures slots[k].messages.Keys == old(slots[k].messages.Keys)
      ensures forall s :: s in slots[k].messages ==>
                && slots[k].messages[s].payload == old(slots[k].messages)[s].payload
                && (old(slots[k].shared.None?) ==> slots[k].messages[s].timestamp == now)
    {
      if slots[k].shared.Some? {
        assert slots == slots[k := slots[k]];
        return;
      }
      slots := slots[k := slots[k].(shared := Some(now))];
      for i := 0 to |PUBLISH_PAIR|
        invariant |slots| == old(|slots|)
        invariant slots == old(slots)[k := slots[k]]
        invariant slots[k].index == old(slots[k].index) && slots[k].shared == Some(now)
        invariant slots[k].messages.Keys == old(slots[k].messages.Keys)
        invariant forall s :: s in slots[k].messages ==>
                    slots[k].messages[s] ==
                      if s in PUBLISH_PAIR[..i] then old(slots[k].messages[s]).(timestamp := now)
                      else old(slots[k].messages[s])
      {
        var key := PUBLISH_PAIR[i];
        if key in slots[k].messages {
          var pending := slots[k].messages[key];
          slots := slots[k := slots[k].(messages := slots[k].messages[key := pending.(timestamp := now)])];
        }
      }
      forall s: Stream ensures s in PUBLISH_PAIR[..|PUBLISH_PAIR|] {
        assert PUBLISH_PAIR[if s.Camera? then 0 else 1] == s;
      }
      assert slots[k].messages == Stamped(old(slots[k]), now).messages;
    }

    /** Drop every table entry more than the sweep window behind `n`. */
    method Sweep(n: nat)
      requires Valid()
      modifies this`table
      ensures Valid() && View() == old(View()).(table := Swept(old(table), n))
    {
      var stale: set<nat> := set i: nat | i in table && i < n - SWEEP_WINDOW;
      while stale != {}
        invariant Valid() && Swept(table, n) == Swept(old(table), n)
        invariant forall i :: i in table && i < n - SWEEP_WINDOW ==> i in stale
        invariant forall i :: i in stale ==> i in table && i < n - SWEEP_WINDOW
        decreases |stale|
      {
        var idx: nat :| idx in stale;
        table := table - {idx};
        stale := stale - {idx};
      }
      assert table == Swept(table, n);
    }
  }
}
