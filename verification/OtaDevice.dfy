/**
 The relay as the firmware keeps it, fixed arrays updated in place, each entry point proved equal to the
 corresponding case of `OtaRelay.Handle`; and the PC sender's burst loop on top of it.
 */
module OtaDevice {
  import opened Wrappers
  import opened OtaRelay
  import opened OtaWindow

  class Device {
    var active: bool
    var numTargets: nat
    var ringHead: nat
    const targetIds: array<nat>
    const ring: array<Entry>
    const tracker: array<Tracker>
    const tombstone: array<Option<nat>>

    ghost predicate Valid()
      reads this, targetIds
    {
      && targetIds.Length == PARALLEL && ring.Length == RING
      && tracker.Length == TRACKERS && tombstone.Length == TRACKERS
      && numTargets <= PARALLEL
      && forall i :: 0 <= i < numTargets ==> targetIds[i] < TRACKERS
    }

    ghost function View(): (r: Relay)
      reads this, targetIds, ring, tracker, tombstone
      requires Valid()
      ensures Shape(r) && Listed(r)
    {
      Relay(active, targetIds[..numTargets], ring[..], ringHead, tracker[..], tombstone[..])
    }

    constructor ()
      ensures Valid() && SessionOk(View()) && !active
      ensures fresh(targetIds) && fresh(ring) && fresh(tracker) && fresh(tombstone)
    {
      active, numTargets, ringHead := false, 0, 0;
      targetIds := new nat[PARALLEL](_ => 0);
      ring := new Entry[RING](_ => Entry(0, []));
      tracker := new Tracker[TRACKERS](_ => ABSENT);
      tombstone := new Option<nat>[TRACKERS](_ => None);
    }

    method RingSeqMin() returns (low: nat)
      requires Valid()
      ensures low == SeqMin(ringHead, View().targets, View().tracker)
    {
      low := ringHead;
      for i := 0 to numTargets
        invariant low == SeqMin(ringHead, targetIds[..i], tracker[..])
      {
        assert targetIds[..i + 1][..i] == targetIds[..i];
        var s := tracker[targetIds[i]].nextSeq;
        if Before(s, low) {
          low := s;
        }
      }
    }

    /** Closes the gap a departing target leaves; the others keep their order. */
    method Compact(id: nat) returns (count: nat)
      requires Valid()
      modifies targetIds
      ensures count <= numTargets && targetIds[..count] == Without(old(targetIds[..numTargets]), id)
      ensures forall k :: 0 <= k < numTargets ==> targetIds[k] < TRACKERS
    {
      ghost var targets := targetIds[..numTargets];
      count := 0;
      for i := 0 to numTargets
        invariant count <= i && forall k :: i <= k < numTargets ==> targetIds[k] == targets[k]
        invariant targetIds[..count] == Without(targets[..i], id)
        invariant forall k :: 0 <= k < numTargets ==> targetIds[k] < TRACKERS
        modifies targetIds
      {
        assert targets[..i + 1][..i] == targets[..i];
        if targetIds[i] != id {
          targetIds[count] := targetIds[i];
          count := count + 1;
          assert targetIds[..count] == targetIds[..count - 1] + [targets[i]];
        }
      }
      assert targets[..numTargets] == targets;
    }

    method RemoveTarget(id: nat) returns (ended: bool)
      requires Valid()
      modifies this, targetIds, tracker
      ensures Valid() && View() == Remove(old(View()), id)
      ensures ended <==> id < TRACKERS && old(View()).tracker[id].participating && View().targets == []
    {
      if id >= TRACKERS || !tracker[id].participating {
        return false;
      }
      var count := Compact(id);
      hide Without;
      tracker[id] := tracker[id].(participating := false);
      numTargets := count;
      if count == 0 {
        ringHead := 0;
        active := false;
      }
      return count == 0;
    }

    method ResetSession()
      requires Valid()
      modifies this, tracker
      ensures Valid() && View() == Reset(old(View()))
    {
      active, numTargets, ringHead := false, 0, 0;
      for i := 0 to TRACKERS
        invariant forall k :: 0 <= k < i ==> tracker[k] == ABSENT
        modifies tracker
      {
        tracker[i] := ABSENT;
      }
    }

    method ProcessData(seqNo: Word16, chunk: Bytes)
      requires Valid()
      modifies this, ring
      ensures Valid() && View() == Handle(old(View()), HidData(seqNo, chunk)).0
    {
      if !active || chunk == [] {
        return;
      }
      var low := RingSeqMin();
      if (ringHead - low) % U32 >= RING {
        return;
      }
      ring[seqNo % RING] := Entry(seqNo, if |chunk| > MAX_PAYLOAD then chunk[..MAX_PAYLOAD] else chunk);
      if seqNo + 1 > ringHead {
        ringHead := seqNo + 1;
      }
    }

    method ProcessBegin(id: nat, now: nat, radioFree: bool)
      requires Valid()
      modifies this, targetIds, tracker, tombstone
      ensures Valid() && View() == Handle(old(View()), Begin(id, now, radioFree)).0
    {
      if id >= TRACKERS || (!tracker[id].participating && numTargets >= PARALLEL) || (!active && !radioFree) {
        return;
      }
      if !active {
        ResetSession();
      }
      if !tracker[id].participating {
        targetIds[numTargets] := id;
        numTargets := numTargets + 1;
      }
      tracker[id] := Tracker(true, Idle, 0, Some(Pending(BeginCmd, now)));
      active := true;
      tombstone[id] := None;
    }

    method FillAck(id: nat, now: nat, wants: Option<Word16>) returns (ack: Ack)
      requires Valid()
      modifies tracker, tombstone
      ensures Valid() && (View(), ack) == Handle(old(View()), Poll(id, now, wants))
    {
      if id >= TRACKERS {
        return NoAck;
      }
      if tombstone[id].Some? && !((tombstone[id].value - now) % U32 == 0 || Before(tombstone[id].value, now)) {
        return AbortPong;
      }
      tombstone[id] := None;
      if !active || !tracker[id].participating {
        return NoAck;
      }
      var t := tracker[id];
      var held := wants.Some? && wants.value < ringHead && ring[wants.value % RING].seqNo == wants.value;
      if t.pending.Some? {
        if (now - t.pending.value.setAt) % U32 > TEN_SECONDS {
          tracker[id] := t.(pending := None);
          return NoAck;
        }
        var defer := t.pending.value.kind != BeginCmd && held;
        if !defer {
          return Command(t.pending.value.kind);
        }
      }
      if wants.None? {
        return NoAck;
      }
      tracker[id] := t.(nextSeq := wants.value);
      if !held {
        return NoAck;
      }
      return Data(id, wants.value, ring[wants.value % RING].payload);
    }

    method ProcessStatus(id: nat, status: Status)
      requires Valid()
      modifies this, targetIds, tracker
      ensures Valid() && View() == Handle(old(View()), Report(id, status)).0
    {
      if id >= TRACKERS {
        return;
      }
      var t := tracker[id];
      var done := t.pending.Some? && Confirms(t.pending.value.kind, status);
      tracker[id] := t.(status := status, pending := if done then None else t.pending);
      if Terminal(status) {
        var _ := RemoveTarget(id);
      }
    }

    method CancelTarget(id: nat, now: nat)
      requires Valid()
      modifies this, targetIds, tracker, tombstone
      ensures Valid() && View() == Handle(old(View()), Abort(id, now)).0
    {
      if id >= TRACKERS {
        return;
      }
      tombstone[id] := Some((now + TEN_SECONDS) % U32);
      var _ := RemoveTarget(id);
    }

    method CancelAll(now: nat)
      requires Valid()
      modifies this, targetIds, tracker, tombstone
      ensures Valid() && View() == Handle(old(View()), AbortAll(now)).0
    {
      ghost var before := View();
      var targets := targetIds[..numTargets];
      for i := 0 to |targets|
        invariant Valid() && ring[..] == before.ring
        invariant tombstone[..] == BuryAll(before, targets[..i], now).tombstone
      {
        assert targets[..i + 1][..i] == targets[..i];
        tombstone[targets[i]] := Some((now + TEN_SECONDS) % U32);
        var _ := RemoveTarget(targets[i]);
      }
      assert targets[..|targets|] == targets;
      ResetSession();
      BuryAllOnlyTombstones(before, targets, now);
    }

    method Queue(id: nat, verify: bool, now: nat)
      requires Valid()
      modifies tracker
      ensures Valid() && View() == Handle(old(View()), Request(id, verify, now)).0
    {
      if active && id < TRACKERS && tracker[id].participating {
        tracker[id] := tracker[id].(pending := Some(Pending(if verify then VerifyCmd else ActivateCmd, now)));
      }
    }

    method ForgetTracker(id: nat)
      requires Valid()
      modifies this, targetIds, tracker, tombstone
      ensures Valid() && View() == Handle(old(View()), Forget(id)).0
    {
      if id >= TRACKERS {
        return;
      }
      var _ := RemoveTarget(id);
      tracker[id] := ABSENT;
      tombstone[id] := None;
    }
  }

  const BURST_SIZE := 48
  const WARMUP_BURST := 8

  /** The streaming state of `do_update`. */
  class PcSender {
    var next: nat
    var activeIds: seq<nat>
    var view: map<nat, nat>

    ghost function State(): Sender
      reads this
    {
      Sender(next, (set id | id in activeIds), view)
    }

    /** Progress the PC knows of; a tracker it has not heard of is at the start. */
    function Known(id: nat): nat
      reads this
    {
      if id in view then view[id] else 0
    }

    /** The progress of the slowest active tracker. */
    method MinConsumed() returns (low: nat)
      requires activeIds != []
      ensures forall id :: id in activeIds ==> low <= Known(id)
      ensures exists id :: id in activeIds && low == Known(id)
    {
      low := Known(activeIds[0]);
      for i := 1 to |activeIds|
        invariant forall k :: 0 <= k < i ==> low <= Known(activeIds[k])
        invariant exists k :: 0 <= k < i && low == Known(activeIds[k])
      {
        if Known(activeIds[i]) < low {
          low := Known(activeIds[i]);
        }
      }
    }

    /** One round of the streaming loop: as many chunks as the in-flight limit and the burst size allow.
        Every one of them is stored by the relay, and the window of the session is kept. */
    method Burst(relay: Device, image: seq<Bytes>, warmup: bool) returns (count: nat)
      requires relay.Valid() && Windowed(World(relay.View(), image, next), State())
      requires activeIds != [] && forall id :: id in activeIds ==> id in view
      modifies this`next, relay, relay.ring
      ensures relay.Valid() && Windowed(World(relay.View(), image, next), State())
      ensures next == old(next) + count && relay.ringHead == next
      ensures count <= if warmup then WARMUP_BURST else BURST_SIZE
      ensures next == |image| || count == (if warmup then WARMUP_BURST else BURST_SIZE) ||
        exists id :: id in activeIds && next - Known(id) >= IN_FLIGHT
    {
      count := 0;
      var low := MinConsumed();
      var inFlight := next - low;
      if inFlight >= IN_FLIGHT {
        return; // wait for the trackers to consume
      }
      var limit := if warmup then WARMUP_BURST else BURST_SIZE;
      var room := IN_FLIGHT - inFlight;
      var burst := if room < limit then room else limit;
      for i := 0 to burst
        invariant relay.Valid() && Windowed(World(relay.View(), image, next), State())
        invariant next == old(next) + count && count == i
        modifies this`next, relay, relay.ring
      {
        if next >= |image| {
          assert next == |image|;
          return;
        }
        ghost var w := World(relay.View(), image, next);
        assert MaySend(w, State());
        SendKeepsWindow(w, State());
        hide Windowed, Handle;
        relay.ProcessData(next, image[next]);
        next := next + 1;
        count := count + 1;
      }
    }
  }
}
