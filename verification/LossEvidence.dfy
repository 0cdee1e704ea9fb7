/**
 Loss evidence per tracker: which packets and gaps count towards radio decisions.

 A fence makes the next accepted packet of a tracker its new starting point, so that an interval which
 crosses a known boundary is never counted. Sequence numbers are eight bits wide.
 */
module LossEvidence {
  const TRACKERS := 16
  const SPACE := 256
  const BACKWARD := 64
  const FORWARD := 80

  /** One tracker's share of the masks and counters. */
  datatype Tracker = Tracker(fenced: bool, ready: bool, started: bool, last: nat, received: nat, gaps: nat)

  datatype Verdict = Normal | Gap | OutOfOrder | Restart | Duplicate

  datatype Step =
    | Packet(id: nat, seqNo: nat)
    | Fence
    | Invalidate
    | Discontinuity
    | PingRestart(id: nat)
    | ResetSlot(id: nat)

  const FRESH := Tracker(true, false, false, 0, 0, 0)

  function Forward(a: nat, b: nat): nat { (a - b) % SPACE }

  function Judge(t: Tracker, seqNo: nat): Verdict {
    if !t.started || seqNo == (t.last + 1) % SPACE then Normal
    else if Forward(seqNo, t.last) == 0 then Duplicate
    else if 0 < Forward(t.last, seqNo) < BACKWARD then OutOfOrder
    else if Forward(seqNo, t.last) > FORWARD then Restart
    else Gap
  }

  /** A fence swallows exactly one accepted packet, whatever gap it closes. */
  function Accept(t: Tracker, gaps: nat): Tracker {
    if t.fenced then t.(fenced := false, ready := true)
    else t.(ready := true, received := t.received + 1, gaps := t.gaps + gaps)
  }

  function Arrive(t: Tracker, seqNo: nat): Tracker {
    match Judge(t, seqNo)
    case Normal => Accept(t, 0).(started := true, last := seqNo)
    case Gap => Accept(t, Forward(seqNo, t.last) - 1).(last := seqNo)
    case Restart => t.(fenced := true, ready := false, last := seqNo)
    case OutOfOrder => t
    case Duplicate => t
  }

  function Do(t: Tracker, id: nat, step: Step): Tracker {
    match step
    case Packet(i, seqNo) => if i == id then Arrive(t, seqNo) else t
    case Fence => t.(fenced := true)
    case Invalidate => t.(fenced := true, ready := false)
    case Discontinuity => t.(fenced := true, ready := false, started := false)
    case PingRestart(i) => if i == id then t.(fenced := true, ready := false, started := false) else t
    case ResetSlot(i) => if i == id then FRESH else t.(fenced := true, ready := false)
  }

  function Run(id: nat, steps: seq<Step>): Tracker {
    if steps == [] then FRESH else Do(Run(id, steps[..|steps| - 1]), id, steps[|steps| - 1])
  }

  // ----- What the counters mean -----

  /** Steps after which an interval that began earlier must not be counted for tracker `id`. */
  predicate Boundary(t: Tracker, id: nat, step: Step) {
    match step
    case Packet(i, seqNo) => i == id && Judge(t, seqNo).Restart?
    case PingRestart(i) => i == id
    case Fence | Invalidate | Discontinuity | ResetSlot(_) => true
  }

  predicate Accepted(t: Tracker, id: nat, step: Step) {
    step.Packet? && step.id == id && (Judge(t, step.seqNo).Normal? || Judge(t, step.seqNo).Gap?)
  }

  /**
   The counts of all earlier stretches between boundaries, and of the present one, once a packet has been accepted in
   it, the position of the first packet, of the newest one, and how many followed the first. Positions are unwrapped.
   */
  datatype Since = Since(received: nat, gaps: int, open: bool, first: int, newest: int, packets: nat)

  /** A boundary ends a stretch and adds it to the counts; only giving the slot to a new tracker forgets them. */
  function Watch(w: Since, t: Tracker, id: nat, step: Step): Since {
    if step == ResetSlot(id) then Since(0, 0, false, 0, 0, 0)
    else if Boundary(t, id, step)
    then Since(w.received + w.packets, w.gaps + (w.newest - w.first) - w.packets, false, 0, 0, 0)
    else if !Accepted(t, id, step) then w
    else if !w.open then w.(open := true, first := step.seqNo, newest := step.seqNo, packets := 0)
    else w.(newest := w.newest + Forward(step.seqNo, t.last), packets := w.packets + 1)
  }

  function History(id: nat, steps: seq<Step>): Since {
    if steps == [] then Since(0, 0, false, 0, 0, 0)
    else Watch(History(id, steps[..|steps| - 1]), Run(id, steps[..|steps| - 1]), id, steps[|steps| - 1])
  }

  predicate OnWire(steps: seq<Step>) {
    forall k :: 0 <= k < |steps| && steps[k].Packet? ==> steps[k].seqNo < SPACE
  }

  /** The fence is down exactly when a packet has been accepted since the last boundary. */
  predicate Inv(t: Tracker, w: Since) {
    && t.last < SPACE
    && (!t.started ==> t.fenced && !t.ready)
    && t.fenced == !w.open
    && (w.open ==> t.started && t.ready && w.newest % SPACE == t.last && w.first <= w.newest)
    && t.received == w.received + w.packets
    && t.gaps == w.gaps + (w.newest - w.first) - w.packets
    && (!w.open ==> w.packets == 0 && w.newest == w.first)
  }

  lemma ForwardStep(t: Tracker, seqNo: nat)
    requires t.started && t.last < SPACE && seqNo < SPACE
    ensures Judge(t, seqNo).Normal? ==> Forward(seqNo, t.last) == 1
    ensures Judge(t, seqNo).Gap? ==> 1 < Forward(seqNo, t.last) <= FORWARD
  {
  }

  lemma ForwardWrap(newest: int, last: nat, seqNo: nat)
    requires newest % SPACE == last && seqNo < SPACE
    ensures (newest + Forward(seqNo, last)) % SPACE == seqNo
  {
  }

  lemma StepInv(t: Tracker, w: Since, id: nat, step: Step)
    requires Inv(t, w) && (step.Packet? ==> step.seqNo < SPACE)
    ensures Inv(Do(t, id, step), Watch(w, t, id, step))
  {
    if step.Packet? && step.id == id {
      if t.started { ForwardStep(t, step.seqNo); }
      if w.open { ForwardWrap(w.newest, t.last, step.seqNo); }
      hide Forward;
    }
  }

  lemma {:induction false} RunInv(id: nat, steps: seq<Step>)
    requires OnWire(steps)
    ensures Inv(Run(id, steps), History(id, steps))
  {
    if steps != [] {
      var front := steps[..|steps| - 1];
      assert OnWire(front);
      RunInv(id, front);
      hide Do, Watch;
      StepInv(Run(id, front), History(id, front), id, steps[|steps| - 1]);
    }
  }

  /**
   Counted receipts and gaps since a boundary add up to the sequence advance from the first packet accepted
   after it, that packet itself not counted; until it arrives nothing is counted at all.
   */
  lemma {:induction false} CountsAreAdvance(id: nat, steps: seq<Step>)
    requires OnWire(steps)
    ensures var t, w := Run(id, steps), History(id, steps);
      && t.received + t.gaps == w.received + w.gaps + (if w.open then w.newest - w.first else 0)
      && t.received - w.received == w.packets
  {
    hide Run, History;
    RunInv(id, steps);
  }

  /** Fences, invalidations, blackouts and restarts leave what has been counted alone, and so does everything that happens
      to another tracker; only packets count, and only a new owner of the slot starts from zero. */
  lemma OnlyPacketsCount(t: Tracker, id: nat, step: Step)
    ensures var u := Do(t, id, step);
      if step == ResetSlot(id) then u.received == 0 && u.gaps == 0
      else if step.Packet? && step.id == id && Accepted(t, id, step) && !t.fenced then u.received == t.received + 1 && u.gaps >= t.gaps
      else u.received == t.received && u.gaps == t.gaps
  {
  }

  /** A tracker without a known sequence is always fenced, so a gap across a restart can never be counted. */
  lemma {:induction false} UnstartedIsFenced(id: nat, steps: seq<Step>)
    requires OnWire(steps)
    ensures !Run(id, steps).started ==> Run(id, steps).fenced && !Run(id, steps).ready
  {
    hide Run, History;
    RunInv(id, steps);
  }

  /**
   A tracker numbers its packets 0, 1, 2, ... and sends the number modulo 256. A packet less than 64 behind
   or at most 80 ahead of the newest one is recognised for what it is: the advance grows by exactly the
   true difference, and a late packet or a repetition changes nothing.
   */
  lemma AdvanceIsTrue(t: Tracker, w: Since, id: nat, newest: int, index: int)
    requires Inv(t, w) && w.open && newest % SPACE == t.last && -BACKWARD < index - newest <= FORWARD
    ensures var step := Packet(id, index % SPACE); var v := Watch(w, t, id, step); var u := Do(t, id, step);
      if index > newest then
        v.open && v.newest - w.newest == index - newest && u.received == t.received + 1 && u.gaps == t.gaps + (index - newest) - 1
      else v == w && u == t
  {
    TrueForward(newest, index);
    hide Forward;
  }

  /** Every verdict in terms of true numbers; the 256 differences from 63 behind to 192 ahead are all a byte can tell. */
  lemma VerdictIsTrue(t: Tracker, newest: int, index: int)
    requires t.started && newest % SPACE == t.last && -64 < index - newest <= 192
    ensures Judge(t, index % SPACE) ==
      if index < newest then OutOfOrder
      else if index == newest then Duplicate
      else if index == newest + 1 then Normal
      else if index <= newest + 80 then Gap
      else Restart
  {
    NextOf(newest);
    if index >= newest {
      ForwardOf(index, newest);
      if index > newest { ForwardOf(newest + SPACE, index); }
    } else {
      ForwardOf(newest, index);
      ForwardOf(index + SPACE, newest);
      NextOf(index);
    }
    ForwardOf(newest + 1, newest);
    hide Forward;
  }

  lemma ForwardOf(a: int, b: int)
    requires 0 <= a - b < SPACE
    ensures Forward(a % SPACE, b % SPACE) == a - b
  {
  }

  lemma NextOf(newest: int)
    ensures (newest % SPACE + 1) % SPACE == (newest + 1) % SPACE && (newest + SPACE) % SPACE == newest % SPACE
  {
  }

  lemma TrueForward(newest: int, index: int)
    requires -BACKWARD < index - newest <= FORWARD
    ensures index > newest ==> Forward(index % SPACE, newest % SPACE) == index - newest && Forward(newest % SPACE, index % SPACE) >= BACKWARD
    ensures index <= newest ==> Forward(newest % SPACE, index % SPACE) == newest - index
    ensures Forward(index % SPACE, newest % SPACE) == 0 <==> index == newest
    ensures index % SPACE == (newest % SPACE + 1) % SPACE <==> index == newest + 1
  {
    NextOf(newest);
    NextOf(index);
    ForwardOf(newest + 1, newest);
    if index > newest {
      ForwardOf(index, newest);
      ForwardOf(newest + SPACE, index);
    } else {
      ForwardOf(newest, index);
      if index < newest { ForwardOf(index + SPACE, newest); }
    }
    hide Forward;
  }

  /** The tracker has been heard in order since it was last invalidated; a fence alone does not change that. */
  function HeardSince(id: nat, steps: seq<Step>): bool {
    if steps == [] then false
    else
      var front, step := steps[..|steps| - 1], steps[|steps| - 1];
      if Accepted(Run(id, front), id, step) then true
      else HeardSince(id, front) && (step.Fence? || !Boundary(Run(id, front), id, step))
  }

  lemma {:induction false} ReadyIffHeard(id: nat, steps: seq<Step>)
    ensures Run(id, steps).ready <==> HeardSince(id, steps)
  {
    if steps != [] { ReadyIffHeard(id, steps[..|steps| - 1]); }
  }

  // ----- The shared state -----

  /** The first `n` trackers after a step that is not a packet. */
  ghost predicate Swept(now: seq<Tracker>, was: seq<Tracker>, step: Step, n: nat) {
    && |now| == |was|
    && forall i :: 0 <= i < |was| ==> now[i] == if i < n then Do(was[i], i, step) else was[i]
  }

  /** All trackers' counters, with each tracker's bits of the ready and fence masks kept beside them. */
  class Evidence {
    const slots: array<Tracker>

    ghost predicate Valid()
      reads this
    {
      slots.Length == TRACKERS
    }

    constructor ()
      ensures Valid() && fresh(slots) && forall i :: 0 <= i < TRACKERS ==> slots[i] == FRESH
    {
      slots := new Tracker[TRACKERS](_ => FRESH);
    }

    method Count(id: nat, missing: nat)
      requires Valid() && id < TRACKERS
      modifies slots
      ensures slots[..] == old(slots[..])[id := Accept(old(slots[id]), missing)]
    {
      var t := slots[id];
      if t.fenced {
        slots[id] := t.(fenced := false, ready := true);
        return;
      }
      slots[id] := t.(ready := true, received := t.received + 1, gaps := t.gaps + missing);
    }

    /** Classifies a data packet and keeps the evidence; packets of unknown trackers are dropped. */
    method CheckPacket(id: nat, seqNo: nat) returns (verdict: Verdict)
      requires Valid() && seqNo < SPACE
      modifies slots
      ensures verdict == if id < TRACKERS then Judge(old(slots[id]), seqNo) else OutOfOrder
      ensures Swept(slots[..], old(slots[..]), Packet(id, seqNo), TRACKERS)
    {
      if id >= TRACKERS { return OutOfOrder; }
      hide Accept, Forward;
      var t := slots[id];
      if !t.started || seqNo == (t.last + 1) % SPACE {
        Count(id, 0);
        slots[id] := slots[id].(started := true, last := seqNo);
        return Normal;
      }
      var ahead, behind := Forward(seqNo, t.last), Forward(t.last, seqNo);
      if ahead == 0 { return Duplicate; }
      if 0 < behind < BACKWARD { return OutOfOrder; }
      if ahead > FORWARD {
        slots[id] := t.(fenced := true, ready := false, last := seqNo);
        return Restart;
      }
      Count(id, ahead - 1);
      slots[id] := slots[id].(last := seqNo);
      return Gap;
    }

    method FenceAll()
      requires Valid()
      modifies slots
      ensures Swept(slots[..], old(slots[..]), Fence, TRACKERS)
    {
      var i := 0;
      while i < TRACKERS
        invariant i <= TRACKERS && Swept(slots[..], old(slots[..]), Fence, i)
        modifies slots
      {
        slots[i] := slots[i].(fenced := true);
        i := i + 1;
      }
    }

    method InvalidateAll()
      requires Valid()
      modifies slots
      ensures Swept(slots[..], old(slots[..]), Invalidate, TRACKERS)
    {
      var i := 0;
      while i < TRACKERS
        invariant i <= TRACKERS && Swept(slots[..], old(slots[..]), Invalidate, i)
        modifies slots
      {
        slots[i] := slots[i].(fenced := true, ready := false);
        i := i + 1;
      }
    }

    /** A long blackout: every sequence is unknown again. */
    method Blackout()
      requires Valid()
      modifies slots
      ensures Swept(slots[..], old(slots[..]), Discontinuity, TRACKERS)
    {
      var i := 0;
      while i < TRACKERS
        invariant i <= TRACKERS
        invariant forall k :: 0 <= k < TRACKERS ==>
          slots[k] == if k < i then old(slots[k]).(started := false) else old(slots[k])
        modifies slots
      {
        slots[i] := slots[i].(started := false);
        i := i + 1;
      }
      InvalidateAll();
    }

    /** A slot handed to a new tracker. */
    method Reassign(id: nat)
      requires Valid() && id < TRACKERS
      modifies slots
      ensures Swept(slots[..], old(slots[..]), ResetSlot(id), TRACKERS)
    {
      slots[id] := slots[id].(started := false, last := 0, received := 0, gaps := 0);
      InvalidateAll();
    }

    method PingRestarted(id: nat)
      requires Valid() && id < TRACKERS
      modifies slots
      ensures Swept(slots[..], old(slots[..]), PingRestart(id), TRACKERS)
    {
      slots[id] := slots[id].(started := false, ready := false, fenced := true);
    }
  }
}
