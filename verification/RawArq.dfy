/**
 Retransmit requests for raw data: a queue of at most eight missing 16-bit sequence numbers, kept from
 nothing but the numbers that arrive.
 */
module RawArq {
  import opened SerialNumbers

  const MAX_GAPS := 8
  const STALE := 96
  const REACH := 100

  datatype Event = Packet(seqNo: nat) | Reset

  /** The receiver's state as the firmware keeps it. */
  datatype Arq = Arq(ready: bool, expected: nat, gaps: seq<int>)

  /** The numbers `from`, `from + 1`, ... on the 16-bit circle. */
  function Circle(from: nat, n: nat): (r: seq<int>)
    ensures |r| == n && forall i :: 0 <= i < n ==> r[i] == (from + i) % SPACE
  {
    if n == 0 then [] else Circle(from, n - 1) + [(from + n - 1) % SPACE]
  }

  function IndexOf(q: seq<int>, x: int, k: nat): (i: nat)
    requires k <= |q|
    ensures k <= i <= |q| && (i < |q| ==> q[i] == x) && forall j :: k <= j < i ==> q[j] != x
    decreases |q| - k
  {
    if k == |q| || q[k] == x then k else IndexOf(q, x, k + 1)
  }

  /** The last element takes the place of the first `x`. */
  function SwapDelete(q: seq<int>, x: int): (r: seq<int>) {
    var i := IndexOf(q, x, 0);
    if i == |q| then q else q[i := q[|q| - 1]][..|q| - 1]
  }

  function Fresh(q: seq<int>, expected: int): (r: seq<int>)
    ensures |r| <= |q|
  {
    if q == [] then []
    else Fresh(q[..|q| - 1], expected) + if Distance(expected, q[|q| - 1]) < STALE then [q[|q| - 1]] else []
  }

  function Added(queued: nat, missing: nat): nat {
    if queued + missing > MAX_GAPS then (if queued > MAX_GAPS then 0 else MAX_GAPS - queued) else missing
  }

  function Process(s: Arq, r: nat): Arq {
    if !s.ready then Arq(true, (r + 1) % SPACE, s.gaps)
    else var t := Place(s, r); t.(gaps := Fresh(t.gaps, t.expected))
  }

  /** In order, ahead, a retransmission, or a restart. */
  function Place(s: Arq, r: nat): Arq {
    var d := Signed(r, s.expected);
    if d == 0 then s.(expected := (r + 1) % SPACE)
    else if 0 < d <= REACH then Arq(s.ready, (r + 1) % SPACE, s.gaps + Circle(s.expected, Added(|s.gaps|, d)))
    else if -REACH < d < 0 then s.(gaps := SwapDelete(s.gaps, r))
    else Arq(s.ready, (r + 1) % SPACE, [])
  }

  const INITIAL := Arq(false, 0, [])

  function Handle(s: Arq, e: Event): Arq {
    match e
    case Packet(r) => Process(s, r)
    case Reset => INITIAL.(expected := s.expected)
  }

  predicate Wire(e: Event) { e.Packet? ==> e.seqNo < SPACE }

  predicate OnWire(h: seq<Event>) { forall k :: 0 <= k < |h| ==> Wire(h[k]) }

  function Run(h: seq<Event>): Arq {
    if h == [] then INITIAL else Handle(Run(h[..|h| - 1]), h[|h| - 1])
  }

  // ----- What happened, in unbounded positions -----

  /**
   Since the last restart the stream began at `first` and has reached `next`; `got` are the positions
   received. `lossy` records that a gap did not fit into the queue.
   */
  datatype Truth = Truth(ready: bool, first: int, next: int, got: set<int>, lossy: bool)

  /** Where a packet lies relative to the next position expected. */
  function PlaceOf(t: Truth, r: nat): int { t.next + Signed(r, t.next % SPACE) }

  function Learn(t: Truth, r: nat, queued: nat): Truth {
    if !t.ready then Truth(true, r, r + 1, {r}, false)
    else
      var p := PlaceOf(t, r);
      if p < t.next - REACH + 1 || p > t.next + REACH then Truth(true, p, p + 1, {p}, false)
      else Truth(true, t.first, if p < t.next then t.next else p + 1, t.got + {p},
                 t.lossy || (p > t.next && queued + (p - t.next) > MAX_GAPS))
  }

  function TruthOf(h: seq<Event>): Truth {
    if h == [] then Truth(false, 0, 0, {}, false)
    else
      var t := TruthOf(h[..|h| - 1]);
      match h[|h| - 1]
      case Packet(r) => Learn(t, r, |Run(h[..|h| - 1]).gaps|)
      case Reset => Truth(false, 0, 0, {}, false)
  }

  /** The position a queued number stands for. */
  function Stands(t: Truth, g: int): int { t.next - Distance(t.next, g) }

  predicate Distinct(q: seq<int>) { forall i, j :: 0 <= i < j < |q| ==> q[i] != q[j] }

  /** A queued number was skipped 1..`bound`-1 positions ago and has not arrived since. */
  ghost predicate Pending(t: Truth, g: int, bound: nat) {
    && 0 <= g < SPACE && 1 <= Distance(t.next, g) < bound && t.first < Stands(t, g) && Stands(t, g) !in t.got
  }

  ghost predicate Missing(t: Truth, p: int) { t.first <= p < t.next && p !in t.got }

  ghost predicate Complete(t: Truth, gaps: seq<int>) {
    forall p :: Missing(t, p) && t.next - p < STALE ==> p % SPACE in gaps
  }

  ghost predicate Sound(t: Truth, gaps: seq<int>, bound: nat) {
    && |gaps| <= MAX_GAPS && Distinct(gaps) && (forall g :: g in gaps ==> Pending(t, g, bound))
    && (!t.lossy ==> Complete(t, gaps))
  }

  ghost predicate Consistent(t: Truth) {
    t.first < t.next && t.first in t.got && forall p :: p in t.got ==> p < t.next
  }

  ghost predicate Inv(s: Arq, t: Truth) {
    && s.ready == t.ready && (!s.ready ==> s.gaps == [])
    && (s.ready ==> Consistent(t) && s.expected == t.next % SPACE && Sound(t, s.gaps, STALE))
  }

  // ----- Queue operations -----

  lemma {:induction false} FreshSpec(q: seq<int>, expected: int)
    ensures forall g :: g in Fresh(q, expected) <==> g in q && Distance(expected, g) < STALE
    ensures Distinct(q) ==> Distinct(Fresh(q, expected))
  {
    hide Distance;
    if q != [] {
      var front, x := q[..|q| - 1], q[|q| - 1];
      FreshSpec(front, expected);
      assert q == front + [x];
      assert forall i, j :: 0 <= i < j < |front| ==> front[i] == q[i] && front[j] == q[j];
      assert Distinct(q) ==> x !in front;
    }
  }

  lemma SwapDeleteSpec(q: seq<int>, x: int)
    requires Distinct(q)
    ensures Distinct(SwapDelete(q, x)) && |SwapDelete(q, x)| <= |q|
    ensures forall g :: g in SwapDelete(q, x) <==> g in q && g != x
  {
    var i, r := IndexOf(q, x, 0), SwapDelete(q, x);
    if i < |q| {
      forall g | g in q && g != x ensures g in r {
        var k :| 0 <= k < |q| && q[k] == g;
        assert if k == |q| - 1 then r[i] == g else r[k] == g;
      }
    }
  }

  // ----- Positions and 16-bit numbers -----

  lemma DistanceOf(next: int, p: int)
    requires 0 <= next - p < SPACE
    ensures Distance(next, p % SPACE) == next - p
  {
  }

  lemma StandsFor(t: Truth, g: int)
    requires 0 <= g < SPACE
    ensures Stands(t, g) % SPACE == g
  {
  }

  lemma DistanceWrapped(next: int, g: int)
    ensures Distance(next % SPACE, g) == Distance(next, g)
  {
  }

  lemma DistanceAdvance(next: int, d: nat, g: int)
    requires Distance(next, g) + d < SPACE
    ensures Distance(next + d, g) == Distance(next, g) + d
  {
  }

  lemma SignedPlace(next: int, r: nat)
    requires r < SPACE
    ensures (next + Signed(r, next % SPACE)) % SPACE == r
  {
  }

  lemma WrapAdd(next: int, i: nat)
    ensures (next % SPACE + i) % SPACE == (next + i) % SPACE
  {
  }

  // ----- Every packet keeps the queue sound -----

  lemma AddedSpec(queued: nat, missing: nat)
    requires queued <= MAX_GAPS
    ensures Added(queued, missing) <= missing && queued + Added(queued, missing) <= MAX_GAPS
    ensures Added(queued, missing) < missing <==> queued + missing > MAX_GAPS
  {
  }

  /** A number skipped now: its position is at or after the old `next`. */
  lemma SkippedPending(t: Truth, u: Truth, d: nat, i: nat)
    requires Consistent(t) && i < d <= REACH
    requires u == Truth(true, t.first, t.next + d + 1, t.got + {t.next + d}, u.lossy)
    ensures Pending(u, (t.next + i) % SPACE, STALE + REACH + 1) && Stands(u, (t.next + i) % SPACE) == t.next + i
  {
    DistanceOf(u.next, t.next + i);
    hide Distance;
  }

  lemma KeptPending(t: Truth, u: Truth, d: nat, g: int)
    requires Consistent(t) && d <= REACH && Pending(t, g, STALE)
    requires u == Truth(true, t.first, t.next + d + 1, t.got + {t.next + d}, u.lossy)
    ensures Pending(u, g, STALE + REACH + 1) && Stands(u, g) == Stands(t, g) < t.next
  {
    DistanceAdvance(t.next, d + 1, g);
    hide Distance;
  }

  lemma AdvanceComplete(t: Truth, u: Truth, gaps: seq<int>, d: nat, more: seq<int>)
    requires d <= REACH && Complete(t, gaps) && |more| == d
    requires u == Truth(true, t.first, t.next + d + 1, t.got + {t.next + d}, u.lossy)
    requires forall i :: 0 <= i < d ==> more[i] == (t.next + i) % SPACE
    ensures Complete(u, gaps + more)
  {
    forall p | Missing(u, p) && u.next - p < STALE ensures p % SPACE in gaps + more {
      if p < t.next {
        assert Missing(t, p);
      } else {
        assert more[p - t.next] == p % SPACE;
      }
    }
  }

  lemma SoundAdvance(t: Truth, u: Truth, gaps: seq<int>, d: nat, more: seq<int>)
    requires Consistent(t) && Sound(t, gaps, STALE) && d <= REACH && |more| == Added(|gaps|, d)
    requires u == Truth(true, t.first, t.next + d + 1, t.got + {t.next + d}, t.lossy || |more| < d)
    requires forall i :: 0 <= i < |more| ==> more[i] == (t.next + i) % SPACE
    ensures Consistent(u) && Sound(u, gaps + more, STALE + REACH + 1)
  {
    AddedSpec(|gaps|, d);
    hide Pending, Complete, Added, Stands;
    var q := gaps + more;
    forall i | 0 <= i < |q| ensures Pending(u, q[i], STALE + REACH + 1) && (Stands(u, q[i]) < t.next <==> i < |gaps|)
      && (i >= |gaps| ==> Stands(u, q[i]) == t.next + (i - |gaps|))
    {
      if i < |gaps| { KeptPending(t, u, d, q[i]); } else { SkippedPending(t, u, d, i - |gaps|); }
    }
    if !u.lossy { AdvanceComplete(t, u, gaps, d, more); }
  }

  lemma SoundRetransmit(t: Truth, gaps: seq<int>, p: int)
    requires Consistent(t) && Sound(t, gaps, STALE) && t.next - REACH < p < t.next
    ensures Sound(t.(got := t.got + {p}), SwapDelete(gaps, p % SPACE), STALE)
  {
    var u, r := t.(got := t.got + {p}), p % SPACE;
    SwapDeleteSpec(gaps, r);
    hide SwapDelete;
    forall g | g in gaps && g != r ensures Pending(u, g, STALE) {
      assert Pending(t, g, STALE);
      StandsFor(t, g);
      hide Distance;
    }
    if !t.lossy {
      forall q | Missing(u, q) && u.next - q < STALE ensures q % SPACE in gaps && q % SPACE != r {
        assert Missing(t, q);
        DistanceOf(t.next, q);
        DistanceOf(t.next, p);
        hide Distance;
      }
    }
  }

  lemma SoundFresh(t: Truth, gaps: seq<int>, bound: nat)
    requires Sound(t, gaps, bound)
    ensures Sound(t, Fresh(gaps, t.next % SPACE), STALE)
  {
    FreshSpec(gaps, t.next % SPACE);
    hide Distance, Fresh;
    forall g | g in gaps ensures Distance(t.next % SPACE, g) == Distance(t.next, g) { DistanceWrapped(t.next, g); }
    if !t.lossy {
      forall p | Missing(t, p) && t.next - p < STALE ensures Distance(t.next, p % SPACE) < STALE { DistanceOf(t.next, p); }
    }
  }

  /** Next number after a packet at distance `d`. */
  lemma NextExpected(next: int, r: nat, d: int)
    requires r < SPACE && d == Signed(r, next % SPACE)
    ensures (r + 1) % SPACE == (next + d + 1) % SPACE && (next + d) % SPACE == r
  {
    SignedPlace(next, r);
    hide Signed;
  }

  lemma AdvanceInv(s: Arq, t: Truth, r: nat)
    requires Inv(s, t) && s.ready && r < SPACE && 0 <= Signed(r, s.expected) <= REACH
    ensures Inv(Process(s, r), Learn(t, r, |s.gaps|))
  {
    var d, u := Signed(r, s.expected), Learn(t, r, |s.gaps|);
    NextExpected(t.next, r, d);
    hide Signed, Distance, Sound;
    var more := Circle(s.expected, Added(|s.gaps|, d));
    forall i | 0 <= i < |more| ensures more[i] == (t.next + i) % SPACE { WrapAdd(t.next, i); }
    SoundSize(t, s.gaps);
    AddedSpec(|s.gaps|, d);
    assert u == Truth(true, t.first, t.next + d + 1, t.got + {t.next + d}, t.lossy || |more| < d);
    SoundAdvance(t, u, s.gaps, d, more);
    assert d == 0 ==> s.gaps + more == s.gaps;
    SoundFresh(u, s.gaps + more, STALE + REACH + 1);
    hide Added;
  }

  /** A gap that does not fit is requested as far as it does: the queue keeps what it had and is filled up with the oldest
      of the skipped numbers. */
  lemma OverflowFills(s: Arq, r: nat)
    requires |s.gaps| <= MAX_GAPS && 0 < Signed(r, s.expected) <= REACH
    ensures var q, d := Place(s, r).gaps, Signed(r, s.expected);
      && |q| == (if |s.gaps| + d > 8 then 8 else |s.gaps| + d) && q[..|s.gaps|] == s.gaps
      && forall i :: |s.gaps| <= i < |q| ==> q[i] == (s.expected + i - |s.gaps|) % SPACE
  {
    hide Signed;
    var more := Circle(s.expected, Added(|s.gaps|, Signed(r, s.expected)));
    assert Place(s, r).gaps == s.gaps + more;
  }

  lemma SoundSize(t: Truth, gaps: seq<int>)
    requires Sound(t, gaps, STALE)
    ensures |gaps| <= MAX_GAPS
  {
  }

  lemma ProcessInv(s: Arq, t: Truth, r: nat)
    requires Inv(s, t) && r < SPACE
    ensures Inv(Process(s, r), Learn(t, r, |s.gaps|))
  {
    if s.ready {
      var d, u := Signed(r, s.expected), Learn(t, r, |s.gaps|);
      NextExpected(t.next, r, d);
      if 0 <= d <= REACH {
        AdvanceInv(s, t, r);
        hide Inv;
      } else if -REACH < d < 0 {
        SoundRetransmit(t, s.gaps, t.next + d);
        SoundFresh(u, SwapDelete(s.gaps, r), STALE);
        hide Signed, Distance, Sound;
      } else {
        Restarted(u);
        SoundFresh(u, [], STALE);
        hide Signed, Distance, Sound;
      }
    } else {
      Restarted(Learn(t, r, 0));
    }
  }

  lemma Restarted(u: Truth)
    requires u == Truth(true, u.first, u.first + 1, {u.first}, false)
    ensures Consistent(u) && Sound(u, [], STALE)
  {
  }

  lemma {:induction false} RunInv(h: seq<Event>)
    requires OnWire(h)
    ensures Inv(Run(h), TruthOf(h))
  {
    if h != [] {
      var front := h[..|h| - 1];
      assert OnWire(front);
      RunInv(front);
      hide Inv, Process, Learn;
      assert Wire(h[|h| - 1]);
      if h[|h| - 1].Packet? { ProcessInv(Run(front), TruthOf(front), h[|h| - 1].seqNo); } else { ResetInv(Run(front).expected); }
    } else {
      ResetInv(0);
    }
  }

  lemma ResetInv(expected: nat)
    ensures Inv(Arq(false, expected, []), Truth(false, 0, 0, {}, false))
  {
  }

  /**
   After any history: at most eight requests, all different, each 1..95 behind the expected number, each
   for a position that was skipped and has not arrived since.
   */
  lemma RequestsAreMissing(h: seq<Event>, g: int)
    requires OnWire(h) && g in Run(h).gaps
    ensures |Run(h).gaps| <= MAX_GAPS && Distinct(Run(h).gaps)
    ensures 1 <= Distance(Run(h).expected, g) < STALE
    ensures Missing(TruthOf(h), TruthOf(h).next - Distance(Run(h).expected, g))
  {
    hide Run, TruthOf, Distance, Inv, Distinct;
    RunInv(h);
    QueuedIsMissing(Run(h), TruthOf(h), g);
  }

  lemma QueuedIsMissing(s: Arq, t: Truth, g: int)
    requires Inv(s, t) && g in s.gaps
    ensures |s.gaps| <= MAX_GAPS && Distinct(s.gaps)
    ensures 1 <= Distance(s.expected, g) < STALE && Missing(t, t.next - Distance(s.expected, g))
  {
    assert Pending(t, g, STALE);
    DistanceWrapped(t.next, g);
    hide Distance;
  }

  /** As long as no gap was too large for the queue, it holds every missing position that is not stale. */
  lemma RequestsAreExact(h: seq<Event>, p: int)
    requires OnWire(h) && Run(h).ready && !TruthOf(h).lossy
    ensures var t := TruthOf(h);
      Missing(t, p) && t.next - p < STALE <==> 0 < t.next - p < STALE && t.first <= p && p % SPACE in Run(h).gaps
  {
    hide Run, TruthOf;
    RunInv(h);
    var t, s := TruthOf(h), Run(h);
    if 0 < t.next - p < STALE && p % SPACE in s.gaps {
      assert Pending(t, p % SPACE, STALE);
      DistanceOf(t.next, p);
    }
  }

  // ----- The interrupt handler -----

  class Receiver {
    var ready: bool
    var expected: nat
    const queue: array<int>
    var count: nat

    ghost predicate Valid()
      reads this, queue
    {
      queue.Length == MAX_GAPS && count <= MAX_GAPS && expected < SPACE
    }

    ghost function View(): Arq
      requires Valid()
      reads this, queue
    {
      Arq(ready, expected, queue[..count])
    }

    constructor ()
      ensures Valid() && View() == INITIAL && fresh(queue)
    {
      ready, expected, count := false, 0, 0;
      queue := new int[MAX_GAPS];
    }

    method Append(missing: nat)
      requires Valid()
      modifies queue, this`count
      ensures Valid() && queue[..count] == old(queue[..count]) + Circle(expected, Added(old(count), missing))
    {
      var remaining := MAX_GAPS - count;
      var toAdd := if missing > remaining then remaining else missing;
      var i := 0;
      while i < toAdd
        invariant i <= toAdd && count == old(count) + i
        invariant queue[..count] == old(queue[..count]) + Circle(expected, i)
        modifies queue, this`count
      {
        queue[count] := (expected + i) % SPACE;
        count := count + 1;
        i := i + 1;
        assert queue[..count] == queue[..count - 1] + [queue[count - 1]];
      }
    }

    method Remove(r: nat)
      requires Valid()
      modifies queue, this`count
      ensures Valid() && queue[..count] == SwapDelete(old(queue[..count]), r)
    {
      var i := 0;
      while i < count
        invariant i <= count && IndexOf(queue[..count], r, 0) == IndexOf(queue[..count], r, i)
      {
        if queue[i] == r {
          queue[i] := queue[count - 1];
          count := count - 1;
          return;
        }
        i := i + 1;
      }
    }

    method Evict()
      requires Valid()
      modifies queue, this`count
      ensures Valid() && queue[..count] == Fresh(old(queue[..count]), expected)
    {
      hide Distance;
      var kept, i := 0, 0;
      ghost var was := queue[..count];
      while i < count
        invariant kept <= i <= count == |was| && forall k :: i <= k < count ==> queue[k] == was[k]
        invariant queue[..kept] == Fresh(was[..i], expected)
        modifies queue
      {
        assert queue[i] == was[i] && was[..i + 1][..i] == was[..i];
        if Distance(expected, queue[i]) < STALE {
          queue[kept] := queue[i];
          kept := kept + 1;
          assert queue[..kept] == queue[..kept - 1] + [was[i]];
        }
        i := i + 1;
      }
      assert was[..i] == was;
      count := kept;
    }

    /** Takes one packet and returns the numbers to ask for; an empty list means no request is sent. */
    method Receive(r: nat) returns (request: seq<int>)
      requires Valid() && r < SPACE
      modifies this, queue
      ensures Valid() && View() == Process(old(View()), r)
      ensures request == if old(ready) then View().gaps else []
    {
      if !ready {
        expected, ready := (r + 1) % SPACE, true;
        return [];
      }
      hide Signed, Distance, Circle, SwapDelete, Fresh;
      var d := Signed(r, expected);
      if d == 0 {
        expected := (r + 1) % SPACE;
      } else if 0 < d <= REACH {
        Append(d);
        expected := (r + 1) % SPACE;
      } else if -REACH < d < 0 {
        Remove(r);
      } else {
        expected, count := (r + 1) % SPACE, 0;
      }
      assert View() == Place(old(View()), r);
      hide Place;
      Evict();
      return queue[..count];
    }

    method Restart()
      requires Valid()
      modifies this`ready, this`count
      ensures Valid() && View() == Handle(old(View()), Reset)
    {
      ready, count := false, 0;
    }
  }
}
