/**
 The collector's bounded reorder buffer, as the host tools run it.
 `Buffer` is the value of all its fields; `Refines` ties them to the simple stream of `ReorderSpec`
 that the object has received so far, which the object carries in its ghost field `spec`.
 */
module Reorder {
  import opened Wrappers
  import opened ReorderSpec

  datatype Seen = Seen(position: int, payload: Payload)
  datatype Waiting = Waiting(sample: Sample, boundary: bool)

  datatype Buffer = Buffer(
    out: seq<Emission>,
    pending: map<int, Waiting>,
    positions: seq<int>,
    recent: seq<Option<Seen>>,
    high: Option<int>,
    cursor: int,
    last: Option<int>,
    gapCount: int,
    retransmitCount: nat,
    unknownBoundaries: nat)

  predicate Ascending(s: seq<int>) {
    forall i, j :: 0 <= i < j < |s| ==> s[i] < s[j]
  }

  /** The priority queue is kept as its sorted content; `heappush` of an absent position. */
  function HeapPush(s: seq<int>, x: int): (r: seq<int>)
    requires Ascending(s) && x !in s
    ensures Ascending(r)
    ensures forall y :: y in r <==> y == x || y in s
  {
    if s == [] || x < s[0] then [x] + s else
    var r := HeapPush(s[1..], x);
    assert r[0] in r;
    [s[0]] + r
  }

  // ----- Representation invariant -----

  ghost predicate Heap(positions: seq<int>, pending: map<int, Waiting>) {
    Ascending(positions) && forall p :: p in positions <==> p in pending
  }

  /** The 201-slot ring holds every position of the window, and nothing that was not received. */
  ghost predicate Ring(recent: seq<Option<Seen>>, e: Epoch) {
    && |recent| == WINDOW + 1
    && (forall i :: 0 <= i < |recent| && recent[i].Some? ==> recent[i].value.position in e.items)
    && (forall p :: p in e.items && e.high - WINDOW <= p ==>
          recent[p % (WINDOW + 1)] == Some(Seen(p, e.items[p].payload)))
  }

  /** `pending` is exactly what the epoch received at or after the cursor. */
  ghost predicate Buffered(pending: map<int, Waiting>, cursor: int, e: Epoch) {
    && (forall p :: p in pending <==> p in e.items && cursor <= p)
    && (forall p :: p in pending ==> pending[p] == Waiting(e.items[p].sample, e.items[p].boundary))
  }

  /** What has been written so far, and the counters that describe it. */
  ghost predicate Written(out: seq<Emission>, cursor: int, last: Option<int>, gaps: int, unknown: nat,
                          closed: seq<Epoch>, e: Epoch)
    requires e.first in e.items
  {
    && out == Output(closed) + Emitted(e, cursor)
    && (last.None? <==> cursor == e.first)
    && (last.None? ==> gaps == Gaps(closed) && unknown == Boundaries(closed))
    && (last.Some? ==>
          && e.first <= last.value < cursor
          && (forall p :: last.value < p < cursor ==> p !in e.items)
          && gaps == Gaps(closed) + (last.value - e.first + 1 - |Emitted(e, cursor)|)
          && unknown == Boundaries(closed) + if e.items[e.first].boundary then 1 else 0)
  }

  /** Everything behind the cursor was received, is out of reach, or was committed by `finish`. */
  ghost predicate Passed(cursor: int, e: Epoch) {
    forall x :: e.first <= x < cursor ==> x in e.items || x < e.high - WINDOW || x <= e.floor
  }

  ghost predicate Core(b: Buffer, s: Stream) {
    && s.open.Some?
    && var e := s.open.value;
    && Sound(e) && b.high == Some(e.high)
    && e.first <= b.cursor <= e.high + 1
    && b.retransmitCount == s.retransmits
    && Passed(b.cursor, e) && Ring(b.recent, e) && Buffered(b.pending, b.cursor, e)
    && Written(b.out, b.cursor, b.last, b.gapCount, b.unknownBoundaries, s.closed, e)
  }

  ghost predicate Unstarted(b: Buffer) {
    && b.high.None? && b.last.None? && b.out == [] && b.pending == map[] && b.positions == []
    && b.gapCount == 0 && b.retransmitCount == 0 && b.unknownBoundaries == 0 && |b.recent| == WINDOW + 1
  }

  ghost predicate Refines(b: Buffer, s: Stream) {
    if s.open.None? then s == EMPTY && Unstarted(b) else
    && Core(b, s) && Heap(b.positions, b.pending) && s.open.value.floor < b.cursor && s.open.value.first < b.cursor
    && (b.positions != [] ==> b.positions[0] != b.cursor && s.open.value.high - b.cursor <= WINDOW)
  }

  // ----- Steps of the algorithm keep the invariant -----

  lemma CoreFacts(b: Buffer, s: Stream, positions: seq<int>)
    requires Core(b, s)
    ensures b.high == Some(s.open.value.high)
    ensures forall p :: p in b.pending ==> b.cursor <= p
    ensures Core(b.(positions := positions), s)
  {
  }

  /** No two consecutive emissions of one epoch are ever more than MAX_FORWARD_GAP apart. */
  lemma ForwardGap(b: Buffer, s: Stream, position: int)
    requires Core(b, s) && b.last.Some? && position in b.pending
    requires forall p :: p in b.pending ==> position <= p
    ensures position - b.last.value - 1 <= MAX_FORWARD_GAP
  {
    var e := s.open.value;
    assert position in e.items;
    assert Near(e, position - 1);
    var p :| p in e.items && position - 1 - MAX_FORWARD_GAP <= p <= position - 1;
    assert p !in b.pending;
  }

  function AfterEmit(b: Buffer, position: int): Buffer
    requires position in b.pending
  {
    var w := b.pending[position];
    b.(pending := b.pending - {position},
       out := b.out + [Emission(w.sample, w.boundary)],
       gapCount := b.gapCount + if b.last.Some? && !w.boundary then position - b.last.value - 1 else 0,
       unknownBoundaries := b.unknownBoundaries + if w.boundary then 1 else 0,
       last := Some(position),
       cursor := position + 1)
  }

  lemma EmitWritten(b: Buffer, closed: seq<Epoch>, e: Epoch, position: int)
    requires Sound(e) && Written(b.out, b.cursor, b.last, b.gapCount, b.unknownBoundaries, closed, e)
    requires Buffered(b.pending, b.cursor, e) && e.first <= b.cursor
    requires position in b.pending && forall p :: p in b.pending ==> position <= p
    ensures var b' := AfterEmit(b, position);
      Written(b'.out, b'.cursor, b'.last, b'.gapCount, b'.unknownBoundaries, closed, e)
  {
    assert forall p :: b.cursor <= p < position ==> p !in b.pending;
    EmittedGap(e, b.cursor, position);
    assert Emitted(e, position + 1) == Emitted(e, position) + At(e, position);
    if b.last.None? { assert e.first in b.pending; }
  }

  lemma EmitKeeps(b: Buffer, s: Stream, position: int)
    requires Core(b, s)
    requires position in b.pending && forall p :: p in b.pending ==> position <= p
    requires position == b.cursor || s.open.value.floor == s.open.value.high
    ensures Core(AfterEmit(b, position), s)
  {
    EmitWritten(b, s.closed, s.open.value, position);
  }

  /** The head of the queue is the least pending position, and popping it keeps queue and map together. */
  lemma PopKeeps(b: Buffer, s: Stream)
    requires Core(b, s) && Heap(b.positions, b.pending) && b.positions != []
    ensures var position := b.positions[0];
      && position in b.pending && b.cursor <= position
      && (forall p :: p in b.pending ==> position <= p)
      && Heap(b.positions[1..], b.pending - {position})
      && (position != b.cursor ==> b.cursor !in b.pending)
  {
    assert b.positions[0] in b.positions;
    assert forall p :: p in b.pending ==> p in b.positions;
    assert forall p :: p in b.positions[1..] <==> p in b.positions && p != b.positions[0];
  }

  lemma SkipKeeps(b: Buffer, s: Stream)
    requires Core(b, s) && b.cursor !in b.pending && s.open.value.high - b.cursor > WINDOW
    ensures Core(b.(cursor := b.cursor + 1), s)
  {
    var e := s.open.value;
    assert b.cursor !in e.items;
    assert Emitted(e, b.cursor + 1) == Emitted(e, b.cursor);
  }

  function AfterInsert(b: Buffer, position: int, sample: Sample, payload: Payload, boundary: bool): Buffer
    requires |b.recent| == WINDOW + 1 && Ascending(b.positions) && position !in b.positions
  {
    b.(recent := b.recent[position % (WINDOW + 1) := Some(Seen(position, payload))],
       pending := b.pending[position := Waiting(sample, boundary)],
       positions := HeapPush(b.positions, position))
  }

  /** The ring answers "was this position received, and with which payload" exactly, over the whole window. */
  lemma RingExact(b: Buffer, e: Epoch, position: int)
    requires Sound(e) && Ring(b.recent, e) && e.high - WINDOW <= position
    ensures var r := b.recent[position % (WINDOW + 1)];
      (r.Some? && r.value.position == position <==> position in e.items) &&
      (position in e.items ==> r.value.payload == e.items[position].payload)
  {
  }

  lemma SoundBound(e: Epoch)
    requires Sound(e)
    ensures forall p :: p in e.items ==> p <= e.high
  {
  }

  lemma DistinctSlots(p: int, q: int)
    requires p != q && -WINDOW <= p - q <= WINDOW
    ensures p % (WINDOW + 1) != q % (WINDOW + 1)
  {
  }

  lemma PlaceRing(recent: seq<Option<Seen>>, e: Epoch, e': Epoch, q: int)
    requires Ring(recent, e) && e.high - WINDOW <= q && q !in e.items && q in e'.items
    requires e'.items == e.items[q := e'.items[q]] && e'.high == if q > e.high then q else e.high
    requires forall p :: p in e.items ==> p <= e.high
    ensures Ring(recent[q % (WINDOW + 1) := Some(Seen(q, e'.items[q].payload))], e')
  {
    forall p | p in e'.items && e'.high - WINDOW <= p && p != q
      ensures p % (WINDOW + 1) != q % (WINDOW + 1)
    {
      DistinctSlots(p, q);
    }
  }

  /** Behind the cursor and inside the window nothing unseen is left, unless `finish` committed it. */
  lemma Placeable(b: Buffer, s: Stream, position: int)
    requires Refines(b, s) && s.open.Some? && position !in s.open.value.items
    requires s.open.value.high - WINDOW <= position
    ensures b.cursor <= position <==> s.open.value.floor < position
    ensures position !in b.positions
  {
  }

  lemma PlaceBuffered(b: Buffer, e: Epoch, e': Epoch, q: int)
    requires Buffered(b.pending, b.cursor, e) && Heap(b.positions, b.pending) && b.cursor <= q && q !in b.positions
    requires q !in e.items && q in e'.items && e'.items == e.items[q := e'.items[q]]
    ensures var pending' := b.pending[q := Waiting(e'.items[q].sample, e'.items[q].boundary)];
      Buffered(pending', b.cursor, e') && Heap(HeapPush(b.positions, q), pending')
  {
  }

  lemma PlaceWritten(b: Buffer, closed: seq<Epoch>, e: Epoch, e': Epoch, q: int)
    requires Sound(e) && Written(b.out, b.cursor, b.last, b.gapCount, b.unknownBoundaries, closed, e)
    requires e'.first == e.first <= b.cursor <= q && q in e'.items && e'.items == e.items[q := e'.items[q]]
    requires q !in e.items
    ensures e'.first in e'.items
    ensures Written(b.out, b.cursor, b.last, b.gapCount, b.unknownBoundaries, closed, e')
  {
    EmittedFrame(e, e', b.cursor);
  }

  function AfterPlace(b: Buffer, s: Stream, op: Op): Buffer
    requires op.Push? && OpenVerdict(s, op).Place? && s.open.Some? && |b.recent| == WINDOW + 1
    requires Ascending(b.positions) && OpenVerdict(s, op).position !in b.positions
  {
    var q, high := OpenVerdict(s, op).position, s.open.value.high;
    AfterInsert(b.(high := Some(if q > high then q else high),
                   retransmitCount := b.retransmitCount + if q < high then 1 else 0),
                q, op.sample, op.payload, false)
  }

  lemma PlaceKeeps(b: Buffer, s: Stream, op: Op)
    requires Refines(b, s) && s.open.Some? && op.Push? && OpenVerdict(s, op).Place?
    ensures OpenVerdict(s, op).position !in b.positions
    ensures var b' := AfterPlace(b, s, op); Core(b', Step(s, op)) && Heap(b'.positions, b'.pending)
  {
    hide Ring, Buffered, Sound, Heap;
    var e, q := s.open.value, OpenVerdict(s, op).position;
    var e' := Insert(e, q, op.sample, op.payload);
    Placeable(b, s, q);
    InsertSound(e, op.sample, op.payload);
    assert forall p :: p in e.items ==> p <= e.high by { SoundBound(e); }
    PlaceRing(b.recent, e, e', q);
    PlaceBuffered(b, e, e', q);
    PlaceWritten(b, s.closed, e, e', q);
  }

  /** With nothing pending, what is written is what closing the stream would write. */
  lemma FlushedOutput(b: Buffer, s: Stream)
    requires Core(b, s) && b.pending == map[]
    ensures b.out == Output(Close(s)) && b.gapCount == Gaps(Close(s)) && b.unknownBoundaries == Boundaries(Close(s))
    ensures b.cursor == s.open.value.high + 1
  {
    var e := s.open.value;
    assert e.high !in b.pending;
    OutputSnoc(s.closed, Committed(e));
    CommittedEmitted(e, e.high + 1);
    WholeEpochCount(e);
  }

  function AfterStart(b: Buffer, sample: Sample, payload: Payload, boundary: bool): Buffer
    requires b.positions == []
  {
    AfterInsert(b.(recent := seq(WINDOW + 1, _ => None), high := Some(sample.seqNo), cursor := sample.seqNo, last := None),
                sample.seqNo, sample, payload, boundary)
  }

  lemma StartKeeps(b: Buffer, closed: seq<Epoch>, retransmits: nat, sample: Sample, payload: Payload, boundary: bool)
    requires b.positions == [] && b.pending == map[] && b.retransmitCount == retransmits
    requires b.out == Output(closed) && b.gapCount == Gaps(closed) && b.unknownBoundaries == Boundaries(closed)
    ensures var b' := AfterStart(b, sample, payload, boundary);
      Core(b', Stream(closed, Some(Open(sample, payload, boundary)), retransmits)) && Heap(b'.positions, b'.pending)
  {
    OpenSound(sample, payload, boundary);
    assert Emitted(Open(sample, payload, boundary), sample.seqNo) == [];
  }

  /** After a drain the first sample of an epoch is always out. */
  lemma DrainedPastFirst(b: Buffer, s: Stream)
    requires Core(b, s) && Heap(b.positions, b.pending) && (b.positions != [] ==> b.positions[0] != b.cursor)
    ensures s.open.value.first < b.cursor
  {
    assert b.cursor == s.open.value.first ==> b.cursor in b.pending && b.cursor in b.positions;
    assert b.positions != [] ==> b.positions[0] in b.positions;
  }

  lemma DrainedRefines(b: Buffer, s: Stream)
    requires Core(b, s) && Heap(b.positions, b.pending)
    requires s.open.value.floor < b.cursor && s.open.value.first < b.cursor
    requires b.positions != [] ==> b.positions[0] != b.cursor && s.open.value.high - b.cursor <= WINDOW
    ensures Refines(b, s)
  {
  }

  lemma CommitKeeps(b: Buffer, s: Stream)
    requires Refines(b, s) && s.open.Some?
    ensures Core(b, Step(s, Finish)) && Heap(b.positions, b.pending)
  {
    var e := s.open.value;
    assert forall x :: Near(e, x) ==> Near(Committed(e), x);
    CommittedEmitted(e, b.cursor);
  }

  lemma FlushedRefines(b: Buffer, s: Stream)
    requires Core(b, s) && Heap(b.positions, b.pending) && b.positions == []
    ensures Refines(b, s) && b.pending == map[]
    ensures b.out == Output(Close(s)) && b.gapCount == Gaps(Close(s)) && b.unknownBoundaries == Boundaries(Close(s))
    ensures b.retransmitCount == s.retransmits
  {
    assert forall p :: p in b.pending ==> p in b.positions;
    FlushedOutput(b, s);
  }

  lemma RefinesFacts(b: Buffer, s: Stream)
    requires Refines(b, s)
    ensures |b.recent| == WINDOW + 1 && Ascending(b.positions)
    ensures b.high == if s.open.None? then None else Some(s.open.value.high)
    ensures s.open.Some? ==> s.open.value.floor < b.cursor
  {
  }

  lemma RingAnswers(b: Buffer, s: Stream, position: int)
    requires Refines(b, s) && s.open.Some? && s.open.value.high - WINDOW <= position
    ensures var r, e := b.recent[position % (WINDOW + 1)], s.open.value;
      (r.Some? && r.value.position == position <==> position in e.items) &&
      (position in e.items ==> r.value.payload == e.items[position].payload)
  {
    RingExact(b, s.open.value, position);
  }

  lemma CountKeeps(b: Buffer, s: Stream)
    requires Refines(b, s) && s.open.Some?
    ensures Refines(b.(retransmitCount := b.retransmitCount + 1), s.(retransmits := s.retransmits + 1))
  {
  }

  lemma {:induction false} BoundedKeys(m: map<int, Waiting>, lo: int, n: nat)
    requires forall p :: p in m ==> lo < p <= lo + n
    ensures |m| <= n
  {
    if n == 0 {
      assert forall p :: p !in m;
      assert m.Keys == {};
    } else {
      var rest := m - {lo + n};
      BoundedKeys(rest, lo, n - 1);
      assert m.Keys <= rest.Keys + {lo + n};
      assert |m.Keys| <= |rest.Keys + {lo + n}|;
    }
  }

  /** At most WINDOW samples wait. */
  lemma PendingBound(b: Buffer, s: Stream)
    requires Refines(b, s)
    ensures |b.pending| <= WINDOW
  {
    if b.positions == [] {
      assert forall p :: p in b.pending ==> s.open.Some? && p in b.positions;
      assert b.pending == map[];
    } else {
      assert b.cursor !in b.pending by {
        assert b.positions[0] in b.positions;
        assert b.cursor in b.pending ==> b.cursor in b.positions;
      }
      BoundedKeys(b.pending, b.cursor, WINDOW);
    }
  }

  class SampleReorder {
    var out: seq<Emission>
    var pending: map<int, Waiting>
    var positions: seq<int>
    var recent: seq<Option<Seen>>
    var high: Option<int>
    var cursor: int
    var last: Option<int>
    var gapCount: int
    var retransmitCount: nat
    var unknownBoundaries: nat
    ghost var spec: Stream

    function Fields(): Buffer
      reads this
    {
      Buffer(out, pending, positions, recent, high, cursor, last, gapCount, retransmitCount, unknownBoundaries)
    }

    ghost predicate Valid()
      reads this
    {
      Refines(Fields(), spec)
    }

    constructor ()
      ensures Valid() && spec == EMPTY && out == []
    {
      out, pending, positions := [], map[], [];
      recent := seq(WINDOW + 1, _ => None);
      high, cursor, last := None, 0, None;
      gapCount, retransmitCount, unknownBoundaries := 0, 0, 0;
      spec := EMPTY;
    }

    method Emit(position: int)
      requires Core(Fields(), spec)
      requires position in pending && forall p :: p in pending ==> position <= p
      requires position == cursor || spec.open.value.floor == spec.open.value.high
      modifies this
      ensures Core(Fields(), spec) && spec == old(spec)
      ensures Fields() == AfterEmit(old(Fields()), position)
      ensures positions == old(positions) && high == old(high) && cursor == position + 1
    {
      hide Core;
      ghost var before := Fields();
      if last.Some? { ForwardGap(before, spec, position); }
      EmitKeeps(before, spec, position);
      var waiting := pending[position];
      var discontinuity := waiting.boundary;
      pending := pending - {position};
      if last.Some? && !discontinuity {
        var gap := position - last.value - 1;
        if gap > MAX_FORWARD_GAP {
          discontinuity := true;
        } else {
          gapCount := gapCount + gap;
        }
      }
      if discontinuity {
        unknownBoundaries := unknownBoundaries + 1;
      }
      out := out + [Emission(waiting.sample, discontinuity)];
      last := Some(position);
      cursor := position + 1;
    }

    method EmitHead()
      requires Core(Fields(), spec) && Heap(positions, pending) && positions != []
      requires positions[0] == cursor || spec.open.value.floor == spec.open.value.high
      modifies this
      ensures Core(Fields(), spec) && Heap(positions, pending) && spec == old(spec)
      ensures positions == old(positions)[1..] && cursor == old(positions)[0] + 1 >= old(cursor) + 1
    {
      ghost var before := Fields();
      PopKeeps(before, spec);
      CoreFacts(before, spec, positions[1..]);
      hide Core, Heap, AfterEmit;
      var position := positions[0];
      positions := positions[1..];
      Emit(position);
    }

    method Drain(final: bool)
      requires Core(Fields(), spec) && Heap(positions, pending)
      requires final ==> spec.open.value.floor == spec.open.value.high
      modifies this
      ensures Core(Fields(), spec) && Heap(positions, pending) && spec == old(spec)
      ensures final ==> positions == []
      ensures positions != [] ==> positions[0] != cursor && spec.open.value.high - cursor <= WINDOW
      ensures old(cursor) <= cursor
    {
      CoreFacts(Fields(), spec, positions);
      hide Core, Heap;
      while positions != []
        invariant Core(Fields(), spec) && Heap(positions, pending)
        invariant old(cursor) <= cursor && spec == old(spec)
        decreases |positions|, spec.open.value.high - cursor
      {
        CoreFacts(Fields(), spec, positions);
        if !final && positions[0] != cursor {
          if high.value - cursor <= WINDOW {
            break;
          }
          PopKeeps(Fields(), spec);
          SkipKeeps(Fields(), spec);
          cursor := cursor + 1;
          continue;
        }
        EmitHead();
      }
    }

    /** `AfterInsert` of the fields must already be the representation of `next`. */
    method Insert(position: int, sample: Sample, payload: Payload, boundary: bool, ghost next: Stream)
      requires |recent| == WINDOW + 1 && Ascending(positions) && position !in positions
      requires var b := AfterInsert(Fields(), position, sample, payload, boundary);
        Core(b, next) && Heap(b.positions, b.pending) && next.open.value.floor < b.cursor
      modifies this
      ensures spec == next && Valid() && |pending| <= WINDOW
    {
      hide Core, Heap, Refines;
      recent := recent[position % |recent| := Some(Seen(position, payload))];
      pending := pending[position := Waiting(sample, boundary)];
      positions := HeapPush(positions, position);
      spec := next;
      Drain(false);
      DrainedPastFirst(Fields(), spec);
      DrainedRefines(Fields(), spec);
      PendingBound(Fields(), spec);
    }

    method Finish()
      requires Valid()
      modifies this
      ensures Valid() && spec == Step(old(spec), ReorderSpec.Finish)
      ensures positions == [] && pending == map[]
      ensures out == Output(Close(spec)) && gapCount == Gaps(Close(spec)) && unknownBoundaries == Boundaries(Close(spec))
      ensures retransmitCount == old(retransmitCount) == spec.retransmits
    {
      RefinesFacts(Fields(), spec);
      if high.None? {
        return; // nothing was ever received
      }
      CommitKeeps(Fields(), spec);
      hide Core, Heap, Refines;
      spec := Step(spec, ReorderSpec.Finish);
      Drain(true);
      FlushedRefines(Fields(), spec);
    }

    method Start(sample: Sample, payload: Payload, discontinuity: bool)
      requires Valid()
      modifies this
      ensures Valid() && |pending| <= WINDOW
      ensures spec == Stream(Close(old(spec)), Some(Open(sample, payload, discontinuity)), old(spec).retransmits)
    {
      hide Core, Heap, Refines;
      Finish();
      ghost var next := Stream(Close(spec), Some(Open(sample, payload, discontinuity)), spec.retransmits);
      StartKeeps(Fields(), Close(spec), spec.retransmits, sample, payload, discontinuity);
      recent := seq(WINDOW + 1, _ => None);
      var position := sample.seqNo;
      high := Some(position);
      cursor := position;
      last := None;
      Insert(position, sample, payload, discontinuity, next);
    }

    /** The tests of `push`, made on the cursor and the ring alone, decide as the whole epoch would. */
    method Judge(sample: Sample, payload: Payload) returns (verdict: Verdict)
      requires Valid() && spec.open.Some?
      ensures verdict == Classify(spec.open.value, sample, payload)
    {
      RefinesFacts(Fields(), spec);
      hide Core, Heap, Refines;
      var delta := (sample.seqNo - high.value + 32768) % 65536 - 32768;
      var position := high.value + delta;
      if position < high.value - WINDOW || delta > MAX_FORWARD_GAP + 1 {
        return NewEpoch;
      }
      RingAnswers(Fields(), spec, position);
      var seen := recent[position % |recent|];
      if seen.Some? && seen.value.position == position {
        return if seen.value.payload == payload then Duplicate else NewEpoch;
      }
      Placeable(Fields(), spec, position);
      return if position < cursor then NewEpoch else Place(position);
    }

    /** Returns false exactly for a duplicate: same position in the window, same payload, same epoch. */
    method Push(sample: Sample, payload: Payload, discontinuity: bool) returns (accepted: bool)
      requires Valid()
      modifies this
      ensures Valid() && spec == Step(old(spec), ReorderSpec.Push(sample, payload, discontinuity))
      ensures accepted <==> !OpenVerdict(old(spec), ReorderSpec.Push(sample, payload, discontinuity)).Duplicate?
      ensures |pending| <= WINDOW
    {
      ghost var op := ReorderSpec.Push(sample, payload, discontinuity);
      RefinesFacts(Fields(), spec);
      hide Core, Heap, Refines, Classify;
      accepted := true;
      if high.None? || discontinuity {
        Start(sample, payload, discontinuity);
        return;
      }
      var verdict := Judge(sample, payload);
      match verdict
      case Duplicate =>
        CountKeeps(Fields(), spec);
        retransmitCount := retransmitCount + 1;
        spec := Step(spec, op);
        PendingBound(Fields(), spec);
        accepted := false;
      case NewEpoch =>
        Start(sample, payload, true);
      case Place(position) =>
        PlaceKeeps(Fields(), spec, op);
        AdmitPlaced(position, sample, payload, op);
    }

    method AdmitPlaced(position: int, sample: Sample, payload: Payload, ghost op: Op)
      requires op == ReorderSpec.Push(sample, payload, false) && spec.open.Some?
      requires OpenVerdict(spec, op) == Place(position) && high == Some(spec.open.value.high)
      requires |recent| == WINDOW + 1 && Ascending(positions) && position !in positions
      requires var b := AfterPlace(Fields(), spec, op);
        Core(b, Step(spec, op)) && Heap(b.positions, b.pending) && spec.open.value.floor < cursor
      modifies this
      ensures Valid() && spec == Step(old(spec), op) && |pending| <= WINDOW
    {
      hide Core, Heap, Refines;
      if position < high.value {
        retransmitCount := retransmitCount + 1;
      }
      high := Some(if position > high.value then position else high.value);
      Insert(position, sample, payload, false, Step(spec, op));
    }
  }

  /** A whole recording: any pushes and flushes, then the final flush. */
  method Record(ops: seq<Op>) returns (out: seq<Emission>, gaps: int, unknown: nat, retransmits: nat)
    ensures var epochs := Close(Run(ops));
      && out == Output(epochs) && multiset(out) == multiset(Accepted(ops))
      && gaps == Gaps(epochs) && unknown == Boundaries(epochs)
    ensures retransmits == Run(ops).retransmits
  {
    hide Refines;
    var r := new SampleReorder();
    for i := 0 to |ops|
      invariant r.Valid() && r.spec == Run(ops[..i])
    {
      assert ops[..i + 1][..i] == ops[..i];
      match ops[i]
      case Push(sample, payload, boundary) =>
        var _ := r.Push(sample, payload, boundary);
      case Finish =>
        r.Finish();
    }
    assert ops[..|ops|] == ops;
    r.Finish();
    ExactlyOnce(ops);
    CommitTwice(Run(ops));
    return r.out, r.gapCount, r.unknownBoundaries, r.retransmitCount;
  }

  lemma CommitTwice(s: Stream)
    ensures Close(Step(s, Finish)) == Close(s)
  {
    assert s.open.Some? ==> Committed(Committed(s.open.value)) == Committed(s.open.value);
  }
}
