/**
 Reordering of raw samples over wrapping 16-bit sequence numbers.

 `ReorderSpec` is the simple account: a stream is a list of epochs, an epoch is a map from
 unwrapped positions to samples, and an epoch is written out in ascending position order.
 It has no heap, no cursor and no ring of recently seen positions.
 `Reorder.SampleReorder` is the collector's bounded algorithm, proved to refine it.
 */
module ReorderSpec {
  import opened Wrappers

  const WINDOW := 200
  const MAX_FORWARD_GAP := 500

  datatype Sample = Sample(seqNo: int, body: seq<int>)
  type Payload = seq<int>

  /** A received sample, its full radio payload, and whether it opens after an unknown boundary. */
  datatype Item = Item(sample: Sample, payload: Payload, boundary: bool)

  /** What the `on_sample` callback receives. */
  datatype Emission = Emission(sample: Sample, boundary: bool)

  /** Positions at or below `floor` are already committed by an explicit `finish`. */
  datatype Epoch = Epoch(first: int, floor: int, high: int, items: map<int, Item>)

  datatype Stream = Stream(closed: seq<Epoch>, open: Option<Epoch>, retransmits: nat)

  const EMPTY := Stream([], None, 0)

  datatype Verdict = Duplicate | Place(position: int) | NewEpoch

  datatype Op = Push(sample: Sample, payload: Payload, boundary: bool) | Finish

  /** The position closest to `high` that carries this wire sequence number. */
  function Unwrap(high: int, seqNo: int): (position: int)
    ensures position % 65536 == seqNo % 65536
    ensures -32768 <= position - high < 32768
  {
    high + (seqNo - high + 32768) % 65536 - 32768
  }

  function Classify(e: Epoch, sample: Sample, payload: Payload): Verdict {
    var position := Unwrap(e.high, sample.seqNo);
    if position < e.high - WINDOW || position > e.high + MAX_FORWARD_GAP + 1 then NewEpoch
    else if position in e.items then
      if e.items[position].payload == payload then Duplicate else NewEpoch
    else if position <= e.floor then NewEpoch
    else Place(position)
  }

  function Committed(e: Epoch): Epoch { e.(floor := e.high) }

  function Open(sample: Sample, payload: Payload, boundary: bool): Epoch {
    Epoch(sample.seqNo, sample.seqNo - 1, sample.seqNo, map[sample.seqNo := Item(sample, payload, boundary)])
  }

  function Insert(e: Epoch, position: int, sample: Sample, payload: Payload): Epoch {
    e.(high := if position > e.high then position else e.high,
       items := e.items[position := Item(sample, payload, false)])
  }

  function Close(s: Stream): seq<Epoch> {
    if s.open.None? then s.closed else s.closed + [Committed(s.open.value)]
  }

  function OpenVerdict(s: Stream, op: Op): Verdict
    requires op.Push?
  {
    if s.open.None? || op.boundary then NewEpoch else Classify(s.open.value, op.sample, op.payload)
  }

  function Step(s: Stream, op: Op): Stream {
    if op.Finish? then
      if s.open.None? then s else s.(open := Some(Committed(s.open.value)))
    else
      match OpenVerdict(s, op)
      case Duplicate => s.(retransmits := s.retransmits + 1)
      case NewEpoch => Stream(Close(s), Some(Open(op.sample, op.payload, op.boundary || s.open.Some?)), s.retransmits)
      case Place(p) =>
        var e := s.open.value;
        Stream(s.closed, Some(Insert(e, p, op.sample, op.payload)), s.retransmits + if p < e.high then 1 else 0)
  }

  function Run(ops: seq<Op>): Stream {
    if ops == [] then EMPTY else Step(Run(ops[..|ops| - 1]), ops[|ops| - 1])
  }

  /** Positions held by `e` in [first, upto), ascending. */
  function Positions(e: Epoch, upto: int): seq<int>
    decreases upto - e.first
  {
    if upto <= e.first then [] else
    Positions(e, upto - 1) + if upto - 1 in e.items then [upto - 1] else []
  }

  function At(e: Epoch, position: int): seq<Emission> {
    if position in e.items then [Emission(e.items[position].sample, e.items[position].boundary)] else []
  }

  /** The emissions of `e` below `upto`, in ascending position order. */
  function Emitted(e: Epoch, upto: int): seq<Emission>
    decreases upto - e.first
  {
    if upto <= e.first then [] else Emitted(e, upto - 1) + At(e, upto - 1)
  }

  function Output(epochs: seq<Epoch>): seq<Emission> {
    if epochs == [] then [] else
    var e := epochs[|epochs| - 1];
    Output(epochs[..|epochs| - 1]) + Emitted(e, e.high + 1)
  }

  /** Missing positions between the first and last sample of every epoch. */
  function Gaps(epochs: seq<Epoch>): int {
    if epochs == [] then 0 else
    var e := epochs[|epochs| - 1];
    Gaps(epochs[..|epochs| - 1]) + (e.high - e.first + 1 - |e.items|)
  }

  function Boundaries(epochs: seq<Epoch>): nat {
    if epochs == [] then 0 else
    var e := epochs[|epochs| - 1];
    Boundaries(epochs[..|epochs| - 1]) + if e.first in e.items && e.items[e.first].boundary then 1 else 0
  }

  ghost predicate Near(e: Epoch, x: int) {
    exists p :: p in e.items && x - MAX_FORWARD_GAP <= p <= x
  }

  /** What every epoch of every run satisfies. */
  ghost predicate Sound(e: Epoch) {
    && e.first - 1 <= e.floor <= e.high
    && e.first in e.items && e.high in e.items
    && (forall p :: p in e.items ==> e.first <= p <= e.high)
    && (forall p :: p in e.items ==> p % 65536 == e.items[p].sample.seqNo % 65536)
    && (forall p :: p in e.items && p != e.first ==> !e.items[p].boundary)
    && (forall x :: e.first <= x <= e.high ==> Near(e, x))
  }

  lemma OpenSound(sample: Sample, payload: Payload, boundary: bool)
    ensures Sound(Open(sample, payload, boundary))
  {
    var e := Open(sample, payload, boundary);
    assert sample.seqNo in e.items;
    forall x | e.first <= x <= e.high ensures Near(e, x) { assert e.first in e.items; }
  }

  lemma InsertSound(e: Epoch, sample: Sample, payload: Payload)
    requires Sound(e) && Classify(e, sample, payload).Place?
    ensures Sound(Insert(e, Classify(e, sample, payload).position, sample, payload))
  {
    var q := Classify(e, sample, payload).position;
    var e' := Insert(e, q, sample, payload);
    assert q in e'.items && e.high in e'.items;
    forall x | e'.first <= x <= e'.high ensures Near(e', x) {
      if x == q { assert q in e'.items; }
      else if x > e.high { assert e.high in e'.items; }
      else {
        assert Near(e, x);
        var p :| p in e.items && x - MAX_FORWARD_GAP <= p <= x;
        assert p in e'.items;
      }
    }
  }

  lemma {:induction false} RunSound(ops: seq<Op>)
    ensures var s := Run(ops);
      (forall i :: 0 <= i < |s.closed| ==> Sound(s.closed[i])) && (s.open.Some? ==> Sound(s.open.value))
  {
    if ops != [] {
      var s, op := Run(ops[..|ops| - 1]), ops[|ops| - 1];
      RunSound(ops[..|ops| - 1]);
      if s.open.Some? {
        assert forall x :: Near(s.open.value, x) ==> Near(Committed(s.open.value), x);
        assert Sound(Committed(s.open.value));
      }
      if op.Push? {
        OpenSound(op.sample, op.payload, op.boundary || s.open.Some?);
        if OpenVerdict(s, op).Place? { InsertSound(s.open.value, op.sample, op.payload); }
      }
    }
  }

  /** Emission order of an epoch: every received position exactly once, strictly ascending. */
  lemma {:induction false} PositionsEnumerate(e: Epoch, upto: int)
    ensures var ps := Positions(e, upto);
      && |Emitted(e, upto)| == |ps|
      && (forall i, j :: 0 <= i < j < |ps| ==> ps[i] < ps[j])
      && (forall p :: p in ps <==> (p in e.items && e.first <= p < upto))
      && (forall i :: 0 <= i < |ps| ==> 
           ps[i] in e.items && Emitted(e, upto)[i] == Emission(e.items[ps[i]].sample, e.items[ps[i]].boundary))
    decreases upto - e.first
  {
    if upto > e.first { PositionsEnumerate(e, upto - 1); }
  }

  /** Emitting a whole epoch emits exactly as many samples as it received. */
  lemma {:induction false} EmittedCount(e: Epoch, upto: int, keys: set<int>)
    requires keys == set p | p in e.items && e.first <= p < upto
    ensures |Emitted(e, upto)| == |keys|
    decreases upto - e.first
  {
    if upto > e.first {
      var smaller := set p | p in e.items && e.first <= p < upto - 1;
      EmittedCount(e, upto - 1, smaller);
      if upto - 1 in e.items { assert keys == smaller + {upto - 1}; } else { assert keys == smaller; }
    }
  }

  /** Emitted samples and gaps together account for every position from the first to the last of an epoch. */
  lemma WholeEpochCount(e: Epoch)
    requires Sound(e)
    ensures |Emitted(e, e.high + 1)| == |e.items|
    ensures |Emitted(e, e.high + 1)| + |Missing(e)| == e.high - e.first + 1
    ensures Gaps([e]) == |Missing(e)|
  {
    hide Emitted, Sound;
    AllEmitted(e);
    PresentOrMissing(e);
    assert [e][..0] == [];
  }

  lemma AllEmitted(e: Epoch)
    requires Sound(e)
    ensures |Emitted(e, e.high + 1)| == |e.items|
  {
    hide Near, Emitted;
    var keys := set p | p in e.items && e.first <= p < e.high + 1;
    assert keys == e.items.Keys;
    EmittedCount(e, e.high + 1, keys);
  }

  lemma PresentOrMissing(e: Epoch)
    requires Sound(e)
    ensures |e.items| + |Missing(e)| == e.high - e.first + 1
  {
    hide Near;
    IntervalSize(e.first, e.high);
    assert Interval(e.first, e.high) == e.items.Keys + Missing(e);
  }

  predicate Within(p: int, lo: int, hi: int) { lo <= p <= hi }

  ghost function Interval(lo: int, hi: int): set<int> { set p | lo <= p <= hi && Within(p, lo, hi) }

  /** The positions between an epoch's first and last sample that never arrived. */
  ghost function Missing(e: Epoch): set<int> { set p | e.first <= p <= e.high && p !in e.items }

  lemma {:induction false} IntervalSize(lo: int, hi: int)
    requires lo <= hi + 1
    ensures |Interval(lo, hi)| == hi - lo + 1
    decreases hi - lo + 1
  {
    if lo <= hi {
      IntervalSize(lo, hi - 1);
      assert Interval(lo, hi) == Interval(lo, hi - 1) + {hi};
    }
  }

  /** Below a range's end, an update at or above the end is invisible. */
  lemma {:induction false} EmittedFrame(e: Epoch, e': Epoch, upto: int)
    requires e.first == e'.first
    requires forall p :: e.first <= p < upto ==> (p in e.items <==> p in e'.items)
    requires forall p :: e.first <= p < upto && p in e.items && p in e'.items ==> e.items[p] == e'.items[p]
    ensures Emitted(e, upto) == Emitted(e', upto)
    decreases upto - e.first
  {
    if upto > e.first { EmittedFrame(e, e', upto - 1); }
  }

  /** A stretch without received positions emits nothing. */
  lemma {:induction false} EmittedGap(e: Epoch, lo: int, hi: int)
    requires e.first <= lo <= hi
    requires forall p :: lo <= p < hi ==> p !in e.items
    ensures Emitted(e, hi) == Emitted(e, lo)
    decreases hi - lo
  {
    if lo < hi { EmittedGap(e, lo, hi - 1); }
  }

  /** Adding one unseen position splices its emission into its sorted place and moves nothing else. */
  lemma {:induction false} EmittedInsert(e: Epoch, e': Epoch, q: int, upto: int)
    requires e.first == e'.first <= q < upto
    requires q !in e.items && q in e'.items && e'.items == e.items[q := e'.items[q]]
    ensures var k := |Emitted(e, q)|;
      k <= |Emitted(e, upto)| && Emitted(e', upto) == Emitted(e, upto)[..k] + At(e', q) + Emitted(e, upto)[k..]
    decreases upto - e.first
  {
    if q == upto - 1 {
      EmittedFrame(e, e', upto - 1);
    } else {
      EmittedInsert(e, e', q, upto - 1);
      var k, shorter, one := |Emitted(e, q)|, Emitted(e, upto - 1), At(e, upto - 1);
      assert one == At(e', upto - 1);
      EmittedSnoc(e, upto);
      EmittedSnoc(e', upto);
      hide Emitted, At;
      assert (shorter + one)[..k] == shorter[..k] && (shorter + one)[k..] == shorter[k..] + one;
    }
  }

  lemma EmittedSnoc(e: Epoch, upto: int)
    requires upto > e.first
    ensures Emitted(e, upto) == Emitted(e, upto - 1) + At(e, upto - 1)
  {
  }

  lemma SpliceCounts(before: seq<Emission>, s: seq<Emission>, k: nat, x: seq<Emission>)
    requires k <= |s|
    ensures multiset(before + (s[..k] + x + s[k..])) == multiset(before + s) + multiset(x)
  {
    assert s == s[..k] + s[k..];
  }

  /** The emissions an operation is owed: none for a duplicate or a `finish`. */
  function Owed(s: Stream, op: Op): seq<Emission> {
    if op.Finish? then [] else
    match OpenVerdict(s, op)
    case Duplicate => []
    case NewEpoch => [Emission(op.sample, op.boundary || s.open.Some?)]
    case Place(_) => [Emission(op.sample, false)]
  }

  function Accepted(ops: seq<Op>): seq<Emission> {
    if ops == [] then [] else
    Accepted(ops[..|ops| - 1]) + Owed(Run(ops[..|ops| - 1]), ops[|ops| - 1])
  }

  lemma OutputSnoc(epochs: seq<Epoch>, e: Epoch)
    ensures Output(epochs + [e]) == Output(epochs) + Emitted(e, e.high + 1)
    ensures Gaps(epochs + [e]) == Gaps(epochs) + (e.high - e.first + 1 - |e.items|)
    ensures Boundaries(epochs + [e]) ==
      Boundaries(epochs) + if e.first in e.items && e.items[e.first].boundary then 1 else 0
  {
    assert (epochs + [e])[..|epochs + [e]| - 1] == epochs;
  }

  lemma CommittedEmitted(e: Epoch, upto: int)
    ensures Emitted(Committed(e), upto) == Emitted(e, upto)
  {
    EmittedFrame(e, Committed(e), upto);
  }

  lemma PlacedOutput(closed: seq<Epoch>, e: Epoch, e': Epoch, q: int)
    requires e.first <= e.high && e.first <= q && q !in e.items && q in e'.items
    requires forall p :: p in e.items ==> p <= e.high
    requires e'.first == e.first && e'.items == e.items[q := e'.items[q]]
    requires e'.high == if q > e.high then q else e.high
    ensures multiset(Output(closed + [Committed(e')])) ==
      multiset(Output(closed + [Committed(e)])) + multiset(At(e', q))
  {
    hide Output, Emitted, At;
    OutputSnoc(closed, Committed(e));
    OutputSnoc(closed, Committed(e'));
    CommittedEmitted(e, e.high + 1);
    CommittedEmitted(e', e'.high + 1);
    EmittedGap(e, e.high + 1, e'.high + 1);
    EmittedInsert(e, e', q, e'.high + 1);
    var before, s, k := Output(closed), Emitted(e, e.high + 1), |Emitted(e, q)|;
    assert Output(closed + [Committed(e)]) == before + s;
    assert Output(closed + [Committed(e')]) == before + (s[..k] + At(e', q) + s[k..]);
    SpliceCounts(before, s, k, At(e', q));
  }

  /** Closing the stream after one operation emits what was owed before plus what this operation is owed. */
  lemma StepOutput(s: Stream, op: Op)
    requires s.open.Some? ==> Sound(s.open.value)
    ensures multiset(Output(Close(Step(s, op)))) == multiset(Output(Close(s)) + Owed(s, op))
  {
    var s' := Step(s, op);
    if op.Finish? {
      if s.open.Some? { assert Committed(Committed(s.open.value)) == Committed(s.open.value); }
      assert Output(Close(s')) == Output(Close(s)) + Owed(s, op);
    } else if OpenVerdict(s, op).Place? {
      PlacedOutput(s.closed, s.open.value, s'.open.value, OpenVerdict(s, op).position);
      assert Owed(s, op) == At(s'.open.value, OpenVerdict(s, op).position);
    } else if OpenVerdict(s, op).NewEpoch? {
      var started := s'.open.value;
      OutputSnoc(s'.closed, Committed(started));
      CommittedEmitted(started, started.high + 1);
      assert Emitted(started, started.first) == [];
      assert Output(Close(s')) == Output(Close(s)) + Owed(s, op);
    } else {
      assert Output(Close(s')) == Output(Close(s)) + Owed(s, op);
    }
  }

  /** Every accepted sample leaves the stream exactly once, with its boundary mark, and nothing else does. */
  lemma {:induction false} ExactlyOnce(ops: seq<Op>)
    ensures multiset(Output(Close(Run(ops)))) == multiset(Accepted(ops))
  {
    if ops != [] {
      var before, op := ops[..|ops| - 1], ops[|ops| - 1];
      ExactlyOnce(before);
      RunSound(before);
      StepOutput(Run(before), op);
    }
  }

  function Pushes(ops: seq<Op>): nat {
    if ops == [] then 0 else Pushes(ops[..|ops| - 1]) + if ops[|ops| - 1].Push? then 1 else 0
  }

  /** Pushes that repeat what is already there. */
  function Repeats(ops: seq<Op>): nat {
    if ops == [] then 0 else
    var s, op := Run(ops[..|ops| - 1]), ops[|ops| - 1];
    Repeats(ops[..|ops| - 1]) + if op.Push? && OpenVerdict(s, op).Duplicate? then 1 else 0
  }

  /** Pushes that fill a position behind the newest one. */
  function Latecomers(ops: seq<Op>): nat {
    if ops == [] then 0 else
    var s, op := Run(ops[..|ops| - 1]), ops[|ops| - 1];
    Latecomers(ops[..|ops| - 1]) +
      if op.Push? && OpenVerdict(s, op).Place? && OpenVerdict(s, op).position < s.open.value.high then 1 else 0
  }

  lemma {:induction false} RepeatsCounted(ops: seq<Op>)
    ensures Run(ops).retransmits == Repeats(ops) + Latecomers(ops)
    ensures Pushes(ops) == |Accepted(ops)| + Repeats(ops)
  {
    hide Classify;
    if ops != [] { RepeatsCounted(ops[..|ops| - 1]); }
  }

  /** Every push is accounted for: it is in the output, or it repeats a sample that is; and the retransmissions counted are
      those repetitions together with the samples that arrived late. */
  lemma PushesAreAccountedFor(ops: seq<Op>)
    ensures Pushes(ops) == |Output(Close(Run(ops)))| + Repeats(ops)
    ensures Run(ops).retransmits == Repeats(ops) + Latecomers(ops)
  {
    RepeatsCounted(ops);
    ExactlyOnce(ops);
    assert |multiset(Output(Close(Run(ops))))| == |multiset(Accepted(ops))|;
  }

  lemma {:induction false} UncommittedFloor(ops: seq<Op>)
    requires forall i :: 0 <= i < |ops| ==> ops[i].Push?
    ensures Run(ops).open.Some? ==> Run(ops).open.value.floor == Run(ops).open.value.first - 1
  {
    if ops != [] { UncommittedFloor(ops[..|ops| - 1]); }
  }

  /** While `finish` is not called mid-stream, a new epoch is opened only by a position before the epoch's
      start, one outside the window, or a conflicting payload: an unseen position of the window is repaired. */
  lemma WindowAlwaysRepairs(ops: seq<Op>, sample: Sample, payload: Payload)
    requires Run(ops).open.Some? && forall i :: 0 <= i < |ops| ==> ops[i].Push?
    ensures var e := Run(ops).open.value;
      var position := Unwrap(e.high, sample.seqNo);
      Classify(e, sample, payload).NewEpoch? <==>
        || position < e.first
        || !(-WINDOW <= position - e.high <= MAX_FORWARD_GAP + 1)
        || (position in e.items && e.items[position].payload != payload)
  {
    UncommittedFloor(ops);
    RunSound(ops);
  }
}
