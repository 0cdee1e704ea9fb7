/**
 The lock-free bounded ring between report producers and the single USB sender.

 A run is any interleaving of the atomic steps of any number of producers and one consumer.
 Record bytes are copied cell by cell, so a torn read or write would be visible.
 Positions are 32-bit words; `claimed` and `retired` are the unbounded ticket counts behind them.
 */
module HidRing {
  const N := 64
  const RESERVE := 2
  const WORD := 0x1_0000_0000
  const CELLS := 17 // sixteen report bytes and the subscription generation
  const BATCH := 4

  type Cells = seq<int>
  type Record = r: Cells | |r| == CELLS witness seq(CELLS, _ => 0)

  datatype Slot = Slot(cells: Record, stamp: nat)

  /** Program counter and locals of one `hid_fifo_try_push` call. */
  datatype Producer =
    | Loading(rec: Record, priority: bool)
    | Loaded(rec: Record, priority: bool, pos: nat, ticket: nat)
    | Checked(rec: Record, priority: bool, pos: nat, ticket: nat, seen: nat)
    | Writing(rec: Record, ticket: nat, done: nat)

  /** Program counter and locals of the sender: peek a batch, submit it, then consume it. */
  datatype Consumer =
    | Resting
    | Peeking(read: nat, batch: seq<Record>)
    | Copying(read: nat, batch: seq<Record>, part: Cells)
    | Peeked(batch: seq<Record>)
    | Consuming(batch: seq<Record>)
    | Retiring(read: nat, batch: seq<Record>)

  datatype State = State(
    slots: seq<Slot>,
    writePos: nat,
    readPos: nat,
    producers: map<nat, Producer>,
    consumer: Consumer,
    claimed: nat,
    retired: nat,
    accepted: seq<Record>,
    delivered: seq<Record>)

  datatype Step =
    | Call(p: nat, rec: Record, priority: bool)
    | LoadWrite(p: nat)
    | LoadRead(p: nat)
    | Cas(p: nat)
    | WriteCell(p: nat)
    | Publish(p: nat)
    | PeekStart
    | PeekCheck
    | PeekCell
    | PeekNext
    | PeekStop
    | SubmitFailed
    | SubmitDone
    | Stamp
    | Advance
    | ConsumeEnd

  function Word(ticket: int): nat { ticket % WORD }
  function Index(word: nat): (i: nat) ensures i < N { word % N }

  function Init(cells: Record): State {
    State(seq(N, (i: nat) => Slot(cells, i)), 0, 0, map[], Resting, 0, 0, [], [])
  }

  /** The capacity test, on 32-bit words as the code computes it. */
  predicate HasRoom(pos: nat, read: nat, priority: bool) {
    var count := Word(pos - read);
    count < N && (priority || N - count > RESERVE)
  }

  predicate Enabled(s: State, step: Step) {
    match step
    case Call(p, _, _) => p !in s.producers
    case LoadWrite(p) => p in s.producers && s.producers[p].Loading?
    case LoadRead(p) => p in s.producers && s.producers[p].Loaded?
    // A call is never suspended across 2^32 claims between its load and its compare-and-swap.
    case Cas(p) => p in s.producers && s.producers[p].Checked? && s.claimed - s.producers[p].ticket < WORD
    case WriteCell(p) => p in s.producers && s.producers[p].Writing? && s.producers[p].done < CELLS
    case Publish(p) => p in s.producers && s.producers[p].Writing? && s.producers[p].done == CELLS
    case PeekStart => s.consumer.Resting?
    case PeekCheck => s.consumer.Peeking? && |s.consumer.batch| < BATCH
    case PeekCell => s.consumer.Copying? && |s.consumer.part| < CELLS
    case PeekNext => s.consumer.Copying? && |s.consumer.part| == CELLS
    case PeekStop => s.consumer.Peeking? && |s.consumer.batch| == BATCH
    case SubmitFailed => s.consumer.Peeked?
    case SubmitDone => s.consumer.Peeked?
    case Stamp => s.consumer.Consuming? && s.consumer.batch != []
    case Advance => s.consumer.Retiring? && s.consumer.batch != []
    case ConsumeEnd => s.consumer.Consuming? && s.consumer.batch == []
  }

  function Set(s: State, p: nat, pc: Producer): State { s.(producers := s.producers[p := pc]) }
  function Return(s: State, p: nat): State { s.(producers := s.producers - {p}) }

  function Do(s: State, step: Step): State
    requires Enabled(s, step) && |s.slots| == N
  {
    match step
    case Call(p, rec, priority) => Set(s, p, Loading(rec, priority))
    case LoadWrite(p) =>
      var c := s.producers[p];
      Set(s, p, Loaded(c.rec, c.priority, s.writePos, s.claimed))
    case LoadRead(p) =>
      var c := s.producers[p];
      if HasRoom(c.pos, s.readPos, c.priority)
      then Set(s, p, Checked(c.rec, c.priority, c.pos, c.ticket, s.retired))
      else Return(s, p)
    case Cas(p) =>
      var c := s.producers[p];
      if s.writePos == c.pos
      then Set(s, p, Writing(c.rec, s.claimed, 0)).(
        writePos := Word(c.pos + 1), claimed := s.claimed + 1, accepted := s.accepted + [c.rec])
      else Set(s, p, Loading(c.rec, c.priority))
    case WriteCell(p) =>
      var c := s.producers[p];
      var i := Index(Word(c.ticket));
      Set(s, p, c.(done := c.done + 1)).(
        slots := s.slots[i := s.slots[i].(cells := s.slots[i].cells[c.done := c.rec[c.done]])])
    case Publish(p) =>
      var c := s.producers[p];
      var i := Index(Word(c.ticket));
      Return(s, p).(slots := s.slots[i := s.slots[i].(stamp := Word(c.ticket + 1))])
    case PeekStart => s.(consumer := Peeking(s.readPos, []))
    case PeekCheck =>
      var c := s.consumer;
      if s.slots[Index(Word(c.read + |c.batch|))].stamp == Word(c.read + |c.batch| + 1)
      then s.(consumer := Copying(c.read, c.batch, []))
      else s.(consumer := Peeked(c.batch))
    case PeekCell =>
      var c := s.consumer;
      s.(consumer := c.(part := c.part + [s.slots[Index(Word(c.read + |c.batch|))].cells[|c.part|]]))
    case PeekNext => s.(consumer := Peeking(s.consumer.read, s.consumer.batch + [s.consumer.part]))
    case PeekStop => s.(consumer := Peeked(s.consumer.batch))
    case SubmitFailed => s.(consumer := Resting)
    case SubmitDone => s.(consumer := Consuming(s.consumer.batch))
    case Stamp =>
      var i := Index(s.readPos);
      s.(consumer := Retiring(s.readPos, s.consumer.batch),
         slots := s.slots[i := s.slots[i].(stamp := Word(s.readPos + N))])
    case Advance =>
      s.(consumer := Consuming(s.consumer.batch[1..]), readPos := Word(s.consumer.read + 1),
         retired := s.retired + 1, delivered := s.delivered + [s.consumer.batch[0]])
    case ConsumeEnd => s.(consumer := Resting)
  }

  // ----- Invariant -----

  /** Ticket `t` is claimed but its record is not published yet. */
  ghost predicate Held(producers: map<nat, Producer>, t: nat) {
    exists p :: p in producers && producers[p].Writing? && producers[p].ticket == t
  }

  /** Ticket `t` sits complete in its slot. */
  predicate Ready(s: State, t: nat)
    requires |s.slots| == N && |s.accepted| == s.claimed
  {
    t < s.claimed && s.slots[t % N] == Slot(s.accepted[t], Word(t + 1))
  }

  ghost predicate Shape(s: State) {
    && |s.slots| == N
    && s.writePos == Word(s.claimed) && s.readPos == Word(s.retired)
    && s.retired <= s.claimed <= s.retired + N
    && |s.accepted| == s.claimed
    && s.delivered == s.accepted[..s.retired]
  }

  ghost predicate ProducerOk(s: State, p: nat)
    requires Shape(s) && p in s.producers
  {
    match s.producers[p]
    case Loading(_, _) => true
    case Loaded(_, _, pos, ticket) => ticket <= s.claimed && pos == Word(ticket)
    case Checked(_, priority, pos, ticket, seen) =>
      && ticket <= s.claimed && pos == Word(ticket) && seen <= s.retired
      && (seen <= ticket ==> ticket - seen + (if priority then 1 else RESERVE + 1) <= N)
    case Writing(rec, ticket, done) =>
      && s.retired <= ticket < s.claimed && done <= CELLS && rec == s.accepted[ticket]
      && s.slots[ticket % N].stamp == Word(ticket)
      && s.slots[ticket % N].cells[..done] == rec[..done]
  }

  ghost predicate ProducersOk(s: State)
    requires Shape(s)
  {
    && (forall p :: p in s.producers ==> ProducerOk(s, p))
    && (forall p, q :: (p in s.producers && q in s.producers && p != q &&
          s.producers[p].Writing? && s.producers[q].Writing?) ==> s.producers[p].ticket != s.producers[q].ticket)
  }

  /** Everything claimed and not retired is held by its writer or complete; everything else is stamped free. */
  ghost predicate SlotsOk(s: State)
    requires Shape(s)
  {
    && (forall t :: s.retired <= t < s.claimed && !Held(s.producers, t) && !(s.consumer.Retiring? && t == s.retired) ==> Ready(s, t))
    && (forall t :: s.claimed <= t < s.retired + N ==> s.slots[t % N].stamp == Word(t))
  }

  ghost predicate BatchOk(s: State, batch: seq<Record>)
    requires Shape(s)
  {
    && s.retired + |batch| <= s.claimed && |batch| <= BATCH
    && batch == s.accepted[s.retired..s.retired + |batch|]
    && (forall t :: s.retired <= t < s.retired + |batch| ==> !Held(s.producers, t))
  }

  ghost predicate ConsumerOk(s: State)
    requires Shape(s)
  {
    match s.consumer
    case Resting => true
    case Peeking(read, batch) => read == s.readPos && BatchOk(s, batch)
    case Copying(read, batch, part) =>
      && read == s.readPos && BatchOk(s, batch) && |batch| < BATCH
      && s.retired + |batch| < s.claimed && !Held(s.producers, s.retired + |batch|)
      && |part| <= CELLS && part == s.accepted[s.retired + |batch|][..|part|]
    case Peeked(batch) => BatchOk(s, batch)
    case Consuming(batch) => BatchOk(s, batch)
    case Retiring(read, batch) =>
      && read == s.readPos && BatchOk(s, batch) && batch != []
      && s.slots[s.retired % N].stamp == Word(s.retired + N)
  }

  ghost predicate Inv(s: State) {
    Shape(s) && ProducersOk(s) && SlotsOk(s) && ConsumerOk(s)
  }

  // ----- Every step keeps the invariant -----

  lemma WordIndex(t: nat)
    ensures Index(Word(t)) == t % N
  {
  }

  lemma WordAdd(t: nat, n: nat)
    ensures Word(Word(t) + n) == Word(t + n)
  {
  }

  lemma SameIndex(t: nat)
    ensures (t + N) % N == t % N
  {
  }

  lemma DistinctIndex(t: nat, u: nat)
    requires t != u && -N < t - u < N
    ensures t % N != u % N
  {
  }

  /** Only producer `p` moved. */
  ghost predicate SameExcept(s: State, s': State, p: nat) {
    forall q :: q != p ==>
      && (q in s.producers <==> q in s'.producers)
      && (q in s.producers && q in s'.producers ==> s.producers[q] == s'.producers[q])
  }

  /** Which tickets are held changes only by the mover's own ticket. */
  lemma HeldFrame(s: State, s': State, p: nat, t: nat)
    requires SameExcept(s, s', p)
    requires !(p in s.producers && s.producers[p].Writing? && s.producers[p].ticket == t)
    ensures Held(s.producers, t) ==> Held(s'.producers, t)
  {
    if Held(s.producers, t) {
      var q :| q in s.producers && s.producers[q].Writing? && s.producers[q].ticket == t;
      assert q != p && q in s'.producers;
    }
  }

  /** A step that moves one producer between states that hold no ticket. */
  lemma LocalStep(s: State, s': State, p: nat)
    requires Inv(s) && (p in s.producers ==> !s.producers[p].Writing?)
    requires s' == s.(producers := s'.producers) && SameExcept(s, s', p)
    requires p in s'.producers ==> !s'.producers[p].Writing? && ProducerOk(s', p)
    ensures Inv(s')
  {
    forall q | q in s'.producers && q != p ensures ProducerOk(s', q) {
      assert q in s.producers && ProducerOk(s, q);
    }
    forall t: nat ensures Held(s'.producers, t) <==> Held(s.producers, t) {
      HeldFrame(s, s', p, t);
      HeldFrame(s', s, p, t);
    }
    assert ProducersOk(s');
  }

  /** Within the admitted delay the word comparison of the compare-and-swap compares tickets. */
  lemma CasComparesTickets(ticket: nat, claimed: nat)
    requires ticket <= claimed < ticket + WORD
    ensures Word(ticket) == Word(claimed) <==> ticket == claimed
  {
  }

  lemma RoomLeft(s: State, p: nat)
    requires Shape(s) && p in s.producers && s.producers[p].Loaded? && ProducerOk(s, p)
    requires HasRoom(s.producers[p].pos, s.readPos, s.producers[p].priority)
    ensures s.retired <= s.producers[p].ticket ==>
      s.producers[p].ticket - s.retired + (if s.producers[p].priority then 1 else RESERVE + 1) <= N
  {
    var c := s.producers[p];
    if s.retired <= c.ticket {
      assert c.ticket - s.retired <= N;
      assert Word(c.pos - s.readPos) == c.ticket - s.retired;
    }
  }

  lemma LocalSteps(s: State, step: Step)
    requires Inv(s) && Enabled(s, step)
    requires step.Call? || step.LoadWrite? || step.LoadRead? || (step.Cas? && s.writePos != s.producers[step.p].pos)
    ensures Inv(Do(s, step))
  {
    if step.LoadRead? && HasRoom(s.producers[step.p].pos, s.readPos, s.producers[step.p].priority) {
      assert ProducerOk(s, step.p);
      RoomLeft(s, step.p);
    }
    if step.LoadRead? { assert ProducerOk(s, step.p); }
    LocalStep(s, Do(s, step), step.p);
  }

  /** A successful claim: the slot is free, and an ordinary record leaves the reserve untouched. */
  lemma ClaimRoom(s: State, p: nat)
    requires Inv(s) && Enabled(s, Cas(p)) && s.writePos == s.producers[p].pos
    ensures s.producers[p].ticket == s.claimed < s.retired + N
    ensures s.slots[s.claimed % N].stamp == Word(s.claimed)
    ensures !s.producers[p].priority ==> N - (s.claimed + 1 - s.retired) >= RESERVE
  {
    assert ProducerOk(s, p);
    CasComparesTickets(s.producers[p].ticket, s.claimed);
  }

  /** The part of `ProducersOk` and `SlotsOk` that a step owes, once it is known which tickets are held. */
  lemma Settle(s: State, s': State)
    requires Shape(s) && Shape(s') && s'.retired == s.retired && s'.consumer == s.consumer && SlotsOk(s)
    requires s.claimed <= s'.claimed && s.accepted <= s'.accepted
    requires forall t :: s.retired <= t < s.retired + N && !Held(s'.producers, t) ==>
               s'.slots[t % N] == s.slots[t % N] || Ready(s', t)
    requires forall t :: s.retired <= t < s.retired + N && !Held(s'.producers, t) && t < s'.claimed ==>
               (t < s.claimed && !Held(s.producers, t)) || Ready(s', t)
    requires forall t :: s'.claimed <= t < s.retired + N ==> s'.slots[t % N].stamp == s.slots[t % N].stamp
    ensures SlotsOk(s')
  {
    forall t | s'.retired <= t < s'.claimed && !Held(s'.producers, t) && !(s'.consumer.Retiring? && t == s'.retired)
      ensures Ready(s', t)
    {
      if !Ready(s', t) { assert Ready(s, t); }
    }
  }

  lemma ClaimProducers(s: State, p: nat)
    requires Inv(s) && Enabled(s, Cas(p)) && s.writePos == s.producers[p].pos
    ensures var s' := Do(s, Cas(p)); Shape(s') && ProducersOk(s') && Held(s'.producers, s.claimed)
  {
    var s' := Do(s, Cas(p));
    ClaimRoom(s, p);
    WordAdd(s.claimed, 1);
    forall q | q in s'.producers ensures ProducerOk(s', q) {
      if q != p { assert ProducerOk(s, q); }
    }
    assert p in s'.producers;
  }

  lemma ClaimStep(s: State, p: nat)
    requires Inv(s) && Enabled(s, Cas(p)) && s.writePos == s.producers[p].pos
    ensures Inv(Do(s, Cas(p)))
  {
    hide ProducersOk, ProducerOk;
    var s' := Do(s, Cas(p));
    ClaimProducers(s, p);
    forall t: nat | t != s.claimed ensures Held(s'.producers, t) <==> Held(s.producers, t) {
      HeldFrame(s, s', p, t);
      HeldFrame(s', s, p, t);
    }
    Settle(s, s');
  }

  /** Only the writer's own slot changes, and nobody else of the window shares its index. */
  lemma OwnSlotOnly(s: State, s': State, ticket: nat)
    requires |s.slots| == |s'.slots| == N && s.retired <= ticket < s.retired + N
    requires s'.slots == s.slots[ticket % N := s'.slots[ticket % N]]
    ensures forall t :: s.retired <= t < s.retired + N && t != ticket ==> s'.slots[t % N] == s.slots[t % N]
  {
    forall t | s.retired <= t < s.retired + N && t != ticket ensures s'.slots[t % N] == s.slots[t % N] {
      DistinctIndex(t, ticket);
    }
  }

  lemma WriteProducers(s: State, p: nat)
    requires Inv(s) && Enabled(s, WriteCell(p))
    ensures var s', t := Do(s, WriteCell(p)), s.producers[p].ticket;
      && ProducersOk(s') && s.retired <= t < s.claimed
      && s'.slots == s.slots[t % N := s'.slots[t % N]] && s'.slots[t % N].stamp == s.slots[t % N].stamp
  {
    var s' := Do(s, WriteCell(p));
    var c := s.producers[p];
    assert ProducerOk(s, p);
    WordIndex(c.ticket);
    OwnSlotOnly(s, s', c.ticket);
    forall q | q in s'.producers ensures ProducerOk(s', q) {
      assert ProducerOk(s, q);
    }
  }

  lemma WriteStep(s: State, p: nat)
    requires Inv(s) && Enabled(s, WriteCell(p))
    ensures Inv(Do(s, WriteCell(p)))
  {
    hide ProducersOk, ProducerOk;
    var s' := Do(s, WriteCell(p));
    WriteProducers(s, p);
    OwnSlotOnly(s, s', s.producers[p].ticket);
    forall t: nat ensures Held(s'.producers, t) <==> Held(s.producers, t) {
      if t == s.producers[p].ticket { assert p in s.producers && p in s'.producers; }
      else { HeldFrame(s, s', p, t); HeldFrame(s', s, p, t); }
    }
    Settle(s, s');
  }

  lemma PublishProducers(s: State, p: nat)
    requires Inv(s) && Enabled(s, Publish(p))
    ensures var s', t := Do(s, Publish(p)), s.producers[p].ticket;
      && ProducersOk(s') && s.retired <= t < s.claimed && Ready(s', t)
      && s'.slots == s.slots[t % N := s'.slots[t % N]]
  {
    var s' := Do(s, Publish(p));
    var c := s.producers[p];
    assert ProducerOk(s, p);
    WordIndex(c.ticket);
    OwnSlotOnly(s, s', c.ticket);
    forall q | q in s'.producers ensures ProducerOk(s', q) {
      assert ProducerOk(s, q);
    }
    assert c.rec == c.rec[..CELLS] && s.slots[c.ticket % N].cells == s.slots[c.ticket % N].cells[..CELLS];
  }

  lemma PublishStep(s: State, p: nat)
    requires Inv(s) && Enabled(s, Publish(p))
    ensures Inv(Do(s, Publish(p)))
  {
    hide ProducersOk, ProducerOk;
    var s' := Do(s, Publish(p));
    var ticket := s.producers[p].ticket;
    PublishProducers(s, p);
    OwnSlotOnly(s, s', ticket);
    forall t: nat | t != ticket ensures Held(s'.producers, t) <==> Held(s.producers, t) {
      HeldFrame(s, s', p, t);
      HeldFrame(s', s, p, t);
    }
    assert Held(s.producers, ticket);
    Settle(s, s');
  }

  /** A matching stamp means the ticket is claimed, published and intact. */
  lemma StampMeansReady(s: State, t: nat)
    requires Inv(s) && s.retired <= t < s.retired + N && !s.consumer.Retiring?
    requires s.slots[t % N].stamp == Word(t + 1)
    ensures t < s.claimed && !Held(s.producers, t) && Ready(s, t)
  {
    assert Word(t) != Word(t + 1);
    assert forall p :: p in s.producers && s.producers[p].Writing? && s.producers[p].ticket == t ==>
      ProducerOk(s, p) && s.slots[t % N].stamp == Word(t);
  }

  /** A consumer step that leaves the ring itself alone. */
  lemma ConsumerLocal(s: State, s': State)
    requires Inv(s) && s' == s.(consumer := s'.consumer)
    requires !s.consumer.Retiring? && !s'.consumer.Retiring?
    requires ConsumerOk(s')
    ensures Inv(s')
  {
    forall p | p in s'.producers ensures ProducerOk(s', p) { assert ProducerOk(s, p); }
  }

  lemma PeekEnds(s: State, step: Step)
    requires Inv(s) && Enabled(s, step) && (step.PeekStart? || step.PeekStop?)
    ensures Inv(Do(s, step))
  {
    hide ProducersOk, SlotsOk;
    ConsumerLocal(s, Do(s, step));
  }

  lemma PeekCheckStep(s: State)
    requires Inv(s) && Enabled(s, PeekCheck)
    ensures Inv(Do(s, PeekCheck))
  {
    var s', n := Do(s, PeekCheck), |s.consumer.batch|;
    WordAdd(s.retired, n);
    WordAdd(s.retired, n + 1);
    WordIndex(s.retired + n);
    if s'.consumer.Copying? { StampMeansReady(s, s.retired + n); }
    hide ProducersOk, SlotsOk;
    ConsumerLocal(s, s');
  }

  lemma PeekCellStep(s: State)
    requires Inv(s) && Enabled(s, PeekCell)
    ensures Inv(Do(s, PeekCell))
  {
    hide ProducersOk;
    var s', n := Do(s, PeekCell), |s.consumer.batch|;
    WordAdd(s.retired, n);
    WordIndex(s.retired + n);
    assert Ready(s, s.retired + n);
    ConsumerLocal(s, s');
  }

  lemma PeekNextStep(s: State)
    requires Inv(s) && Enabled(s, PeekNext)
    ensures Inv(Do(s, PeekNext))
  {
    hide ProducersOk, SlotsOk;
    var s', c := Do(s, PeekNext), s.consumer;
    assert c.part == s.accepted[s.retired + |c.batch|];
    BatchSnoc(s, c.batch);
    ConsumerLocal(s, s');
  }

  lemma BatchSnoc(s: State, batch: seq<Record>)
    requires Shape(s) && BatchOk(s, batch) && |batch| < BATCH
    requires s.retired + |batch| < s.claimed && !Held(s.producers, s.retired + |batch|)
    ensures BatchOk(s, batch + [s.accepted[s.retired + |batch|]])
  {
  }

  lemma SubmitSteps(s: State, step: Step)
    requires Inv(s) && Enabled(s, step)
    requires step.SubmitFailed? || step.SubmitDone? || step.ConsumeEnd?
    ensures Inv(Do(s, step))
  {
    hide ProducersOk, SlotsOk;
    ConsumerLocal(s, Do(s, step));
  }

  lemma StampStep(s: State)
    requires Inv(s) && Enabled(s, Stamp)
    ensures Inv(Do(s, Stamp))
  {
    var s' := Do(s, Stamp);
    WordIndex(s.retired);
    WordAdd(s.retired, N);
    OwnSlotOnly(s, s', s.retired);
    assert !Held(s.producers, s.retired);
    forall q | q in s'.producers ensures ProducerOk(s', q) {
      assert ProducerOk(s, q);
    }
    forall t | s'.retired < t < s'.claimed && !Held(s'.producers, t) ensures Ready(s', t) {
      assert Ready(s, t);
    }
  }

  lemma AdvanceSlots(s: State)
    requires Inv(s) && Enabled(s, Advance)
    ensures var s' := Do(s, Advance); Shape(s') && SlotsOk(s')
  {
    hide ProducersOk;
    var s' := Do(s, Advance);
    WordAdd(s.retired, 1);
    SameIndex(s.retired);
    assert s'.slots == s.slots && s'.claimed == s.claimed && s'.retired == s.retired + 1;
    forall t | s'.retired <= t < s'.claimed && !Held(s'.producers, t) ensures Ready(s', t) {
      assert Ready(s, t);
    }
  }

  lemma AdvanceStep(s: State)
    requires Inv(s) && Enabled(s, Advance)
    ensures Inv(Do(s, Advance))
  {
    var s' := Do(s, Advance);
    AdvanceSlots(s);
    hide SlotsOk;
    assert !Held(s.producers, s.retired);
    forall q | q in s'.producers ensures ProducerOk(s', q) {
      assert ProducerOk(s, q);
    }
  }

  lemma InvStep(s: State, step: Step)
    requires Inv(s) && Enabled(s, step)
    ensures Inv(Do(s, step))
  {
    hide Inv, Do;
    match step
    case Cas(p) => if s.writePos == s.producers[p].pos { ClaimStep(s, p); } else { LocalSteps(s, step); }
    case WriteCell(p) => WriteStep(s, p);
    case Publish(p) => PublishStep(s, p);
    case Call(_, _, _) => LocalSteps(s, step);
    case LoadWrite(_) => LocalSteps(s, step);
    case LoadRead(_) => LocalSteps(s, step);
    case SubmitFailed => SubmitSteps(s, step);
    case SubmitDone => SubmitSteps(s, step);
    case ConsumeEnd => SubmitSteps(s, step);
    case Stamp => StampStep(s);
    case Advance => AdvanceStep(s);
    case PeekStart => PeekEnds(s, step);
    case PeekCheck => PeekCheckStep(s);
    case PeekCell => PeekCellStep(s);
    case PeekNext => PeekNextStep(s);
    case PeekStop => PeekEnds(s, step);
  }

  // ----- Whole runs -----

  /** `trace` is an interleaving: it starts with an initialised ring and takes the given atomic steps. */
  ghost predicate Execution(cells: Record, trace: seq<State>, steps: seq<Step>) {
    && |trace| == |steps| + 1 && trace[0] == Init(cells)
    && forall i :: 0 <= i < |steps| ==>
         |trace[i].slots| == N && Enabled(trace[i], steps[i]) && trace[i + 1] == Do(trace[i], steps[i])
  }

  lemma {:induction false} ReachableInv(cells: Record, trace: seq<State>, steps: seq<Step>, i: nat)
    requires Execution(cells, trace, steps) && i < |trace|
    ensures Inv(trace[i])
  {
    if i > 0 {
      ReachableInv(cells, trace, steps, i - 1);
      InvStep(trace[i - 1], steps[i - 1]);
    }
  }

  predicate Wins(s: State, step: Step) {
    Enabled(s, step) && step.Cas? && s.writePos == s.producers[step.p].pos
  }

  /** The records of the pushes that won their compare-and-swap in the first `n` steps, in the order they won. */
  ghost function Won(trace: seq<State>, steps: seq<Step>, n: nat): seq<Record>
    requires n <= |steps| < |trace|
  {
    if n == 0 then [] else
    Won(trace, steps, n - 1) +
      if Wins(trace[n - 1], steps[n - 1]) then [trace[n - 1].producers[steps[n - 1].p].rec] else []
  }

  lemma AcceptedStep(s: State, step: Step)
    requires Enabled(s, step) && |s.slots| == N
    ensures Do(s, step).accepted == s.accepted + if Wins(s, step) then [s.producers[step.p].rec] else []
  {
  }

  lemma {:induction false} AcceptedAreTheWinners(cells: Record, trace: seq<State>, steps: seq<Step>, n: nat)
    requires Execution(cells, trace, steps) && n <= |steps|
    ensures trace[n].accepted == Won(trace, steps, n)
  {
    if n > 0 {
      AcceptedAreTheWinners(cells, trace, steps, n - 1);
      AcceptedStep(trace[n - 1], steps[n - 1]);
    }
  }

  /** In every interleaving the sender consumes exactly the accepted pushes, once each, in claim order and
      uncorrupted; and any batch it has peeked for submission is the next stretch of that same order. */
  lemma FifoDelivery(cells: Record, trace: seq<State>, steps: seq<Step>, n: nat)
    requires Execution(cells, trace, steps) && n <= |steps|
    ensures var s, won := trace[n], Won(trace, steps, n);
      && s.retired <= |won| <= s.retired + N
      && s.delivered == won[..s.retired]
      && (s.consumer.Peeked? ==>
            && s.retired + |s.consumer.batch| <= |won|
            && s.consumer.batch == won[s.retired..s.retired + |s.consumer.batch|])
  {
    ReachableInv(cells, trace, steps, n);
    AcceptedAreTheWinners(cells, trace, steps, n);
  }

  // ----- What USB took -----

  /** The batches whose USB submission succeeded in the first `n` steps, in order, read off at those steps. */
  ghost function Submitted(trace: seq<State>, steps: seq<Step>, n: nat): seq<Record>
    requires n <= |steps| < |trace|
  {
    if n == 0 then [] else
    Submitted(trace, steps, n - 1) +
      if steps[n - 1].SubmitDone? && trace[n - 1].consumer.Peeked? then trace[n - 1].consumer.batch else []
  }

  /** The records that are with the host and still in the ring. */
  ghost function Outstanding(c: Consumer): seq<Record> {
    if c.Consuming? || c.Retiring? then c.batch else []
  }

  lemma OutstandingStep(s: State, step: Step)
    requires Enabled(s, step) && |s.slots| == N
    ensures var s' := Do(s, step);
      s'.delivered + Outstanding(s'.consumer) ==
        s.delivered + Outstanding(s.consumer) + if step.SubmitDone? then s.consumer.batch else []
  {
    if step.Advance? { assert s.consumer.batch == [s.consumer.batch[0]] + s.consumer.batch[1..]; }
  }

  lemma {:induction false} SubmittedBalance(cells: Record, trace: seq<State>, steps: seq<Step>, n: nat)
    requires Execution(cells, trace, steps) && n <= |steps|
    ensures trace[n].delivered + Outstanding(trace[n].consumer) == Submitted(trace, steps, n)
  {
    hide Do;
    if n > 0 {
      SubmittedBalance(cells, trace, steps, n - 1);
      OutstandingStep(trace[n - 1], steps[n - 1]);
    }
  }

  lemma SentIsPrefix(s: State)
    requires Inv(s)
    ensures s.delivered + Outstanding(s.consumer) == s.accepted[..s.retired + |Outstanding(s.consumer)|]
  {
    hide ProducersOk, SlotsOk;
    assert BatchOk(s, Outstanding(s.consumer));
    assert s.accepted[..s.retired] + s.accepted[s.retired..s.retired + |Outstanding(s.consumer)|]
        == s.accepted[..s.retired + |Outstanding(s.consumer)|];
  }

  /** A record is consumed only after a submission that carried it succeeded, and every submission carries the
      next accepted pushes: nothing reaches the host twice, and nothing leaves the ring without reaching it. */
  lemma ConsumedWasSubmitted(cells: Record, trace: seq<State>, steps: seq<Step>, n: nat)
    requires Execution(cells, trace, steps) && n <= |steps|
    ensures var s, sent := trace[n], Submitted(trace, steps, n);
      && s.delivered <= sent <= Won(trace, steps, n)
      && (!s.consumer.Consuming? && !s.consumer.Retiring? ==> s.delivered == sent)
      && (s.consumer.Consuming? && s.consumer.batch == [] ==> s.delivered == sent)
  {
    ReachableInv(cells, trace, steps, n);
    AcceptedAreTheWinners(cells, trace, steps, n);
    SubmittedBalance(cells, trace, steps, n);
    hide Inv, Execution, Won, Submitted;
    SentIsPrefix(trace[n]);
  }

  predicate Consumes(step: Step) { step.Stamp? || step.Advance? || step.ConsumeEnd? }

  lemma {:induction false} IdleUntilSubmitted(cells: Record, trace: seq<State>, steps: seq<Step>, k: nat, m: nat)
    requires Execution(cells, trace, steps) && k < m <= |steps| && steps[k].SubmitFailed?
    requires forall i :: k < i < m ==> !steps[i].SubmitDone?
    ensures !trace[m].consumer.Consuming? && !trace[m].consumer.Retiring?
    ensures trace[m].readPos == trace[k].readPos && trace[m].retired == trace[k].retired
    ensures trace[m].delivered == trace[k].delivered
  {
    if m > k + 1 { IdleUntilSubmitted(cells, trace, steps, k, m - 1); }
  }

  /** A failed submission changes nothing but the sender's place, and nothing is consumed before the next
      submission that succeeds. */
  lemma FailureKeepsRecords(cells: Record, trace: seq<State>, steps: seq<Step>, k: nat, m: nat)
    requires Execution(cells, trace, steps) && k < m < |steps| && steps[k].SubmitFailed? && Consumes(steps[m])
    ensures trace[k + 1] == trace[k].(consumer := Resting)
    ensures exists i :: k < i < m && steps[i].SubmitDone?
  {
    if forall i :: k < i < m ==> !steps[i].SubmitDone? {
      IdleUntilSubmitted(cells, trace, steps, k, m);
    }
  }

  lemma StampIff(s: State, t: nat)
    requires Inv(s) && s.retired <= t < s.retired + N && !s.consumer.Retiring?
    ensures s.slots[t % N].stamp == Word(t + 1) <==> t < s.claimed && !Held(s.producers, t)
  {
    if s.slots[t % N].stamp == Word(t + 1) { StampMeansReady(s, t); }
    hide ProducersOk, ConsumerOk;
    assert t < s.claimed && !Held(s.producers, t) ==> Ready(s, t);
  }

  lemma PeekCheckIff(s: State)
    requires Inv(s) && Enabled(s, PeekCheck)
    ensures Do(s, PeekCheck) == s.(consumer :=
      if s.retired + |s.consumer.batch| < s.claimed && !Held(s.producers, s.retired + |s.consumer.batch|)
      then Copying(s.readPos, s.consumer.batch, []) else Peeked(s.consumer.batch))
  {
    var n := |s.consumer.batch|;
    StampIff(s, s.retired + n);
    hide ProducersOk, SlotsOk;
    WordAdd(s.retired, n);
    WordAdd(s.retired, n + 1);
    WordIndex(s.retired + n);
  }

  /** The sender takes the next record into its batch exactly when that record is claimed and published. */
  lemma PeekTakesWhatIsPublished(cells: Record, trace: seq<State>, steps: seq<Step>, i: nat)
    requires Execution(cells, trace, steps) && i < |steps| && steps[i].PeekCheck?
    ensures var s, batch := trace[i], trace[i].consumer.batch;
      trace[i + 1] == s.(consumer :=
        if s.retired + |batch| < s.claimed && !Held(s.producers, s.retired + |batch|)
        then Copying(s.readPos, batch, []) else Peeked(batch))
  {
    ReachableInv(cells, trace, steps, i);
    PeekCheckIff(trace[i]);
    hide Inv, Do;
  }

  // ----- Every call is answered -----

  /** Producer `p` is still busy with this call. */
  predicate Serves(s: State, p: nat, rec: Record, priority: bool) {
    p in s.producers && s.producers[p].rec == rec && (s.producers[p].Writing? || s.producers[p].priority == priority)
  }

  /** Call `j` is the one producer `p` is serving, with the record and priority it was given. */
  ghost predicate CalledAt(trace: seq<State>, steps: seq<Step>, j: nat, n: nat, p: nat)
    requires n < |trace| == |steps| + 1
  {
    && j < n && steps[j].Call? && steps[j].p == p
    && forall k :: j < k <= n ==> Serves(trace[k], p, steps[j].rec, steps[j].priority)
  }

  lemma ServesStep(s: State, step: Step, p: nat)
    requires Enabled(s, step) && |s.slots| == N && p in Do(s, step).producers
    ensures (step.Call? && step.p == p && Serves(Do(s, step), p, step.rec, step.priority)) ||
      (p in s.producers && Serves(Do(s, step), p, s.producers[p].rec, if s.producers[p].Writing? then false else s.producers[p].priority))
  {
  }

  /** A push works on the record and the priority it was called with, through all its retries. */
  lemma {:induction false} PushKeepsItsCall(cells: Record, trace: seq<State>, steps: seq<Step>, n: nat, p: nat) returns (j: nat)
    requires Execution(cells, trace, steps) && n < |trace| && p in trace[n].producers
    ensures |trace| == |steps| + 1 && CalledAt(trace, steps, j, n, p)
  {
    assert n > 0;
    ServesStep(trace[n - 1], steps[n - 1], p);
    hide Do, Enabled;
    if p in trace[n - 1].producers {
      j := PushKeepsItsCall(cells, trace, steps, n - 1, p);
    } else {
      j := n - 1;
    }
  }

  /** A push ends by publishing its record, or by finding no room for it; losing the race for a slot only makes it retry. */
  lemma PushEndsForCause(cells: Record, trace: seq<State>, steps: seq<Step>, i: nat, p: nat)
    requires Execution(cells, trace, steps) && i < |steps| && p in trace[i].producers && p !in trace[i + 1].producers
    ensures || (steps[i] == Publish(p) && trace[i].producers[p].Writing? && trace[i].producers[p].done == CELLS)
            || (steps[i] == LoadRead(p) && trace[i].producers[p].Loaded?
                && !HasRoom(trace[i].producers[p].pos, trace[i].readPos, trace[i].producers[p].priority))
  {
  }

  /** No producer step touches a published, unconsumed slot, in particular not one being peeked. */
  lemma NeverOverwrites(cells: Record, trace: seq<State>, steps: seq<Step>, i: nat, t: nat)
    requires Execution(cells, trace, steps) && i < |steps| && (steps[i].WriteCell? || steps[i].Publish?)
    requires trace[i].retired <= t < trace[i].claimed && !Held(trace[i].producers, t)
    ensures trace[i + 1].slots[t % N] == trace[i].slots[t % N]
  {
    var s, s', p := trace[i], trace[i + 1], steps[i].p;
    ReachableInv(cells, trace, steps, i);
    assert ProducerOk(s, p);
    WordIndex(s.producers[p].ticket);
    OwnSlotOnly(s, s', s.producers[p].ticket);
  }

  /** A successful ordinary push always leaves the two slots reserved for acknowledgements. */
  lemma ReserveKept(cells: Record, trace: seq<State>, steps: seq<Step>, i: nat)
    requires Execution(cells, trace, steps) && i < |steps| && Wins(trace[i], steps[i])
    ensures var s' := trace[i + 1];
      s'.claimed <= s'.retired + N &&
      (!trace[i].producers[steps[i].p].priority ==> N - (s'.claimed - s'.retired) >= RESERVE)
  {
    ReachableInv(cells, trace, steps, i);
    ClaimRoom(trace[i], steps[i].p);
  }

  /** If no other claim came between its two loads, a rejected push met a ring that really was out of room. */
  lemma RejectionMeansFull(cells: Record, trace: seq<State>, steps: seq<Step>, i: nat)
    requires Execution(cells, trace, steps) && i < |steps| && steps[i].LoadRead?
    requires steps[i].p !in trace[i + 1].producers
    requires trace[i].producers[steps[i].p].ticket == trace[i].claimed
    ensures var s, c := trace[i], trace[i].producers[steps[i].p];
      N - (s.claimed - s.retired) <= if c.priority then 0 else RESERVE
  {
    var s, c := trace[i], trace[i].producers[steps[i].p];
    ReachableInv(cells, trace, steps, i);
    assert ProducerOk(s, steps[i].p);
    hide ProducersOk, SlotsOk, ConsumerOk, ProducerOk;
    assert Word(c.pos - s.readPos) == s.claimed - s.retired;
  }
}
