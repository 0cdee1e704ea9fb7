/**
 The PC's side of the over-the-air update: with at most 112 chunks in flight the relay's ring never fills,
 and no chunk a tracker still needs is overwritten.
 */
module OtaWindow {
  import opened Wrappers
  import opened OtaRelay

  /** `MAX_IN_FLIGHT` of the sender. */
  const IN_FLIGHT := RING - 16

  /** The PC's side of a session: what it sends next, and the next sequence number each tracker reported to it. */
  datatype Sender = Sender(next: nat, active: set<nat>, view: map<nat, nat>)

  function Joined(pc: Sender, id: nat): Sender {
    pc.(active := pc.active + {id}, view := pc.view[id := 0])
  }

  /** Every target of the relay is one of the PC's, and the PC's picture of it is never ahead of the relay's.
      All chunks from a target's next sequence number up to the head are in the ring. */
  ghost predicate Windowed(w: World, pc: Sender) {
    && Coherent(w) && w.relay.active && w.relay.head == w.sent == pc.next
    && (forall id :: id in w.relay.targets ==>
          && id in pc.active && id in pc.view
          && pc.view[id] <= w.relay.tracker[id].nextSeq <= pc.next <= pc.view[id] + IN_FLIGHT)
    && (forall id, n :: id in w.relay.targets && w.relay.tracker[id].nextSeq <= n < w.relay.head ==> Holds(w.relay, n))
  }

  /** The sender's test before it puts another chunk on the wire. */
  ghost predicate MaySend(w: World, pc: Sender) {
    && pc.next < |w.image| < 65536 && pc.active <= pc.view.Keys
    && forall id :: id in pc.active && id in pc.view ==> pc.next - pc.view[id] < IN_FLIGHT
  }

  /** Within the window no chunk is refused for a full ring. */
  lemma WindowNeverFull(w: World, pc: Sender)
    requires Windowed(w, pc) && MaySend(w, pc)
    ensures !RingFull(w.relay)
  {
    var r := w.relay;
    SeqMinBounds(r.head, r.targets, r.tracker);
    assert forall i :: 0 <= i < |r.targets| ==> r.targets[i] in r.targets;
  }

  lemma SendKeepsWindow(w: World, pc: Sender)
    requires Windowed(w, pc) && MaySend(w, pc)
    ensures var e := HidData(pc.next, w.image[pc.next]);
      Windowed(Next(w, Input(e, [])), pc.(next := pc.next + 1))
  {
    var e := HidData(pc.next, w.image[pc.next]);
    var w' := Next(w, Input(e, []));
    WindowNeverFull(w, pc);
    StoreKeepsCoherent(w, e);
    forall id, n | id in w'.relay.targets && w'.relay.tracker[id].nextSeq <= n < w'.relay.head ensures Holds(w'.relay, n) {
      if n != pc.next {
        assert id in w.relay.targets && Holds(w.relay, n);
        assert n % RING != pc.next % RING;
      }
    }
  }

  /** A tracker's poll moves its own next sequence number forward, and keeps the window. */
  lemma PollKeepsWindow(w: World, pc: Sender, id: nat, now: nat, wants: Option<Word16>)
    requires Windowed(w, pc)
    requires wants.Some? && id < TRACKERS ==> w.relay.tracker[id].nextSeq <= wants.value <= w.relay.head
    ensures Windowed(Next(w, Input(Poll(id, now, wants), [])), pc)
  {
    CoherentStep(w, Input(Poll(id, now, wants), []));
    var w' := Next(w, Input(Poll(id, now, wants), []));
    forall x, n | x in w'.relay.targets && w'.relay.tracker[x].nextSeq <= n < w'.relay.head ensures Holds(w'.relay, n) {
      assert Holds(w.relay, n);
    }
  }

  /** Departures and queued commands keep every remaining target's place, the ring and the head. */
  lemma DepartureFrame(r: Relay, e: Event)
    requires SessionOk(r) && (e.Report? || e.Request? || e.Abort? || e.Forget?)
    ensures var r' := Handle(r, e).0;
      && |r'.tracker| == TRACKERS && r'.ring == r.ring && (r'.active ==> r.active && r'.head == r.head)
      && (forall x :: x in r'.targets ==> x in r.targets && x < TRACKERS && r'.tracker[x].nextSeq == r.tracker[x].nextSeq)
  {
    WithoutSpec(r.targets, e.id);
  }

  /** A target that leaves, or a command queued for one, keeps the window for the rest. */
  lemma OthersKeepWindow(w: World, pc: Sender, e: Event)
    requires Windowed(w, pc) && (e.Report? || e.Request? || e.Abort? || e.Forget?)
    ensures var w' := Next(w, Input(e, [])); w'.relay.active ==> Windowed(w', pc)
  {
    CoherentStep(w, Input(e, []));
    DepartureFrame(w.relay, e);
    hide Handle, Coherent;
    var w' := Next(w, Input(e, []));
    if w'.relay.active {
      forall x, n | x in w'.relay.targets && w'.relay.tracker[x].nextSeq <= n < w'.relay.head ensures Holds(w'.relay, n) {
        assert Holds(w.relay, n);
      }
    }
  }

  /** Hearing of progress the relay already knows of keeps the window. */
  lemma StatusKeepsWindow(w: World, pc: Sender, id: nat, reported: nat)
    requires Windowed(w, pc) && id in pc.view
    requires id in w.relay.targets ==> pc.view[id] <= reported <= w.relay.tracker[id].nextSeq
    ensures Windowed(w, pc.(view := pc.view[id := reported]))
  {
  }

  /** BEGIN opens a window with one tracker in it; more may join until the first chunk is sent. */
  lemma BeginKeepsWindow(w: World, pc: Sender, id: nat, now: nat, radioFree: bool, image: seq<Bytes>)
    requires SessionOk(w.relay) && pc.next == 0 && ImageOk(image) && Admits(w.relay, id, radioFree)
    requires w.relay.active ==> Windowed(w, pc)
    ensures Windowed(Next(w, Input(Begin(id, now, radioFree), image)), Joined(pc, id))
  {
    var input := Input(Begin(id, now, radioFree), image);
    if !w.relay.active { IdleCoherent(w); }
    CoherentStep(w, input);
    var w' := Next(w, input);
    OthersKeepRing(w.relay, input.event);
    assert w'.relay.head == 0;
    hide Coherent;
  }

  /** Inside the window no target ever waits for a chunk that is gone: asking for anything between its own next
      sequence number and the head is answered with exactly that chunk, however often the answer is lost. */
  lemma WindowServesEveryTarget(w: World, pc: Sender, id: nat, now: nat, n: Word16)
    requires Windowed(w, pc) && id in w.relay.targets && w.relay.tracker[id].pending.None?
    requires w.relay.tracker[id].nextSeq <= n < w.relay.head && !Entombed(w.relay, id, now)
    ensures Handle(w.relay, Poll(id, now, Some(n))).1 == Data(id, n, w.image[n])
  {
    assert Holds(w.relay, n);
    assert Current(w.relay, w.image, n % RING);
  }

  /**
   One step of the PC and the relay together: a BEGIN, a chunk, a radio or console event, or the PC hearing of
   the STATUS packet that the relay answered at step `packet`.
   */
  datatype Act = Join(id: nat, now: nat, radioFree: bool) | Send | Radio(event: Event) | Hear(id: nat, packet: nat)

  /** Trackers ask forwards and for no more than there is. */
  ghost predicate Asks(r: Relay, e: Event)
    requires Shape(r)
  {
    e.Poll? && e.wants.Some? && e.id < TRACKERS ==> r.tracker[e.id].nextSeq <= e.wants.value <= r.head
  }

  ghost predicate Allowed(w: World, pc: Sender, a: Act) {
    && SessionOk(w.relay)
    && match a
       case Join(_, _, _) => pc.next == 0
       case Send => w.relay.active && MaySend(w, pc)
       case Radio(e) => w.relay.active && (e.Report? || e.Request? || e.Abort? || e.Forget? || e.Poll?) && Asks(w.relay, e)
       case Hear(id, _) => w.relay.active && id in pc.view
  }

  ghost function Together(w: World, pc: Sender, a: Act, image: seq<Bytes>, reported: nat): (World, Sender)
    requires Allowed(w, pc, a)
  {
    match a
    case Join(id, now, radioFree) =>
      (Next(w, Input(Begin(id, now, radioFree), image)), if Admits(w.relay, id, radioFree) then Joined(pc, id) else pc)
    case Send => (Next(w, Input(HidData(pc.next, w.image[pc.next]), [])), pc.(next := pc.next + 1))
    case Radio(e) => (Next(w, Input(e, [])), pc)
    case Hear(id, _) => (w, pc.(view := pc.view[id := reported]))
  }

  /** Step `j` is a STATUS packet of tracker `id` that the relay took note of: no command was pending. */
  ghost predicate Noted(trace: seq<(World, Sender)>, acts: seq<Act>, j: nat, id: nat)
    requires j < |acts| < |trace|
  {
    && acts[j].Radio? && acts[j].event.Poll? && acts[j].event.id == id && acts[j].event.wants.Some?
    && var r := trace[j].0.relay;
       SessionOk(r) && id in r.targets && r.tracker[id].pending.None? && !Entombed(r, id, acts[j].event.now)
  }

  /** The number a STATUS packet carries. */
  ghost function Carried(acts: seq<Act>, j: nat): nat {
    if j < |acts| && acts[j].Radio? && acts[j].event.Poll? && acts[j].event.wants.Some? then acts[j].event.wants.value else 0
  }

  /** What the PC hears are noted packets, in the order they came. */
  ghost predicate Heard(trace: seq<(World, Sender)>, acts: seq<Act>, i: nat)
    requires i < |acts| < |trace|
  {
    acts[i].Hear? ==>
      && acts[i].packet < i && Noted(trace, acts, acts[i].packet, acts[i].id)
      && forall k :: 0 <= k < i && acts[k].Hear? && acts[k].id == acts[i].id ==> acts[k].packet <= acts[i].packet
  }

  ghost predicate Acted(trace: seq<(World, Sender)>, acts: seq<Act>, image: seq<Bytes>, i: nat)
    requires i < |acts| < |trace|
  {
    && Allowed(trace[i].0, trace[i].1, acts[i]) && Heard(trace, acts, i)
    && trace[i + 1] == Together(trace[i].0, trace[i].1, acts[i], image, if acts[i].Hear? then Carried(acts, acts[i].packet) else 0)
    && (trace[i].0.relay.active ==> trace[i + 1].0.relay.active)
  }

  /** A session from before its first BEGIN, up to any point at which it is still open. */
  ghost predicate Streaming(trace: seq<(World, Sender)>, acts: seq<Act>, image: seq<Bytes>) {
    && |trace| == |acts| + 1 && ImageOk(image)
    && SessionOk(trace[0].0.relay) && !trace[0].0.relay.active && trace[0].1 == Sender(0, {}, map[])
    && forall i :: 0 <= i < |acts| ==> Acted(trace, acts, image, i)
  }

  lemma StepFrame(w: World, pc: Sender, a: Act, image: seq<Bytes>, reported: nat)
    requires Allowed(w, pc, a) && w.relay.head <= pc.next
    ensures var (w', pc') := Together(w, pc, a, image, reported);
      SessionOk(w'.relay) && w'.relay.head <= pc'.next && pc.next <= pc'.next
  {
    match a
    case Join(id, now, radioFree) =>
      SessionInvariant(w.relay, Begin(id, now, radioFree));
      OthersKeepRing(w.relay, Begin(id, now, radioFree));
      hide SessionOk, Handle;
    case Send => SessionInvariant(w.relay, HidData(pc.next, w.image[pc.next]));
    case Radio(e) =>
      SessionInvariant(w.relay, e);
      OthersKeepRing(w.relay, e);
      hide SessionOk, Handle;
    case Hear(_, _) =>
  }

  lemma {:induction false} SentCoversHead(trace: seq<(World, Sender)>, acts: seq<Act>, image: seq<Bytes>, j: nat, i: nat)
    requires Streaming(trace, acts, image) && j <= i < |trace|
    ensures SessionOk(trace[i].0.relay) && trace[i].0.relay.head <= trace[i].1.next && trace[j].1.next <= trace[i].1.next
  {
    if i > 0 {
      SentCoversHead(trace, acts, image, if j < i then j else i - 1, i - 1);
      assert Acted(trace, acts, image, i - 1);
      hide SessionOk, Together, Allowed, Heard;
      StepFrame(trace[i - 1].0, trace[i - 1].1, acts[i - 1], image,
                if acts[i - 1].Hear? then Carried(acts, acts[i - 1].packet) else 0);
    }
  }

  /** Until the last BEGIN a target is at 0; afterwards its place in the relay only moves forwards. */
  lemma StepNextSeq(w: World, pc: Sender, a: Act, image: seq<Bytes>, reported: nat, id: nat)
    requires Allowed(w, pc, a)
    ensures var w' := Together(w, pc, a, image, reported).0;
      |w'.relay.tracker| == TRACKERS &&
      (id in w'.relay.targets && id < TRACKERS ==>
        a.Join? || (id in w.relay.targets && w.relay.tracker[id].nextSeq <= w'.relay.tracker[id].nextSeq))
  {
    if a.Radio? && !a.event.Poll? { DepartureFrame(w.relay, a.event); }
  }

  lemma NotedIsRecorded(r: Relay, id: nat, now: nat, n: Word16)
    requires SessionOk(r) && id in r.targets && r.tracker[id].pending.None? && !Entombed(r, id, now)
    ensures id < TRACKERS && Shape(Handle(r, Poll(id, now, Some(n))).0)
    ensures Handle(r, Poll(id, now, Some(n))).0.tracker[id].nextSeq == n
  {
  }

  /** The relay is never behind a STATUS packet it has noted. */
  lemma {:induction false} NotedStays(trace: seq<(World, Sender)>, acts: seq<Act>, image: seq<Bytes>, j: nat, i: nat, id: nat)
    requires Streaming(trace, acts, image) && j < i < |trace| && Noted(trace, acts, j, id)
    requires id < TRACKERS && id in trace[i].0.relay.targets
    ensures SessionOk(trace[i].0.relay) && Carried(acts, j) <= trace[i].0.relay.tracker[id].nextSeq
  {
    SentCoversHead(trace, acts, image, j, i);
    SentCoversHead(trace, acts, image, j, i - 1);
    assert Acted(trace, acts, image, i - 1) && Acted(trace, acts, image, j);
    var w, pc, a := trace[i - 1].0, trace[i - 1].1, acts[i - 1];
    var reported := if a.Hear? then Carried(acts, a.packet) else 0;
    if j == i - 1 {
      NotedIsRecorded(w.relay, id, a.event.now, a.event.wants.value);
    } else {
      StepNextSeq(w, pc, a, image, reported, id);
      if a.Join? {
        SentCoversHead(trace, acts, image, j, j);
        assert Asks(trace[j].0.relay, acts[j].event);
      } else {
        hide SessionOk, Together, Allowed, Heard;
        NotedStays(trace, acts, image, j, i - 1, id);
      }
    }
  }

  /** What the PC believes of a tracker is nothing, or the number of the last packet it heard of. */
  lemma {:induction false} ViewIsHeard(trace: seq<(World, Sender)>, acts: seq<Act>, image: seq<Bytes>, i: nat, id: nat) returns (k: nat)
    requires Streaming(trace, acts, image) && i < |trace| && id in trace[i].1.view
    ensures k <= i
    ensures if k == i then trace[i].1.view[id] == 0
            else acts[k].Hear? && acts[k].id == id && Heard(trace, acts, k) && trace[i].1.view[id] == Carried(acts, acts[k].packet)
  {
    assert i > 0;
    assert Acted(trace, acts, image, i - 1);
    hide SessionOk, Next, MaySend, Asks;
    var a := acts[i - 1];
    if a.Hear? && a.id == id {
      k := i - 1;
    } else if a.Join? && a.id == id && trace[i].1 == Joined(trace[i - 1].1, id) {
      k := i;
    } else {
      k := ViewIsHeard(trace, acts, image, i - 1, id);
      if k == i - 1 { k := i; }
    }
  }

  lemma HearKeepsView(trace: seq<(World, Sender)>, acts: seq<Act>, image: seq<Bytes>, i: nat)
    requires Streaming(trace, acts, image) && i < |acts| && acts[i].Hear?
    ensures var (w, pc) := trace[i]; var id, n := acts[i].id, Carried(acts, acts[i].packet);
      SessionOk(w.relay) && id in pc.view && (id in w.relay.targets ==> id < TRACKERS && pc.view[id] <= n <= w.relay.tracker[id].nextSeq)
  {
    assert Acted(trace, acts, image, i);
    var id, p := acts[i].id, acts[i].packet;
    SentCoversHead(trace, acts, image, i, i);
    if id in trace[i].0.relay.targets {
      NotedStays(trace, acts, image, p, i, id);
      var k := ViewIsHeard(trace, acts, image, i, id);
      if k < i && acts[k].packet < p {
        NotedStays(trace, acts, image, acts[k].packet, p, id);
        assert Acted(trace, acts, image, p);
        assert Asks(trace[p].0.relay, acts[p].event);
      }
    }
  }

  ghost predicate Open(w: World, pc: Sender) {
    SessionOk(w.relay) && if w.relay.active then Windowed(w, pc) else pc.next == 0
  }

  /**
   Over a whole session, from its first BEGIN on: every chunk the PC sends is stored, none is refused for a
   full ring, and nothing a target still needs is overwritten.
   */
  lemma {:induction false} SessionNeverDrops(trace: seq<(World, Sender)>, acts: seq<Act>, image: seq<Bytes>, i: nat)
    requires Streaming(trace, acts, image) && i < |trace|
    ensures Open(trace[i].0, trace[i].1)
    ensures i < |acts| && acts[i].Send? ==> Windowed(trace[i].0, trace[i].1) && !RingFull(trace[i].0.relay)
  {
    if i > 0 {
      SessionNeverDrops(trace, acts, image, i - 1);
      assert Acted(trace, acts, image, i - 1);
      var (w, pc) := trace[i - 1];
      SentCoversHead(trace, acts, image, i, i);
      match acts[i - 1]
      case Join(id, now, radioFree) =>
        if Admits(w.relay, id, radioFree) { BeginKeepsWindow(w, pc, id, now, radioFree, image); }
        hide Windowed, SessionOk;
      case Send => SendKeepsWindow(w, pc); hide Windowed, SessionOk, Next;
      case Radio(e) =>
        if e.Poll? { PollKeepsWindow(w, pc, e.id, e.now, e.wants); } else { OthersKeepWindow(w, pc, e); }
        hide Windowed, SessionOk, Next;
      case Hear(id, p) =>
        HearKeepsView(trace, acts, image, i - 1);
        hide SessionOk;
        StatusKeepsWindow(w, pc, id, Carried(acts, p));
    }
    if i < |acts| && acts[i].Send? { LastSend(trace, acts, image, i); }
  }

  lemma LastSend(trace: seq<(World, Sender)>, acts: seq<Act>, image: seq<Bytes>, i: nat)
    requires Streaming(trace, acts, image) && i < |acts| && acts[i].Send? && Open(trace[i].0, trace[i].1)
    ensures Windowed(trace[i].0, trace[i].1) && !RingFull(trace[i].0.relay)
  {
    assert Acted(trace, acts, image, i);
    hide Windowed, Together;
    WindowNeverFull(trace[i].0, trace[i].1);
  }

  // ----- A target the host has given up -----

  /** The ring is full exactly when some target of the relay is 128 chunks or more behind. */
  lemma RingFullIff(r: Relay)
    requires SessionOk(r) && r.head <= 65536
    ensures RingFull(r) <==> exists id :: id in r.targets && r.head - r.tracker[id].nextSeq >= RING
  {
    SeqMinBounds(r.head, r.targets, r.tracker);
    var m := SeqMin(r.head, r.targets, r.tracker);
    assert forall i :: 0 <= i < |r.targets| ==> r.targets[i] in r.targets;
    assert forall id :: id in r.targets ==> exists i :: 0 <= i < |r.targets| && r.targets[i] == id;
  }

  /** Two targets: 0, which never answered its BEGIN, and 1, which has consumed everything. */
  ghost predicate Pair(w: World, image: seq<Bytes>, head: nat) {
    && SessionOk(w.relay) && w.relay.active && w.image == image && w.relay.targets == [0, 1] && w.relay.head == head
    && w.relay.tracker[0].nextSeq == 0 && w.relay.tracker[1].nextSeq == head
    && w.relay.tracker[1].pending.None? && w.relay.tombstone[1].None?
  }

  lemma Reached(trace: seq<World>, inputs: seq<Input>, input: Input, w: World)
    requires Run(trace, inputs) && Went(trace[|inputs|], input, w)
    ensures Run(trace + [w], inputs + [input])
  {
  }

  lemma PairBegun(w: World, image: seq<Bytes>) returns (trace: seq<World>, inputs: seq<Input>)
    requires SessionOk(w.relay) && !w.relay.active && ImageOk(image)
    ensures Run(trace, inputs) && trace[0] == w && Pair(trace[|inputs|], image, 0)
  {
    inputs := [Input(Begin(0, 0, true), image), Input(Begin(1, 0, true), image), Input(Report(1, Ready), image)];
    var a := Next(w, inputs[0]);
    SessionInvariant(w.relay, inputs[0].event);
    var b := Next(a, inputs[1]);
    SessionInvariant(a.relay, inputs[1].event);
    var c := Next(b, inputs[2]);
    SessionInvariant(b.relay, inputs[2].event);
    trace := [w, a, b, c];
  }

  lemma PairChunk(w: World, image: seq<Bytes>, head: nat) returns (v: World)
    requires Pair(w, image, head) && head < RING && head < |image| && ImageOk(image)
    ensures Went(w, Input(HidData(head, image[head]), []), v)
    ensures SessionOk(v.relay) && v.relay == w.relay.(ring := v.relay.ring, head := head + 1) && v.image == image
  {
    RingFullIff(w.relay);
    SessionInvariant(w.relay, HidData(head, image[head]));
    v := Next(w, Input(HidData(head, image[head]), []));
  }

  lemma PairPoll(w: World, image: seq<Bytes>, head: nat) returns (v: World)
    requires Pair(w.(relay := w.relay.(head := head)), image, head) && SessionOk(w.relay) && w.relay.head == head + 1 && head < RING
    ensures Went(w, Input(Poll(1, 0, Some(head + 1)), []), v) && Pair(v, image, head + 1)
  {
    SessionInvariant(w.relay, Poll(1, 0, Some(head + 1)));
    v := Next(w, Input(Poll(1, 0, Some(head + 1)), []));
  }

  lemma {:induction false} PairRun(w: World, image: seq<Bytes>, head: nat) returns (trace: seq<World>, inputs: seq<Input>)
    requires SessionOk(w.relay) && !w.relay.active && ImageOk(image) && head <= RING && head <= |image|
    ensures Run(trace, inputs) && trace[0] == w && Pair(trace[|inputs|], image, head)
  {
    if head == 0 {
      trace, inputs := PairBegun(w, image);
    } else {
      trace, inputs := PairRun(w, image, head - 1);
      var u := trace[|inputs|];
      var v := PairChunk(u, image, head - 1);
      var x := PairPoll(v, image, head - 1);
      hide Went, Pair, SessionOk;
      Reached(trace, inputs, Input(HidData(head - 1, image[head - 1]), []), v);
      trace, inputs := trace + [v], inputs + [Input(HidData(head - 1, image[head - 1]), [])];
      Reached(trace, inputs, Input(Poll(1, 0, Some(head)), []), x);
      trace, inputs := trace + [x], inputs + [Input(Poll(1, 0, Some(head)), [])];
    }
  }

  /**
   That host and relay have the same targets is needed. The host begins trackers 0 and 1 and goes on without 0,
   which did not answer; the relay keeps it. With tracker 1 up to date and nothing in flight, chunk 128 is refused.
   */
  lemma SkippedTargetBlocks(w: World, image: seq<Bytes>) returns (trace: seq<World>, inputs: seq<Input>)
    requires SessionOk(w.relay) && !w.relay.active && ImageOk(image) && |image| > RING
    ensures Run(trace, inputs) && trace[0] == w
    ensures var v, pc := trace[|inputs|], Sender(RING, {1}, map[1 := RING]);
      && SessionOk(v.relay) && v.image == image && MaySend(v, pc) && v.relay.tracker[1].nextSeq == pc.view[1] == pc.next == v.relay.head
      && RingFull(v.relay) && Handle(v.relay, HidData(RING, image[RING])).0 == v.relay
  {
    trace, inputs := PairRun(w, image, RING);
    var r := trace[|inputs|].relay;
    RingFullIff(r);
    assert 0 in r.targets;
    hide Run;
  }
}
