/**
 The over-the-air relay: the PC streams firmware chunks once into a 128-entry ring indexed by sequence
 number, and up to four trackers each fetch from it whatever sequence number they ask for.

 `Handle` is one lock-protected entry point acting on the whole relay. Ring entries are never cleared,
 not even between sessions.
 */
module OtaRelay {
  import opened Wrappers

  const RING := 128
  const TRACKERS := 16
  const PARALLEL := 4
  const MAX_PAYLOAD := 60
  const U32 := 0x1_0000_0000
  const TEN_SECONDS := 327680 // ten seconds of the 32768 Hz system tick

  type Bytes = seq<int>
  type Word16 = x: int | 0 <= x < 65536

  datatype Status =
    | Idle | Ready | Receiving | VerifyOk | VerifyFail | Activating | Complete
    | Error | BoardMismatch | FlashError | SizeError | SeqError | Timeout

  datatype Kind = BeginCmd | VerifyCmd | ActivateCmd
  datatype Pending = Pending(kind: Kind, setAt: nat)
  datatype Entry = Entry(seqNo: Word16, payload: Bytes)
  datatype Tracker = Tracker(participating: bool, status: Status, nextSeq: Word16, pending: Option<Pending>)

  const ABSENT := Tracker(false, Idle, 0, None)

  datatype Relay = Relay(
    active: bool,
    targets: seq<nat>,
    ring: seq<Entry>,
    head: nat,
    tracker: seq<Tracker>,
    tombstone: seq<Option<nat>>)

  datatype Ack = NoAck | AbortPong | Command(kind: Kind) | Data(id: nat, seqNo: Word16, payload: Bytes)

  datatype Event =
    | Begin(id: nat, now: nat, radioFree: bool)
    | HidData(seqNo: Word16, chunk: Bytes)
    | Request(id: nat, verify: bool, now: nat)
    | Abort(id: nat, now: nat)
    | AbortAll(now: nat)
    | Forget(id: nat)
    | Poll(id: nat, now: nat, wants: Option<Word16>)
    | Report(id: nat, status: Status)

  ghost predicate Shape(r: Relay) {
    |r.ring| == RING && |r.tracker| == TRACKERS && |r.tombstone| == TRACKERS
  }

  /** Signed 32-bit comparison of two counters. */
  predicate Before(a: int, b: int) { (a - b) % U32 >= U32 / 2 }

  /** The lowest sequence number any of the listed targets still asks for, capped by `low`. */
  function SeqMin(low: nat, targets: seq<nat>, tracker: seq<Tracker>): nat
    requires |tracker| == TRACKERS && forall i :: 0 <= i < |targets| ==> targets[i] < TRACKERS
  {
    if targets == [] then low else
    var rest := SeqMin(low, targets[..|targets| - 1], tracker);
    var s := tracker[targets[|targets| - 1]].nextSeq;
    if Before(s, rest) then s else rest
  }

  function Without(targets: seq<nat>, id: nat): seq<nat> {
    if targets == [] then [] else
    var rest := Without(targets[..|targets| - 1], id);
    if targets[|targets| - 1] != id then rest + [targets[|targets| - 1]] else rest
  }

  function Remove(r: Relay, id: nat): Relay
    requires Shape(r)
  {
    if id >= TRACKERS || !r.tracker[id].participating then r else
    var left := Without(r.targets, id);
    r.(tracker := r.tracker[id := r.tracker[id].(participating := false)],
       targets := left,
       head := if left == [] then 0 else r.head,
       active := r.active && left != [])
  }

  function Reset(r: Relay): Relay
    requires Shape(r)
  {
    r.(active := false, targets := [], head := 0, tracker := seq(TRACKERS, _ => ABSENT))
  }

  predicate Terminal(s: Status) {
    s.Complete? || s.Error? || s.VerifyFail? || s.Timeout? || s.BoardMismatch? || s.SizeError? || s.FlashError? || s.SeqError?
  }

  predicate Confirms(kind: Kind, s: Status) {
    match kind
    case BeginCmd => s != Idle
    case VerifyCmd => s == VerifyOk || s == VerifyFail
    case ActivateCmd => s == Activating || s == Complete
  }

  /** A valid tombstone whose expiry has not been reached. */
  predicate Entombed(r: Relay, id: nat, now: nat)
    requires Shape(r) && id < TRACKERS
  {
    r.tombstone[id].Some? && !((r.tombstone[id].value - now) % U32 == 0 || Before(r.tombstone[id].value, now))
  }

  function Bury(r: Relay, id: nat, now: nat): Relay
    requires Shape(r) && id < TRACKERS
  {
    r.(tombstone := r.tombstone[id := Some((now + TEN_SECONDS) % U32)])
  }

  function BuryAll(r: Relay, ids: seq<nat>, now: nat): Relay
    requires Shape(r) && forall i :: 0 <= i < |ids| ==> ids[i] < TRACKERS
    ensures Shape(BuryAll(r, ids, now))
  {
    if ids == [] then r else Bury(BuryAll(r, ids[..|ids| - 1], now), ids[|ids| - 1], now)
  }

  predicate Holds(r: Relay, n: nat)
    requires Shape(r)
  {
    n < r.head && r.ring[n % RING].seqNo == n
  }

  predicate RingFull(r: Relay)
    requires Shape(r) && forall i :: 0 <= i < |r.targets| ==> r.targets[i] < TRACKERS
  {
    (r.head - SeqMin(r.head, r.targets, r.tracker)) % U32 >= RING
  }

  function Store(r: Relay, seqNo: Word16, chunk: Bytes): Relay
    requires Shape(r) && forall i :: 0 <= i < |r.targets| ==> r.targets[i] < TRACKERS
  {
    if !r.active || chunk == [] || RingFull(r) then r else
    r.(ring := r.ring[seqNo % RING := Entry(seqNo, if |chunk| > MAX_PAYLOAD then chunk[..MAX_PAYLOAD] else chunk)],
       head := if seqNo + 1 > r.head then seqNo + 1 else r.head)
  }

  /** BEGIN is refused for an unknown tracker, for a fifth one, and while another operation owns the radio. */
  predicate Admits(r: Relay, id: nat, radioFree: bool)
    requires Shape(r)
  {
    id < TRACKERS && (r.tracker[id].participating || |r.targets| < PARALLEL) && (r.active || radioFree)
  }

  function Admit(r: Relay, id: nat, now: nat): Relay
    requires Shape(r) && id < TRACKERS
  {
    var base := if r.active then r else Reset(r);
    base.(
      targets := if base.tracker[id].participating then base.targets else base.targets + [id],
      tracker := base.tracker[id := Tracker(true, Idle, 0, Some(Pending(BeginCmd, now)))],
      active := true,
      tombstone := r.tombstone[id := None])
  }

  /** `esb_ota_relay_fill_ack`, after the tombstone test, for a participating tracker. */
  function Answer(r: Relay, id: nat, now: nat, wants: Option<Word16>): (Relay, Ack)
    requires Shape(r) && id < TRACKERS
  {
    var t := r.tracker[id];
    if t.pending.Some? && (now - t.pending.value.setAt) % U32 > TEN_SECONDS then
      (r.(tracker := r.tracker[id := t.(pending := None)]), NoAck)
    else if t.pending.Some? && !(t.pending.value.kind != BeginCmd && wants.Some? && Holds(r, wants.value)) then
      (r, Command(t.pending.value.kind))
    else if wants.None? then (r, NoAck)
    else
      var n := wants.value;
      var r' := r.(tracker := r.tracker[id := t.(nextSeq := n)]);
      (r', if Holds(r, n) then Data(id, n, r.ring[n % RING].payload) else NoAck)
  }

  predicate Listed(r: Relay) {
    forall i :: 0 <= i < |r.targets| ==> r.targets[i] < TRACKERS
  }

  function Handle(r: Relay, e: Event): (Relay, Ack)
    requires Shape(r) && Listed(r)
  {
    match e
    case Begin(id, now, radioFree) =>
      (if Admits(r, id, radioFree) then Admit(r, id, now) else r, NoAck)
    case HidData(seqNo, chunk) => (Store(r, seqNo, chunk), NoAck)
    case Request(id, verify, now) =>
      var command := Pending(if verify then VerifyCmd else ActivateCmd, now);
      if r.active && id < TRACKERS && r.tracker[id].participating
      then (r.(tracker := r.tracker[id := r.tracker[id].(pending := Some(command))]), NoAck) else (r, NoAck)
    case Abort(id, now) => if id < TRACKERS then (Remove(Bury(r, id, now), id), NoAck) else (r, NoAck)
    case AbortAll(now) => (Reset(BuryAll(r, r.targets, now)), NoAck)
    case Forget(id) =>
      if id >= TRACKERS then (r, NoAck) else
      var r' := Remove(r, id);
      (r'.(tracker := r'.tracker[id := ABSENT], tombstone := r'.tombstone[id := None]), NoAck)
    case Poll(id, now, wants) =>
      if id >= TRACKERS then (r, NoAck)
      else if Entombed(r, id, now) then (r, AbortPong)
      else
        var r' := r.(tombstone := r.tombstone[id := None]);
        if !r.active || !r.tracker[id].participating then (r', NoAck) else Answer(r', id, now, wants)
    case Report(id, status) =>
      if id >= TRACKERS then (r, NoAck) else
      var t := r.tracker[id];
      var done := t.pending.Some? && Confirms(t.pending.value.kind, status);
      var r' := r.(tracker := r.tracker[id := t.(status := status, pending := if done then None else t.pending)]);
      (if Terminal(status) then Remove(r', id) else r', NoAck)
  }

  // ----- The session invariant -----

  predicate Distinct(s: seq<nat>) {
    forall i, j :: 0 <= i < j < |s| ==> s[i] != s[j]
  }

  /** The target list names exactly the participating trackers, once each, and a session is open iff it is nonempty. */
  ghost predicate SessionOk(r: Relay) {
    && Shape(r) && Listed(r) && Distinct(r.targets) && |r.targets| <= PARALLEL
    && (forall id :: 0 <= id < TRACKERS ==> (r.tracker[id].participating <==> id in r.targets))
    && (r.active <==> r.targets != [])
    && (!r.active ==> r.head == 0)
  }

  lemma {:induction false} WithoutSpec(targets: seq<nat>, id: nat)
    requires Distinct(targets)
    ensures var left := Without(targets, id);
      && Distinct(left) && (forall x :: x in left <==> x in targets && x != id)
      && |left| <= |targets| && (id in targets ==> |left| == |targets| - 1)
  {
    if targets != [] {
      var init, last := targets[..|targets| - 1], targets[|targets| - 1];
      assert targets == init + [last];
      WithoutSpec(init, id);
      assert last !in init;
      if last == id { WithoutAbsent(init, id); }
    }
  }

  lemma {:induction false} WithoutAbsent(targets: seq<nat>, id: nat)
    requires id !in targets
    ensures Without(targets, id) == targets
  {
    if targets != [] {
      var init, last := targets[..|targets| - 1], targets[|targets| - 1];
      assert targets == init + [last];
      WithoutAbsent(init, id);
    }
  }

  lemma RemoveOk(r: Relay, id: nat)
    requires SessionOk(r)
    ensures SessionOk(Remove(r, id))
  {
    WithoutSpec(r.targets, id);
    var left := Without(r.targets, id);
    assert forall i :: 0 <= i < |left| ==> left[i] in left && left[i] in r.targets;
  }

  lemma {:induction false} BuryAllOnlyTombstones(r: Relay, ids: seq<nat>, now: nat)
    requires Shape(r) && forall i :: 0 <= i < |ids| ==> ids[i] < TRACKERS
    ensures BuryAll(r, ids, now) == r.(tombstone := BuryAll(r, ids, now).tombstone)
  {
    if ids != [] { BuryAllOnlyTombstones(r, ids[..|ids| - 1], now); }
  }

  lemma SessionInvariant(r: Relay, e: Event)
    requires SessionOk(r)
    ensures SessionOk(Handle(r, e).0)
  {
    match e
    case Begin(id, now, radioFree) =>
    case Abort(id, now) =>
      if id < TRACKERS { RemoveOk(Bury(r, id, now), id); }
    case AbortAll(now) =>
      BuryAllOnlyTombstones(r, r.targets, now);
    case Forget(id) =>
      RemoveOk(r, id);
    case Report(id, status) =>
      if id < TRACKERS {
        var t := r.tracker[id];
        var done := t.pending.Some? && Confirms(t.pending.value.kind, status);
        RemoveOk(r.(tracker := r.tracker[id := t.(status := status, pending := if done then None else t.pending)]), id);
      }
    case HidData(_, _) =>
    case Request(_, _, _) =>
    case Poll(_, _, _) =>
  }

  // ----- What a tracker receives -----

  /** A relay together with the image announced by the last BEGIN and how much of it was sent. */
  datatype World = World(relay: Relay, image: seq<Bytes>, sent: nat)

  /** An event; a BEGIN also announces the image the PC is going to stream. */
  datatype Input = Input(event: Event, image: seq<Bytes>)

  ghost predicate ImageOk(image: seq<Bytes>) {
    |image| < 65536 && forall i :: 0 <= i < |image| ==> 1 <= |image[i]| <= MAX_PAYLOAD
  }

  /** The PC sends chunks of the announced image, in any order, each any number of times or not at all. */
  ghost predicate Honest(w: World, input: Input) {
    && ImageOk(input.image)
    && (input.event.HidData? && w.relay.active ==>
          input.event.seqNo < |w.image| && input.event.chunk == w.image[input.event.seqNo])
  }

  ghost function Next(w: World, input: Input): World
    requires SessionOk(w.relay)
  {
    var relay, e := Handle(w.relay, input.event).0, input.event;
    if e.Begin? && Admits(w.relay, e.id, e.radioFree)
    then World(relay, input.image, if w.relay.active then w.sent else 0)
    else if e.HidData? && w.relay.active && e.seqNo + 1 > w.sent then World(relay, w.image, e.seqNo + 1)
    else w.(relay := relay)
  }

  /** Whatever is asked for, the ring hands out chunks of this image only. */
  ghost predicate Faithful(r: Relay, image: seq<Bytes>)
    requires Shape(r)
  {
    forall n: nat :: Holds(r, n) ==> n < |image| && r.ring[n % RING].payload == image[n]
  }

  /** The slot of chunk `n` does not hold a different chunk under the same number. */
  ghost predicate NothingStale(r: Relay, image: seq<Bytes>, n: nat)
    requires Shape(r)
  {
    r.ring[n % RING].seqNo == n ==> n < |image| && r.ring[n % RING].payload == image[n]
  }

  /**
   What keeps the ring faithful. A chunk that is stored may pass over numbers only if nothing stale waits
   under them, and a BEGIN in an open session may change only chunks the ring does not hold.
   */
  ghost predicate Harmless(w: World, input: Input)
    requires SessionOk(w.relay)
  {
    match input.event
    case HidData(seqNo, _) =>
      w.relay.active && !RingFull(w.relay) ==>
        forall n :: w.relay.head <= n < seqNo && n % RING != seqNo % RING ==> NothingStale(w.relay, w.image, n)
    case Begin(id, _, radioFree) =>
      w.relay.active && Admits(w.relay, id, radioFree) ==>
        forall n: nat :: Holds(w.relay, n) && n < |w.image| ==> n < |input.image| && input.image[n] == w.image[n]
    case _ => true
  }

  /** Every other event keeps the ring, or closes or opens a session. */
  lemma OthersKeepRing(r: Relay, e: Event)
    requires SessionOk(r) && !e.HidData?
    ensures var r' := Handle(r, e).0;
      r'.ring == r.ring && (r'.head == r.head || r'.head == 0) && (r'.active && r.active ==> r'.head == r.head) &&
      (!r.active && r'.active ==> r'.head == 0 && e.Begin?)
  {
    if e.AbortAll? { BuryAllOnlyTombstones(r, r.targets, e.now); }
  }

  lemma StoredIff(w: World, input: Input)
    requires SessionOk(w.relay) && Honest(w, input) && input.event.HidData? && w.relay.active && ImageOk(w.image)
    requires Faithful(w.relay, w.image) && !RingFull(w.relay)
    ensures Faithful(Next(w, input).relay, w.image) <==> Harmless(w, input)
  {
    var s, r, k := w.relay, Next(w, input).relay, input.event.seqNo;
    assert r.ring == s.ring[k % RING := Entry(k, w.image[k])] && r.head == if k + 1 > s.head then k + 1 else s.head;
    hide SessionOk, RingFull, ImageOk;
    if Faithful(r, w.image) {
      forall n | s.head <= n < k && n % RING != k % RING ensures NothingStale(s, w.image, n) {
        assert Holds(r, n) <==> s.ring[n % RING].seqNo == n;
      }
    }
    if Harmless(w, input) {
      forall n: nat | Holds(r, n) ensures n < |w.image| && r.ring[n % RING].payload == w.image[n] {
        if n % RING != k % RING {
          if n < s.head { assert Holds(s, n); } else { assert NothingStale(s, w.image, n); }
        }
      }
    }
  }

  /** The condition is exact: a step from a faithful ring leads to a faithful ring if and only if it is harmless. */
  lemma HarmlessIff(w: World, input: Input)
    requires SessionOk(w.relay) && Honest(w, input) && (w.relay.active ==> ImageOk(w.image)) && Faithful(w.relay, w.image)
    ensures SessionOk(Next(w, input).relay)
    ensures Faithful(Next(w, input).relay, Next(w, input).image) <==> Harmless(w, input)
  {
    SessionInvariant(w.relay, input.event);
    var e, r, r' := input.event, w.relay, Next(w, input).relay;
    if e.HidData? {
      if r.active && !RingFull(r) { StoredIff(w, input); }
    } else {
      OthersKeepRing(r, e);
      hide Handle, SessionOk;
      assert forall n: nat :: Holds(r', n) ==> Holds(r, n);
      if e.Begin? && Admits(r, e.id, e.radioFree) && r.active {
        BeginKeepsSession(r, e);
        assert forall n: nat :: Holds(r, n) <==> Holds(r', n);
      }
    }
  }

  lemma BeginKeepsSession(r: Relay, e: Event)
    requires SessionOk(r) && e.Begin? && r.active
    ensures Handle(r, e).0.active && Handle(r, e).0.head == r.head
  {
  }

  ghost predicate Went(w: World, input: Input, w': World) {
    SessionOk(w.relay) && Honest(w, input) && w' == Next(w, input)
  }

  /** Any run of the relay from an idle one, whatever its ring holds. */
  ghost predicate Run(trace: seq<World>, inputs: seq<Input>) {
    && |trace| == |inputs| + 1 && SessionOk(trace[0].relay) && !trace[0].relay.active
    && forall i :: 0 <= i < |inputs| ==> Went(trace[i], inputs[i], trace[i + 1])
  }

  lemma {:induction false} RunOk(trace: seq<World>, inputs: seq<Input>, i: nat)
    requires Run(trace, inputs) && i < |trace|
    ensures SessionOk(trace[i].relay) && (trace[i].relay.active ==> ImageOk(trace[i].image))
  {
    if i > 0 {
      RunOk(trace, inputs, i - 1);
      assert Went(trace[i - 1], inputs[i - 1], trace[i - 1 + 1]);
      SessionInvariant(trace[i - 1].relay, inputs[i - 1].event);
      if !inputs[i - 1].event.HidData? { OthersKeepRing(trace[i - 1].relay, inputs[i - 1].event); }
      hide SessionOk, Handle, ImageOk;
    }
  }

  ghost predicate FaithfulAt(w: World) { Shape(w.relay) && Faithful(w.relay, w.image) }

  ghost predicate HarmlessAt(w: World, input: Input) { SessionOk(w.relay) && Harmless(w, input) }

  /** Over a whole run: the ring has been faithful all along if and only if every step was harmless. */
  lemma {:induction false} FaithfulIff(trace: seq<World>, inputs: seq<Input>, i: nat)
    requires Run(trace, inputs) && i < |trace|
    ensures (forall k :: 0 <= k <= i ==> FaithfulAt(trace[k])) <==> (forall k :: 0 <= k < i ==> HarmlessAt(trace[k], inputs[k]))
  {
    if i == 0 {
      assert FaithfulAt(trace[0]);
    } else {
      FaithfulIff(trace, inputs, i - 1);
      RunOk(trace, inputs, i - 1);
      assert Went(trace[i - 1], inputs[i - 1], trace[i - 1 + 1]);
      var w, input := trace[i - 1], inputs[i - 1];
      hide Harmless, Next, SessionOk, ImageOk, Honest, Faithful;
      if FaithfulAt(w) { HarmlessIff(w, input); }
      if forall k :: 0 <= k <= i ==> FaithfulAt(trace[k]) {
        assert FaithfulAt(trace[i]) && FaithfulAt(w);
      }
    }
  }

  /**
   Whatever was left in the ring by earlier sessions, whichever chunks and acknowledgements were lost and
   packets dropped for a full ring: as long as no step was harmful, a data packet handed out for sequence
   number n carries chunk n of the image announced last.
   */
  lemma DataIsTheSessionChunk(trace: seq<World>, inputs: seq<Input>, i: nat, id: nat, now: nat, wants: Option<Word16>)
    requires Run(trace, inputs) && i < |trace| && forall k :: 0 <= k < i ==> HarmlessAt(trace[k], inputs[k])
    ensures SessionOk(trace[i].relay)
    ensures var ack := Handle(trace[i].relay, Poll(id, now, wants)).1;
      ack.Data? ==>
        && wants.Some? && wants.value < |trace[i].image| && ack == Data(id, wants.value, trace[i].image[wants.value])
  {
    RunOk(trace, inputs, i);
    FaithfulIff(trace, inputs, i);
    hide HarmlessAt, Went, SessionOk;
    assert FaithfulAt(trace[i]);
    if Handle(trace[i].relay, Poll(id, now, wants)).1.Data? { AckIsHeld(trace[i].relay, id, now, wants); }
  }

  lemma AckIsHeld(r: Relay, id: nat, now: nat, wants: Option<Word16>)
    requires Shape(r) && Listed(r) && Handle(r, Poll(id, now, wants)).1.Data?
    ensures wants.Some? && Holds(r, wants.value)
    ensures Handle(r, Poll(id, now, wants)).1 == Data(id, wants.value, r.ring[wants.value % RING].payload)
  {
  }

  /**
   The condition is needed. From any idle relay: a session with image [a] that is aborted, then one with image
   [b, c] whose first chunk never reaches the relay. The tracker asks for chunk 0 and is handed a.
   */
  lemma LostChunkServesOldSession(w: World, a: Bytes, b: Bytes, c: Bytes) returns (trace: seq<World>, inputs: seq<Input>)
    requires SessionOk(w.relay) && !w.relay.active && ImageOk([a]) && ImageOk([b, c])
    ensures Run(trace, inputs) && |inputs| == 6 && trace[0] == w && SessionOk(trace[6].relay) && trace[6].image == [b, c]
    ensures Handle(trace[6].relay, Poll(0, 0, Some(0))).1 == Data(0, 0, a)
  {
    hide Next, SessionOk, Honest, Handle, Solo, ImageOk;
    ChunkSizes([a]);
    ChunkSizes([b, c]);
    inputs := [Input(Begin(0, 0, true), [a]), Input(HidData(0, a), []), Input(AbortAll(0), []),
               Input(Begin(0, 0, true), [b, c]), Input(Report(0, Ready), []), Input(HidData(1, c), [])];
    var w1 := Opened(w, [a]);
    var w2 := Filled(w1, 0, a);
    var w3 := Closed(w2);
    var w4 := Opened(w3, [b, c]);
    var w5 := Confirmed(w4);
    var w6 := Filled(w5, 1, c);
    trace := [w, w1, w2, w3, w4, w5, w6];
    SoloPoll(w6.relay);
  }

  /**
   Likewise for a second BEGIN of a tracker that is already in the session: head and ring survive it, so the
   tracker is handed the first chunk of the image announced before, without any chunk having been lost.
   */
  lemma ReBeginServesOldImage(w: World, a: Bytes, b: Bytes) returns (trace: seq<World>, inputs: seq<Input>)
    requires SessionOk(w.relay) && !w.relay.active && ImageOk([a]) && ImageOk([b])
    ensures Run(trace, inputs) && |inputs| == 4 && trace[0] == w && SessionOk(trace[4].relay) && trace[4].image == [b]
    ensures Handle(trace[4].relay, Poll(0, 0, Some(0))).1 == Data(0, 0, a)
  {
    hide Next, SessionOk, Honest, Handle, Solo, ImageOk;
    ChunkSizes([a]);
    inputs := [Input(Begin(0, 0, true), [a]), Input(HidData(0, a), []), Input(Begin(0, 0, true), [b]), Input(Report(0, Ready), [])];
    var w1 := Opened(w, [a]);
    var w2 := Filled(w1, 0, a);
    var w3 := Opened(w2, [b]);
    var w4 := Confirmed(w3);
    trace := [w, w1, w2, w3, w4];
    SoloPoll(w4.relay);
  }

  // The single steps of these two runs.

  ghost predicate Solo(r: Relay) {
    && Shape(r) && r.active && r.targets == [0] && r.tracker[0].participating && r.tracker[0].nextSeq == 0
    && r.tombstone[0].None?
  }

  lemma ChunkSizes(image: seq<Bytes>)
    requires ImageOk(image)
    ensures forall i :: 0 <= i < |image| ==> 1 <= |image[i]| <= MAX_PAYLOAD
  {
  }

  lemma SoloPoll(r: Relay)
    requires SessionOk(r) && Solo(r) && r.tracker[0].pending.None? && r.head > 0 && r.ring[0].seqNo == 0
    ensures Handle(r, Poll(0, 0, Some(0))).1 == Data(0, 0, r.ring[0].payload)
  {
  }

  lemma Opened(w: World, image: seq<Bytes>) returns (v: World)
    requires SessionOk(w.relay) && ImageOk(image) && (!w.relay.active || Solo(w.relay))
    ensures Went(w, Input(Begin(0, 0, true), image), v) && SessionOk(v.relay) && Solo(v.relay) && v.image == image
    ensures v.relay.ring == w.relay.ring && v.relay.head == w.relay.head && (!w.relay.active ==> v.relay.head == 0)
    ensures v.relay.tracker[0].pending == Some(Pending(BeginCmd, 0))
  {
    SessionInvariant(w.relay, Begin(0, 0, true));
    v := Next(w, Input(Begin(0, 0, true), image));
  }

  lemma Filled(w: World, n: Word16, chunk: Bytes) returns (v: World)
    requires SessionOk(w.relay) && Solo(w.relay) && w.relay.head <= n < 2
    requires n < |w.image| && w.image[n] == chunk && 1 <= |chunk| <= MAX_PAYLOAD
    ensures Went(w, Input(HidData(n, chunk), []), v) && SessionOk(v.relay) && Solo(v.relay) && v.image == w.image
    ensures |w.relay.ring| == RING && v.relay.head == n + 1 && v.relay.ring == w.relay.ring[n := Entry(n, chunk)] && v.relay.tracker == w.relay.tracker
  {
    SessionInvariant(w.relay, HidData(n, chunk));
    if RingFull(w.relay) { DropNeedsWrittenRing(w.relay); }
    v := Next(w, Input(HidData(n, chunk), []));
  }

  lemma Closed(w: World) returns (v: World)
    requires SessionOk(w.relay)
    ensures Went(w, Input(AbortAll(0), []), v) && SessionOk(v.relay) && !v.relay.active && v.relay.ring == w.relay.ring
  {
    SessionInvariant(w.relay, AbortAll(0));
    OthersKeepRing(w.relay, AbortAll(0));
    v := Next(w, Input(AbortAll(0), []));
  }

  lemma Confirmed(w: World) returns (v: World)
    requires SessionOk(w.relay) && Solo(w.relay) && w.relay.tracker[0].pending == Some(Pending(BeginCmd, 0))
    ensures Went(w, Input(Report(0, Ready), []), v) && SessionOk(v.relay) && Solo(v.relay) && v.image == w.image
    ensures v.relay.ring == w.relay.ring && v.relay.head == w.relay.head && v.relay.tracker[0].pending.None?
  {
    SessionInvariant(w.relay, Report(0, Ready));
    v := Next(w, Input(Report(0, Ready), []));
  }

  // ----- In-order streaming is harmless -----

  /**
   A condition the PC can meet: it sends in order, repeating chunks as it likes, none of the first 128 is lost
   on the way in, and all BEGINs of a session announce one image, or come before its first chunk.
   */
  ghost predicate InOrder(w: World, input: Input)
    requires SessionOk(w.relay)
  {
    w.relay.active ==>
      && (input.event.HidData? ==> input.event.seqNo <= w.sent || w.relay.head >= RING)
      && (input.event.Begin? && Admits(w.relay, input.event.id, input.event.radioFree) ==>
            input.image == w.image || w.relay.head == 0)
  }

  /** Entry `i` was written in this session. */
  ghost predicate Current(r: Relay, image: seq<Bytes>, i: nat)
    requires Shape(r) && i < RING
  {
    var e := r.ring[i];
    e.seqNo % RING == i && e.seqNo < r.head && e.seqNo < |image| && e.payload == image[e.seqNo]
  }

  ghost predicate Coherent(w: World) {
    && SessionOk(w.relay)
    && (w.relay.active ==>
          && ImageOk(w.image)
          && w.relay.head <= w.sent <= |w.image|
          && (w.relay.head < RING ==> w.relay.head == w.sent)
          && (forall i :: 0 <= i < RING && i < w.relay.head ==> Current(w.relay, w.image, i)))
  }

  lemma InOrderIsHarmless(w: World, input: Input)
    requires Coherent(w) && InOrder(w, input)
    ensures Harmless(w, input)
  {
    var e := input.event;
    if e.HidData? && w.relay.active {
      forall n | w.relay.head <= n < e.seqNo ensures NothingStale(w.relay, w.image, n) {
        assert Current(w.relay, w.image, n % RING);
      }
    }
  }

  /** Nothing is dropped for a full ring before every slot has been rewritten in this session. */
  lemma DropNeedsWrittenRing(r: Relay)
    requires SessionOk(r) && r.active && r.head < 65536 && RingFull(r)
    ensures r.head >= RING
  {
    SeqMinBounds(r.head, r.targets, r.tracker);
  }

  lemma {:induction false} SeqMinBounds(low: nat, targets: seq<nat>, tracker: seq<Tracker>)
    requires |tracker| == TRACKERS && low <= 65536 && forall i :: 0 <= i < |targets| ==> targets[i] < TRACKERS
    ensures var m := SeqMin(low, targets, tracker);
      && m <= low && (forall i :: 0 <= i < |targets| ==> m <= tracker[targets[i]].nextSeq)
      && (m == low || exists i :: 0 <= i < |targets| && m == tracker[targets[i]].nextSeq)
  {
    if targets != [] {
      var init := targets[..|targets| - 1];
      SeqMinBounds(low, init, tracker);
      var rest, s := SeqMin(low, init, tracker), tracker[targets[|targets| - 1]].nextSeq;
      assert Before(s, rest) <==> s < rest;
      assert forall i :: 0 <= i < |init| ==> init[i] == targets[i];
    }
  }

  lemma StoreKeepsCoherent(w: World, e: Event)
    requires Coherent(w) && e.HidData? && w.relay.active && Honest(w, Input(e, [])) && InOrder(w, Input(e, []))
    ensures Coherent(Next(w, Input(e, [])))
  {
    var r, w' := w.relay, Next(w, Input(e, []));
    SessionInvariant(r, e);
    if RingFull(r) {
      DropNeedsWrittenRing(r);
    } else {
      var r' := w'.relay;
      forall i | 0 <= i < RING && i < r'.head ensures Current(r', w'.image, i) {
        if i != e.seqNo % RING { assert Current(r, w.image, i); }
      }
    }
  }

  lemma CoherentStep(w: World, input: Input)
    requires Coherent(w) && Honest(w, input) && InOrder(w, input)
    ensures Coherent(Next(w, input))
  {
    SessionInvariant(w.relay, input.event);
    if input.event.HidData? && w.relay.active {
      StoreKeepsCoherent(w, input.event);
    } else if !input.event.HidData? {
      OthersKeepRing(w.relay, input.event);
      hide SessionOk, Handle;
      var w' := Next(w, input);
      if w'.relay.active && w.relay.active {
        forall i | 0 <= i < RING && i < w'.relay.head ensures Current(w'.relay, w'.image, i) {
          assert Current(w.relay, w.image, i);
        }
      }
    }
  }

  /** A run in which every session's chunks arrive in order; everything else is arbitrary. */
  ghost predicate Streamed(trace: seq<World>, inputs: seq<Input>) {
    Run(trace, inputs) && forall i :: 0 <= i < |inputs| ==> SessionOk(trace[i].relay) && InOrder(trace[i], inputs[i])
  }

  lemma {:induction false} StreamedCoherent(trace: seq<World>, inputs: seq<Input>, i: nat)
    requires Streamed(trace, inputs) && i < |trace|
    ensures Coherent(trace[i])
  {
    if i > 0 {
      hide Coherent, InOrder, Honest, Next;
      assert Went(trace[i - 1], inputs[i - 1], trace[i - 1 + 1]);
      if i > 1 { StreamedCoherent(trace, inputs, i - 1); } else { IdleCoherent(trace[0]); }
      CoherentStep(trace[i - 1], inputs[i - 1]);
    }
  }

  lemma IdleCoherent(w: World)
    requires SessionOk(w.relay) && !w.relay.active
    ensures Coherent(w)
  {
  }

  /** In-order streaming is harmless throughout, so every data packet carries the chunk it is asked for. */
  lemma StreamedDataIsRight(trace: seq<World>, inputs: seq<Input>, i: nat, id: nat, now: nat, wants: Option<Word16>)
    requires Streamed(trace, inputs) && i < |trace|
    ensures forall k :: 0 <= k < i ==> HarmlessAt(trace[k], inputs[k])
    ensures SessionOk(trace[i].relay)
    ensures var ack := Handle(trace[i].relay, Poll(id, now, wants)).1;
      ack.Data? ==>
        && wants.Some? && wants.value < trace[i].sent <= |trace[i].image|
        && ack == Data(id, wants.value, trace[i].image[wants.value])
  {
    forall k | 0 <= k < i ensures HarmlessAt(trace[k], inputs[k]) {
      StreamedCoherent(trace, inputs, k);
      InOrderIsHarmless(trace[k], inputs[k]);
    }
    DataIsTheSessionChunk(trace, inputs, i, id, now, wants);
    StreamedCoherent(trace, inputs, i);
    hide HarmlessAt, Run, InOrder;
    if Handle(trace[i].relay, Poll(id, now, wants)).1.Data? { AckIsHeld(trace[i].relay, id, now, wants); }
  }
}
