/**
 What the relay tells a tracker besides data: which request a command on the air goes back to, how long it
 is repeated, and what a tracker hears once it was aborted, has finished or was forgotten.
 */
module OtaCommands {
  import opened Wrappers
  import opened OtaRelay

  /** The statuses by which a tracker shows that it has received a command. */
  function Answers(kind: Kind): set<Status> {
    match kind
    case BeginCmd => FINAL + {Ready, Receiving, VerifyOk, Activating}
    case VerifyCmd => {VerifyOk, VerifyFail}
    case ActivateCmd => {Activating, Complete}
  }

  /** The statuses that end a tracker's part in the session. */
  const FINAL: set<Status> := {Complete, Error, VerifyFail, Timeout, BoardMismatch, SizeError, FlashError, SeqError}

  /** The input by which the PC asks for this command to be sent to tracker `id` at tick `t`. */
  ghost predicate AskedBy(r: Relay, e: Event, id: nat, command: Pending)
    requires Shape(r)
  {
    match command.kind
    case BeginCmd => e.Begin? && e.id == id && e.now == command.setAt && Admits(r, id, e.radioFree)
    case VerifyCmd => e == Request(id, true, command.setAt)
    case ActivateCmd => e == Request(id, false, command.setAt)
  }

  /** An input after which this command is no longer due. */
  ghost predicate Ends(r: Relay, e: Event, id: nat, kind: Kind)
    requires Shape(r)
  {
    match e
    case Begin(i, _, radioFree) => i == id && Admits(r, i, radioFree)
    case Request(i, _, _) => i == id
    case Abort(i, _) => i == id
    case AbortAll(_) => true
    case Forget(i) => i == id
    case Report(i, status) => i == id && (status in Answers(kind) || status in FINAL)
    case _ => false
  }

  /** The command is due to tracker `id` of the open session. */
  ghost predicate Due(r: Relay, id: nat, command: Pending) {
    SessionOk(r) && id < TRACKERS && r.tracker[id].participating && r.tracker[id].pending == Some(command)
  }

  /** Ticks since the command was queued, as the firmware computes them. */
  function Elapsed(command: Pending, now: nat): nat { (now - command.setAt) % U32 }

  // ----- One step -----

  lemma RemoveFrame(r: Relay, gone: nat, id: nat)
    requires SessionOk(r) && id < TRACKERS
    ensures var r' := Remove(r, gone);
      if gone == id then !r'.tracker[id].participating else r'.tracker[id] == r.tracker[id]
  {
  }

  lemma AbortAllClears(r: Relay, now: nat, id: nat)
    requires SessionOk(r) && id < TRACKERS
    ensures var r' := Handle(r, AbortAll(now)).0; r'.tracker[id] == ABSENT
  {
  }

  /** A due command was either asked for by the last input, or was due before and not ended by it. */
  lemma DueBefore(r: Relay, e: Event, id: nat, command: Pending)
    requires SessionOk(r) && Due(Handle(r, e).0, id, command)
    ensures AskedBy(r, e, id, command) || (Due(r, id, command) && !Ends(r, e, id, command.kind))
  {
    match e
    case Report(i, status) =>
      if i < TRACKERS {
        var t := r.tracker[i];
        var done := t.pending.Some? && Confirms(t.pending.value.kind, status);
        var r' := r.(tracker := r.tracker[i := t.(status := status, pending := if done then None else t.pending)]);
        ReportKeepsSession(r, i, status);
        RemoveFrame(r', i, id);
      }
    case AbortAll(now) => AbortAllClears(r, now, id);
    case Begin(_, _, _) =>
    case HidData(_, _) =>
    case Request(_, _, _) =>
    case Abort(_, _) =>
    case Forget(_) =>
    case Poll(_, _, _) =>
  }

  lemma ReportKeepsSession(r: Relay, id: nat, status: Status)
    requires SessionOk(r) && id < TRACKERS
    ensures var t := r.tracker[id];
      var done := t.pending.Some? && Confirms(t.pending.value.kind, status);
      SessionOk(r.(tracker := r.tracker[id := t.(status := status, pending := if done then None else t.pending)]))
  {
  }

  /** A command stays due through every input that does not end it, polls of that tracker included, for ten seconds. */
  lemma DueAfter(r: Relay, e: Event, id: nat, command: Pending)
    requires Due(r, id, command) && !Ends(r, e, id, command.kind)
    requires e.Poll? && e.id == id ==> Elapsed(command, e.now) <= TEN_SECONDS
    ensures Due(Handle(r, e).0, id, command)
  {
    SessionInvariant(r, e);
    hide SessionOk;
  }

  lemma DueFromRequest(r: Relay, e: Event, id: nat, command: Pending)
    requires SessionOk(r) && AskedBy(r, e, id, command)
    requires command.kind.BeginCmd? || (id < TRACKERS && r.tracker[id].participating)
    ensures Due(Handle(r, e).0, id, command)
  {
    SessionInvariant(r, e);
  }

  // ----- Whole runs -----

  ghost predicate DueAt(w: World, id: nat, command: Pending) { Due(w.relay, id, command) }

  ghost predicate EndsAt(w: World, input: Input, id: nat, kind: Kind) {
    Shape(w.relay) && Ends(w.relay, input.event, id, kind)
  }

  ghost predicate AskedAt(w: World, input: Input, id: nat, command: Pending) {
    Shape(w.relay) && AskedBy(w.relay, input.event, id, command)
  }

  /** The command was asked for by input `j`, and has been due ever since, undisturbed. */
  ghost predicate DueSince(trace: seq<World>, inputs: seq<Input>, j: nat, i: nat, id: nat, command: Pending)
    requires j < i < |trace| && |trace| == |inputs| + 1
  {
    && AskedAt(trace[j], inputs[j], id, command)
    && (forall m :: j < m <= i ==> DueAt(trace[m], id, command))
    && (forall m :: j < m < i ==> !EndsAt(trace[m], inputs[m], id, command.kind))
  }

  lemma Took(trace: seq<World>, inputs: seq<Input>, i: nat)
    requires Run(trace, inputs) && i + 1 < |trace|
    ensures |trace| == |inputs| + 1 && Shape(trace[i].relay)
    ensures SessionOk(trace[i].relay) && trace[i + 1].relay == Handle(trace[i].relay, inputs[i].event).0
  {
    RunOk(trace, inputs, i);
    assert Went(trace[i], inputs[i], trace[i + 1]);
    hide SessionOk, Handle;
  }

  lemma NothingDueAtFirst(trace: seq<World>, inputs: seq<Input>, id: nat, command: Pending)
    requires Run(trace, inputs)
    ensures |trace| == |inputs| + 1 && !DueAt(trace[0], id, command)
  {
  }

  lemma {:induction false} DueWasAsked(trace: seq<World>, inputs: seq<Input>, i: nat, id: nat, command: Pending) returns (j: nat)
    requires Run(trace, inputs) && i < |trace| && DueAt(trace[i], id, command)
    ensures j < i && DueSince(trace, inputs, j, i, id, command)
  {
    hide Run, SessionOk, Handle, Ends, AskedBy, Due;
    NothingDueAtFirst(trace, inputs, id, command);
    Took(trace, inputs, i - 1);
    DueBefore(trace[i - 1].relay, inputs[i - 1].event, id, command);
    if AskedAt(trace[i - 1], inputs[i - 1], id, command) {
      j := i - 1;
    } else {
      j := DueWasAsked(trace, inputs, i - 1, id, command);
    }
  }

  /**
   A command on the air goes back to the PC's own request for it: a VERIFY command to a VERIFY request and an
   ACTIVATE command to an ACTIVATE request for that tracker, made in the same session at most ten seconds
   earlier, with no later request, BEGIN, abort or confirming report in between.
   */
  lemma CommandWasAsked(trace: seq<World>, inputs: seq<Input>, i: nat, id: nat, now: nat, wants: Option<Word16>)
      returns (j: nat, command: Pending)
    requires Run(trace, inputs) && i < |trace| && Shape(trace[i].relay) && Listed(trace[i].relay)
    requires Handle(trace[i].relay, Poll(id, now, wants)).1.Command?
    ensures Handle(trace[i].relay, Poll(id, now, wants)).1 == Command(command.kind)
    ensures Elapsed(command, now) <= TEN_SECONDS
    ensures j < i && DueSince(trace, inputs, j, i, id, command)
  {
    RunOk(trace, inputs, i);
    command := trace[i].relay.tracker[id].pending.value;
    assert DueAt(trace[i], id, command);
    j := DueWasAsked(trace, inputs, i, id, command);
  }

  /** A participating tracker has no abort standing against it. */
  ghost predicate Clear(r: Relay)
    requires Shape(r)
  {
    forall id :: 0 <= id < TRACKERS && r.tracker[id].participating ==> r.tombstone[id].None?
  }

  lemma ClearStep(r: Relay, e: Event)
    requires SessionOk(r) && Clear(r)
    ensures Shape(Handle(r, e).0) && Clear(Handle(r, e).0)
  {
    if e.AbortAll? { BuryAllOnlyTombstones(r, r.targets, e.now); }
  }

  lemma {:induction false} RunClear(trace: seq<World>, inputs: seq<Input>, i: nat)
    requires Run(trace, inputs) && i < |trace|
    ensures SessionOk(trace[i].relay) && Clear(trace[i].relay)
  {
    RunOk(trace, inputs, i);
    if i > 0 {
      RunClear(trace, inputs, i - 1);
      Took(trace, inputs, i - 1);
      ClearStep(trace[i - 1].relay, inputs[i - 1].event);
    }
  }

  /** In time for the command: every poll of that tracker among these inputs came within ten seconds. */
  ghost predicate InTime(input: Input, id: nat, command: Pending) {
    input.event.Poll? && input.event.id == id ==> Elapsed(command, input.event.now) <= TEN_SECONDS
  }

  lemma {:induction false} StaysDue(trace: seq<World>, inputs: seq<Input>, j: nat, i: nat, id: nat, command: Pending)
    requires Run(trace, inputs) && j < i < |trace| && AskedAt(trace[j], inputs[j], id, command)
    requires command.kind.BeginCmd? || (id < TRACKERS && trace[j].relay.tracker[id].participating)
    requires forall m :: j < m < i ==> !EndsAt(trace[m], inputs[m], id, command.kind) && InTime(inputs[m], id, command)
    ensures DueAt(trace[i], id, command)
  {
    hide Run, SessionOk, Handle, Ends, AskedBy, Due;
    Took(trace, inputs, i - 1);
    if i == j + 1 {
      DueFromRequest(trace[j].relay, inputs[j].event, id, command);
    } else {
      StaysDue(trace, inputs, j, i - 1, id, command);
      assert !EndsAt(trace[i - 1], inputs[i - 1], id, command.kind) && InTime(inputs[i - 1], id, command);
      DueAfter(trace[i - 1].relay, inputs[i - 1].event, id, command);
    }
  }

  /**
   A requested command is repeated in answer to every poll for ten seconds, until an input ends it; VERIFY and
   ACTIVATE give way to a chunk the tracker asks for and the relay holds, BEGIN does not. After ten seconds
   it is dropped.
   */
  lemma CommandRepeats(trace: seq<World>, inputs: seq<Input>, j: nat, i: nat, id: nat, command: Pending, now: nat, wants: Option<Word16>)
    requires Run(trace, inputs) && j < i < |trace| && AskedAt(trace[j], inputs[j], id, command)
    requires command.kind.BeginCmd? || (id < TRACKERS && trace[j].relay.tracker[id].participating)
    requires forall m :: j < m < i ==> !EndsAt(trace[m], inputs[m], id, command.kind) && InTime(inputs[m], id, command)
    ensures SessionOk(trace[i].relay) && id < TRACKERS
    ensures var (r, ack) := Handle(trace[i].relay, Poll(id, now, wants));
      if Elapsed(command, now) > TEN_SECONDS then ack == NoAck && r.tracker[id].pending.None?
      else if wants.Some? && Holds(trace[i].relay, wants.value) && !command.kind.BeginCmd?
        then ack == Data(id, wants.value, trace[i].relay.ring[wants.value % RING].payload)
      else ack == Command(command.kind)
  {
    StaysDue(trace, inputs, j, i, id, command);
    RunClear(trace, inputs, i);
    hide Run, EndsAt, AskedAt;
  }

  /** A BEGIN takes its tracker into the session exactly if it names a tracker, there is room for it or it is in already,
      and the session is open or the radio is free; a refused one changes nothing, and others stay as they are. */
  lemma BeginOpensIff(r: Relay, id: nat, now: nat, radioFree: bool)
    requires SessionOk(r)
    ensures var r' := Handle(r, Begin(id, now, radioFree)).0;
      var admitted := id < 16 && (id in r.targets || |r.targets| < 4) && (r.targets != [] || radioFree);
      && SessionOk(r') && r'.ring == r.ring
      && (!admitted ==> r' == r)
      && (admitted ==>
            && r'.active && (forall x :: x in r'.targets <==> x in r.targets || x == id)
            && r'.tracker[id] == Tracker(true, Idle, 0, Some(Pending(BeginCmd, now))) && r'.tombstone[id].None?
            && r'.head == r.head && (forall x :: x in r.targets && x != id ==> r'.tracker[x] == r.tracker[x]))
  {
    SessionInvariant(r, Begin(id, now, radioFree));
  }

  // ----- Aborts -----

  lemma {:induction false} BuriedAll(r: Relay, ids: seq<nat>, now: nat, id: nat)
    requires Shape(r) && id < TRACKERS && forall i :: 0 <= i < |ids| ==> ids[i] < TRACKERS
    ensures BuryAll(r, ids, now).tombstone[id] ==
      if id in ids then Some((now + TEN_SECONDS) % U32) else r.tombstone[id]
  {
    if ids != [] {
      var init, last := ids[..|ids| - 1], ids[|ids| - 1];
      assert ids == init + [last];
      BuriedAll(r, init, now, id);
    }
  }

  /** This input aborts the update of tracker `id` at tick `t`. */
  ghost predicate Aborts(r: Relay, e: Event, id: nat, t: nat) {
    e == Abort(id, t) || (e == AbortAll(t) && id in r.targets)
  }

  /** This input lifts an abort of tracker `id`, or puts another one in its place. */
  ghost predicate Lifts(r: Relay, e: Event, id: nat)
    requires Shape(r)
  {
    match e
    case Begin(i, _, radioFree) => i == id && Admits(r, i, radioFree)
    case Forget(i) => i == id
    case Abort(i, _) => i == id
    case AbortAll(_) => id in r.targets
    case _ => false
  }

  /** The tombstone of an abort at tick `t` stands. */
  ghost predicate Stands(r: Relay, id: nat, t: nat) {
    SessionOk(r) && id < TRACKERS && !r.tracker[id].participating && r.tombstone[id] == Some((t + TEN_SECONDS) % U32)
  }

  lemma AbortStands(r: Relay, e: Event, id: nat, t: nat)
    requires SessionOk(r) && id < TRACKERS && Aborts(r, e, id, t)
    ensures Stands(Handle(r, e).0, id, t)
  {
    SessionInvariant(r, e);
    if e.AbortAll? { BuriedAll(r, r.targets, t, id); }
  }

  lemma StandsAfter(r: Relay, e: Event, id: nat, t: nat)
    requires Stands(r, id, t) && !Lifts(r, e, id)
    requires e.Poll? && e.id == id ==> (e.now - t) % U32 < TEN_SECONDS
    ensures Stands(Handle(r, e).0, id, t)
  {
    SessionInvariant(r, e);
    if e.AbortAll? { BuriedAll(r, r.targets, e.now, id); }
  }

  ghost predicate LiftsAt(w: World, input: Input, id: nat) {
    Shape(w.relay) && Lifts(w.relay, input.event, id)
  }

  ghost predicate EarlyPoll(input: Input, id: nat, t: nat) {
    input.event.Poll? && input.event.id == id ==> (input.event.now - t) % U32 < TEN_SECONDS
  }

  lemma {:induction false} AbortStays(trace: seq<World>, inputs: seq<Input>, j: nat, i: nat, id: nat, t: nat)
    requires Run(trace, inputs) && j < i < |trace| && id < TRACKERS && Aborts(trace[j].relay, inputs[j].event, id, t)
    requires forall m :: j < m < i ==> !LiftsAt(trace[m], inputs[m], id) && EarlyPoll(inputs[m], id, t)
    ensures Stands(trace[i].relay, id, t)
  {
    hide SessionOk, Handle, Lifts, Aborts, Run, Stands;
    Took(trace, inputs, i - 1);
    if i == j + 1 {
      AbortStands(trace[j].relay, inputs[j].event, id, t);
    } else {
      AbortStays(trace, inputs, j, i - 1, id, t);
      assert !LiftsAt(trace[i - 1], inputs[i - 1], id) && EarlyPoll(inputs[i - 1], id, t);
      StandsAfter(trace[i - 1].relay, inputs[i - 1].event, id, t);
    }
  }

  lemma TombstoneTest(t: nat, now: nat)
    requires (now - t) % U32 < TEN_SECONDS + U32 / 2
    ensures var expiry := (t + TEN_SECONDS) % U32;
      ((expiry - now) % U32 == 0 || Before(expiry, now)) <==> (now - t) % U32 >= TEN_SECONDS
  {
    var d := (now - t) % U32;
    assert ((t + TEN_SECONDS) % U32 - now) % U32 == (TEN_SECONDS - d) % U32;
  }

  /** An aborted tracker is told so in answer to every poll for ten seconds, and gets nothing at all afterwards,
      until a BEGIN is admitted for it, it is forgotten, or it is aborted again. */
  lemma AbortRepeats(trace: seq<World>, inputs: seq<Input>, j: nat, i: nat, id: nat, t: nat, now: nat, wants: Option<Word16>)
    requires Run(trace, inputs) && j < i < |trace| && id < TRACKERS && Aborts(trace[j].relay, inputs[j].event, id, t)
    requires forall m :: j < m < i ==> !LiftsAt(trace[m], inputs[m], id) && EarlyPoll(inputs[m], id, t)
    requires (now - t) % U32 < TEN_SECONDS + U32 / 2
    ensures SessionOk(trace[i].relay)
    ensures Handle(trace[i].relay, Poll(id, now, wants)).1 ==
      if (now - t) % U32 < TEN_SECONDS then AbortPong else NoAck
    ensures (now - t) % U32 >= TEN_SECONDS ==> Handle(trace[i].relay, Poll(id, now, wants)).0.tombstone[id].None?
  {
    AbortStays(trace, inputs, j, i, id, t);
    TombstoneTest(t, now);
    hide Run, LiftsAt, EarlyPoll;
  }

  // ----- Chunks -----

  /** A chunk that comes while a session is open and the ring is not full can be handed out at once; of an overlong one
      the first sixty bytes. */
  lemma ChunkIsStored(r: Relay, seqNo: Word16, chunk: Bytes)
    requires SessionOk(r) && r.active && chunk != [] && !RingFull(r)
    ensures var r' := Handle(r, HidData(seqNo, chunk)).0;
      && Holds(r', seqNo) && r'.ring[seqNo % RING].payload == chunk[..if |chunk| < 60 then |chunk| else 60]
      && r' == r.(ring := r'.ring, head := r'.head) && forall k :: 0 <= k < RING && k != seqNo % RING ==> r'.ring[k] == r.ring[k]
  {
    assert chunk[..|chunk|] == chunk;
  }

  // ----- Leaving -----

  /** A report ends the tracker's part in the session exactly when its status is final, and nobody else's. */
  lemma FinalReportLeaves(r: Relay, id: nat, status: Status, other: nat)
    requires SessionOk(r) && id < TRACKERS && other < TRACKERS
    ensures var r' := Handle(r, Report(id, status)).0;
      && SessionOk(r')
      && (r'.tracker[other].participating <==> r.tracker[other].participating && !(other == id && status in FINAL))
      && (other != id ==> r'.tracker[other] == r.tracker[other]) && r'.tracker[id].status == status
  {
    SessionInvariant(r, Report(id, status));
  }

  /** Tracker `id` is in no session and has no abort standing against it. */
  ghost predicate Gone(r: Relay, id: nat) {
    SessionOk(r) && id < TRACKERS && !r.tracker[id].participating && r.tombstone[id].None?
  }

  ghost predicate Leaves(r: Relay, e: Event, id: nat)
    requires Shape(r) && id < TRACKERS
  {
    e == Forget(id) || (e.Report? && e.id == id && e.status in FINAL && r.tracker[id].participating)
  }

  lemma GoneNow(r: Relay, e: Event, id: nat)
    requires SessionOk(r) && Clear(r) && id < TRACKERS && Leaves(r, e, id)
    ensures Gone(Handle(r, e).0, id)
  {
    SessionInvariant(r, e);
  }

  lemma GoneAfter(r: Relay, e: Event, id: nat)
    requires Gone(r, id) && !Lifts(r, e, id)
    ensures Gone(Handle(r, e).0, id)
  {
    SessionInvariant(r, e);
    if e.AbortAll? { BuriedAll(r, r.targets, e.now, id); }
  }

  lemma {:induction false} StaysGone(trace: seq<World>, inputs: seq<Input>, j: nat, i: nat, id: nat)
    requires Run(trace, inputs) && j < i < |trace| && id < TRACKERS
    requires Shape(trace[j].relay) && Leaves(trace[j].relay, inputs[j].event, id)
    requires forall m :: j < m < i ==> !LiftsAt(trace[m], inputs[m], id)
    ensures Gone(trace[i].relay, id)
  {
    hide SessionOk, Handle, Lifts, Leaves, Clear, Run, Gone;
    RunClear(trace, inputs, i - 1);
    Took(trace, inputs, i - 1);
    if i == j + 1 {
      GoneNow(trace[j].relay, inputs[j].event, id);
    } else {
      StaysGone(trace, inputs, j, i - 1, id);
      assert !LiftsAt(trace[i - 1], inputs[i - 1], id);
      GoneAfter(trace[i - 1].relay, inputs[i - 1].event, id);
    }
  }

  /** A tracker that was forgotten or has finished gets no answer until a BEGIN is admitted for it or it is aborted. */
  lemma GoneHearsNothing(trace: seq<World>, inputs: seq<Input>, j: nat, i: nat, id: nat, now: nat, wants: Option<Word16>)
    requires Run(trace, inputs) && j < i < |trace| && id < TRACKERS
    requires Shape(trace[j].relay) && Leaves(trace[j].relay, inputs[j].event, id)
    requires forall m :: j < m < i ==> !LiftsAt(trace[m], inputs[m], id)
    ensures SessionOk(trace[i].relay)
    ensures Handle(trace[i].relay, Poll(id, now, wants)).1 == NoAck
  {
    StaysGone(trace, inputs, j, i, id);
    hide Run, LiftsAt, Leaves;
  }
}
