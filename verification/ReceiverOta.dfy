/**
 Receiver self-update: the HID thread fills page buffers, a writer thread puts them into staging flash.
 Two page slots, two semaphores and a four-entry queue are all that keeps the threads apart.

 A run is any interleaving of the steps below. Flash operations may fail, semaphore and queue waits may
 time out, and the session may be stopped and restarted at any point.
 */
module ReceiverOta {
  const PAGE := 4096
  const MAX_PAYLOAD := 60
  const QUEUE := 4

  type Bytes = seq<int>
  type PageData = d: Bytes | |d| == PAGE witness seq(PAGE, _ => 0)

  datatype Phase = Idle | Ready | Receiving | Verifying | ActivatePending | Activating | Error
  datatype Cmd = Page(slot: nat) | Verify | Activate | Shutdown
  datatype Request = Request(data: PageData, addr: nat, len: nat)

  /** Who may touch a page slot. */
  datatype Owner = Free | Producer | Queued | Writer

  datatype HandlerPc =
    | Resting
    | Copying(payload: Bytes, copied: nat)
    | Flushing(payload: Bytes, copied: nat)
    | Sealing
    | Submitting
    | Launching

  datatype WriterPc =
    | Absent
    | Waiting
    | Erasing(slot: nat)
    | Programming(slot: nat, done: nat)
    | Releasing(slot: nat)
    | Checking
    | Starting
    | Exited

  /** `stream` and `submitted` are history: the bytes copied so far, and whether VERIFY has been queued. */
  datatype State = State(
    phase: Phase,
    verifyOk: bool,
    imageSize: nat,
    imageCrc: int,
    nextSeq: nat,
    bytesWritten: nat,
    offset: nat,
    pageAddr: nat,
    nextSlot: nat,
    slots: seq<Request>,
    sem: seq<bool>,
    queue: seq<Cmd>,
    staging: Bytes,
    writerError: bool,
    stopRequested: bool,
    handler: HandlerPc,
    writer: WriterPc,
    owner: seq<Owner>,
    stream: Bytes,
    submitted: bool)

  datatype Step =
    | BeginSession(size: nat, crc: int, staging: Bytes)
    | DataReport(seqNo: nat, payload: Bytes)
    | CopyChunk
    | SlotTimeout
    | FlushPage
    | FlushFails
    | DataDone
    | VerifyReport
    | SubmitVerify
    | ActivateReport
    | SubmitActivate
    | SubmitTimeout
    | StopSession
    | JoinWriter
    | WriterTake
    | WriterStops(dropsHead: bool)
    | ErasePage
    | ProgramByte
    | FlashFails
    | ReleaseSlot
    | CheckImage
    | StartCopy

  function Rounded(size: nat): nat { (size + PAGE - 1) / PAGE * PAGE }

  predicate Magic(payload: Bytes) {
    |payload| >= 4 && payload[..4] == [0x3D, 0xB8, 0xF3, 0x96]
  }

  /** The payload length sequence number `seqNo` must carry. */
  function Want(imageSize: nat, seqNo: nat): nat {
    var left := imageSize - seqNo * MAX_PAYLOAD;
    if left <= 0 then 0 else if left < MAX_PAYLOAD then left else MAX_PAYLOAD
  }

  predicate Enabled(s: State, step: Step) {
    match step
    case BeginSession(size, crc, staging) =>
      && s.handler.Resting? && s.writer.Absent? && (s.phase.Idle? || s.phase.Error?)
      && size > 0 && |staging| == Rounded(size)
    case DataReport(_, _) => s.handler.Resting? && !s.stopRequested
    case CopyChunk =>
      && s.handler.Copying? && s.handler.copied < |s.handler.payload| && s.nextSlot < |s.sem|
      && (s.offset == 0 ==> s.sem[s.nextSlot])
    case SlotTimeout => s.handler.Copying? && s.handler.copied < |s.handler.payload| && s.offset == 0
    case FlushPage => (s.handler.Flushing? || s.handler.Sealing?) && !s.writerError && |s.queue| < QUEUE
    case FlushFails => s.handler.Flushing? || s.handler.Sealing?
    case DataDone => s.handler.Copying? && s.handler.copied == |s.handler.payload|
    case VerifyReport => s.handler.Resting? && !s.stopRequested
    case SubmitVerify => s.handler.Submitting? && |s.queue| < QUEUE
    case ActivateReport => s.handler.Resting? && !s.stopRequested
    case SubmitActivate => s.handler.Launching? && |s.queue| < QUEUE
    case SubmitTimeout => s.handler.Submitting? || s.handler.Launching?
    case StopSession => s.handler.Resting? && !s.writer.Absent?
    case JoinWriter => s.handler.Resting? && s.stopRequested && s.writer.Exited?
    case WriterTake => s.writer.Waiting? && !s.stopRequested && s.queue != []
    case WriterStops(dropsHead) => s.writer.Waiting? && s.stopRequested && (dropsHead ==> s.queue != [])
    case ErasePage => s.writer.Erasing?
    case ProgramByte => s.writer.Programming? && s.writer.slot < |s.slots| && s.writer.done < s.slots[s.writer.slot].len
    case FlashFails => s.writer.Erasing? || s.writer.Programming?
    case ReleaseSlot => s.writer.Programming? && s.writer.slot < |s.slots| && s.writer.done == s.slots[s.writer.slot].len
    case CheckImage => s.writer.Checking?
    case StartCopy => s.writer.Starting?
  }

  ghost predicate Shape(s: State) {
    && |s.slots| == 2 && |s.sem| == 2 && |s.owner| == 2 && s.nextSlot < 2
    && |s.staging| == Rounded(s.imageSize)
  }

  function Fail(s: State): State { s.(phase := Error, verifyOk := false, handler := Resting) }

  function Fill(data: Bytes, from: nat): Bytes
    requires from <= |data|
  {
    data[..from] + seq(|data| - from, _ => 0xFF)
  }

  function Copy(s: State): State
    requires Shape(s) && Enabled(s, CopyChunk) && s.offset <= PAGE
  {
    var h := s.handler;
    var space := PAGE - s.offset;
    var left := |h.payload| - h.copied;
    var chunk := if space < left then space else left;
    var bytes := h.payload[h.copied..h.copied + chunk];
    var r := s.slots[s.nextSlot];
    var data := r.data[..s.offset] + bytes + r.data[s.offset + chunk..];
    var t := s.(
      slots := s.slots[s.nextSlot := r.(data := data)],
      sem := s.sem[s.nextSlot := false],
      owner := s.owner[s.nextSlot := Producer],
      offset := s.offset + chunk,
      stream := s.stream + bytes);
    t.(handler := if t.offset >= PAGE then Flushing(h.payload, h.copied + chunk) else Copying(h.payload, h.copied + chunk))
  }

  function Flush(s: State): State
    requires Shape(s) && s.offset <= PAGE && (s.handler.Flushing? || s.handler.Sealing?)
  {
    var r := s.slots[s.nextSlot];
    s.(slots := s.slots[s.nextSlot := Request(Fill(r.data, s.offset), s.pageAddr, s.offset)],
       queue := s.queue + [Page(s.nextSlot)],
       owner := s.owner[s.nextSlot := Queued],
       nextSlot := 1 - s.nextSlot,
       pageAddr := s.pageAddr + PAGE,
       offset := 0,
       handler := if s.handler.Flushing? then Copying(s.handler.payload, s.handler.copied) else Submitting)
  }

  function Accept(s: State, seqNo: nat, payload: Bytes): State {
    if !s.phase.Ready? && !s.phase.Receiving? then s
    else if s.writerError then Fail(s)
    else if seqNo * MAX_PAYLOAD >= s.imageSize then s
    else if seqNo < s.nextSeq then s
    else if seqNo > s.nextSeq then Fail(s)
    else
      var want := Want(s.imageSize, seqNo);
      if |payload| < want then s
      else if s.bytesWritten == 0 && want >= 4 && Magic(payload[..want]) then Fail(s)
      else s.(phase := Receiving, handler := Copying(payload[..want], 0))
  }

  function Release(s: State, slot: nat): State
    requires Shape(s) && slot < 2
  {
    s.(sem := s.sem[slot := true], owner := s.owner[slot := Free], writer := Waiting)
  }

  function Take(s: State): State
    requires s.queue != []
  {
    var t := s.(queue := s.queue[1..]);
    match s.queue[0]
    case Shutdown => t.(writer := Exited)
    case Verify => t.(writer := Checking)
    case Activate => t.(writer := Starting)
    case Page(slot) =>
      if slot < |s.owner| then t.(writer := Erasing(slot), owner := s.owner[slot := Writer]) else t
  }

  function Check(s: State, crc: Bytes -> int): State
    requires Shape(s) && s.imageSize <= |s.staging|
  {
    var t := s.(writer := Waiting);
    if s.writerError || crc(s.staging[..s.imageSize]) != s.imageCrc
    then t.(phase := Error, verifyOk := false)
    else t.(verifyOk := true)
  }

  /** Buffer and flash accesses of the next step stay in bounds. */
  ghost predicate InBounds(s: State) {
    && Shape(s) && s.offset <= PAGE && s.imageSize <= |s.staging|
    && (s.writer.Erasing? || s.writer.Programming? ==>
          s.writer.slot < 2 && s.slots[s.writer.slot].addr + PAGE <= |s.staging| && s.slots[s.writer.slot].len <= PAGE)
  }

  function Do(s: State, step: Step, crc: Bytes -> int): State
    requires InBounds(s) && Enabled(s, step)
  {
    match step
    case BeginSession(size, imageCrc, staging) =>
      State(Ready, false, size, imageCrc, 0, 0, 0, 0, 0, s.slots, [true, true], [], staging,
            false, false, Resting, Waiting, [Free, Free], [], false)
    case DataReport(seqNo, payload) => Accept(s, seqNo, payload)
    case CopyChunk => Copy(s)
    case SlotTimeout => Fail(s)
    case FlushPage => Flush(s)
    case FlushFails => Fail(s)
    case DataDone =>
      s.(bytesWritten := s.bytesWritten + |s.handler.payload|, nextSeq := s.nextSeq + 1, handler := Resting)
    case VerifyReport =>
      if !s.phase.Ready? && !s.phase.Receiving? then s
      else if s.bytesWritten != s.imageSize then Fail(s)
      else s.(phase := Verifying, handler := if s.offset > 0 then Sealing else Submitting)
    case SubmitVerify => s.(queue := s.queue + [Verify], handler := Resting, submitted := true)
    case ActivateReport =>
      if s.phase.Verifying? && s.verifyOk then s.(phase := ActivatePending, handler := Launching) else s
    case SubmitActivate => s.(queue := s.queue + [Activate], handler := Resting)
    case SubmitTimeout => Fail(s)
    case StopSession => s.(stopRequested := true, queue := if |s.queue| < QUEUE then s.queue + [Shutdown] else s.queue)
    case JoinWriter =>
      // The other session fields are dead until the next BEGIN sets them.
      var t := s.(writer := Absent, stopRequested := false, phase := Idle, verifyOk := false);
      if s.offset > 0
      then t.(sem := s.sem[s.nextSlot := true], owner := s.owner[s.nextSlot := Free], offset := 0)
      else t
    case WriterTake => Take(s)
    case WriterStops(dropsHead) => s.(writer := Exited, queue := if dropsHead then s.queue[1..] else s.queue)
    case ErasePage =>
      var addr := s.slots[s.writer.slot].addr;
      s.(staging := s.staging[..addr] + seq(PAGE, _ => 0xFF) + s.staging[addr + PAGE..],
         writer := Programming(s.writer.slot, 0))
    case ProgramByte =>
      var r, j := s.slots[s.writer.slot], s.writer.done;
      s.(staging := s.staging[r.addr + j := r.data[j]], writer := Programming(s.writer.slot, j + 1))
    case FlashFails => Release(s, s.writer.slot).(writerError := true)
    case ReleaseSlot => Release(s, s.writer.slot)
    case CheckImage => Check(s, crc)
    case StartCopy => s.(phase := Activating, writer := Exited)
  }

  // ----- Invariant -----

  predicate Live(w: WriterPc) { !w.Absent? && !w.Exited? }

  predicate Busy(w: WriterPc, i: nat) {
    (w.Erasing? || w.Programming?) && w.slot == i
  }

  /** Slot `i` has exactly one owner, and semaphore, queue and both threads agree on it. */
  ghost predicate Owned(i: nat, owner: Owner, sem: bool, filling: bool, w: WriterPc, queue: seq<Cmd>) {
    && (sem <==> owner.Free?)
    && (owner.Producer? <==> filling)
    && (owner.Writer? <==> Busy(w, i))
    && (Page(i) in queue ==> owner.Queued?)
    && (Live(w) && owner.Queued? ==> Page(i) in queue)
  }

  predicate OnePagePerSlot(q: seq<Cmd>) {
    forall j, k :: 0 <= j < k < |q| && q[j].Page? ==> q[j] != q[k]
  }

  /** Commands that follow VERIFY are never page writes. */
  predicate PagesFirst(q: seq<Cmd>) {
    forall j, k :: 0 <= j < k < |q| && (q[j].Verify? || q[j].Activate?) ==> !q[k].Page?
  }

  predicate OneVerify(q: seq<Cmd>) {
    forall j, k :: 0 <= j < k < |q| && q[j].Verify? ==> !q[k].Verify?
  }

  predicate NoPages(q: seq<Cmd>) {
    forall j :: 0 <= j < |q| ==> !q[j].Page?
  }

  ghost predicate Ordered(q: seq<Cmd>) {
    && OnePagePerSlot(q) && PagesFirst(q) && OneVerify(q)
    && (forall j :: 0 <= j < |q| && q[j].Page? ==> q[j].slot < 2)
  }

  /** Where VERIFY and ACTIVATE may be, given what has been submitted and verified. */
  ghost predicate Commands(q: seq<Cmd>, w: WriterPc, h: HandlerPc, phase: Phase, submitted: bool, verifyOk: bool) {
    && (!submitted ==> Verify !in q && !w.Checking? && !verifyOk && Activate !in q)
    && (Verify in q ==> !verifyOk)
    && (w.Checking? ==> Verify !in q && !verifyOk && NoPages(q))
    && ((Live(w) && Activate in q) || w.Starting? || h.Launching? ==> verifyOk)
    && (h.Launching? || phase.Verifying? || phase.Ready? || phase.Receiving? ==> Activate !in q && !w.Starting?)
  }

  /** The session's bytes: whole pages handed over, then the page being filled. */
  ghost predicate Streamed(stream: Bytes, pageAddr: nat, offset: nat, data: Bytes, phase: Phase, imageSize: nat) {
    && offset <= PAGE <= |data| && |stream| <= imageSize && pageAddr % PAGE == 0
    && (offset > 0 ==> |stream| == pageAddr + offset && data[..offset] == stream[pageAddr..])
    && (offset == 0 && !phase.Idle? ==> |stream| <= pageAddr)
    && (phase.Ready? || phase.Receiving? ==> |stream| == pageAddr + offset)
  }

  predicate More(imageSize: nat, seqNo: nat) { seqNo * MAX_PAYLOAD < imageSize }

  predicate Counted(bytesWritten: nat, imageSize: nat, seqNo: nat) {
    bytesWritten == if More(imageSize, seqNo) then seqNo * MAX_PAYLOAD else imageSize
  }

  /** Where the handler is in its report. */
  ghost predicate Handling(s: State) {
    && Counted(s.bytesWritten, s.imageSize, s.nextSeq)
    && (s.handler.Resting? && (s.phase.Ready? || s.phase.Receiving?) ==> s.offset < PAGE && |s.stream| == s.bytesWritten)
    && (s.submitted ==>
          |s.stream| == s.imageSize <= s.pageAddr && !s.phase.Ready? && !s.phase.Receiving? && s.offset == 0)
    && match s.handler
       case Copying(payload, copied) =>
         && s.phase.Receiving? && copied <= |payload| == Want(s.imageSize, s.nextSeq) && s.offset < PAGE && !s.submitted
         && |s.stream| == s.bytesWritten + copied && More(s.imageSize, s.nextSeq)
       case Flushing(payload, copied) =>
         && s.phase.Receiving? && copied <= |payload| == Want(s.imageSize, s.nextSeq) && s.offset == PAGE && !s.submitted
         && |s.stream| == s.bytesWritten + copied && More(s.imageSize, s.nextSeq)
       case Sealing => 0 < s.offset && s.phase.Verifying? && |s.stream| == s.imageSize && !s.submitted
       case Submitting => s.offset == 0 && s.phase.Verifying? && |s.stream| == s.imageSize && !s.submitted
       case Launching => s.submitted && s.phase.ActivatePending?
       case Resting => true
  }

  predicate InFlight(owner: Owner) { owner.Queued? || owner.Writer? }

  predicate Covers(owner: Owner, r: Request, x: nat) {
    InFlight(owner) && r.addr <= x < r.addr + PAGE
  }

  /** A page on its way holds its stretch of the stream. */
  ghost predicate PageOk(owner: Owner, r: Request, stream: Bytes, pageAddr: nat) {
    InFlight(owner) ==>
      && r.addr + PAGE <= pageAddr && 0 < r.len <= PAGE && r.addr + r.len <= |stream|
      && (r.len == PAGE || r.addr + r.len == |stream|)
      && r.data[..r.len] == stream[r.addr..r.addr + r.len]
  }

  /** Every byte handed over is in staging, or still on its way, unless the writer reported an error. */
  ghost predicate Staged(stream: Bytes, pageAddr: nat, staging: Bytes, failed: bool,
                         o0: Owner, r0: Request, o1: Owner, r1: Request) {
    forall x :: 0 <= x < |stream| && x < pageAddr && !Covers(o0, r0, x) && !Covers(o1, r1, x) ==>
      failed || (x < |staging| && staging[x] == stream[x])
  }

  ghost predicate Progress(w: WriterPc, r: Request, staging: Bytes) {
    w.Programming? ==>
      w.done <= r.len && r.addr + r.len <= |staging| && r.len <= PAGE &&
      forall j :: 0 <= j < w.done ==> staging[r.addr + j] == r.data[j]
  }

  /** VERIFY succeeded: staging is the stream, its CRC matches, and nothing more will be written. */
  ghost predicate Verified(s: State, crc: Bytes -> int) {
    && s.submitted && !s.writerError && |s.owner| == 2 && !InFlight(s.owner[0]) && !InFlight(s.owner[1])
    && s.imageSize <= |s.staging| && s.staging[..s.imageSize] == s.stream && crc(s.stream) == s.imageCrc
  }

  function WriterSlot(w: WriterPc): nat { if w.Erasing? || w.Programming? then w.slot else 0 }

  ghost predicate Inv(s: State, crc: Bytes -> int) {
    && InBounds(s) && s.pageAddr <= |s.staging|
    && Owned(0, s.owner[0], s.sem[0], s.offset > 0 && s.nextSlot == 0, s.writer, s.queue)
    && Owned(1, s.owner[1], s.sem[1], s.offset > 0 && s.nextSlot == 1, s.writer, s.queue)
    && Ordered(s.queue) && Commands(s.queue, s.writer, s.handler, s.phase, s.submitted, s.verifyOk)
    && Streamed(s.stream, s.pageAddr, s.offset, s.slots[s.nextSlot].data, s.phase, s.imageSize)
    && Handling(s)
    && PageOk(s.owner[0], s.slots[0], s.stream, s.pageAddr)
    && PageOk(s.owner[1], s.slots[1], s.stream, s.pageAddr)
    && Staged(s.stream, s.pageAddr, s.staging, s.writerError, s.owner[0], s.slots[0], s.owner[1], s.slots[1])
    && Progress(s.writer, s.slots[WriterSlot(s.writer)], s.staging)
    && (s.verifyOk ==> Verified(s, crc))
  }

  // ----- Every step keeps the invariant -----

  lemma RoundedBound(addr: nat, size: nat)
    requires addr % PAGE == 0 && addr < size
    ensures addr + PAGE <= Rounded(size) && (addr + PAGE) % PAGE == 0
  {
  }

  lemma RoundedCovers(size: nat)
    ensures size <= Rounded(size)
  {
  }

  lemma BeginStep(s: State, step: Step, crc: Bytes -> int)
    requires Inv(s, crc) && Enabled(s, step) && step.BeginSession?
    ensures Inv(Do(s, step, crc), crc)
  {
    RoundedCovers(step.size);
  }

  lemma FailKeeps(s: State, crc: Bytes -> int)
    requires Inv(s, crc) && (!s.handler.Resting? || s.phase.Ready? || s.phase.Receiving?)
    ensures Inv(Fail(s), crc)
  {
    hide Owned, Staged, PageOk, Progress, Ordered, Want, More;
  }

  lemma StartReceiving(s: State, crc: Bytes -> int, payload: Bytes)
    requires Inv(s, crc) && s.handler.Resting? && (s.phase.Ready? || s.phase.Receiving?)
    requires More(s.imageSize, s.nextSeq) && |payload| == Want(s.imageSize, s.nextSeq)
    ensures Inv(s.(phase := Receiving, handler := Copying(payload, 0)), crc)
  {
    hide Owned, Staged, PageOk, Progress, Ordered, Want, More;
  }

  lemma AcceptStep(s: State, step: Step, crc: Bytes -> int)
    requires Inv(s, crc) && Enabled(s, step) && step.DataReport?
    ensures Inv(Do(s, step, crc), crc)
  {
    var t := Accept(s, step.seqNo, step.payload);
    hide Inv;
    if t == Fail(s) && t != s {
      FailKeeps(s, crc);
    } else if t != s {
      StartReceiving(s, crc, step.payload[..Want(s.imageSize, step.seqNo)]);
    }
  }

  lemma DataDoneStep(s: State, crc: Bytes -> int)
    requires Inv(s, crc) && Enabled(s, DataDone)
    ensures Inv(Do(s, DataDone, crc), crc)
  {
    hide Owned, Staged, PageOk, Progress, Ordered, Streamed, Verified;
  }

  lemma SealKeeps(s: State, crc: Bytes -> int)
    requires Inv(s, crc) && s.handler.Resting? && (s.phase.Ready? || s.phase.Receiving?) && s.bytesWritten == s.imageSize
    ensures Inv(s.(phase := Verifying, handler := if s.offset > 0 then Sealing else Submitting), crc)
  {
    hide Owned, Staged, PageOk, Progress, Ordered, Want, More;
  }

  lemma VerifyStep(s: State, crc: Bytes -> int)
    requires Inv(s, crc) && Enabled(s, VerifyReport)
    ensures Inv(Do(s, VerifyReport, crc), crc)
  {
    hide Inv;
    if s.phase.Ready? || s.phase.Receiving? {
      if s.bytesWritten != s.imageSize { FailKeeps(s, crc); } else { SealKeeps(s, crc); }
    }
  }

  lemma ActivateStep(s: State, crc: Bytes -> int)
    requires Inv(s, crc) && Enabled(s, ActivateReport)
    ensures Inv(Do(s, ActivateReport, crc), crc)
  {
    hide Owned, Staged, PageOk, Progress, Ordered, Want, More;
  }

  lemma FailSteps(s: State, step: Step, crc: Bytes -> int)
    requires Inv(s, crc) && Enabled(s, step)
    requires step.SlotTimeout? || step.FlushFails? || step.SubmitTimeout?
    ensures Inv(Do(s, step, crc), crc)
  {
    FailKeeps(s, crc);
  }

  lemma CopyStaged(s: State, t: State)
    requires |s.owner| == |t.owner| == |s.slots| == |t.slots| == 2
    requires Staged(s.stream, s.pageAddr, s.staging, s.writerError, s.owner[0], s.slots[0], s.owner[1], s.slots[1])
    requires s.stream <= t.stream && s.pageAddr == t.pageAddr <= |s.stream|
    requires t.staging == s.staging && t.writerError == s.writerError
    requires forall i :: 0 <= i < 2 ==> 
      && (InFlight(t.owner[i]) <==> InFlight(s.owner[i]))
      && (InFlight(t.owner[i]) ==> t.slots[i] == s.slots[i])
    ensures Staged(t.stream, t.pageAddr, t.staging, t.writerError, t.owner[0], t.slots[0], t.owner[1], t.slots[1])
  {
    forall x | 0 <= x < |t.stream| && x < t.pageAddr && !Covers(t.owner[0], t.slots[0], x) && !Covers(t.owner[1], t.slots[1], x)
      ensures t.writerError || (x < |t.staging| && t.staging[x] == t.stream[x])
    {
      assert !Covers(s.owner[0], s.slots[0], x) && !Covers(s.owner[1], s.slots[1], x);
    }
  }

  lemma CopyStream(s: State, crc: Bytes -> int)
    requires Inv(s, crc) && Enabled(s, CopyChunk)
    ensures var t := Copy(s);
      Streamed(t.stream, t.pageAddr, t.offset, t.slots[t.nextSlot].data, t.phase, t.imageSize) && Handling(t)
  {
    hide Ordered, Staged, Owned, Progress, PageOk, Commands, Verified;
  }

  lemma CopyStep(s: State, crc: Bytes -> int)
    requires Inv(s, crc) && Enabled(s, CopyChunk)
    ensures Inv(Copy(s), crc)
  {
    var t := Copy(s);
    CopyStaged(s, t);
    CopyStream(s, crc);
    hide Ordered, Staged, Streamed, Handling;
  }

  lemma SnocPage(q: seq<Cmd>, slot: nat)
    requires Ordered(q) && slot < 2 && Page(slot) !in q && Verify !in q && Activate !in q
    ensures Ordered(q + [Page(slot)])
  {
    assert forall j :: 0 <= j < |q| ==> q[j] in q;
  }

  lemma FlushStaged(s: State, t: State)
    requires |s.owner| == |t.owner| == |s.slots| == |t.slots| == 2 && s.nextSlot < 2
    requires Staged(s.stream, s.pageAddr, s.staging, s.writerError, s.owner[0], s.slots[0], s.owner[1], s.slots[1])
    requires t.stream == s.stream && t.pageAddr == s.pageAddr + PAGE && t.staging == s.staging && t.writerError == s.writerError
    requires InFlight(t.owner[s.nextSlot]) && t.slots[s.nextSlot].addr == s.pageAddr && !InFlight(s.owner[s.nextSlot])
    requires t.owner[1 - s.nextSlot] == s.owner[1 - s.nextSlot] && t.slots[1 - s.nextSlot] == s.slots[1 - s.nextSlot]
    ensures Staged(t.stream, t.pageAddr, t.staging, t.writerError, t.owner[0], t.slots[0], t.owner[1], t.slots[1])
  {
    forall x | 0 <= x < |t.stream| && x < t.pageAddr && !Covers(t.owner[0], t.slots[0], x) && !Covers(t.owner[1], t.slots[1], x)
      ensures t.writerError || (x < |t.staging| && t.staging[x] == t.stream[x])
    {
      assert x < s.pageAddr;
      assert !Covers(s.owner[0], s.slots[0], x) && !Covers(s.owner[1], s.slots[1], x);
    }
  }

  lemma FlushOwned(i: nat, slot: nat, owner: Owner, sem: bool, w: WriterPc, q: seq<Cmd>)
    requires Owned(i, owner, sem, i == slot, w, q)
    ensures Owned(i, if i == slot then Queued else owner, sem, false, w, q + [Page(slot)])
  {
  }

  lemma FlushHandling(s: State)
    requires Shape(s) && Handling(s) && s.offset <= PAGE && (s.handler.Flushing? || s.handler.Sealing?)
    requires s.offset > 0 ==> |s.stream| == s.pageAddr + s.offset
    ensures Handling(Flush(s)) && !s.submitted && s.offset > 0
    ensures s.handler.Flushing? ==> s.phase.Receiving?
    ensures s.handler.Sealing? ==> s.phase.Verifying?
  {
    hide Want, More, Counted, Fill, Rounded;
  }

  lemma FlushPages(s: State)
    requires Shape(s) && 0 < s.offset <= PAGE && (s.handler.Flushing? || s.handler.Sealing?)
    requires Streamed(s.stream, s.pageAddr, s.offset, s.slots[s.nextSlot].data, s.phase, s.imageSize)
    requires PageOk(s.owner[1 - s.nextSlot], s.slots[1 - s.nextSlot], s.stream, s.pageAddr)
    ensures var t := Flush(s); PageOk(t.owner[0], t.slots[0], t.stream, t.pageAddr) && PageOk(t.owner[1], t.slots[1], t.stream, t.pageAddr)
  {
    hide Rounded;
  }

  lemma FlushStep(s: State, crc: Bytes -> int)
    requires Inv(s, crc) && Enabled(s, FlushPage)
    ensures Inv(Flush(s), crc)
  {
    RoundedBound(s.pageAddr, s.imageSize);
    SnocPage(s.queue, s.nextSlot);
    FlushStaged(s, Flush(s));
    FlushOwned(0, s.nextSlot, s.owner[0], s.sem[0], s.writer, s.queue);
    FlushOwned(1, s.nextSlot, s.owner[1], s.sem[1], s.writer, s.queue);
    FlushHandling(s);
    FlushPages(s);
    hide Ordered, Staged, Verified, Counted, Want, More, Rounded, Owned, Handling, PageOk;
  }

  lemma SubmitSteps(s: State, step: Step, crc: Bytes -> int)
    requires Inv(s, crc) && Enabled(s, step) && (step.SubmitVerify? || step.SubmitActivate? || step.StopSession?)
    ensures Inv(Do(s, step, crc), crc)
  {
    hide Staged, PageOk, Progress, Want, More;
  }

  lemma JoinStep(s: State, crc: Bytes -> int)
    requires Inv(s, crc) && Enabled(s, JoinWriter)
    ensures Inv(Do(s, JoinWriter, crc), crc)
  {
    hide Ordered, Want, More;
  }

  lemma QueueTail(q: seq<Cmd>)
    requires Ordered(q) && q != []
    ensures Ordered(q[1..])
    ensures forall c :: c in q <==> c == q[0] || c in q[1..]
    ensures q[0].Page? ==> q[0] !in q[1..] && q[0].slot < 2
    ensures q[0].Verify? ==> Verify !in q[1..]
    ensures q[0].Verify? || q[0].Activate? ==> NoPages(q[1..])
    ensures NoPages(q) ==> NoPages(q[1..]) && !q[0].Page?
  {
    assert q == [q[0]] + q[1..];
  }

  lemma TakeOwned(i: nat, slot: nat, owner: Owner, sem: bool, filling: bool, q: seq<Cmd>)
    requires Owned(i, owner, sem, filling, Waiting, q) && q != [] && q[0] == Page(slot) && Ordered(q)
    ensures Owned(i, if i == slot then Writer else owner, sem, filling, Erasing(slot), q[1..])
    ensures i == slot ==> owner.Queued?
  {
    QueueTail(q);
  }

  lemma TakeCommands(q: seq<Cmd>, slot: nat, h: HandlerPc, phase: Phase, submitted: bool, verifyOk: bool)
    requires Commands(q, Waiting, h, phase, submitted, verifyOk) && q != [] && q[0] == Page(slot) && Ordered(q)
    ensures Commands(q[1..], Erasing(slot), h, phase, submitted, verifyOk) && Ordered(q[1..]) && slot < 2
  {
    QueueTail(q);
  }

  lemma TakePage(s: State, crc: Bytes -> int)
    requires Inv(s, crc) && Enabled(s, WriterTake) && s.queue[0].Page?
    ensures Inv(Do(s, WriterTake, crc), crc)
  {
    hide Streamed, Ordered, Staged, Handling, PageOk, Progress, Owned, Commands;
    var t, slot := Do(s, WriterTake, crc), s.queue[0].slot;
    TakeOwned(0, slot, s.owner[0], s.sem[0], s.offset > 0 && s.nextSlot == 0, s.queue);
    TakeOwned(1, slot, s.owner[1], s.sem[1], s.offset > 0 && s.nextSlot == 1, s.queue);
    TakeCommands(s.queue, slot, s.handler, s.phase, s.submitted, s.verifyOk);
    PageFrame(s, slot);
    ProgressStart(slot, s.slots[slot], s.staging);
    HandlingFrame(s, t);
    StagedFrame(s, t);
  }

  lemma ProgressStart(slot: nat, r: Request, staging: Bytes)
    ensures Progress(Erasing(slot), r, staging)
  {
  }

  lemma PageFrame(s: State, i: nat)
    requires |s.owner| == |s.slots| == 2 && i < 2 && PageOk(s.owner[i], s.slots[i], s.stream, s.pageAddr) && InFlight(s.owner[i])
    ensures PageOk(Writer, s.slots[i], s.stream, s.pageAddr)
    ensures s.slots[i].addr + PAGE <= s.pageAddr && s.slots[i].len <= PAGE
  {
  }

  lemma HandlingFrame(s: State, t: State)
    requires Handling(s) && t == s.(queue := t.queue, writer := t.writer, owner := t.owner, sem := t.sem, writerError := t.writerError)
    ensures Handling(t)
  {
  }

  lemma StagedFrame(s: State, t: State)
    requires |s.owner| == |t.owner| == |s.slots| == 2 && t.slots == s.slots
    requires Staged(s.stream, s.pageAddr, s.staging, s.writerError, s.owner[0], s.slots[0], s.owner[1], s.slots[1])
    requires t.stream == s.stream && t.pageAddr == s.pageAddr && t.staging == s.staging && t.writerError == s.writerError
    requires forall i :: 0 <= i < 2 ==> (InFlight(t.owner[i]) <==> InFlight(s.owner[i]))
    ensures Staged(t.stream, t.pageAddr, t.staging, t.writerError, t.owner[0], t.slots[0], t.owner[1], t.slots[1])
  {
  }

  lemma TakeCommand(s: State, crc: Bytes -> int)
    requires Inv(s, crc) && Enabled(s, WriterTake) && !s.queue[0].Page?
    ensures Inv(Do(s, WriterTake, crc), crc)
  {
    QueueTail(s.queue);
    hide Streamed, Ordered, Staged, PageOk, NoPages, Want, More;
  }

  lemma DropHead(q: seq<Cmd>, rest: seq<Cmd>)
    requires Ordered(q) && (rest == q || (q != [] && rest == q[1..]))
    ensures Ordered(rest) && forall c :: c in rest ==> c in q
  {
    if rest != q { QueueTail(q); }
  }

  lemma StopStep(s: State, step: Step, crc: Bytes -> int)
    requires Inv(s, crc) && Enabled(s, step) && step.WriterStops?
    ensures Inv(Do(s, step, crc), crc)
  {
    var t := Do(s, step, crc);
    DropHead(s.queue, t.queue);
    hide Staged, PageOk, Streamed, Ordered, Handling;
    HandlingFrame(s, t);
  }

  /** A finished page is in staging byte for byte, so its slot can be given back. */
  lemma StagedRelease(s: State, i: nat)
    requires |s.owner| == |s.slots| == 2 && i < 2
    requires Staged(s.stream, s.pageAddr, s.staging, s.writerError, s.owner[0], s.slots[0], s.owner[1], s.slots[1])
    requires PageOk(s.owner[i], s.slots[i], s.stream, s.pageAddr) && InFlight(s.owner[i])
    requires s.writer == Programming(i, s.slots[i].len) && Progress(s.writer, s.slots[i], s.staging)
    ensures var o := s.owner[i := Free];
      Staged(s.stream, s.pageAddr, s.staging, s.writerError, o[0], s.slots[0], o[1], s.slots[1])
  {
    var r, o := s.slots[i], s.owner[i := Free];
    forall x | 0 <= x < |s.stream| && x < s.pageAddr && !Covers(o[0], s.slots[0], x) && !Covers(o[1], s.slots[1], x)
      ensures s.writerError || (x < |s.staging| && s.staging[x] == s.stream[x])
    {
      if r.addr <= x < r.addr + PAGE {
        assert x < r.addr + r.len;
        assert s.staging[r.addr + (x - r.addr)] == r.data[x - r.addr];
        assert r.data[..r.len][x - r.addr] == s.stream[r.addr..r.addr + r.len][x - r.addr];
      } else {
        assert Covers(s.owner[i], r, x) == false;
      }
    }
  }

  lemma EraseStep(s: State, crc: Bytes -> int)
    requires Inv(s, crc) && Enabled(s, ErasePage)
    ensures Inv(Do(s, ErasePage, crc), crc)
  {
    hide PageOk, Ordered, Streamed;
  }

  lemma ProgramStep(s: State, crc: Bytes -> int)
    requires Inv(s, crc) && Enabled(s, ProgramByte)
    ensures Inv(Do(s, ProgramByte, crc), crc)
  {
    hide PageOk, Ordered, Streamed;
  }

  lemma ReleaseStep(s: State, crc: Bytes -> int)
    requires Inv(s, crc) && Enabled(s, ReleaseSlot)
    ensures Inv(Do(s, ReleaseSlot, crc), crc)
  {
    StagedRelease(s, s.writer.slot);
    hide Ordered, Staged, Streamed, Handling, PageOk;
    HandlingFrame(s, Do(s, ReleaseSlot, crc));
    FreeSlot(s, s.writer.slot);
  }

  lemma FreeSlot(s: State, i: nat)
    requires |s.owner| == |s.slots| == 2 && i < 2
    ensures PageOk(Free, s.slots[i], s.stream, s.pageAddr)
  {
  }

  lemma FlashFailStep(s: State, crc: Bytes -> int)
    requires Inv(s, crc) && Enabled(s, FlashFails)
    ensures Inv(Do(s, FlashFails, crc), crc)
  {
    hide Ordered, Streamed, Handling, PageOk;
    HandlingFrame(s, Do(s, FlashFails, crc));
    FreeSlot(s, s.writer.slot);
  }

  lemma CheckPasses(s: State, crc: Bytes -> int)
    requires Inv(s, crc) && s.writer.Checking? && !s.writerError && crc(s.staging[..s.imageSize]) == s.imageCrc
    ensures Inv(s.(writer := Waiting, verifyOk := true), crc)
  {
    QuietStaging(s, crc);
    hide PageOk, Ordered, Staged, Streamed, Rounded, Want, More, Counted;
  }

  lemma CheckFails(s: State, crc: Bytes -> int)
    requires Inv(s, crc) && s.writer.Checking?
    ensures Inv(s.(writer := Waiting, phase := Error, verifyOk := false), crc)
  {
    hide PageOk, Ordered, Staged, Rounded, Want, More, Counted, Verified;
  }

  lemma CheckStep(s: State, crc: Bytes -> int)
    requires Inv(s, crc) && Enabled(s, CheckImage)
    ensures Inv(Do(s, CheckImage, crc), crc)
  {
    CheckFails(s, crc);
    hide Inv, Shape;
    if !s.writerError && crc(s.staging[..s.imageSize]) == s.imageCrc { CheckPasses(s, crc); }
  }

  lemma StartStep(s: State, crc: Bytes -> int)
    requires Inv(s, crc) && Enabled(s, StartCopy)
    ensures Inv(Do(s, StartCopy, crc), crc)
  {
    hide Staged, PageOk, Ordered;
  }

  lemma InvStep(s: State, step: Step, crc: Bytes -> int)
    requires Inv(s, crc) && Enabled(s, step)
    ensures Inv(Do(s, step, crc), crc)
  {
    hide Inv;
    match step
    case BeginSession(_, _, _) => BeginStep(s, step, crc);
    case DataReport(_, _) => AcceptStep(s, step, crc);
    case CopyChunk => CopyStep(s, crc);
    case SlotTimeout => FailSteps(s, step, crc);
    case FlushPage => FlushStep(s, crc);
    case FlushFails => FailSteps(s, step, crc);
    case DataDone => DataDoneStep(s, crc);
    case VerifyReport => VerifyStep(s, crc);
    case SubmitVerify => SubmitSteps(s, step, crc);
    case ActivateReport => ActivateStep(s, crc);
    case SubmitActivate => SubmitSteps(s, step, crc);
    case SubmitTimeout => FailSteps(s, step, crc);
    case StopSession => SubmitSteps(s, step, crc);
    case JoinWriter => JoinStep(s, crc);
    case WriterTake => if s.queue[0].Page? { TakePage(s, crc); } else { TakeCommand(s, crc); }
    case WriterStops(_) => StopStep(s, step, crc);
    case ErasePage => EraseStep(s, crc);
    case ProgramByte => ProgramStep(s, crc);
    case FlashFails => FlashFailStep(s, crc);
    case ReleaseSlot => ReleaseStep(s, crc);
    case CheckImage => CheckStep(s, crc);
    case StartCopy => StartStep(s, crc);
  }

  // ----- Whole runs -----

  /** Power-on: no session, no writer thread, both slots free. */
  ghost predicate Start(s: State) {
    && s.phase.Idle? && !s.verifyOk && s.imageSize == 0 && s.nextSeq == 0 && s.bytesWritten == 0 && s.offset == 0
    && s.pageAddr == 0 && s.nextSlot == 0 && |s.slots| == 2 && s.sem == [true, true] && s.queue == [] && s.staging == []
    && s.handler.Resting? && s.writer.Absent? && s.owner == [Free, Free] && s.stream == [] && !s.submitted
  }

  ghost predicate Moves(s: State, step: Step, crc: Bytes -> int, t: State) {
    InBounds(s) && Enabled(s, step) && t == Do(s, step, crc)
  }

  ghost predicate Execution(trace: seq<State>, steps: seq<Step>, crc: Bytes -> int) {
    && |trace| == |steps| + 1 && Start(trace[0])
    && forall k :: 0 <= k < |steps| ==> Moves(trace[k], steps[k], crc, trace[k + 1])
  }

  lemma StartInv(s: State, crc: Bytes -> int)
    requires Start(s)
    ensures Inv(s, crc)
  {
  }

  lemma InvMoves(s: State, step: Step, crc: Bytes -> int, t: State)
    requires Inv(s, crc) && Moves(s, step, crc, t)
    ensures Inv(t, crc)
  {
    hide Inv, Do, InBounds, Enabled;
    InvStep(s, step, crc);
  }

  lemma {:induction false} ReachableInv(trace: seq<State>, steps: seq<Step>, crc: Bytes -> int, n: nat)
    requires Execution(trace, steps, crc) && n < |trace|
    ensures Inv(trace[n], crc)
  {
    hide Inv, Moves, Start;
    if n == 0 {
      StartInv(trace[0], crc);
    } else {
      ReachableInv(trace, steps, crc, n - 1);
      assert Moves(trace[n - 1], steps[n - 1], crc, trace[n - 1 + 1]);
      InvMoves(trace[n - 1], steps[n - 1], crc, trace[n]);
    }
  }

  /** Who is actually using slot `i`, read off the program counters and the queue. */
  ghost predicate FillingSlot(s: State, i: nat) { s.offset > 0 && s.nextSlot == i }

  /**
   In every reachable state at most one of these holds of a page slot: the handler is filling it, a page
   request for it is queued, the writer thread is programming it, its semaphore can be taken. While the
   writer thread runs, exactly one of them holds.
   */
  lemma SlotHasOneOwner(trace: seq<State>, steps: seq<Step>, crc: Bytes -> int, n: nat, i: nat)
    requires Execution(trace, steps, crc) && n < |trace| && i < 2
    ensures var s := trace[n];
      && i < |s.sem|
      && !(FillingSlot(s, i) && Page(i) in s.queue)
      && !(FillingSlot(s, i) && Busy(s.writer, i))
      && !(Page(i) in s.queue && Busy(s.writer, i))
      && !(s.sem[i] && (FillingSlot(s, i) || Page(i) in s.queue || Busy(s.writer, i)))
      && (Live(s.writer) ==> FillingSlot(s, i) || Page(i) in s.queue || Busy(s.writer, i) || s.sem[i])
  {
    ReachableInv(trace, steps, crc, n);
  }

  /** The host's side of a session, read off the reports alone: the announced size, the latest data report, and the
      bytes of the reports that were handled to the end. */
  datatype Heard = Heard(size: nat, seqNo: nat, payload: Bytes, bytes: Bytes)

  function Carried(h: Heard): Bytes {
    if Want(h.size, h.seqNo) <= |h.payload| then h.payload[..Want(h.size, h.seqNo)] else h.payload
  }

  function Hear(h: Heard, step: Step): Heard {
    match step
    case BeginSession(size, _, _) => Heard(size, 0, [], [])
    case DataReport(seqNo, payload) => h.(seqNo := seqNo, payload := payload)
    case DataDone => h.(bytes := h.bytes + Carried(h))
    case _ => h
  }

  function HeardBy(steps: seq<Step>, n: nat): Heard
    requires n <= |steps|
  {
    if n == 0 then Heard(0, 0, [], []) else Hear(HeardBy(steps, n - 1), steps[n - 1])
  }

  /** What the data reports handled in full since the last BEGIN carried, in the order they were sent. */
  function Received(steps: seq<Step>, n: nat): Bytes
    requires n <= |steps|
  {
    HeardBy(steps, n).bytes
  }

  /** The handler works on the payload of the latest data report, which is the one it waited for. */
  ghost predicate Linked(s: State, h: Heard) {
    && h.size == s.imageSize
    && (s.handler.Copying? || s.handler.Flushing? ==>
          h.seqNo == s.nextSeq && Want(h.size, h.seqNo) <= |h.payload| && s.handler.payload == Carried(h))
  }

  lemma LinkedStep(s: State, step: Step, crc: Bytes -> int, t: State, h: Heard)
    requires Moves(s, step, crc, t) && Linked(s, h)
    ensures Linked(t, Hear(h, step))
    ensures Hear(h, step).bytes == NowReceived(s, step, h.bytes)
  {
    if FlashStep(step) {
      hide Moves, Carried;
      FlashKeepsStream(s, step, crc, t);
    } else if WriterStep(step) {
      hide Moves, Carried;
      WriterKeepsStream(s, step, crc, t);
    } else {
      hide Want, Magic, Fill, Rounded, Take, Check, Release;
    }
  }

  /** How one step extends `received`, in terms of the handler. */
  ghost function NowReceived(s: State, step: Step, received: Bytes): Bytes {
    if step.BeginSession? then []
    else if step.DataDone? && s.handler.Copying? then received + s.handler.payload
    else received
  }

  ghost predicate AllCopied(stream: Bytes, received: Bytes, h: HandlerPc, phase: Phase, submitted: bool) {
    && ((h.Copying? || h.Flushing?) ==> h.copied <= |h.payload| && stream == received + h.payload[..h.copied])
    && (submitted || h.Sealing? || h.Submitting? || (h.Resting? && (phase.Ready? || phase.Receiving?)) ==> stream == received)
  }

  lemma CopiedSnoc(p: Bytes, a: nat, b: nat, received: Bytes)
    requires a <= b <= |p|
    ensures received + p[..a] + p[a..b] == received + p[..b]
  {
    assert p[..a] + p[a..b] == p[..b];
  }

  lemma ChunkCopied(s: State, step: Step, crc: Bytes -> int, t: State, received: Bytes)
    requires step.CopyChunk? || step.DataDone?
    requires Handling(s) && Moves(s, step, crc, t) && AllCopied(s.stream, received, s.handler, s.phase, s.submitted)
    ensures AllCopied(t.stream, NowReceived(s, step, received), t.handler, t.phase, t.submitted)
  {
    hide Want, More, Counted, Fill, Rounded;
    if step.CopyChunk? {
      CopiedSnoc(s.handler.payload, s.handler.copied, t.handler.copied, received);
    } else {
      assert s.handler.payload[..s.handler.copied] == s.handler.payload;
    }
  }

  lemma AllCopiedStep(s: State, step: Step, crc: Bytes -> int, t: State, received: Bytes)
    requires Handling(s) && Moves(s, step, crc, t) && AllCopied(s.stream, received, s.handler, s.phase, s.submitted)
    ensures AllCopied(t.stream, NowReceived(s, step, received), t.handler, t.phase, t.submitted)
  {
    if step.CopyChunk? || step.DataDone? {
      ChunkCopied(s, step, crc, t, received);
    } else if FlashStep(step) {
      hide Moves, Handling;
      FlashKeepsStream(s, step, crc, t);
    } else if WriterStep(step) {
      hide Moves, Handling;
      WriterKeepsStream(s, step, crc, t);
    } else {
      hide Want, More, Counted, Fill, Rounded, Take, Check, Copy, Release, Magic;
    }
  }

  predicate FlashStep(step: Step) {
    step.ErasePage? || step.ProgramByte? || step.FlashFails? || step.ReleaseSlot?
  }

  predicate WriterStep(step: Step) {
    step.WriterTake? || step.WriterStops? || step.CheckImage? || step.StartCopy?
  }

  lemma WriterKeepsStream(s: State, step: Step, crc: Bytes -> int, t: State)
    requires WriterStep(step) && Moves(s, step, crc, t)
    ensures t.stream == s.stream && t.handler == s.handler && t.submitted == s.submitted
    ensures t.imageSize == s.imageSize && t.nextSeq == s.nextSeq && t.bytesWritten == s.bytesWritten
    ensures t.phase == s.phase || (!t.phase.Ready? && !t.phase.Receiving?)
  {
    if step.WriterTake? {
      TakeKeepsStream(s);
      hide Take, InBounds;
    } else {
      hide Want, More, Counted, Fill, Rounded, Accept, Copy, Flush, Magic, Fail;
    }
  }

  lemma TakeKeepsStream(s: State)
    requires s.queue != []
    ensures var t := Take(s);
      && t.stream == s.stream && t.handler == s.handler && t.submitted == s.submitted && t.phase == s.phase
      && t.imageSize == s.imageSize && t.nextSeq == s.nextSeq && t.bytesWritten == s.bytesWritten
  {
  }

  lemma FlashKeepsStream(s: State, step: Step, crc: Bytes -> int, t: State)
    requires Moves(s, step, crc, t) && FlashStep(step)
    ensures t.stream == s.stream && t.handler == s.handler && t.submitted == s.submitted
    ensures t.imageSize == s.imageSize && t.nextSeq == s.nextSeq && t.bytesWritten == s.bytesWritten
    ensures t.phase == s.phase || (!t.phase.Ready? && !t.phase.Receiving?)
  {
    hide Want, More, Counted, Fill, Rounded, Accept, Copy, Flush, Magic, Fail;
  }

  lemma ReachableHandling(trace: seq<State>, steps: seq<Step>, crc: Bytes -> int, n: nat)
    requires Execution(trace, steps, crc) && n < |trace|
    ensures Handling(trace[n])
  {
    ReachableInv(trace, steps, crc, n);
    hide Handling;
  }

  lemma Moved(trace: seq<State>, steps: seq<Step>, crc: Bytes -> int, n: nat)
    requires Execution(trace, steps, crc) && n + 1 < |trace|
    ensures |trace| == |steps| + 1 && Moves(trace[n], steps[n], crc, trace[n + 1])
  {
  }

  lemma NothingReceived(trace: seq<State>, steps: seq<Step>, crc: Bytes -> int)
    requires Execution(trace, steps, crc)
    ensures |trace| == |steps| + 1
    ensures var s := trace[0]; AllCopied(s.stream, [], s.handler, s.phase, s.submitted) && Linked(s, HeardBy(steps, 0))
  {
  }

  /** Every byte copied towards flash came in a data report, in the order sent: the stream is what the completed
      reports carried, followed by the part of the latest report that has been copied. */
  lemma {:induction false} StreamIsReceived(trace: seq<State>, steps: seq<Step>, crc: Bytes -> int, n: nat)
    requires Execution(trace, steps, crc) && n < |trace|
    ensures var s := trace[n]; AllCopied(s.stream, Received(steps, n), s.handler, s.phase, s.submitted)
    ensures Linked(trace[n], HeardBy(steps, n))
  {
    hide AllCopied, Moves, Start, Handling, NowReceived, Linked, Hear, Execution;
    if n == 0 {
      NothingReceived(trace, steps, crc);
    } else {
      Moved(trace, steps, crc, n - 1);
      ReachableHandling(trace, steps, crc, n - 1);
      StreamIsReceived(trace, steps, crc, n - 1);
      AllCopiedStep(trace[n - 1], steps[n - 1], crc, trace[n], Received(steps, n - 1));
      LinkedStep(trace[n - 1], steps[n - 1], crc, trace[n], HeardBy(steps, n - 1));
    }
  }

  lemma QuietStaging(s: State, crc: Bytes -> int)
    requires Inv(s, crc) && s.writer.Checking? && !s.writerError
    ensures s.submitted && s.staging[..s.imageSize] == s.stream
  {
  }

  /** When VERIFY is processed and no flash operation has failed, staging is exactly what the host sent; VERIFY then
      succeeds exactly when the CRC is right, and otherwise ends in an error. */
  lemma VerifySeesWholeImage(trace: seq<State>, steps: seq<Step>, crc: Bytes -> int, n: nat)
    requires Execution(trace, steps, crc) && n < |steps| && steps[n].CheckImage?
    ensures var s := trace[n];
      && (!s.writerError ==> s.imageSize <= |s.staging| && s.staging[..s.imageSize] == Received(steps, n))
      && (trace[n + 1].verifyOk <==> !s.writerError && crc(Received(steps, n)) == s.imageCrc)
      && (!trace[n + 1].verifyOk ==> trace[n + 1].phase.Error?)
  {
    ReachableInv(trace, steps, crc, n);
    StreamIsReceived(trace, steps, crc, n);
    assert Moves(trace[n], steps[n], crc, trace[n + 1]);
    if !trace[n].writerError { QuietStaging(trace[n], crc); }
    hide Inv, Execution, Received, Linked;
  }

  /** Once verified, staging is frozen until the session ends. */
  lemma VerifiedFreezes(s: State, step: Step, crc: Bytes -> int, t: State)
    requires Inv(s, crc) && Moves(s, step, crc, t) && s.verifyOk && t.verifyOk
    ensures !step.ErasePage? && !step.ProgramByte? && !step.CheckImage? && !step.BeginSession?
    ensures t.staging == s.staging && t.imageSize == s.imageSize && t.imageCrc == s.imageCrc
  {
    hide Staged, PageOk, Progress, Ordered, Streamed, Handling, More, Want;
  }

  lemma OnlyCheckVerifies(s: State, step: Step, crc: Bytes -> int, t: State)
    requires Moves(s, step, crc, t) && !s.verifyOk && t.verifyOk
    ensures step.CheckImage? && t.staging == s.staging && t.imageSize == s.imageSize <= |s.staging|
    ensures t.imageCrc == crc(s.staging[..s.imageSize])
  {
    hide Want, Magic, Fill, Rounded;
  }

  /** VERIFY step `k` found the CRC of the whole image right, and staging was not touched up to `n`. */
  ghost predicate CheckedAt(trace: seq<State>, steps: seq<Step>, crc: Bytes -> int, k: nat, n: nat)
    requires n < |trace| == |steps| + 1
  {
    && k < n && steps[k].CheckImage? && trace[n].imageSize <= |trace[k].staging|
    && trace[k].staging == trace[n].staging && trace[n].imageCrc == crc(trace[k].staging[..trace[n].imageSize])
    && forall j :: k <= j < n ==> !steps[j].ErasePage? && !steps[j].ProgramByte?
  }

  lemma {:induction false} VerifiedByCheck(trace: seq<State>, steps: seq<Step>, crc: Bytes -> int, n: nat) returns (k: nat)
    requires Execution(trace, steps, crc) && n < |trace| && trace[n].verifyOk
    ensures CheckedAt(trace, steps, crc, k, n)
  {
    hide Inv, Moves, InBounds;
    assert n > 0;
    hide Start;
    var s := trace[n - 1];
    ReachableInv(trace, steps, crc, n - 1);
    assert Moves(s, steps[n - 1], crc, trace[n - 1 + 1]);
    if s.verifyOk {
      k := VerifiedByCheck(trace, steps, crc, n - 1);
      VerifiedFreezes(s, steps[n - 1], crc, trace[n]);
    } else {
      OnlyCheckVerifies(s, steps[n - 1], crc, trace[n]);
      k := n - 1;
    }
  }

  /**
   The copier is started only after a VERIFY that read back all `imageSize` staged bytes with the right
   CRC, with no flash step in between and no page request left.
   */
  lemma ActivationIsVerified(trace: seq<State>, steps: seq<Step>, crc: Bytes -> int, n: nat) returns (k: nat)
    requires Execution(trace, steps, crc) && n < |steps| && steps[n].StartCopy?
    ensures CheckedAt(trace, steps, crc, k, n)
    ensures Page(0) !in trace[n].queue && Page(1) !in trace[n].queue
    ensures var s := trace[n]; s.imageSize <= |s.staging| && s.staging[..s.imageSize] == Received(steps, n)
  {
    ReachableInv(trace, steps, crc, n);
    StreamIsReceived(trace, steps, crc, n);
    assert Moves(trace[n], steps[n], crc, trace[n + 1]);
    k := VerifiedByCheck(trace, steps, crc, n);
  }

  // ----- The host's image -----

  function Chunk(image: Bytes, q: nat): Bytes {
    if (q + 1) * MAX_PAYLOAD <= |image| then image[q * MAX_PAYLOAD..(q + 1) * MAX_PAYLOAD]
    else if q * MAX_PAYLOAD <= |image| then image[q * MAX_PAYLOAD..]
    else []
  }

  /** A data report with number `q` carries chunk `q` of the image, possibly padded. */
  predicate Genuine(image: Bytes, step: Step) {
    step.DataReport? && step.seqNo * MAX_PAYLOAD < |image| ==> Chunk(image, step.seqNo) <= step.payload
  }

  ghost predicate FromImage(image: Bytes, s: State, h: Heard) {
    && s.imageSize == |image| && s.bytesWritten <= |image| && h.bytes == image[..s.bytesWritten]
    && (s.handler.Copying? || s.handler.Flushing? ==> Chunk(image, h.seqNo) <= h.payload)
  }

  lemma ChunkIsNext(image: Bytes, s: State, h: Heard)
    requires Handling(s) && Linked(s, h) && FromImage(image, s, h) && s.handler.Copying?
    ensures s.bytesWritten + |Carried(h)| <= |image|
    ensures h.bytes + Carried(h) == image[..s.bytesWritten + |Carried(h)|]
  {
    assert s.bytesWritten == h.seqNo * MAX_PAYLOAD < |image|;
    assert |Chunk(image, h.seqNo)| == Want(|image|, h.seqNo);
    assert Carried(h) == Chunk(image, h.seqNo) == image[s.bytesWritten..s.bytesWritten + |Carried(h)|];
  }

  lemma FromImageStep(image: Bytes, s: State, step: Step, crc: Bytes -> int, t: State, h: Heard)
    requires Handling(s) && Linked(s, h) && Moves(s, step, crc, t) && Genuine(image, step)
    requires if step.BeginSession? then step.size == |image| else FromImage(image, s, h)
    ensures FromImage(image, t, Hear(h, step))
  {
    if step.DataDone? {
      ChunkIsNext(image, s, h);
      hide Want, Counted, More;
    } else if FlashStep(step) {
      hide Moves, Chunk, Handling, Linked;
      FlashKeepsStream(s, step, crc, t);
    } else if WriterStep(step) {
      hide Moves, Chunk, Handling, Linked;
      WriterKeepsStream(s, step, crc, t);
    } else {
      hide Handling, Want, Magic, Fill, Rounded, Chunk, Take, Check, Release;
    }
  }

  /** BEGIN at step `b` announced the image's size, and all reports from there on carry its chunks. */
  ghost predicate HostSends(image: Bytes, steps: seq<Step>, b: nat, n: nat) {
    && b < n <= |steps| && steps[b].BeginSession? && steps[b].size == |image|
    && forall k :: b < k < n ==> !steps[k].BeginSession? && Genuine(image, steps[k])
  }

  lemma {:induction false} HostImageArrives(image: Bytes, trace: seq<State>, steps: seq<Step>, crc: Bytes -> int, b: nat, n: nat)
    requires Execution(trace, steps, crc) && HostSends(image, steps, b, n)
    ensures FromImage(image, trace[n], HeardBy(steps, n))
  {
    hide Moves, Handling, Linked, FromImage, Hear, Genuine, Start;
    ReachableHandling(trace, steps, crc, n - 1);
    StreamIsReceived(trace, steps, crc, n - 1);
    assert Moves(trace[n - 1], steps[n - 1], crc, trace[n - 1 + 1]);
    if n - 1 > b { HostImageArrives(image, trace, steps, crc, b, n - 1); } else { BeginIsGenuine(image, steps[b]); }
    FromImageStep(image, trace[n - 1], steps[n - 1], crc, trace[n], HeardBy(steps, n - 1));
  }

  lemma BeginIsGenuine(image: Bytes, step: Step)
    requires step.BeginSession?
    ensures Genuine(image, step)
  {
  }

  /** End to end: whatever reports were repeated, lost, cut short or refused on the way, when the copier is started
      staging holds the host's image. */
  lemma HostImageIsStaged(image: Bytes, trace: seq<State>, steps: seq<Step>, crc: Bytes -> int, b: nat, n: nat)
    requires Execution(trace, steps, crc) && HostSends(image, steps, b, n) && n < |steps| && steps[n].StartCopy?
    ensures trace[n].imageSize == |image| <= |trace[n].staging| && trace[n].staging[..|image|] == image
    ensures Received(steps, n) == image
  {
    var _ := ActivationIsVerified(trace, steps, crc, n);
    HostImageArrives(image, trace, steps, crc, b, n);
    hide Execution, HostSends;
  }

  // ----- Errors -----

  /** What an error may go back to, in terms of the reports and of flash. */
  ghost predicate Cause(s: State, step: Step, received: Bytes, crc: Bytes -> int) {
    match step
    case SlotTimeout => true
    case FlushFails => true
    case SubmitTimeout => true
    case DataReport(seqNo, payload) =>
      s.writerError || |received| < seqNo * MAX_PAYLOAD || (received == [] && Magic(payload))
    case VerifyReport => |received| != s.imageSize
    case CheckImage => s.writerError || crc(received) != s.imageCrc
    case _ => false
  }

  lemma ErrorStep(s: State, step: Step, crc: Bytes -> int, t: State, received: Bytes)
    requires Handling(s) && Moves(s, step, crc, t) && AllCopied(s.stream, received, s.handler, s.phase, s.submitted)
    requires !s.phase.Error? && t.phase.Error? && !step.CheckImage?
    ensures Cause(s, step, received, crc)
  {
    hide Want, Fill, Rounded;
  }

  /** A session fails only for a cause: a wait that timed out, a flash error, a skipped or incompatible chunk, a
      VERIFY before all bytes are in, or a wrong CRC. In particular repeated and cut reports are harmless. */
  lemma ErrorHasCause(trace: seq<State>, steps: seq<Step>, crc: Bytes -> int, n: nat)
    requires Execution(trace, steps, crc) && n < |steps| && !trace[n].phase.Error? && trace[n + 1].phase.Error?
    ensures Cause(trace[n], steps[n], Received(steps, n), crc)
  {
    hide Moves, Handling, AllCopied, Received, Linked;
    if steps[n].CheckImage? {
      VerifySeesWholeImage(trace, steps, crc, n);
      FailedCheck(trace, steps, crc, n);
    } else {
      ReachableHandling(trace, steps, crc, n);
      StreamIsReceived(trace, steps, crc, n);
      assert Moves(trace[n], steps[n], crc, trace[n + 1]);
      ErrorStep(trace[n], steps[n], crc, trace[n + 1], Received(steps, n));
    }
  }

  lemma FailedCheck(trace: seq<State>, steps: seq<Step>, crc: Bytes -> int, n: nat)
    requires Execution(trace, steps, crc) && n < |steps| && steps[n].CheckImage?
    requires !trace[n].phase.Error? && trace[n + 1].phase.Error?
    ensures !trace[n + 1].verifyOk
  {
    assert Moves(trace[n], steps[n], crc, trace[n + 1]);
  }

  /** The causes that a report brings do end the session: a known flash error, a skipped chunk, an incompatible image, or a
      VERIFY before all bytes are in. */
  lemma BadReportFails(trace: seq<State>, steps: seq<Step>, crc: Bytes -> int, n: nat)
    requires Execution(trace, steps, crc) && n < |steps| && (trace[n].phase.Ready? || trace[n].phase.Receiving?)
    ensures steps[n].DataReport? && trace[n].writerError ==> trace[n + 1].phase.Error?
    ensures steps[n].DataReport? && |Received(steps, n)| < steps[n].seqNo * MAX_PAYLOAD < trace[n].imageSize ==> trace[n + 1].phase.Error?
    ensures (&& steps[n].DataReport? && Received(steps, n) == [] && steps[n].seqNo == 0 && 4 <= trace[n].imageSize
             && Want(trace[n].imageSize, 0) <= |steps[n].payload| && Magic(steps[n].payload)) ==> trace[n + 1].phase.Error?
    ensures steps[n].VerifyReport? && |Received(steps, n)| != trace[n].imageSize ==> trace[n + 1].phase.Error?
  {
    ReachableHandling(trace, steps, crc, n);
    StreamIsReceived(trace, steps, crc, n);
    Moved(trace, steps, crc, n);
    hide Execution, Received, Linked, Fill, Rounded;
  }

  /** VERIFY and ACTIVATE are passed on to the writer as soon as they may be. */
  lemma CommandsGoOn(trace: seq<State>, steps: seq<Step>, crc: Bytes -> int, n: nat)
    requires Execution(trace, steps, crc) && n < |steps|
    ensures steps[n].VerifyReport? && (trace[n].phase.Ready? || trace[n].phase.Receiving?) && |Received(steps, n)| == trace[n].imageSize ==>
      trace[n + 1].phase.Verifying? && trace[n + 1].handler == if trace[n].offset > 0 then Sealing else Submitting
    ensures steps[n].ActivateReport? ==>
      (trace[n + 1].handler.Launching? <==> trace[n].phase.Verifying? && trace[n].verifyOk)
    ensures steps[n].SubmitVerify? ==> trace[n + 1].queue == trace[n].queue + [Verify]
    ensures steps[n].SubmitActivate? ==> trace[n + 1].queue == trace[n].queue + [Activate]
  {
    ReachableHandling(trace, steps, crc, n);
    StreamIsReceived(trace, steps, crc, n);
    Moved(trace, steps, crc, n);
    hide Execution, Received, Linked, Fill, Rounded;
  }

  /** The chunk the session waits for is taken whenever it arrives whole. */
  lemma ExpectedChunkIsTaken(trace: seq<State>, steps: seq<Step>, crc: Bytes -> int, n: nat)
    requires Execution(trace, steps, crc) && n < |steps| && steps[n].DataReport?
    requires (trace[n].phase.Ready? || trace[n].phase.Receiving?) && !trace[n].writerError
    requires |Received(steps, n)| == steps[n].seqNo * MAX_PAYLOAD < trace[n].imageSize
    requires Want(trace[n].imageSize, steps[n].seqNo) <= |steps[n].payload|
    requires Received(steps, n) == [] ==> !Magic(steps[n].payload)
    ensures trace[n + 1].handler.Copying? && trace[n + 1].phase.Receiving?
  {
    ReachableHandling(trace, steps, crc, n);
    StreamIsReceived(trace, steps, crc, n);
    assert Moves(trace[n], steps[n], crc, trace[n + 1]);
    hide Execution, Received, Linked, Fill, Rounded;
    assert trace[n].nextSeq == steps[n].seqNo;
  }

  /** Only BEGIN clears a flash error. */
  lemma ErrorStepKeeps(s: State, step: Step, crc: Bytes -> int, t: State)
    requires Moves(s, step, crc, t) && (s.writerError || step.FlashFails?) && !step.BeginSession?
    ensures t.writerError
  {
    hide Want, Fill, Rounded, Magic;
  }

  lemma {:induction false} WriterErrorSticks(trace: seq<State>, steps: seq<Step>, crc: Bytes -> int, k: nat, n: nat)
    requires Execution(trace, steps, crc) && k < n < |trace| && steps[k].FlashFails?
    requires forall j :: k < j < n ==> !steps[j].BeginSession?
    ensures trace[n].writerError
  {
    hide Moves, Execution;
    Moved(trace, steps, crc, n - 1);
    if n - 1 > k { WriterErrorSticks(trace, steps, crc, k, n - 1); }
    ErrorStepKeeps(trace[n - 1], steps[n - 1], crc, trace[n]);
  }

  lemma StartIsClean(trace: seq<State>, steps: seq<Step>, crc: Bytes -> int, n: nat)
    requires Execution(trace, steps, crc) && n < |steps| && steps[n].StartCopy?
    ensures !trace[n].writerError
  {
    ReachableInv(trace, steps, crc, n);
    assert Moves(trace[n], steps[n], crc, trace[n + 1]);
  }

  /** After a failed flash operation nothing is activated until another BEGIN. */
  lemma FlashErrorBlocksActivation(trace: seq<State>, steps: seq<Step>, crc: Bytes -> int, k: nat, n: nat)
    requires Execution(trace, steps, crc) && k < n < |steps| && steps[k].FlashFails? && steps[n].StartCopy?
    ensures exists j :: k < j < n && steps[j].BeginSession?
  {
    if forall j :: k < j < n ==> !steps[j].BeginSession? {
      StartIsClean(trace, steps, crc, n);
      WriterErrorSticks(trace, steps, crc, k, n);
    }
  }
}
