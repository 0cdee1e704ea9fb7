/**
 Automatic channel diagnosis: loss, survey, trial move, recovery, re-check, and the interference latch.

 The worker's wake and its evidence sample are separate steps, so that the user's on/off command and the
 migration's completion may come between them.
 */
module AutoDiagnosis {
  import opened AutoLoss

  const COOLDOWN := 120000

  datatype Phase = Monitor | Scanning | WaitCommit | WaitRecovery | Postcheck

  datatype Outcome = Nothing | Finished(token: nat, oldHome: nat, newHome: nat, success: bool)

  /** `token` and `home` are what the worker read when it woke up. */
  datatype State = State(
    enabled: bool,
    generation: nat,
    latched: bool,
    fault: bool,
    mailbox: Outcome,
    phase: Phase,
    token: nat,
    home: nat,
    observedHome: nat,
    observedGeneration: nat,
    requestedHome: nat,
    requestedTarget: nat,
    mask: set<nat>,
    recovery: Snapshot,
    scanBaseline: Snapshot,
    window: Window,
    qualified: bool,
    cooldown: int)

  datatype Step =
    | SetEnabled(value: bool)
    | Complete(token: nat, oldHome: nat, newHome: nat, success: bool)
    | Fault
    | Wake(now: int, home: nat, snapshot: Snapshot)
    | Sampling(now: int, snapshot: Snapshot, rebased: Snapshot, missed: bool)
    | Interrupt
    | StartSweep
    | Decide(target: nat, accepted: bool)

  predicate Initial(s: State) {
    && !s.enabled && !s.latched && !s.qualified && s.mailbox.Nothing? && s.phase.Monitor? && !s.window.valid && s.window.stamps == []
    && s.token == s.observedGeneration <= s.generation && Sized(s.recovery) && Sized(s.scanBaseline)
  }

  predicate Current(s: State) { s.enabled && !s.latched && !s.fault && s.generation == s.token }

  function Invalid(s: State): State { s.(window := s.window.(valid := false)) }

  /** The pending completion is this worker's own trial move, carried out in this enable generation. */
  predicate Commits(s: State, home: nat) {
    && s.mailbox.Finished? && s.phase.WaitCommit? && s.mailbox.token == s.generation == s.observedGeneration
    && s.mailbox.oldHome == s.requestedHome && s.mailbox.newHome == s.requestedTarget && s.mailbox.success
    && home == s.mailbox.newHome
  }

  /** Waking up: a changed home channel or enable generation makes everything measured so far worthless. */
  function Noticed(s: State, home: nat): State {
    var t := s.(mailbox := Nothing, token := s.generation, home := home, qualified := false);
    if home != s.observedHome || s.generation != s.observedGeneration then
      Invalid(t.(phase := if Commits(s, home) then t.phase else Monitor, cooldown := 0, observedHome := home, observedGeneration := s.generation))
    else t
  }

  /** The completion in the mailbox answers this worker's request. */
  predicate Answers(result: Outcome, s: State) {
    && result.Finished? && s.phase.WaitCommit? && result.token == s.generation && result.oldHome == s.requestedHome
    && (!result.success || result.newHome == s.requestedTarget)
  }

  function Settled(s: State, result: Outcome, committed: bool, now: int, snapshot: Snapshot): State {
    if !Answers(result, s) then s
    else if committed
    then s.(phase := WaitRecovery, recovery := snapshot, window := Baseline(snapshot, now, false), cooldown := now + COOLDOWN)
    else Invalid(s.(phase := Monitor))
  }

  function Awake(s: State, now: int, home: nat, snapshot: Snapshot): State {
    Settled(Noticed(s, home), s.mailbox, Commits(s, home), now, snapshot)
  }

  /** All original participants are there, ready, and in a stable layout. */
  predicate Present(s: Snapshot, mask: set<nat>) {
    s.eligible && !s.capPending && mask <= s.active && mask <= s.ready
  }

  function Recover(s: State, now: int, snapshot: Snapshot, rebased: Snapshot): State
    requires Sized(snapshot) && Sized(s.recovery) && s.window.stamps != []
  {
    if s.mask == {} || !Present(snapshot, s.mask) || Broken(s.recovery, snapshot) || now - Ago(s.window, 0).time > EVIDENCE_MS + JITTER
    then s.(recovery := snapshot, window := Baseline(snapshot, now, false))
    else
      s.(recovery := rebased, window := Baseline(rebased, now, false), phase := if Present(rebased, s.mask) then Postcheck else WaitRecovery)
  }

  /** A new baseline is fenced for every tracker at once. */
  function Fenced(w: Window, rebased: Snapshot, now: int): Window {
    if |w.stamps| == 1 then w.(stamps := [Stamp(rebased, now)]) else w
  }

  /** The conclusion a phase draws from a loss window's verdict. */
  function Concluded(s: State, evidence: Evidence, now: int): State {
    var t := s.(qualified := false);
    if s.phase.Postcheck? then
      match evidence
      case Lossy => Invalid(t.(latched := t.latched || Current(t)))
      case Clean => t.(phase := Monitor)
      case Unknown => t
    else if s.phase.Monitor? then t.(qualified := evidence.Lossy? && now >= s.cooldown)
    else t
  }

  function Look(s: State, now: int, snapshot: Snapshot, rebased: Snapshot): State
    requires Inv(s.window) && Sized(snapshot)
  {
    var (w, evidence) := Sample(s.window, snapshot, now);
    Concluded(s.(window := Fenced(w, rebased, now)), evidence, now)
  }

  /** During the re-check a participant that is missing again sends the trial back to waiting. */
  function Rechecked(s: State, now: int, snapshot: Snapshot, rebased: Snapshot): State
    requires Inv(s.window) && Sized(snapshot) && s.window.stamps != []
  {
    if !Present(snapshot, s.mask) || Broken(Ago(s.window, 0).snapshot, snapshot)
    then s.(phase := WaitRecovery, recovery := snapshot, window := Baseline(snapshot, now, false))
    else Look(s, now, snapshot, rebased)
  }

  function Sampled(s: State, now: int, snapshot: Snapshot, rebased: Snapshot, missed: bool): State
    requires Inv(s.window) && Sized(snapshot) && Sized(s.recovery) && Sized(s.scanBaseline)
    requires s.phase.WaitRecovery? || s.phase.Postcheck? ==> s.window.stamps != []
  {
    var t := Prepared(s, snapshot, missed);
    match s.phase
    case WaitRecovery => Recover(t, now, snapshot, rebased)
    case Scanning =>
      if !snapshot.eligible || snapshot.capPending || Broken(s.scanBaseline, snapshot) then Invalid(t.(phase := Monitor)) else t
    case Postcheck => Rechecked(t, now, snapshot, rebased)
    case Monitor => Look(t, now, snapshot, rebased)
    case WaitCommit => t
  }

  ghost predicate Valid(s: State) {
    && AutoLoss.Inv(s.window) && Sized(s.recovery) && Sized(s.scanBaseline) && s.token == s.observedGeneration <= s.generation
    && (s.phase.WaitRecovery? || s.phase.Postcheck? ==> s.window.stamps != [])
  }

  ghost predicate Enabled(s: State, step: Step) {
    Valid(s) && match step
    case Wake(_, _, snapshot) => Sized(snapshot)
    case Sampling(_, snapshot, rebased, _) => Sized(snapshot) && Sized(rebased)
    case StartSweep => s.phase.Monitor? && s.qualified && !s.latched && s.window.stamps != []
    case Decide(_, _) => s.phase.Scanning?
    case _ => true
  }

  function Do(s: State, step: Step): State
    requires Enabled(s, step)
  {
    match step
    case SetEnabled(value) => s.(enabled := value, generation := s.generation + 1, latched := s.latched && !value)
    case Complete(token, oldHome, newHome, success) =>
      if token == s.generation then s.(mailbox := Finished(token, oldHome, newHome, success)) else s
    case Fault => s.(fault := true)
    case Wake(now, home, snapshot) => Awake(s, now, home, snapshot)
    case Sampling(now, snapshot, rebased, missed) => Sampled(s, now, snapshot, rebased, missed)
    case Interrupt => Invalid(s.(phase := if s.phase.Scanning? then Monitor else s.phase, qualified := false))
    case StartSweep => s.(phase := Scanning, mask := Ago(s.window, 0).snapshot.active, scanBaseline := Ago(s.window, 0).snapshot,
                         qualified := false)
    case Decide(target, accepted) =>
      Invalid(s.(phase := if accepted then WaitCommit else Monitor, requestedHome := s.home, requestedTarget := target, qualified := false))
  }

  // ----- Every step keeps the shape -----

  lemma InvalidValid(s: State)
    requires AutoLoss.Inv(s.window)
    ensures AutoLoss.Inv(Invalid(s).window) && Invalid(s).window.stamps == s.window.stamps
  {
  }

  lemma BaselineInv(s: Snapshot, now: int, resuming: bool)
    requires Sized(s)
    ensures AutoLoss.Inv(Baseline(s, now, resuming))
  {
  }

  lemma FencedInv(w: Window, rebased: Snapshot, now: int)
    requires AutoLoss.Inv(w) && Sized(rebased)
    ensures AutoLoss.Inv(Fenced(w, rebased, now)) && (w.stamps != [] ==> Fenced(w, rebased, now).stamps != [])
  {
  }

  lemma LookValid(s: State, now: int, snapshot: Snapshot, rebased: Snapshot)
    requires AutoLoss.Inv(s.window) && Sized(snapshot) && Sized(rebased)
    ensures var t := Look(s, now, snapshot, rebased); AutoLoss.Inv(t.window) && t.window.stamps != []
  {
    SampleInv(s.window, snapshot, now);
    var (w, evidence) := Sample(s.window, snapshot, now);
    FencedInv(w, rebased, now);
    InvalidValid(s.(window := Fenced(w, rebased, now)));
    hide AutoLoss.Inv, Sample, Fenced;
  }

  lemma NoticedValid(s: State, home: nat)
    requires Valid(s)
    ensures Valid(Noticed(s, home))
  {
    InvalidValid(s);
    hide AutoLoss.Inv, Sized;
  }

  lemma AwakeValid(s: State, now: int, home: nat, snapshot: Snapshot)
    requires Valid(s) && Sized(snapshot)
    ensures Valid(Awake(s, now, home, snapshot))
  {
    NoticedValid(s, home);
    InvalidValid(Noticed(s, home));
    BaselineInv(snapshot, now, false);
    hide AutoLoss.Inv, Sized, Noticed, Answers, Commits, Baseline;
  }

  function Prepared(s: State, snapshot: Snapshot, missed: bool): State {
    if missed then Invalid(s.(recovery := if s.phase.WaitRecovery? then snapshot else s.recovery)) else s
  }

  lemma PreparedFrame(s: State, snapshot: Snapshot, missed: bool)
    requires Valid(s) && Sized(snapshot)
    ensures var t := Prepared(s, snapshot, missed);
      Valid(t) && t == s.(recovery := t.recovery, window := t.window) && t.window.stamps == s.window.stamps
  {
    InvalidValid(s);
    hide AutoLoss.Inv, Sized;
  }

  lemma RecoverValid(s: State, now: int, snapshot: Snapshot, rebased: Snapshot)
    requires Valid(s) && Sized(snapshot) && Sized(rebased) && s.window.stamps != []
    ensures Valid(Recover(s, now, snapshot, rebased))
  {
    BaselineInv(snapshot, now, false);
    BaselineInv(rebased, now, false);
    hide AutoLoss.Inv, Broken, Present, Sized;
  }

  lemma SampledValid(s: State, now: int, snapshot: Snapshot, rebased: Snapshot, missed: bool)
    requires Valid(s) && Sized(snapshot) && Sized(rebased)
    ensures Valid(Sampled(s, now, snapshot, rebased, missed))
  {
    var t := Prepared(s, snapshot, missed);
    PreparedFrame(s, snapshot, missed);
    InvalidValid(t);
    BaselineInv(snapshot, now, false);
    LookValid(t, now, snapshot, rebased);
    LookFrame(t, now, snapshot, rebased);
    if s.phase.WaitRecovery? { RecoverValid(t, now, snapshot, rebased); }
    hide AutoLoss.Inv, Look, Broken, Present, Sized, Recover;
  }

  lemma StepValid(s: State, step: Step)
    requires Enabled(s, step)
    ensures Valid(Do(s, step))
  {
    match step
    case Wake(now, home, snapshot) => AwakeValid(s, now, home, snapshot); hide Awake;
    case Sampling(now, snapshot, rebased, missed) => SampledValid(s, now, snapshot, rebased, missed); hide Sampled;
    case _ => InvalidValid(s); AgoSized(s.window); hide AutoLoss.Inv, Sized;
  }

  lemma AgoSized(w: Window)
    requires AutoLoss.Inv(w)
    ensures w.stamps != [] ==> Sized(Ago(w, 0).snapshot)
  {
  }

  /** What looking at the evidence can change. */
  lemma LookFrame(s: State, now: int, snapshot: Snapshot, rebased: Snapshot)
    requires AutoLoss.Inv(s.window) && Sized(snapshot)
    ensures var t := Look(s, now, snapshot, rebased);
      && t == s.(window := t.window, qualified := t.qualified, latched := t.latched, phase := t.phase)
      && (t.phase == s.phase || t.phase.Monitor?)
      && (t.latched && !s.latched ==> s.phase.Postcheck? && Current(s) && Sample(s.window, snapshot, now).1.Lossy?)
  {
    hide AutoLoss.Inv, Sample, Fenced, Sized;
  }

  // ----- Whole runs -----

  ghost predicate Moves(s: State, step: Step, t: State) { Enabled(s, step) && t == Do(s, step) }

  ghost predicate Execution(trace: seq<State>, steps: seq<Step>) {
    && |trace| == |steps| + 1 && Initial(trace[0])
    && forall k :: 0 <= k < |steps| ==> Moves(trace[k], steps[k], trace[k + 1])
  }

  predicate Timed(step: Step) { step.Wake? || step.Sampling? }

  ghost predicate Before(a: Step, b: Step) { Timed(a) && Timed(b) ==> a.now <= b.now }

  /** The clock never runs backwards. */
  ghost predicate Ordered(steps: seq<Step>) { forall j, k :: 0 <= j < k < |steps| ==> Before(steps[j], steps[k]) }

  predicate Trial(phase: Phase) { phase.WaitRecovery? || phase.Postcheck? }

  /** The trial goes on under the same enable generation with the same participants. */
  ghost predicate Continues(s: State, t: State) {
    t.observedGeneration == s.observedGeneration && t.mask == s.mask && t.requestedTarget == s.requestedTarget
  }

  predicate CommitStep(s: State, step: Step, t: State) {
    step.Wake? && Commits(s, step.home) && t.observedGeneration == s.generation && step.home == t.requestedTarget
  }

  /** The step that sees all participants back and rebases every counter. */
  predicate RecoveryStep(s: State, step: Step, t: State) {
    && step.Sampling? && s.phase.WaitRecovery? && t.phase.Postcheck? && s.mask != {}
    && Present(step.snapshot, s.mask) && Present(step.rebased, s.mask) && t.window.stamps == [Stamp(step.rebased, step.now)]
  }

  lemma SampledTrial(s: State, now: int, snapshot: Snapshot, rebased: Snapshot, missed: bool)
    requires Valid(s) && Sized(snapshot) && Sized(rebased)
    ensures var t := Sampled(s, now, snapshot, rebased, missed);
      && (Trial(t.phase) ==> Trial(s.phase) && Continues(s, t))
      && (t.phase.Postcheck? && !s.phase.Postcheck? ==> RecoveryStep(s, Sampling(now, snapshot, rebased, missed), t))
      && (t.latched && !s.latched ==> s.phase.Postcheck? && Current(s) && Sample(Prepared(s, snapshot, missed).window, snapshot, now).1.Lossy?)
  {
    var u := Prepared(s, snapshot, missed);
    PreparedFrame(s, snapshot, missed);
    LookFrame(u, now, snapshot, rebased);
    if s.phase.WaitRecovery? { RecoverFrame(u, now, snapshot, rebased); }
    hide AutoLoss.Inv, Look, Broken, Present, Sized, Sample, Prepared, Recover;
  }

  lemma RecoverFrame(s: State, now: int, snapshot: Snapshot, rebased: Snapshot)
    requires Valid(s) && Sized(snapshot) && s.window.stamps != [] && s.phase.WaitRecovery?
    ensures var t := Recover(s, now, snapshot, rebased);
      && Trial(t.phase) && Continues(s, t) && t.latched == s.latched
      && (t.phase.Postcheck? ==>
            s.mask != {} && Present(snapshot, s.mask) && Present(rebased, s.mask) && t.window.stamps == [Stamp(rebased, now)])
  {
    hide AutoLoss.Inv, Broken, Present, Sized;
  }

  lemma MoveTrial(s: State, step: Step, t: State)
    requires Moves(s, step, t)
    ensures Trial(t.phase) ==> (Trial(s.phase) && Continues(s, t)) || CommitStep(s, step, t)
    ensures t.phase.Postcheck? && !s.phase.Postcheck? ==> Trial(s.phase) && RecoveryStep(s, step, t)
  {
    match step
    case Sampling(now, snapshot, rebased, missed) =>
      SampledTrial(s, now, snapshot, rebased, missed);
      hide Sampled, AutoLoss.Inv, Sized, Sample, RecoveryStep, Prepared;
    case Wake(now, home, snapshot) =>
      WakeTrial(s, now, home, snapshot);
      hide Awake, AutoLoss.Inv, Sized;
    case _ => hide AutoLoss.Inv, Sized;
  }

  lemma WakeTrial(s: State, now: int, home: nat, snapshot: Snapshot)
    ensures var t := Awake(s, now, home, snapshot);
      && (Trial(t.phase) ==> (Trial(s.phase) && Continues(s, t)) || CommitStep(s, Wake(now, home, snapshot), t))
      && (t.phase.Postcheck? ==> s.phase.Postcheck?) && t.latched == s.latched
      && (s.phase.Postcheck? && t.phase.Postcheck? ==> t.window.stamps == s.window.stamps)
  {
  }

  /** Step `a` committed the trial move of the current generation, and the trial has gone on since. */
  ghost predicate CommittedAt(trace: seq<State>, steps: seq<Step>, a: nat, n: nat)
    requires n < |trace| == |steps| + 1
  {
    && a < n && CommitStep(trace[a], steps[a], trace[a + 1])
    && forall k :: a < k <= n ==> Trial(trace[k].phase) && Continues(trace[k], trace[n])
  }

  lemma {:induction false} TrialWasCommitted(trace: seq<State>, steps: seq<Step>, n: nat) returns (a: nat)
    requires Execution(trace, steps) && n < |trace| && Trial(trace[n].phase)
    ensures CommittedAt(trace, steps, a, n)
  {
    assert n > 0;
    assert Moves(trace[n - 1], steps[n - 1], trace[n - 1 + 1]);
    MoveTrial(trace[n - 1], steps[n - 1], trace[n]);
    hide Moves, CommitStep;
    if Trial(trace[n - 1].phase) && Continues(trace[n - 1], trace[n]) {
      a := TrialWasCommitted(trace, steps, n - 1);
    } else {
      a := n - 1;
    }
  }

  /** Step `b` saw all participants recovered, and the re-check has gone on since, on later evidence only. */
  ghost predicate RecoveredAt(trace: seq<State>, steps: seq<Step>, b: nat, n: nat)
    requires n < |trace| == |steps| + 1
  {
    && b < n && RecoveryStep(trace[b], steps[b], trace[b + 1])
    && (forall k :: b < k <= n ==> trace[k].phase.Postcheck?)
    && Since(trace[n].window, steps[b].now)
  }

  ghost predicate Since(w: Window, time: int) { forall k :: 0 <= k < |w.stamps| ==> w.stamps[k].time >= time }

  lemma SampleSince(w: Window, s: Snapshot, now: int, rebased: Snapshot, time: int)
    requires AutoLoss.Inv(w) && Sized(s) && Since(w, time) && time <= now
    ensures Since(Fenced(Sample(w, s, now).0, rebased, now), time)
  {
    hide Broken, Received, Gaps, AllHeard, Linked, Sized;
  }

  lemma LookSince(s: State, now: int, snapshot: Snapshot, rebased: Snapshot, time: int)
    requires AutoLoss.Inv(s.window) && Sized(snapshot) && Since(s.window, time) && time <= now
    ensures Since(Look(s, now, snapshot, rebased).window, time)
  {
    SampleSince(s.window, snapshot, now, rebased, time);
    hide AutoLoss.Inv, Sized, Sample, Fenced;
  }

  lemma MoveSince(s: State, step: Step, t: State, time: int)
    requires Moves(s, step, t) && Since(s.window, time) && (Timed(step) ==> time <= step.now)
    requires s.phase.Postcheck? && t.phase.Postcheck?
    ensures Since(t.window, time)
  {
    match step
    case Sampling(now, snapshot, rebased, missed) =>
      var u := Prepared(s, snapshot, missed);
      PreparedFrame(s, snapshot, missed);
      LookSince(u, now, snapshot, rebased, time);
      hide AutoLoss.Inv, Broken, Present, Sized, Look, Prepared;
    case Wake(now, home, snapshot) =>
      WakeTrial(s, now, home, snapshot);
      hide Awake, AutoLoss.Inv, Sized;
    case _ => hide AutoLoss.Inv, Sized;
  }

  lemma {:induction false} PostcheckWasRecovered(trace: seq<State>, steps: seq<Step>, n: nat) returns (b: nat)
    requires Execution(trace, steps) && Ordered(steps) && n < |trace| && trace[n].phase.Postcheck?
    ensures RecoveredAt(trace, steps, b, n)
  {
    assert n > 0;
    var s, step := trace[n - 1], steps[n - 1];
    assert Moves(s, step, trace[n - 1 + 1]);
    MoveTrial(s, step, trace[n]);
    if s.phase.Postcheck? {
      b := PostcheckWasRecovered(trace, steps, n - 1);
      assert Before(steps[b], step);
      hide Moves, Since;
      MoveSince(s, step, trace[n], steps[b].now);
    } else {
      b := n - 1;
    }
  }

  /** The step that switches automatic actions off. */
  ghost predicate Latches(s: State, step: Step, t: State) { Moves(s, step, t) && !s.latched && t.latched }

  lemma LatchFacts(s: State, step: Step, t: State)
    requires Latches(s, step, t)
    ensures step.Sampling? && s.phase.Postcheck? && s.generation == s.observedGeneration
    ensures Valid(s) && Sized(step.snapshot) && AutoLoss.Inv(Prepared(s, step.snapshot, step.missed).window)
    ensures Prepared(s, step.snapshot, step.missed).window.stamps == s.window.stamps
    ensures Sample(Prepared(s, step.snapshot, step.missed).window, step.snapshot, step.now).1.Lossy?
  {
    match step
    case Sampling(now, snapshot, rebased, missed) =>
      SampledTrial(s, now, snapshot, rebased, missed);
      PreparedFrame(s, snapshot, missed);
      hide Sampled, AutoLoss.Inv, Sized, Sample, Prepared, RecoveryStep;
    case Wake(now, home, snapshot) =>
      WakeTrial(s, now, home, snapshot);
      hide Awake, AutoLoss.Inv, Sized;
    case _ => hide AutoLoss.Inv, Sized;
  }

  /**
   From a snapshot taken no earlier than `since` to this one: 10.0 to 10.5 s without a discontinuity, every active
   tracker heard, at least a hundred samples, and more than a fifth of them gaps.
   */
  ghost predicate StillLossy(w: Window, snapshot: Snapshot, now: int, since: int) {
    && |w.stamps| >= SLOTS
    && var st := w.stamps[|w.stamps| - SLOTS];
       && st.time >= since && WINDOW_MS <= now - st.time <= WINDOW_MS + JITTER
       && Sized(st.snapshot) && Sized(snapshot) && !Broken(st.snapshot, snapshot) && AllHeard(st.snapshot, snapshot)
       && var received := Received(snapshot, TRACKERS) - Received(st.snapshot, TRACKERS);
          var gaps := Gaps(snapshot, TRACKERS) - Gaps(st.snapshot, TRACKERS);
          received + gaps >= MIN_SAMPLES && gaps * 5 > received + gaps
  }

  /**
   The interference latch closes only if, in the enable generation still current, a trial move was committed
   at step `a`, all its original participants were back at a later step `b`, and a window of at least ten
   seconds that began after `b` still lost more than a fifth.
   */
  lemma LatchNeedsTrial(trace: seq<State>, steps: seq<Step>, n: nat) returns (a: nat, b: nat)
    requires Execution(trace, steps) && Ordered(steps) && n < |steps| && Latches(trace[n], steps[n], trace[n + 1])
    ensures CommittedAt(trace, steps, a, n) && trace[a].generation == trace[n].generation
    ensures RecoveredAt(trace, steps, b, n) && a < b && trace[b].mask == trace[n].mask
    ensures steps[n].Sampling? && StillLossy(trace[n].window, steps[n].snapshot, steps[n].now, steps[b].now)
  {
    var s, step := trace[n], steps[n];
    LatchFacts(s, step, trace[n + 1]);
    a := TrialWasCommitted(trace, steps, n);
    b := PostcheckWasRecovered(trace, steps, n);
    LossyMeans(Prepared(s, step.snapshot, step.missed).window, step.snapshot, step.now);
    hide Prepared, AutoLoss.Inv, Sized, Sample, Broken, AllHeard, Received, Gaps;
    RecoveryAfterCommit(trace, steps, a, b, n);
  }

  lemma RecoveryAfterCommit(trace: seq<State>, steps: seq<Step>, a: nat, b: nat, n: nat)
    requires n < |trace| == |steps| + 1 && CommittedAt(trace, steps, a, n) && RecoveredAt(trace, steps, b, n)
    requires CommitStep(trace[a], steps[a], trace[a + 1])
    ensures a < b && Continues(trace[b], trace[n])
  {
  }
}
