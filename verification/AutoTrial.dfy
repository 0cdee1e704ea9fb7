/**
 Where a trial move comes from, and what the interference latch stops: a lossy window after the cooldown starts
 a survey, the survey's decision requests a move, and once latched nothing is started before the user's command.
 */
module AutoTrial {
  import opened AutoLoss
  import opened AutoDiagnosis

  lemma Moved(trace: seq<State>, steps: seq<Step>, n: nat)
    requires Execution(trace, steps) && n + 1 < |trace|
    ensures |trace| == |steps| + 1 && Moves(trace[n], steps[n], trace[n + 1])
  {
  }

  lemma AtFirst(trace: seq<State>, steps: seq<Step>)
    requires Execution(trace, steps)
    ensures |trace| == |steps| + 1 && Initial(trace[0])
  {
  }

  /** What a wake can change. */
  lemma AwakeFrame(s: State, now: int, home: nat, snapshot: Snapshot)
    ensures var t := Awake(s, now, home, snapshot);
      && t.mask == s.mask && t.requestedHome == s.requestedHome && t.requestedTarget == s.requestedTarget && t.latched == s.latched
      && t.enabled == s.enabled && t.fault == s.fault && t.generation == s.generation
      && (t.phase == s.phase || t.phase.Monitor? || t.phase.WaitRecovery?)
  {
    hide Commits, Answers;
  }

  /** Request, participants, cooldown and observed terms are kept, and no survey or request begins. */
  ghost predicate Keeps(s: State, t: State) {
    && t.mask == s.mask && t.requestedHome == s.requestedHome && t.requestedTarget == s.requestedTarget
    && t.cooldown == s.cooldown && t.observedHome == s.observedHome && t.observedGeneration == s.observedGeneration
    && t.enabled == s.enabled && t.fault == s.fault && t.generation == s.generation
    && (t.phase == s.phase || t.phase.Monitor? || t.phase.WaitRecovery? || t.phase.Postcheck?)
    && (s.latched ==> t.latched)
  }

  /** What an evidence sample can change. */
  lemma SampledFrame(s: State, now: int, snapshot: Snapshot, rebased: Snapshot, missed: bool)
    requires Valid(s) && Sized(snapshot)
    ensures Keeps(s, Sampled(s, now, snapshot, rebased, missed))
  {
    hide Look, Rechecked, Recover, Sized, AutoLoss.Inv, Broken, Prepared;
    var u := Prepared(s, snapshot, missed);
    PreparedFrame(s, snapshot, missed);
    match s.phase
    case WaitRecovery => RecoverKeeps(u, now, snapshot, rebased);
    case Postcheck => RecheckedKeeps(u, now, snapshot, rebased);
    case Monitor => LookKeeps(u, now, snapshot, rebased);
    case Scanning =>
    case WaitCommit =>
  }

  lemma LookKeeps(s: State, now: int, snapshot: Snapshot, rebased: Snapshot)
    requires AutoLoss.Inv(s.window) && Sized(snapshot)
    ensures Keeps(s, Look(s, now, snapshot, rebased))
  {
    LookFrame(s, now, snapshot, rebased);
    if s.latched { LookKeepsLatch(s, now, snapshot, rebased); }
    hide Look, AutoLoss.Inv, Sized, Current, Sample;
  }

  lemma RecheckedKeeps(s: State, now: int, snapshot: Snapshot, rebased: Snapshot)
    requires AutoLoss.Inv(s.window) && Sized(snapshot) && s.window.stamps != []
    ensures Keeps(s, Rechecked(s, now, snapshot, rebased))
  {
    LookKeeps(s, now, snapshot, rebased);
    hide Look, Sized, Broken, Present;
  }

  lemma RecoverKeeps(s: State, now: int, snapshot: Snapshot, rebased: Snapshot)
    requires Sized(snapshot) && Sized(s.recovery) && s.window.stamps != []
    ensures Keeps(s, Recover(s, now, snapshot, rebased))
  {
    hide Broken, Present, Sized;
  }

  lemma LookKeepsLatch(s: State, now: int, snapshot: Snapshot, rebased: Snapshot)
    requires AutoLoss.Inv(s.window) && Sized(snapshot) && s.latched
    ensures Look(s, now, snapshot, rebased).latched
  {
    hide AutoLoss.Inv, Sample, Sized, Fenced;
  }

  // ----- A survey needs a lossy window after the cooldown -----

  /** The worker, monitoring, finds more than a fifth lost over ten seconds, and its cooldown is over. */
  ghost predicate FindsLoss(s: State, step: Step) {
    && step.Sampling? && s.phase.Monitor? && !step.missed && Valid(s) && Sized(step.snapshot)
    && Judgeable(s.window, step.snapshot, step.now) && FifthLost(s.window, step.snapshot) && step.now >= s.cooldown
  }

  lemma LookQualifies(s: State, now: int, snapshot: Snapshot, rebased: Snapshot)
    requires AutoLoss.Inv(s.window) && Sized(snapshot) && s.phase.Monitor?
    ensures var t := Look(s, now, snapshot, rebased);
      && t.phase.Monitor?
      && (t.qualified <==> Judgeable(s.window, snapshot, now) && FifthLost(s.window, snapshot) && now >= s.cooldown)
      && (t.qualified ==> |t.window.stamps| > SLOTS && Ago(t.window, 0) == Stamp(snapshot, now))
  {
    VerdictIff(s.window, snapshot, now);
    if Sample(s.window, snapshot, now).1.Lossy? { LossyKeepsStamps(s.window, snapshot, now); }
    hide AutoLoss.Inv, Sample, Sized, Judgeable, FifthLost;
  }

  lemma LossyKeepsStamps(w: Window, s: Snapshot, now: int)
    requires AutoLoss.Inv(w) && Sized(s) && Sample(w, s, now).1.Lossy?
    ensures Sample(w, s, now).0.stamps == w.stamps + [Stamp(s, now)] && |w.stamps| >= SLOTS
  {
    hide Broken, Received, Gaps, AllHeard, AutoLoss.Inv, Sized;
  }

  lemma NotValidNotJudged(w: Window, s: Snapshot, now: int)
    requires AutoLoss.Inv(w) && Sized(s) && !w.valid
    ensures !Judgeable(w, s, now)
  {
  }

  /** The worker is qualified to start a survey exactly by such a sample, and remains so only until it does anything else. */
  lemma QualifiedStep(s: State, step: Step, t: State)
    requires Moves(s, step, t) && (s.qualified ==> s.phase.Monitor?)
    ensures t.qualified ==> t.phase.Monitor?
    ensures t.qualified <==> FindsLoss(s, step) || (s.qualified && (step.SetEnabled? || step.Complete? || step.Fault?))
    ensures t.qualified && FindsLoss(s, step) ==> t.window.stamps != [] && Ago(t.window, 0) == Stamp(step.snapshot, step.now)
    ensures t.qualified && !FindsLoss(s, step) ==> t.window == s.window
  {
    FindsBySampling(s, step);
    if step.Sampling? {
      if s.phase.Monitor? { SampledQualifies(s, step, t); } else { SampledUnqualified(s, step, t); }
      hide Moves, Judgeable, FifthLost, Valid, Sized;
    } else if step.Wake? {
      AwakeUnqualified(s, step.now, step.home, step.snapshot);
      hide Awake, FindsLoss, Valid, Sized;
    } else {
      hide FindsLoss, Valid, Sized;
    }
  }

  lemma AwakeUnqualified(s: State, now: int, home: nat, snapshot: Snapshot)
    ensures !Awake(s, now, home, snapshot).qualified
  {
    hide Commits, Answers;
  }

  lemma SampledQualifies(s: State, step: Step, t: State)
    requires Moves(s, step, t) && step.Sampling? && s.phase.Monitor?
    ensures t.phase.Monitor? && (t.qualified <==> FindsLoss(s, step))
    ensures t.qualified ==> t.window.stamps != [] && Ago(t.window, 0) == Stamp(step.snapshot, step.now)
  {
    var u := Prepared(s, step.snapshot, step.missed);
    PreparedFrame(s, step.snapshot, step.missed);
    LookQualifies(u, step.now, step.snapshot, step.rebased);
    if step.missed { NotValidNotJudged(u.window, step.snapshot, step.now); }
    hide Look, Sized, AutoLoss.Inv, Judgeable, FifthLost;
  }

  lemma SampledUnqualified(s: State, step: Step, t: State)
    requires Moves(s, step, t) && step.Sampling? && !s.phase.Monitor? && !s.qualified
    ensures !t.qualified
  {
    var u := Prepared(s, step.snapshot, step.missed);
    PreparedFrame(s, step.snapshot, step.missed);
    hide AutoLoss.Inv, Sample, Sized, Broken, Present, Fenced, Prepared;
  }

  /** Sample `k` found the loss, and nothing but commands and completions from outside came in between. */
  ghost predicate FoundAt(trace: seq<State>, steps: seq<Step>, k: nat, n: nat)
    requires n < |trace| == |steps| + 1
  {
    && k < n && FindsLoss(trace[k], steps[k])
    && (forall j :: k < j < n ==> steps[j].SetEnabled? || steps[j].Complete? || steps[j].Fault?)
    && trace[n].window.stamps != [] && Ago(trace[n].window, 0) == Stamp(steps[k].snapshot, steps[k].now)
  }

  lemma {:induction false} QualifiedMonitors(trace: seq<State>, steps: seq<Step>, n: nat)
    requires Execution(trace, steps) && n < |trace|
    ensures trace[n].qualified ==> trace[n].phase.Monitor?
  {
    hide Execution, Moves, FindsLoss;
    AtFirst(trace, steps);
    if n > 0 {
      Moved(trace, steps, n - 1);
      QualifiedMonitors(trace, steps, n - 1);
      QualifiedStep(trace[n - 1], steps[n - 1], trace[n]);
    }
  }

  lemma {:induction false} QualifiedWasLossy(trace: seq<State>, steps: seq<Step>, n: nat) returns (k: nat)
    requires Execution(trace, steps) && n < |trace| && trace[n].qualified
    ensures |trace| == |steps| + 1 && FoundAt(trace, steps, k, n)
  {
    hide Execution, Moves, FindsLoss;
    AtFirst(trace, steps);
    Moved(trace, steps, n - 1);
    QualifiedMonitors(trace, steps, n - 1);
    QualifiedStep(trace[n - 1], steps[n - 1], trace[n]);
    if FindsLoss(trace[n - 1], steps[n - 1]) { k := n - 1; } else { k := QualifiedWasLossy(trace, steps, n - 1); }
  }

  lemma StartFacts(s: State, t: State)
    requires Moves(s, StartSweep, t)
    ensures s.qualified && !s.latched && s.window.stamps != [] && t.phase.Scanning?
    ensures t.mask == Ago(s.window, 0).snapshot.active && t.scanBaseline == Ago(s.window, 0).snapshot
  {
  }

  /** Every survey goes back to a sample that found more than a fifth lost after the cooldown; its participants are the
      trackers active in that sample. */
  lemma SweepWasLossy(trace: seq<State>, steps: seq<Step>, n: nat) returns (k: nat)
    requires Execution(trace, steps) && n < |steps| && steps[n].StartSweep?
    ensures |trace| == |steps| + 1 && FoundAt(trace, steps, k, n)
    ensures trace[n + 1].mask == steps[k].snapshot.active && trace[n + 1].scanBaseline == steps[k].snapshot
  {
    AtFirst(trace, steps);
    Moved(trace, steps, n);
    hide Execution, Moves, FindsLoss;
    StartFacts(trace[n], trace[n + 1]);
    k := QualifiedWasLossy(trace, steps, n);
  }

  // ----- A trial move needs a survey and its decision -----

  lemma PhaseStep(s: State, step: Step, t: State)
    requires Moves(s, step, t)
    ensures t.phase.Scanning? ==> step.StartSweep? || (s.phase.Scanning? && t.mask == s.mask)
    ensures t.phase.WaitCommit? ==>
      || (step == Decide(t.requestedTarget, true) && s.phase.Scanning? && t.requestedHome == s.home && t.mask == s.mask)
      || (s.phase.WaitCommit? && t.mask == s.mask && t.requestedTarget == s.requestedTarget && t.requestedHome == s.requestedHome)
  {
    match step
    case Sampling(now, snapshot, rebased, missed) => SampledFrame(s, now, snapshot, rebased, missed); hide Sampled, Valid, Sized;
    case Wake(now, home, snapshot) => AwakeFrame(s, now, home, snapshot); hide Awake, Valid, Sized;
    case _ => hide Valid, Sized;
  }

  /** Survey `c` is still going on. */
  ghost predicate ScanningSince(trace: seq<State>, steps: seq<Step>, c: nat, n: nat)
    requires n < |trace| == |steps| + 1
  {
    && c < n && steps[c].StartSweep? && trace[c + 1].mask == trace[n].mask
    && forall j :: c < j <= n ==> trace[j].phase.Scanning?
  }

  lemma {:induction false} ScanWasStarted(trace: seq<State>, steps: seq<Step>, n: nat) returns (c: nat)
    requires Execution(trace, steps) && n < |trace| && trace[n].phase.Scanning?
    ensures |trace| == |steps| + 1 && ScanningSince(trace, steps, c, n)
  {
    hide Execution, Moves;
    AtFirst(trace, steps);
    Moved(trace, steps, n - 1);
    PhaseStep(trace[n - 1], steps[n - 1], trace[n]);
    if steps[n - 1].StartSweep? { c := n - 1; } else { c := ScanWasStarted(trace, steps, n - 1); }
  }

  /** Decision `d` asked for the move that is being waited for. */
  ghost predicate RequestedAt(trace: seq<State>, steps: seq<Step>, d: nat, n: nat)
    requires n < |trace| == |steps| + 1
  {
    && d < n && trace[d].phase.Scanning? && steps[d] == Decide(trace[n].requestedTarget, true)
    && trace[n].requestedHome == trace[d].home && trace[n].mask == trace[d].mask
    && forall j :: d < j <= n ==> trace[j].phase.WaitCommit?
  }

  lemma {:induction false} MoveWasRequested(trace: seq<State>, steps: seq<Step>, n: nat) returns (d: nat)
    requires Execution(trace, steps) && n < |trace| && trace[n].phase.WaitCommit?
    ensures |trace| == |steps| + 1 && RequestedAt(trace, steps, d, n)
  {
    hide Execution, Moves;
    AtFirst(trace, steps);
    Moved(trace, steps, n - 1);
    PhaseStep(trace[n - 1], steps[n - 1], trace[n]);
    if trace[n - 1].phase.WaitCommit? { d := MoveWasRequested(trace, steps, n - 1); } else { d := n - 1; }
  }

  /**
   Every committed trial move goes back to its decision, that to its survey, and that to a sample that found more than a
   fifth lost after the cooldown; home, target and participants are those of that chain.
   */
  lemma TrialHasCause(trace: seq<State>, steps: seq<Step>, a: nat) returns (k: nat, c: nat, d: nat)
    requires Execution(trace, steps) && a < |steps| && CommitStep(trace[a], steps[a], trace[a + 1])
    ensures |trace| == |steps| + 1 && k < c < d < a
    ensures RequestedAt(trace, steps, d, a) && ScanningSince(trace, steps, c, d) && FoundAt(trace, steps, k, c)
    ensures trace[a].mask == steps[k].snapshot.active
    ensures trace[a].mailbox.Finished? && trace[a].mailbox.oldHome == trace[d].home && trace[a].mailbox.newHome == steps[d].target
  {
    AtFirst(trace, steps);
    hide Execution, FindsLoss;
    d := MoveWasRequested(trace, steps, a);
    c := ScanWasStarted(trace, steps, d);
    k := SweepWasLossy(trace, steps, c);
  }

  // ----- How a trial goes on -----

  /**
   What a wake makes of the phase: the reported success of exactly the requested move, under unchanged terms, starts the
   wait for recovery; a changed home channel or generation and any other answer to the request end a trial; anything
   else leaves the phase alone. The completion is used up.
   */
  lemma WakeOutcome(s: State, now: int, home: nat, snapshot: Snapshot)
    ensures var t := Awake(s, now, home, snapshot);
      var answered := s.phase.WaitCommit? && s.mailbox.Finished? && s.mailbox.token == s.generation && s.mailbox.oldHome == s.requestedHome;
      var moved := answered && s.mailbox.success && s.mailbox.newHome == s.requestedTarget;
      var changed := home != s.observedHome || s.generation != s.observedGeneration;
      && t.mailbox.Nothing? && t.observedHome == home && t.observedGeneration == s.generation
      && t.phase ==
           (if moved && home == s.mailbox.newHome && s.generation == s.observedGeneration then WaitRecovery
            else if changed || moved || (answered && !s.mailbox.success) then Monitor
            else s.phase)
      && (t.phase.WaitRecovery? && !s.phase.WaitRecovery? ==> t.recovery == snapshot && t.window == Baseline(snapshot, now, false))
      && (t.phase.Monitor? && (changed || moved || (answered && !s.mailbox.success)) ==> !t.window.valid)
      && t.cooldown ==
           (if moved && home == s.mailbox.newHome && s.generation == s.observedGeneration then now + 120000
            else if changed then 0 else s.cooldown)
  {
  }

  /** What comes from outside the worker: a command opens a new generation and lifts the latch only if it switches on, a
      completion is taken only for the generation it was asked in, a fault stays, and an interruption ends a survey. */
  lemma OutsideSteps(s: State, step: Step, t: State)
    requires Moves(s, step, t)
    ensures t.generation == s.generation + (if step.SetEnabled? then 1 else 0)
    ensures t.enabled == (if step.SetEnabled? then step.value else s.enabled)
    ensures t.fault <==> s.fault || step.Fault?
    ensures step.Complete? ==>
      t == if step.token == s.generation then s.(mailbox := Finished(step.token, step.oldHome, step.newHome, step.success)) else s
    ensures step.Interrupt? ==> !t.phase.Scanning? && !t.window.valid && !t.qualified && (!s.phase.Scanning? ==> t.phase == s.phase)
  {
    match step
    case Sampling(now, snapshot, rebased, missed) => SampledFrame(s, now, snapshot, rebased, missed); hide Sampled, Valid, Sized;
    case Wake(now, home, snapshot) => AwakeFrame(s, now, home, snapshot); hide Awake, Valid, Sized;
    case _ => hide Valid, Sized;
  }

  /** A window that starts over, while monitoring, starts from the snapshot taken after the common rebase. */
  lemma NewWindowIsRebased(s: State, step: Step, t: State)
    requires Moves(s, step, t) && step.Sampling? && s.phase.Monitor? && |t.window.stamps| == 1
    ensures t.window.stamps == [Stamp(step.rebased, step.now)]
  {
    var u := Prepared(s, step.snapshot, step.missed);
    PreparedFrame(s, step.snapshot, step.missed);
    hide AutoLoss.Inv, Sample, Sized, Prepared;
  }

  lemma LookStays(s: State, now: int, snapshot: Snapshot, rebased: Snapshot)
    requires AutoLoss.Inv(s.window) && Sized(snapshot) && !s.phase.WaitRecovery?
    ensures !Look(s, now, snapshot, rebased).phase.WaitRecovery?
  {
    hide AutoLoss.Inv, Sample, Sized, Fenced;
  }

  /** An on-time sample moves the trial on exactly when all participants are present in an uninterrupted layout, before and
      after the rebase; sends a re-check back exactly when one is missing or the layout changed; and ends a survey exactly
      when its evidence is no longer comparable. */
  lemma SampleOutcome(s: State, step: Step, t: State)
    requires Moves(s, step, t) && step.Sampling? && !step.missed
    ensures s.phase.WaitRecovery? ==>
      && s.window.stamps != []
      && (t.phase.Postcheck? <==>
            && s.mask != {} && Present(step.snapshot, s.mask) && Present(step.rebased, s.mask)
            && !Broken(s.recovery, step.snapshot) && step.now - Ago(s.window, 0).time <= 1500)
      && (if s.mask != {} && Present(step.snapshot, s.mask) && !Broken(s.recovery, step.snapshot) && step.now - Ago(s.window, 0).time <= 1500
          then t.recovery == step.rebased && t.window == Baseline(step.rebased, step.now, false)
          else t.recovery == step.snapshot && t.window == Baseline(step.snapshot, step.now, false))
    ensures s.phase.Postcheck? ==>
      && s.window.stamps != [] && Sized(Ago(s.window, 0).snapshot)
      && (t.phase.WaitRecovery? <==> !Present(step.snapshot, s.mask) || Broken(Ago(s.window, 0).snapshot, step.snapshot))
    ensures s.phase.Scanning? ==>
      (t.phase.Scanning? <==> step.snapshot.eligible && !step.snapshot.capPending && !Broken(s.scanBaseline, step.snapshot))
  {
    AgoSized(s.window);
    if s.phase.Postcheck? { LookStays(s, step.now, step.snapshot, step.rebased); }
    hide AutoLoss.Inv, Look, Sized, Broken, Present;
  }

  // ----- Cooldown -----

  lemma CooldownStep(s: State, step: Step, t: State)
    requires Moves(s, step, t)
    ensures CommitStep(s, step, t) ==> t.cooldown == step.now + 120000
    ensures t.cooldown == s.cooldown || (step.Wake? && t.cooldown == step.now + 120000) ||
            t.observedHome != s.observedHome || t.observedGeneration != s.observedGeneration
  {
    match step
    case Sampling(now, snapshot, rebased, missed) => SampledFrame(s, now, snapshot, rebased, missed); hide Sampled, Valid, Sized;
    case Wake(now, home, snapshot) => AwakeCooldown(s, now, home, snapshot); hide Awake, Commits, Valid, Sized;
    case _ => hide Valid, Sized;
  }

  lemma AwakeCooldown(s: State, now: int, home: nat, snapshot: Snapshot)
    ensures var t := Awake(s, now, home, snapshot);
      && (Commits(s, home) ==> t.cooldown == now + 120000)
      && (t.cooldown == s.cooldown || t.cooldown == now + 120000 || t.observedHome != s.observedHome || t.observedGeneration != s.observedGeneration)
  {
  }

  /** The home channel and the enable generation seen after step `a` have not changed since. */
  ghost predicate SameTerms(trace: seq<State>, a: nat, n: nat)
    requires a < n < |trace|
  {
    forall j :: a < j <= n ==>
      trace[j].observedHome == trace[a + 1].observedHome && trace[j].observedGeneration == trace[a + 1].observedGeneration
  }

  lemma {:induction false} CooldownHolds(trace: seq<State>, steps: seq<Step>, a: nat, n: nat)
    requires Execution(trace, steps) && Ordered(steps) && a < n < |trace| == |steps| + 1 && CommitStep(trace[a], steps[a], trace[a + 1])
    requires SameTerms(trace, a, n)
    ensures trace[n].cooldown >= steps[a].now + 120000
  {
    hide Execution, Moves, CommitStep;
    Moved(trace, steps, n - 1);
    CooldownStep(trace[n - 1], steps[n - 1], trace[n]);
    if n > a + 1 {
      CooldownHolds(trace, steps, a, n - 1);
      CommitIsTimed(trace[a], steps[a], trace[a + 1]);
      assert Before(steps[a], steps[n - 1]);
    }
  }

  lemma CommitIsTimed(s: State, step: Step, t: State)
    requires CommitStep(s, step, t)
    ensures step.Wake?
  {
  }

  /** After a committed move no survey starts on a sample less than two minutes later, unless the home channel or the
      enable generation has changed meanwhile. */
  lemma SweepAfterCooldown(trace: seq<State>, steps: seq<Step>, a: nat, n: nat) returns (k: nat)
    requires Execution(trace, steps) && Ordered(steps) && a < n < |steps| && steps[n].StartSweep?
    requires |trace| == |steps| + 1 && CommitStep(trace[a], steps[a], trace[a + 1]) && SameTerms(trace, a, n)
    ensures FoundAt(trace, steps, k, n) && a < k && steps[k].now >= steps[a].now + 120000
  {
    k := SweepWasLossy(trace, steps, n);
    hide Execution;
    CommitIsTimed(trace[a], steps[a], trace[a + 1]);
    SampleAfterCommit(trace, steps, a, k, n);
    CooldownHolds(trace, steps, a, k);
  }

  lemma SampleAfterCommit(trace: seq<State>, steps: seq<Step>, a: nat, k: nat, n: nat)
    requires n < |trace| == |steps| + 1 && a < n && FoundAt(trace, steps, k, n) && steps[a].Wake?
    ensures a < k
  {
    hide FindsLoss;
    assert FindsLoss(trace[k], steps[k]) ==> steps[k].Sampling? by { FindsBySampling(trace[k], steps[k]); }
  }

  lemma FindsBySampling(s: State, step: Step)
    ensures FindsLoss(s, step) ==> step.Sampling?
  {
  }

  // ----- The latch -----

  /** During the re-check, with everybody present and under the current generation, a judged and lossy sample closes the
      latch and a judged clean one ends the trial. */
  lemma RecheckConcludes(s: State, step: Step, t: State)
    requires Moves(s, step, t) && step.Sampling? && s.phase.Postcheck? && !step.missed && !s.latched
    requires Present(step.snapshot, s.mask) && Judgeable(s.window, step.snapshot, step.now)
    ensures t.latched <==> FifthLost(s.window, step.snapshot) && s.enabled && !s.fault && s.generation == s.token
    ensures t.phase.Monitor? <==> !FifthLost(s.window, step.snapshot)
    ensures FifthLost(s.window, step.snapshot) ==> !t.window.valid
  {
    VerdictIff(s.window, step.snapshot, step.now);
    AgoSized(s.window);
    hide AutoLoss.Inv, Sample, Sized, FifthLost, Fenced, Present;
  }

  lemma LatchStep(s: State, step: Step, t: State)
    requires Moves(s, step, t) && s.latched
    ensures t.latched <==> step != SetEnabled(true)
  {
    match step
    case Sampling(now, snapshot, rebased, missed) => SampledFrame(s, now, snapshot, rebased, missed); hide Sampled, Valid, Sized;
    case Wake(now, home, snapshot) => AwakeFrame(s, now, home, snapshot); hide Awake, Valid, Sized;
    case _ => hide Valid, Sized;
  }

  lemma {:induction false} LatchHolds(trace: seq<State>, steps: seq<Step>, b: nat, n: nat)
    requires Execution(trace, steps) && b <= n < |trace| == |steps| + 1 && trace[b].latched
    requires forall j :: b <= j < n ==> steps[j] != SetEnabled(true)
    ensures trace[n].latched
  {
    hide Execution, Moves;
    if n > b {
      Moved(trace, steps, n - 1);
      LatchHolds(trace, steps, b, n - 1);
      LatchStep(trace[n - 1], steps[n - 1], trace[n]);
    }
  }

  /** Once latched, no survey and hence no move is started before the user switches automatic avoidance on again. */
  lemma LatchStopsSurveys(trace: seq<State>, steps: seq<Step>, b: nat, n: nat)
    requires Execution(trace, steps) && b <= n < |steps| && |trace| == |steps| + 1 && trace[b].latched && steps[n].StartSweep?
    ensures exists j :: b <= j < n && steps[j] == SetEnabled(true)
  {
    Moved(trace, steps, n);
    hide Execution, Moves;
    StartFacts(trace[n], trace[n + 1]);
    if forall j :: b <= j < n ==> steps[j] != SetEnabled(true) { LatchHolds(trace, steps, b, n); }
  }
}
