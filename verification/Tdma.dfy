/**
 TDMA membership: which trackers hold slots, when a change of membership is published, and how long the
 statistics thread may sleep. Every step below runs under the interrupt lock. Times are milliseconds and
 do not wrap.
 */
module Tdma {
  import opened TdmaWidth
  import opened LossLadder

  const FRESH := 6000
  const GRACE := 15000
  const COHORT := 101
  const MEMBERSHIP_SPACING := 1000
  const LADDER_SPACING := 15000

  /**
   Masks are sets of tracker numbers. `admin` is set from the removal of a tracker until the forced layout
   that follows it under the same mutex.
   */
  datatype State = State(
    stored: nat,
    evidence: set<nat>,
    desired: set<nat>,
    active: set<nat>,
    joins: set<nat>,
    lastSeen: map<nat, int>,
    armed: bool,
    deadline: int,
    published: bool,
    publishedAt: int,
    level: nat,
    publishedLevel: nat,
    width: nat,
    epoch: nat,
    testAll: bool,
    collecting: bool,
    admin: bool)

  datatype Step =
    | Observe(id: nat, now: int)
    | Enroll
    | Remove(now: int)
    | RemoveAll(now: int)
    | Merge(now: int)
    | Layout(forced: bool, again: bool, now: int)
    | Request(level: nat)
    | Modes(testAll: bool, collecting: bool)

  datatype Result = Unchanged | Deferred | Resample | Published

  predicate Initial(s: State) {
    && s.evidence == {} && s.desired == {} && s.active == {} && s.joins == {} && !s.armed && !s.published && !s.admin
    && s.stored <= TRACKERS && s.level == 0 && s.publishedLevel == 0 && s.epoch < 0x100
  }

  function Seen(s: State, i: nat): int { if i in s.lastSeen then s.lastSeen[i] else 0 }

  /** Milliseconds since tracker `i` was last heard; a reading from the future counts as fresh. */
  function Age(s: State, i: nat, now: int): int {
    if now - Seen(s, i) > 0 then now - Seen(s, i) else 0
  }

  function Forget(s: State, i: nat): State {
    var t := s.(evidence := s.evidence - {i}, desired := s.desired - {i}, joins := s.joins - {i}, lastSeen := s.lastSeen - {i});
    t.(armed := if t.desired == t.active && t.joins == {} then false else t.armed)
  }

  function ForgetFrom(s: State, n: nat): State
    decreases TRACKERS - n
  {
    if n >= TRACKERS then s else ForgetFrom(Forget(s, n), n + 1)
  }

  /** A tracker the layout does not hold yet leaves when it stops being fresh, a published one after 15 s. */
  predicate Drops(s: State, i: nat, now: int) {
    && i in s.desired
    && ((i !in s.active && (i !in s.evidence || Age(s, i, now) >= FRESH)) || (i in s.evidence && Age(s, i, now) >= GRACE))
  }

  predicate Joins(s: State, i: nat, now: int) {
    i !in s.desired && i in s.evidence && Age(s, i, now) < FRESH
  }

  /** Evidence too old to join on. */
  predicate Lapses(s: State, i: nat, now: int) {
    i !in s.desired && i in s.evidence && Age(s, i, now) >= FRESH
  }

  function Arm(s: State, now: int): State {
    if s.desired == s.active then s.(armed := false)
    else if !s.armed then s.(armed := true, deadline := now)
    else s
  }

  function Merged(s: State, now: int): State {
    var t := s.(
      desired := (set i | 0 <= i < s.stored && ((i in s.desired && !Drops(s, i, now)) || Joins(s, i, now)) :: i),
      evidence := (set i | i in s.evidence && !(i < s.stored && (Drops(s, i, now) || Lapses(s, i, now))) :: i),
      lastSeen := (map i | i in s.lastSeen && !(i < s.stored && (Drops(s, i, now) || Lapses(s, i, now))) :: s.lastSeen[i]),
      joins := {});
    Arm(t, now)
  }

  // ----- Publication -----

  function Sampled(s: State, forced: bool, again: bool, now: int): State {
    if !forced && (again || s.joins != {} || !(s.desired <= s.active)) then Merged(s, now) else s
  }

  function Levelled(s: State): State {
    if s.desired != s.active then s.(level := 0)
    else if s.collecting then s.(level := s.publishedLevel)
    else s
  }

  function Count(s: State): nat { Rank(s.desired, TRACKERS) }

  function Width(s: State): nat
    requires s.level <= MAX_LEVEL
  {
    SlotTicks(Count(s), s.level, s.testAll)
  }

  function Spacing(s: State): int {
    if s.desired != s.active || s.testAll || s.level == s.publishedLevel then MEMBERSHIP_SPACING else LADDER_SPACING
  }

  /** A publication that must wait for its cohort or for its distance from the last one. */
  predicate Defers(s: State, now: int) {
    || (s.desired != s.active && s.armed && now < s.deadline)
    || (s.published && now - s.publishedAt < Spacing(s))
  }

  function Publication(s: State, now: int): State
    requires s.level <= MAX_LEVEL
  {
    s.(active := s.desired, width := Width(s), epoch := if Count(s) > 0 then (s.epoch + 1) % 0x100 else s.epoch,
       published := true, publishedAt := now, armed := s.armed && s.joins != {},
       publishedLevel := if s.desired != s.active || !s.testAll then s.level else s.publishedLevel)
  }

  function Decide(s: State, forced: bool, again: bool, now: int): (State, Result)
    requires s.level <= MAX_LEVEL
  {
    if s.desired == s.active && Count(s) == 0 then (s.(width := BASE, publishedLevel := s.level), Unchanged)
    else if s.desired == s.active && Width(s) == s.width
    then (if s.testAll then s else s.(publishedLevel := s.level), Unchanged)
    else if !forced && Defers(s, now) then (s, Deferred)
    else if Count(s) > 0 && !again then (s, Resample)
    else (Publication(s, now), Published)
  }

  /** One pass of the layout owner under the lock. */
  function Pass(s: State, forced: bool, again: bool, now: int): (State, Result)
    requires s.level <= MAX_LEVEL && s.publishedLevel <= MAX_LEVEL
  {
    var (t, r) := Decide(Levelled(Sampled(s, forced, again, now)), forced, again, now);
    (if forced && (r.Published? || r.Unchanged?) then t.(admin := false) else t, r)
  }

  predicate Enabled(s: State, step: Step) {
    && s.level <= MAX_LEVEL && s.publishedLevel <= MAX_LEVEL
    && match step
       case Observe(_, _) => true
       case Enroll => !s.admin && s.stored < TRACKERS
       case Remove(_) => !s.admin && 0 < s.stored <= TRACKERS
       case RemoveAll(_) => !s.admin
       case Merge(_) => !s.admin
       case Layout(forced, _, _) => forced == s.admin
       case Request(level) => !s.admin && level <= MAX_LEVEL
       case Modes(_, _) => true
  }

  function Do(s: State, step: Step): State
    requires Enabled(s, step)
  {
    match step
    case Observe(i, now) =>
      if i < s.stored && i < TRACKERS then
        var t := s.(evidence := s.evidence + {i}, lastSeen := s.lastSeen[i := now]);
        if i in s.desired then t
        else t.(joins := s.joins + {i}, armed := true, deadline := if s.armed then s.deadline else now + COHORT)
      else s
    case Enroll => Forget(s, s.stored).(stored := s.stored + 1)
    case Remove(_) => Forget(s, s.stored - 1).(stored := s.stored - 1, admin := true)
    case RemoveAll(_) => ForgetFrom(s, 0).(stored := 0, admin := true)
    case Merge(now) => Merged(s, now)
    case Layout(forced, again, now) => Pass(s, forced, again, now).0
    case Request(level) => s.(level := level)
    case Modes(testAll, collecting) => s.(testAll := testAll, collecting := collecting)
  }

  // ----- Invariant -----

  ghost predicate Inv(s: State) {
    && s.stored <= TRACKERS && s.level <= MAX_LEVEL && s.publishedLevel <= MAX_LEVEL
    && s.desired <= s.evidence && (forall i :: i in s.evidence ==> i < s.stored) && s.joins <= s.evidence
    && (s.joins != {} ==> s.armed)
    && (!s.admin && s.desired != s.active ==> s.armed)
    && (s.armed ==> s.desired != s.active || s.joins != {})
  }

  lemma ForgetInv(s: State, i: nat)
    requires Inv(s)
    ensures Inv(Forget(s, i).(admin := true)) && i !in Forget(s, i).evidence
    ensures Forget(s, i).evidence <= s.evidence && Forget(s, i).active == s.active
  {
  }

  lemma {:induction false} ForgetAllInv(s: State, n: nat)
    requires Inv(s) && s.admin
    ensures var t := ForgetFrom(s, n);
      Inv(t) && t.admin && t.stored == s.stored && t.evidence <= s.evidence && forall i :: n <= i < TRACKERS ==> i !in t.evidence
    decreases TRACKERS - n
  {
    if n < TRACKERS {
      ForgetInv(s, n);
      assert Forget(s, n).(admin := true) == Forget(s, n);
      ForgetAllInv(Forget(s, n), n + 1);
    }
  }

  lemma MergedInv(s: State, now: int)
    requires Inv(s)
    ensures Inv(Merged(s, now)) && Merged(s, now).joins == {}
    ensures var t := Merged(s, now); t.desired != t.active ==> t.armed
  {
    hide Age;
  }

  lemma DecideInv(s: State, forced: bool, again: bool, now: int)
    requires Inv(s)
    ensures var (t, r) := Decide(s, forced, again, now); Inv(t) && (r.Published? || r.Unchanged? ==> t.desired == t.active)
  {
    hide Width, Count;
  }

  lemma SampledInv(s: State, forced: bool, again: bool, now: int)
    requires Inv(s)
    ensures Inv(Levelled(Sampled(s, forced, again, now)))
  {
    MergedInv(s, now);
    hide Merged;
  }

  lemma PassInv(s: State, forced: bool, again: bool, now: int)
    requires Inv(s) && forced == s.admin
    ensures Inv(Pass(s, forced, again, now).0)
  {
    SampledInv(s, forced, again, now);
    DecideInv(Levelled(Sampled(s, forced, again, now)), forced, again, now);
    hide Decide, Levelled, Sampled;
  }

  lemma StepInv(s: State, step: Step)
    requires Inv(s) && Enabled(s, step)
    ensures Inv(Do(s, step))
  {
    match step
    case Observe(_, _) =>
    case Enroll => ForgetInv(s, s.stored);
    case Remove(_) => ForgetInv(s, s.stored - 1);
    case RemoveAll(_) => ForgetAllInv(s.(admin := true), 0); ForgetAdmin(s, 0); hide ForgetFrom;
    case Merge(now) => MergedInv(s, now); hide Merged;
    case Layout(forced, again, now) => PassInv(s, forced, again, now); hide Pass;
    case Request(_) =>
    case Modes(_, _) =>
  }

  lemma {:induction false} ForgetAdmin(s: State, n: nat)
    ensures ForgetFrom(s.(admin := true), n) == ForgetFrom(s, n).(admin := true)
    decreases TRACKERS - n
  {
    if n < TRACKERS {
      assert Forget(s.(admin := true), n) == Forget(s, n).(admin := true);
      ForgetAdmin(Forget(s, n), n + 1);
    }
  }

  // ----- Whole runs -----

  ghost predicate Moves(s: State, step: Step, t: State) { Enabled(s, step) && t == Do(s, step) }

  ghost predicate Execution(trace: seq<State>, steps: seq<Step>) {
    && |trace| == |steps| + 1 && Initial(trace[0])
    && forall k :: 0 <= k < |steps| ==> Moves(trace[k], steps[k], trace[k + 1])
  }

  predicate Timed(step: Step) { !step.Enroll? && !step.Request? && !step.Modes? }

  ghost predicate Before(a: Step, b: Step) { Timed(a) && Timed(b) ==> a.now <= b.now }

  /** The clock never runs backwards. */
  ghost predicate Ordered(steps: seq<Step>) { forall j, k :: 0 <= j < k < |steps| ==> Before(steps[j], steps[k]) }

  lemma {:induction false} ReachableInv(trace: seq<State>, steps: seq<Step>, n: nat)
    requires Execution(trace, steps) && n < |trace|
    ensures Inv(trace[n])
  {
    if n > 0 {
      hide Inv, Moves;
      ReachableInv(trace, steps, n - 1);
      assert Moves(trace[n - 1], steps[n - 1], trace[n - 1 + 1]);
      InvMoves(trace[n - 1], steps[n - 1], trace[n]);
    }
  }

  lemma InvMoves(s: State, step: Step, t: State)
    requires Inv(s) && Moves(s, step, t)
    ensures Inv(t)
  {
    StepInv(s, step);
    hide Inv, Do;
  }

  /**
   In every reachable state the desired members all have live evidence; and unless a removal is in progress,
   a wanted change of membership or a queued join has a deadline armed, so the owner will wake up for it.
   */
  lemma ChangeIsScheduled(trace: seq<State>, steps: seq<Step>, n: nat)
    requires Execution(trace, steps) && n < |trace|
    ensures trace[n].desired <= trace[n].evidence
    ensures !trace[n].admin && (trace[n].desired != trace[n].active || trace[n].joins != {}) ==> trace[n].armed
  {
    ReachableInv(trace, steps, n);
  }

  // ----- Leaving -----

  predicate Merges(s: State, step: Step) {
    step.Merge? || (step.Layout? && !step.forced && (step.again || s.joins != {} || !(s.desired <= s.active)))
  }

  predicate Forgets(s: State, step: Step, i: nat) {
    || (step.Enroll? && i == s.stored) || (step.Remove? && i == s.stored - 1) || step.RemoveAll?
  }

  /** Tracker `i` is removed by the user, or has been silent for 15 s. */
  predicate Ousts(s: State, step: Step, i: nat) {
    Forgets(s, step, i) || (Merges(s, step) && i in s.evidence && Age(s, i, step.now) >= GRACE)
  }

  predicate Slotted(s: State, i: nat) { i in s.active && i in s.desired }

  predicate Leaving(s: State, i: nat) { i in s.active && i !in s.desired }

  lemma {:induction false} ForgetFromKeeps(s: State, n: nat)
    ensures ForgetFrom(s, n).active == s.active && ForgetFrom(s, n).published == s.published && ForgetFrom(s, n).publishedAt == s.publishedAt
    ensures forall i :: i < n && i in s.desired ==> i in ForgetFrom(s, n).desired
    decreases TRACKERS - n
  {
    if n < TRACKERS { ForgetFromKeeps(Forget(s, n), n + 1); }
  }

  lemma MergedLeaves(s: State, now: int, i: nat)
    requires Inv(s)
    ensures var t := Merged(s, now);
      && t.active == s.active && t.published == s.published && t.publishedAt == s.publishedAt && t.level == s.level
      && (Slotted(s, i) && i !in t.desired ==> i in s.evidence && Age(s, i, now) >= GRACE)
      && (Leaving(s, i) && i in t.desired ==> i in s.evidence)
  {
    hide Age;
  }

  /** What a pass can change: the sample, then either nothing of the layout or all of it at once. */
  lemma PassFrame(s: State, forced: bool, again: bool, now: int)
    requires s.level <= MAX_LEVEL && s.publishedLevel <= MAX_LEVEL
    ensures var (t, r) := Pass(s, forced, again, now); var u := Sampled(s, forced, again, now);
      && t.desired == u.desired && t.evidence == u.evidence && t.lastSeen == u.lastSeen && t.stored == u.stored
      && if r.Published? then t.active == t.desired && t.published && t.publishedAt == now
         else t.active == u.active && t.published == u.published && t.publishedAt == u.publishedAt
  {
    SampledLevels(s, forced, again, now);
    hide Sampled;
    DecideFrame(Levelled(Sampled(s, forced, again, now)), forced, again, now);
    hide Decide;
  }

  lemma DecideFrame(s: State, forced: bool, again: bool, now: int)
    requires s.level <= MAX_LEVEL
    ensures var (t, r) := Decide(s, forced, again, now);
      && t.desired == s.desired && t.evidence == s.evidence && t.lastSeen == s.lastSeen && t.stored == s.stored
      && if r.Published? then t.active == t.desired && t.published && t.publishedAt == now
         else t.active == s.active && t.published == s.published && t.publishedAt == s.publishedAt
  {
    hide Width, Count, Defers;
  }

  lemma SampledLevels(s: State, forced: bool, again: bool, now: int)
    ensures Sampled(s, forced, again, now).level == s.level && Sampled(s, forced, again, now).publishedLevel == s.publishedLevel
  {
  }

  /** Slotted trackers stay slotted, or stop being wanted for a reason; published masks come from wanted ones. */
  lemma StepLeaves(s: State, step: Step, t: State, i: nat)
    requires Inv(s) && Moves(s, step, t)
    ensures Slotted(s, i) ==> Slotted(t, i) || Ousts(s, step, i)
    ensures i in t.active ==> i in s.active || i in t.desired
    ensures i in s.active && i !in t.active ==> i !in t.desired && step.Layout?
  {
    hide Age, Count, Width;
    match step
    case RemoveAll(_) => ForgetFromKeeps(s, 0); hide ForgetFrom;
    case Merge(now) => MergedLeaves(s, now, i); hide Merged;
    case Layout(forced, again, now) =>
      MergedLeaves(s, now, i);
      PassFrame(s, forced, again, now);
      hide Merged, Pass;
    case _ =>
  }

  /** Step `j` ousted tracker `i`, and it has been waiting for its slot to be withdrawn ever since. */
  ghost predicate OustedAt(trace: seq<State>, steps: seq<Step>, j: nat, n: nat, i: nat)
    requires n < |trace| == |steps| + 1
  {
    && j < n && Slotted(trace[j], i) && Ousts(trace[j], steps[j], i)
    && forall k :: j < k <= n ==> Leaving(trace[k], i)
  }

  lemma {:induction false} LeavingWasOusted(trace: seq<State>, steps: seq<Step>, n: nat, i: nat) returns (j: nat)
    requires Execution(trace, steps) && n < |trace| && Leaving(trace[n], i)
    ensures OustedAt(trace, steps, j, n, i)
  {
    assert n > 0;
    ReachableInv(trace, steps, n - 1);
    assert Moves(trace[n - 1], steps[n - 1], trace[n - 1 + 1]);
    hide Moves, Inv, Ousts;
    StepLeaves(trace[n - 1], steps[n - 1], trace[n], i);
    if Leaving(trace[n - 1], i) {
      j := LeavingWasOusted(trace, steps, n - 1, i);
    } else {
      j := n - 1;
    }
  }

  /** Step `j` ousted tracker `i` and no later state wants it back before its slot goes at step `n`. */
  ghost predicate LostSlot(trace: seq<State>, steps: seq<Step>, j: nat, n: nat, i: nat)
    requires n < |steps| && |trace| == |steps| + 1
  {
    && j <= n && Slotted(trace[j], i) && Ousts(trace[j], steps[j], i)
    && forall k :: j < k <= n ==> Leaving(trace[k], i)
  }

  /** A tracker that loses its slot was removed, or had been silent for 15 s when it was given up. */
  lemma SlotLostForCause(trace: seq<State>, steps: seq<Step>, n: nat, i: nat) returns (j: nat)
    requires Execution(trace, steps) && n < |steps| && i in trace[n].active && i !in trace[n + 1].active
    ensures LostSlot(trace, steps, j, n, i)
  {
    ReachableInv(trace, steps, n);
    assert Moves(trace[n], steps[n], trace[n + 1]);
    hide Moves, Inv, Ousts;
    StepLeaves(trace[n], steps[n], trace[n + 1], i);
    if Leaving(trace[n], i) {
      j := LeavingWasOusted(trace, steps, n, i);
    } else {
      j := n;
    }
  }

  lemma MergedSeen(s: State, now: int, i: nat)
    ensures i in Merged(s, now).evidence ==> i in s.evidence && (i in s.lastSeen ==> Seen(Merged(s, now), i) == Seen(s, i))
    ensures i in Merged(s, now).evidence && i in s.lastSeen ==> i in Merged(s, now).lastSeen
  {
    hide Age;
  }

  lemma {:induction false} ForgetFromSeen(s: State, n: nat, i: nat)
    ensures i in ForgetFrom(s, n).evidence ==> i in s.evidence && Seen(ForgetFrom(s, n), i) == Seen(s, i)
    ensures i in ForgetFrom(s, n).evidence && i in s.lastSeen ==> i in ForgetFrom(s, n).lastSeen
    decreases TRACKERS - n
  {
    if n < TRACKERS { ForgetFromSeen(Forget(s, n), n + 1, i); }
  }

  predicate Hears(s: State, step: Step, i: nat) { step.Observe? && step.id == i && i < s.stored && i < TRACKERS }

  lemma StepSeen(s: State, step: Step, t: State, i: nat)
    requires Moves(s, step, t) && i in t.evidence
    ensures Hears(s, step, i) ==> i in t.lastSeen && Seen(t, i) == step.now
    ensures !Hears(s, step, i) ==> i in s.evidence && (i in s.lastSeen ==> i in t.lastSeen && Seen(t, i) == Seen(s, i))
  {
    match step
    case RemoveAll(_) => ForgetFromSeen(s, 0, i); hide ForgetFrom;
    case Merge(now) => MergedSeen(s, now, i); hide Merged;
    case Layout(forced, again, now) =>
      MergedSeen(s, now, i);
      PassFrame(s, forced, again, now);
      hide Merged, Pass;
    case _ =>
  }

  /** The remembered time is no earlier than any observation of the tracker. */
  lemma {:induction false} LastSeenIsLast(trace: seq<State>, steps: seq<Step>, n: nat, i: nat, k: nat)
    requires Execution(trace, steps) && Ordered(steps) && k < n < |trace| && i in trace[n].evidence
    requires Hears(trace[k], steps[k], i)
    ensures i in trace[n].lastSeen && steps[k].now <= Seen(trace[n], i)
  {
    hide Moves, Seen;
    assert Moves(trace[n - 1], steps[n - 1], trace[n - 1 + 1]);
    StepSeen(trace[n - 1], steps[n - 1], trace[n], i);
    if k < n - 1 {
      assert Before(steps[k], steps[n - 1]);
      if !Hears(trace[n - 1], steps[n - 1], i) { LastSeenIsLast(trace, steps, n - 1, i, k); }
    }
  }

  /** Silence means silence: nothing was heard of an evicted tracker during the last 15 s. */
  lemma EvictedWasSilent(trace: seq<State>, steps: seq<Step>, j: nat, i: nat, k: nat)
    requires Execution(trace, steps) && Ordered(steps) && k < j < |steps|
    requires Ousts(trace[j], steps[j], i) && !Forgets(trace[j], steps[j], i) && Hears(trace[k], steps[k], i)
    ensures steps[j].now - steps[k].now >= GRACE
  {
    LastSeenIsLast(trace, steps, j, i, k);
  }

  // ----- Spacing -----

  predicate Publishes(s: State, step: Step)
    requires Enabled(s, step)
  {
    step.Layout? && Pass(s, step.forced, step.again, step.now).1.Published?
  }

  lemma StepPublished(s: State, step: Step, t: State)
    requires Moves(s, step, t)
    ensures if Publishes(s, step) then t.published && t.publishedAt == step.now
            else t.published == s.published && t.publishedAt == s.publishedAt
  {
    match step
    case RemoveAll(_) => ForgetFromKeeps(s, 0); hide ForgetFrom;
    case Merge(now) => MergedKeeps(s, now); hide Merged;
    case Layout(forced, again, now) =>
      MergedKeeps(s, now);
      PassFrame(s, forced, again, now);
      hide Merged, Pass;
    case _ =>
  }

  lemma MergedKeeps(s: State, now: int)
    ensures Merged(s, now).published == s.published && Merged(s, now).publishedAt == s.publishedAt
    ensures Merged(s, now).level == s.level && Merged(s, now).publishedLevel == s.publishedLevel && Merged(s, now).testAll == s.testAll
    ensures s.armed ==> Merged(s, now).armed ==> Merged(s, now).deadline == s.deadline
    ensures !s.armed ==> Merged(s, now).armed ==> Merged(s, now).deadline == now
  {
  }

  lemma {:induction false} PublishedAtIsLast(trace: seq<State>, steps: seq<Step>, n: nat, j: nat)
    requires Execution(trace, steps) && Ordered(steps) && j < n < |trace|
    requires Enabled(trace[j], steps[j]) && Publishes(trace[j], steps[j])
    ensures trace[n].published && steps[j].now <= trace[n].publishedAt
  {
    hide Moves, Publishes, Enabled;
    assert Moves(trace[n - 1], steps[n - 1], trace[n - 1 + 1]);
    MoveEnabled(trace[n - 1], steps[n - 1], trace[n]);
    StepPublished(trace[n - 1], steps[n - 1], trace[n]);
    if j < n - 1 {
      PublishedAtIsLast(trace, steps, n - 1, j);
      PublishesTimed(trace[j], steps[j]);
      if Publishes(trace[n - 1], steps[n - 1]) {
        PublishesTimed(trace[n - 1], steps[n - 1]);
        assert Before(steps[j], steps[n - 1]);
      }
    }
  }

  lemma MoveEnabled(s: State, step: Step, t: State)
    requires Moves(s, step, t)
    ensures Enabled(s, step)
  {
  }

  lemma PublishesTimed(s: State, step: Step)
    requires Enabled(s, step) && Publishes(s, step)
    ensures step.Layout? && Timed(step)
  {
  }

  /** The state a pass decides on. */
  function Judged(s: State, step: Step): State
    requires step.Layout?
  {
    Levelled(Sampled(s, step.forced, step.again, step.now))
  }

  lemma UnforcedWaits(s: State, step: Step)
    requires Enabled(s, step) && Publishes(s, step) && !step.forced
    ensures !Defers(Judged(s, step), step.now)
    ensures Judged(s, step).published == s.published && Judged(s, step).publishedAt == s.publishedAt
  {
    SampledLevels(s, step.forced, step.again, step.now);
    MergedKeeps(s, step.now);
    hide Merged, Width, Count, Defers;
  }

  /**
   An unforced layout is published at least a second after any earlier one, and a mere ladder step at least
   15 s after it.
   */
  lemma PublicationsAreSpaced(trace: seq<State>, steps: seq<Step>, j: nat, k: nat)
    requires Execution(trace, steps) && Ordered(steps) && j < k < |steps|
    requires Enabled(trace[j], steps[j]) && Publishes(trace[j], steps[j])
    requires Enabled(trace[k], steps[k]) && Publishes(trace[k], steps[k]) && !steps[k].forced
    ensures steps[k].now - steps[j].now >= Spacing(Judged(trace[k], steps[k])) >= MEMBERSHIP_SPACING
  {
    PublishedAtIsLast(trace, steps, k, j);
    UnforcedWaits(trace[k], steps[k]);
    hide Publishes, Judged, Enabled;
  }

  // ----- Sleeping -----

  /** Time until a wanted membership change may be published. */
  function Remaining(s: State, now: int): int {
    var cohort := s.deadline - now;
    var gap := if s.published then MEMBERSHIP_SPACING - (now - s.publishedAt) else 0;
    if cohort > gap then cohort else gap
  }

  function WaitMs(s: State, now: int, maximum: nat): nat {
    if !s.armed then maximum
    else if Remaining(s, now) > 0 then (if maximum < Remaining(s, now) then maximum else Remaining(s, now))
    else 0
  }

  /** What may happen while the owner sleeps, short of a removal: packets, a new pairing, wishes of user and loss controller. */
  predicate Quiet(step: Step) { step.Observe? || step.Enroll? || step.Request? || step.Modes? }

  lemma QuietStep(s: State, step: Step, t: State)
    requires Inv(s) && Moves(s, step, t) && Quiet(step) && s.armed
    ensures t.armed && t.deadline == s.deadline && t.published == s.published && t.publishedAt == s.publishedAt && t.admin == s.admin
  {
  }

  /** The deadline and the last publication the sleep was computed from are still the ones that count. */
  lemma {:induction false} SleepKeepsDeadline(trace: seq<State>, steps: seq<Step>, j: nat, k: nat)
    requires Execution(trace, steps) && j <= k <= |steps| && trace[j].armed && forall i :: j <= i < k ==> Quiet(steps[i])
    ensures trace[k].armed && trace[k].deadline == trace[j].deadline && trace[k].admin == trace[j].admin
    ensures trace[k].published == trace[j].published && trace[k].publishedAt == trace[j].publishedAt
    decreases k
  {
    if j < k {
      SleepKeepsDeadline(trace, steps, j, k - 1);
      ReachableInv(trace, steps, k - 1);
      hide Inv;
      assert Moves(trace[k - 1], steps[k - 1], trace[k - 1 + 1]);
      QuietStep(trace[k - 1], steps[k - 1], trace[k]);
    }
  }

  /**
   The owner goes to sleep in state `j` and wakes up in state `k`, having slept as long as it was told to and
   not been cut short by the caller's limit. Whatever was heard meanwhile, no membership change is held back
   then. Only the forced publication of a removal could do that: it moves the anchor of the spacing.
   */
  lemma WakesInTime(trace: seq<State>, steps: seq<Step>, j: nat, k: nat, now: int, maximum: nat, again: bool, later: int)
    requires Execution(trace, steps) && j <= k <= |steps| && forall i :: j <= i < k ==> Quiet(steps[i])
    requires trace[j].armed && !trace[j].admin && Remaining(trace[j], now) <= maximum
    requires later >= now + WaitMs(trace[j], now, maximum)
    ensures Enabled(trace[k], Layout(false, again, later))
    ensures var u := Judged(trace[k], Layout(false, again, later));
      u.desired != u.active ==> !Defers(u, later) && !Pass(trace[k], false, again, later).1.Deferred?
  {
    ReachableInv(trace, steps, k);
    SleepKeepsDeadline(trace, steps, j, k);
    MergedKeeps(trace[k], later);
    SampledLevels(trace[k], false, again, later);
    hide Merged, Width, Count, Execution;
  }

  /** A forced publication less than a second before does hold the change back. */
  lemma ForcedDefers(s: State, now: int, again: bool, later: int)
    requires s.published && s.publishedAt == now && now <= later < now + MEMBERSHIP_SPACING
    requires s.level <= MAX_LEVEL && s.publishedLevel <= MAX_LEVEL
    ensures var u := Levelled(Sampled(s, false, again, later));
      u.desired != u.active ==> Pass(s, false, again, later).1.Deferred?
  {
    MergedKeeps(s, later);
    SampledLevels(s, false, again, later);
    hide Merged, Width, Count;
  }
}
