/**
 When the layout owner does publish: which trackers a merge wants, what every pass comes to, how epochs follow
 each other, and how long a change of membership waits for others to join it.
 */
module TdmaPublication {
  import opened TdmaWidth
  import LossLadder
  import opened Tdma

  // ----- Membership -----

  lemma MergedSets(s: State, now: int, i: nat)
    ensures i in Merged(s, now).desired <==> i < s.stored && ((i in s.desired && !Drops(s, i, now)) || Joins(s, i, now))
    ensures i in Merged(s, now).evidence <==> i in s.evidence && !(i < s.stored && (Drops(s, i, now) || Lapses(s, i, now)))
  {
    hide Drops, Joins, Lapses;
  }

  /** After a merge the members are the trackers heard less than 6 s ago, and those holding a slot that were heard
      less than 15 s ago; only they are remembered. */
  lemma MergedMembers(s: State, now: int, i: nat)
    requires Inv(s)
    ensures i in Merged(s, now).desired <==>
      i in s.evidence && (Age(s, i, now) < 6000 || (i in s.desired && i in s.active && Age(s, i, now) < 15000))
    ensures i in Merged(s, now).evidence <==> i in Merged(s, now).desired
  {
    hide Merged, Age;
    MergedSets(s, now, i);
  }

  // ----- What a pass comes to -----

  lemma {:induction false} RankIsSize(mask: set<nat>, n: nat)
    ensures Rank(mask, n) == |set x | x in mask && x < n|
  {
    var below := set x | x in mask && x < n;
    if n == 0 {
      assert below == {};
    } else {
      RankIsSize(mask, n - 1);
      assert below == (set x | x in mask && x < n - 1) + if n - 1 in mask then {n - 1} else {};
    }
  }

  lemma CountIsSize(s: State)
    requires Inv(s)
    ensures Count(s) == |s.desired|
  {
    RankIsSize(s.desired, TRACKERS);
    assert s.desired == set x | x in s.desired && x < TRACKERS;
  }

  /** The membership or the slot width is to change. */
  ghost predicate Wanted(s: State)
    requires s.level <= LossLadder.MAX_LEVEL
  {
    s.desired != s.active || (s.desired != {} && s.width != SlotTicks(|s.desired|, s.level, s.testAll))
  }

  /** The change has to wait: for its cohort, or for a second after the last publication, or for 15 s if it is a
      mere step of the ladder. */
  ghost predicate MustWait(s: State, now: int) {
    || (s.desired != s.active && s.armed && now < s.deadline)
    || (s.published && now - s.publishedAt <
          if s.desired != s.active || s.testAll || s.level == s.publishedLevel then 1000 else 15000)
  }

  /** A pass merges first if it is not forced and either looks again, or has somebody queued or wanted without a slot. */
  ghost predicate LooksAround(s: State, step: Step)
    requires step.Layout?
  {
    !step.forced && (step.again || s.joins != {} || exists i: nat :: i in s.desired && i !in s.active)
  }

  /** The state a pass decides on: the members after that merge, at the bottom of the ladder if they are new, and at the
      published level while raw data are collected. */
  lemma JudgedIs(s: State, step: Step, i: nat)
    requires Inv(s) && step.Layout?
    ensures var u := Judged(s, step);
      && u.active == s.active && u.width == s.width && u.testAll == s.testAll && u.epoch == s.epoch
      && u.published == s.published && u.publishedAt == s.publishedAt && u.publishedLevel == s.publishedLevel
      && (i in u.desired <==>
            if LooksAround(s, step)
            then i in s.evidence && (Age(s, i, step.now) < 6000 || (i in s.desired && i in s.active && Age(s, i, step.now) < 15000))
            else i in s.desired)
      && u.level == (if u.desired != s.active then 0 else if s.collecting then s.publishedLevel else s.level)
      && (u.desired != s.active && s.armed ==> u.armed && u.deadline == s.deadline)
  {
    hide Merged, Age, Inv, LooksAround;
    MergedMembers(s, step.now, i);
    MergedKeeps(s, step.now);
    MergedActive(s, step.now);
    MergedRest(s, step.now);
    LooksIff(s, step);
  }

  lemma LooksIff(s: State, step: Step)
    requires step.Layout?
    ensures LooksAround(s, step) <==> !step.forced && (step.again || s.joins != {} || !(s.desired <= s.active))
  {
    if !(s.desired <= s.active) {
      var i :| i in s.desired && i !in s.active;
    }
  }

  lemma MergedRest(s: State, now: int)
    ensures var t := Merged(s, now);
      t.width == s.width && t.testAll == s.testAll && t.epoch == s.epoch && t.collecting == s.collecting
  {
  }

  lemma DecideOutcome(s: State, forced: bool, again: bool, now: int)
    requires Inv(s)
    ensures var (t, r) := Decide(s, forced, again, now);
      && (r.Unchanged? <==> !Wanted(s))
      && (r.Deferred? <==> Wanted(s) && !forced && MustWait(s, now))
      && (r.Resample? <==> Wanted(s) && (forced || !MustWait(s, now)) && s.desired != {} && !again)
      && (r.Published? ==>
            && t.active == s.desired && t.width == SlotTicks(|s.desired|, s.level, s.testAll) && t.publishedAt == now && t.published
            && t.level == s.level && t.publishedLevel == (if s.desired != s.active || !s.testAll then s.level else s.publishedLevel)
            && t.epoch == if s.desired != {} then (s.epoch + 1) % 0x100 else s.epoch)
      && (r.Unchanged? ==>
            && t.width == (if s.desired == {} then 16 else s.width)
            && t.publishedLevel == (if s.desired == {} || !s.testAll then s.level else s.publishedLevel))
      && (r.Deferred? || r.Resample? ==> t == s)
      && (!r.Published? ==> t == s.(width := t.width, publishedLevel := t.publishedLevel))
  {
    CountIsSize(s);
    hide Inv, SlotTicks, Count;
  }

  /**
   Every pass of the layout owner, in every run: a wanted change that need not wait is published on the second look,
   with the members then wanted, the width for them, and the ladder's bottom for a new membership; a change that must
   wait, or a first look, leaves the layout alone. A forced pass ends the removal it belongs to.
   */
  lemma PassOutcome(trace: seq<State>, steps: seq<Step>, n: nat)
    requires Execution(trace, steps) && n < |steps| && steps[n].Layout?
    ensures Enabled(trace[n], steps[n]) && Inv(Judged(trace[n], steps[n]))
    ensures var u, t, now := Judged(trace[n], steps[n]), trace[n + 1], steps[n].now;
      var free := steps[n].forced || !MustWait(u, now);
      && (Publishes(trace[n], steps[n]) <==> Wanted(u) && free && (steps[n].again || u.desired == {}))
      && (Publishes(trace[n], steps[n]) ==>
            && t.active == u.desired && t.published && t.publishedAt == now
            && t.width == SlotTicks(|u.desired|, u.level, u.testAll)
            && t.publishedLevel == (if u.desired != u.active || !u.testAll then u.level else u.publishedLevel)
            && (u.desired != u.active ==> t.level == 0 && t.publishedLevel == 0))
      && (!Publishes(trace[n], steps[n]) ==>
            && t.active == u.active && t.width == (if !Wanted(u) && u.desired == {} then 16 else u.width)
            && t.publishedLevel == (if !Wanted(u) && (u.desired == {} || !u.testAll) then u.level else u.publishedLevel))
      && (steps[n].forced ==> (t.admin <==> Wanted(u) && !Publishes(trace[n], steps[n])))
  {
    var s, step := trace[n], steps[n];
    ReachableInv(trace, steps, n);
    assert Moves(s, step, trace[n + 1]);
    hide Execution;
    SampledInv(s, step.forced, step.again, step.now);
    MergedAdmin(s, step.now);
    DecideOutcome(Judged(s, step), step.forced, step.again, step.now);
    hide Decide, Merged, Inv, Wanted, MustWait, SlotTicks;
  }

  lemma MergedAdmin(s: State, now: int)
    ensures Merged(s, now).admin == s.admin
  {
  }

  // ----- Epochs -----

  lemma EpochStep(s: State, step: Step, t: State)
    requires Inv(s) && Moves(s, step, t)
    ensures t.epoch == if Publishes(s, step) && t.active != {} then (s.epoch + 1) % 0x100 else s.epoch
  {
    match step
    case RemoveAll(_) => ForgetFromEpoch(s, 0); hide ForgetFrom;
    case Merge(now) => MergedEpoch(s, now); hide Merged;
    case Layout(_, _, _) => LayoutEpoch(s, step, t); hide Pass, Publishes;
    case _ =>
  }

  lemma LayoutEpoch(s: State, step: Step, t: State)
    requires Inv(s) && Moves(s, step, t) && step.Layout?
    ensures t.epoch == if Publishes(s, step) && t.active != {} then (s.epoch + 1) % 0x100 else s.epoch
  {
    SampledInv(s, step.forced, step.again, step.now);
    MergedEpoch(s, step.now);
    DecideOutcome(Judged(s, step), step.forced, step.again, step.now);
    hide Decide, Merged, Inv, Wanted, MustWait, SlotTicks;
  }

  lemma MergedEpoch(s: State, now: int)
    ensures Merged(s, now).epoch == s.epoch
  {
  }

  lemma {:induction false} ForgetFromEpoch(s: State, n: nat)
    ensures ForgetFrom(s, n).epoch == s.epoch
    decreases TRACKERS - n
  {
    if n < TRACKERS { ForgetFromEpoch(Forget(s, n), n + 1); }
  }

  lemma Moved(trace: seq<State>, steps: seq<Step>, n: nat)
    requires Execution(trace, steps) && n + 1 < |trace|
    ensures |trace| == |steps| + 1 && Inv(trace[n]) && Enabled(trace[n], steps[n]) && Moves(trace[n], steps[n], trace[n + 1])
  {
    ReachableInv(trace, steps, n);
    assert Moves(trace[n], steps[n], trace[n + 1]);
  }

  /** A layout with members goes out at this step. */
  ghost predicate Announces(trace: seq<State>, steps: seq<Step>, n: nat)
    requires n < |steps| && |trace| == |steps| + 1
  {
    Enabled(trace[n], steps[n]) && Publishes(trace[n], steps[n]) && trace[n + 1].active != {}
  }

  lemma {:induction false} EpochHolds(trace: seq<State>, steps: seq<Step>, j: nat, k: nat)
    requires Execution(trace, steps) && j < k < |trace| && Announces(trace, steps, j)
    requires forall i :: j < i < k ==> !Announces(trace, steps, i)
    ensures trace[k].epoch == trace[j + 1].epoch < 0x100
  {
    hide Inv, Moves, Publishes, Execution, Enabled;
    Moved(trace, steps, k - 1);
    EpochStep(trace[k - 1], steps[k - 1], trace[k]);
    if k > j + 1 {
      assert !Announces(trace, steps, k - 1);
      EpochHolds(trace, steps, j, k - 1);
    }
  }

  /** Trackers can tell a new layout from the one before: its epoch is the next one, and different. */
  lemma NextEpochDiffers(trace: seq<State>, steps: seq<Step>, j: nat, k: nat)
    requires Execution(trace, steps) && j < k < |steps| && Announces(trace, steps, j) && Announces(trace, steps, k)
    requires forall i :: j < i < k ==> !Announces(trace, steps, i)
    ensures trace[k + 1].epoch == (trace[j + 1].epoch + 1) % 0x100 != trace[j + 1].epoch
  {
    EpochHolds(trace, steps, j, k);
    Moved(trace, steps, k);
    hide Inv, Moves, Publishes, Execution, Enabled;
    EpochStep(trace[k], steps[k], trace[k + 1]);
  }

  // ----- The cohort -----

  /** What arms the deadline, and for when. */
  ghost predicate ArmedBy(s: State, step: Step, deadline: int) {
    || (step.Observe? && Hears(s, step, step.id) && step.id !in s.desired && deadline == step.now + 101)
    || (Merges(s, step) && deadline == step.now)
  }

  lemma {:induction false} ForgetFromArmed(s: State, n: nat)
    ensures ForgetFrom(s, n).armed ==> s.armed && ForgetFrom(s, n).deadline == s.deadline
    decreases TRACKERS - n
  {
    if n < TRACKERS { ForgetFromArmed(Forget(s, n), n + 1); }
  }

  lemma ArmedStep(s: State, step: Step, t: State)
    requires Moves(s, step, t) && t.armed
    ensures if s.armed then t.deadline == s.deadline else ArmedBy(s, step, t.deadline)
  {
    match step
    case RemoveAll(_) => ForgetFromArmed(s, 0); hide ForgetFrom;
    case Merge(now) => MergedArms(s, now); hide Merged;
    case Layout(_, _, _) => LayoutArms(s, step, t); hide Pass, Merged;
    case _ =>
  }

  lemma LayoutArms(s: State, step: Step, t: State)
    requires Moves(s, step, t) && step.Layout? && t.armed
    ensures if s.armed then t.deadline == s.deadline else ArmedBy(s, step, t.deadline)
  {
    hide Decide, Merged;
    MergedArms(s, step.now);
    SampledLevels(s, step.forced, step.again, step.now);
    DecideArms(Judged(s, step), step.forced, step.again, step.now);
  }

  lemma MergedArms(s: State, now: int)
    ensures var t := Merged(s, now); t.armed ==> t.deadline == if s.armed then s.deadline else now
  {
  }

  lemma DecideArms(s: State, forced: bool, again: bool, now: int)
    requires s.level <= LossLadder.MAX_LEVEL
    ensures var t := Decide(s, forced, again, now).0; t.armed ==> s.armed && t.deadline == s.deadline
  {
    hide Width, Count, Defers;
  }

  /** Step `j` set the deadline that has been standing since. */
  ghost predicate ArmedSince(trace: seq<State>, steps: seq<Step>, j: nat, n: nat)
    requires n < |trace| == |steps| + 1
  {
    && j < n && !trace[j].armed && ArmedBy(trace[j], steps[j], trace[n].deadline)
    && forall i :: j < i <= n ==> trace[i].armed && trace[i].deadline == trace[n].deadline
  }

  /** A deadline is set once, 101 ms after the first packet of a joining tracker or by a merge for its own time, and
      not moved by others that join meanwhile. */
  lemma {:induction false} DeadlineWasSet(trace: seq<State>, steps: seq<Step>, n: nat) returns (j: nat)
    requires Execution(trace, steps) && n < |trace| && trace[n].armed
    ensures |trace| == |steps| + 1 && ArmedSince(trace, steps, j, n)
  {
    hide Inv, Moves, Execution, ArmedBy;
    NotArmedAtFirst(trace, steps);
    Moved(trace, steps, n - 1);
    ArmedStep(trace[n - 1], steps[n - 1], trace[n]);
    if trace[n - 1].armed { j := DeadlineWasSet(trace, steps, n - 1); } else { j := n - 1; }
  }

  lemma NotArmedAtFirst(trace: seq<State>, steps: seq<Step>)
    requires Execution(trace, steps)
    ensures |trace| > 0 && !trace[0].armed
  {
  }

  /** An unforced new membership goes out no earlier than the deadline of its cohort. */
  lemma CohortIsWaitedFor(trace: seq<State>, steps: seq<Step>, n: nat) returns (j: nat)
    requires Execution(trace, steps) && n < |steps| && steps[n].Layout? && !steps[n].forced && trace[n].armed
    requires Enabled(trace[n], steps[n]) && Publishes(trace[n], steps[n])
    requires Judged(trace[n], steps[n]).desired != trace[n].active
    ensures |trace| == |steps| + 1 && ArmedSince(trace, steps, j, n) && steps[n].now >= trace[n].deadline
  {
    j := DeadlineWasSet(trace, steps, n);
    UnforcedWaits(trace[n], steps[n]);
    MergedKeeps(trace[n], steps[n].now);
    MergedActive(trace[n], steps[n].now);
    hide Execution, Publishes, Merged, Enabled;
  }

  lemma MergedActive(s: State, now: int)
    ensures Merged(s, now).active == s.active
    ensures s.armed && Merged(s, now).desired != s.active ==> Merged(s, now).armed
  {
  }

  /** The sleep is no longer than needed: a change of membership looked at earlier is held back. */
  lemma WakesNotTooLate(trace: seq<State>, steps: seq<Step>, j: nat, k: nat, now: int, maximum: nat, again: bool, later: int)
    requires Execution(trace, steps) && j <= k <= |steps| && forall i :: j <= i < k ==> Quiet(steps[i])
    requires trace[j].armed && !trace[j].admin
    requires now <= later < now + WaitMs(trace[j], now, maximum)
    ensures Enabled(trace[k], Layout(false, again, later))
    ensures var u := Judged(trace[k], Layout(false, again, later));
      u.desired != u.active ==> Pass(trace[k], false, again, later).1.Deferred?
  {
    ReachableInv(trace, steps, k);
    SleepKeepsDeadline(trace, steps, j, k);
    MergedKeeps(trace[k], later);
    MergedActive(trace[k], later);
    SampledLevels(trace[k], false, again, later);
    hide Merged, Width, Count, Execution;
  }

  // ----- Gaining a slot -----

  /** Step `k` is the last packet heard of tracker `i`. */
  ghost predicate LastHeard(trace: seq<State>, steps: seq<Step>, k: nat, n: nat, i: nat)
    requires n < |trace| == |steps| + 1
  {
    && k < n && Hears(trace[k], steps[k], i) && Seen(trace[n], i) == steps[k].now && i in trace[n].lastSeen
    && forall j :: k < j < n ==> !Hears(trace[j], steps[j], i)
  }

  lemma {:induction false} EvidenceWasHeard(trace: seq<State>, steps: seq<Step>, n: nat, i: nat) returns (k: nat)
    requires Execution(trace, steps) && n < |trace| && i in trace[n].evidence
    ensures |trace| == |steps| + 1 && LastHeard(trace, steps, k, n, i)
  {
    hide Inv, Moves, Execution, Seen;
    NobodyAtFirst(trace, steps);
    Moved(trace, steps, n - 1);
    StepSeen(trace[n - 1], steps[n - 1], trace[n], i);
    if Hears(trace[n - 1], steps[n - 1], i) { k := n - 1; } else { k := EvidenceWasHeard(trace, steps, n - 1, i); }
  }

  lemma NobodyAtFirst(trace: seq<State>, steps: seq<Step>)
    requires Execution(trace, steps)
    ensures |trace| > 0 && trace[0].evidence == {}
  {
  }

  /** A tracker that gains a slot, other than by a removal in progress, was heard less than 6 s before. */
  lemma SlotGained(trace: seq<State>, steps: seq<Step>, n: nat, i: nat) returns (k: nat)
    requires Execution(trace, steps) && n < |steps| && i !in trace[n].active && i in trace[n + 1].active
    requires steps[n].Layout? ==> !steps[n].forced
    ensures |trace| == |steps| + 1 && LastHeard(trace, steps, k, n, i)
    ensures steps[n].Layout? && steps[n].now - steps[k].now < 6000
  {
    Moved(trace, steps, n);
    StepLeaves(trace[n], steps[n], trace[n + 1], i);
    GainNeedsMerge(trace, steps, n, i);
    MergedMembers(trace[n], steps[n].now, i);
    k := EvidenceWasHeard(trace, steps, n, i);
    hide Inv, Moves, Execution, Merged;
  }

  lemma GainNeedsMerge(trace: seq<State>, steps: seq<Step>, n: nat, i: nat)
    requires Execution(trace, steps) && n < |steps| && i !in trace[n].active && i in trace[n + 1].active
    requires steps[n].Layout? ==> !steps[n].forced
    ensures steps[n].Layout? && i in Merged(trace[n], steps[n].now).desired
  {
    Moved(trace, steps, n);
    var s, step := trace[n], steps[n];
    hide Execution, Inv, Merged;
    match step
    case RemoveAll(_) => ForgetFromKeeps(s, 0); hide ForgetFrom;
    case Merge(now) => MergedActive(s, now);
    case Layout(forced, again, now) =>
      MergedActive(s, now);
      PassOutcome(trace, steps, n);
      hide Pass, SlotTicks, MustWait, Wanted;
    case _ =>
  }
}
