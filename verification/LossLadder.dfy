/**
 The loss controller: once a second it looks at the receipts and gaps of that second and, on sustained
 loss or sustained quiet, asks for the next step of the opportunity ladder.
 */
module LossLadder {
  const LEVELS: seq<nat> := [220, 180, 150, 130, 115]
  const MAX_LEVEL := 4
  const TRIGGER_PERMILLE := 200
  const TRIGGER_TICKS := 5
  const RECOVER_PERMILLE := 50
  const RECOVER_TICKS := 10
  const PROBE_PERMILLE := 100
  const PROBE_TICKS := 60
  const MIN_SAMPLES := 100

  /** Receipts and gaps of one second. */
  datatype Sample = Sample(received: nat, gaps: nat)

  datatype Ladder = Ladder(level: nat, published: nat, trigger: nat, recover: nat, probe: nat,
                           received: nat, gaps: nat, ticks: nat, ready: bool)

  /**
   `disturbed` covers discontinuities, missing participants and every excluded mode; `armed` says that all
   active trackers are ready. Membership, Publish, Revert and Forget are the layout owner's actions.
   */
  datatype Event =
    | Tick(sample: Sample, disturbed: bool, collecting: bool, armed: bool)
    | Membership
    | Publish
    | Revert
    | Forget

  const INITIAL := Ladder(0, 0, 0, 0, 0, 0, 0, 0, false)

  function Clear(s: Ladder): Ladder { s.(trigger := 0, recover := 0, probe := 0, received := 0, gaps := 0, ticks := 0) }

  predicate Empty(t: Sample) { t.received + t.gaps == 0 }

  /** Ticks that may contribute: undisturbed, after the common starting point, with no step outstanding. */
  predicate Counts(s: Ladder, e: Event) {
    e.Tick? && !e.disturbed && !e.collecting && s.ready && s.level == s.published && !Empty(e.sample)
  }

  function Least(a: nat, b: nat): nat { if a < b then a else b }

  function Streak(hit: bool, streak: nat, credit: nat, limit: nat): nat {
    if hit then Least(streak + credit, limit) else 0
  }

  function Judge(s: Ladder): Ladder {
    var samples := s.received + s.gaps;
    var scaled := s.gaps * 1000;
    var t := s.(received := 0, gaps := 0, ticks := 0,
                trigger := Streak(scaled > TRIGGER_PERMILLE * samples, s.trigger, s.ticks, TRIGGER_TICKS),
                recover := Streak(scaled < RECOVER_PERMILLE * samples, s.recover, s.ticks, RECOVER_TICKS),
                probe := Streak(scaled < PROBE_PERMILLE * samples, s.probe, s.ticks, PROBE_TICKS));
    if t.trigger >= TRIGGER_TICKS && t.level < MAX_LEVEL then Clear(t.(level := t.level + 1))
    else if (t.recover >= RECOVER_TICKS || t.probe >= PROBE_TICKS) && t.level > 0 then Clear(t.(level := t.level - 1))
    else t
  }

  function Pool(s: Ladder, t: Sample): Ladder {
    s.(received := s.received + t.received, gaps := s.gaps + t.gaps, ticks := s.ticks + 1)
  }

  function Do(s: Ladder, e: Event): Ladder {
    match e
    case Tick(sample, disturbed, collecting, armed) =>
      var t := if collecting then s.(level := s.published) else s;
      if disturbed || collecting then Clear(t.(ready := armed))
      else if !t.ready then Clear(t.(ready := true))
      else if t.level != t.published || Empty(sample) then Clear(t)
      else
        var u := Pool(t, sample);
        if u.received + u.gaps < MIN_SAMPLES then u else Judge(u)
    case Membership => Clear(s.(level := 0))
    case Publish => s.(published := s.level)
    case Revert => s.(level := s.published)
    case Forget => Clear(s)
  }

  // ----- What the windows mean -----

  function Received(ts: seq<Sample>): nat { if ts == [] then 0 else Received(ts[..|ts| - 1]) + ts[|ts| - 1].received }
  function Gaps(ts: seq<Sample>): nat { if ts == [] then 0 else Gaps(ts[..|ts| - 1]) + ts[|ts| - 1].gaps }
  function Samples(ts: seq<Sample>): nat { Received(ts) + Gaps(ts) }

  function Flat(pools: seq<seq<Sample>>): seq<Sample> {
    if pools == [] then [] else Flat(pools[..|pools| - 1]) + pools[|pools| - 1]
  }

  /** Consecutive seconds cut into pools, each as short as 100 samples allow, and the rest still open. */
  datatype Cut = Cut(pools: seq<seq<Sample>>, open: seq<Sample>)

  predicate Full(pool: seq<Sample>) {
    Samples(pool) >= MIN_SAMPLES && pool != [] && Samples(pool[..|pool| - 1]) < MIN_SAMPLES
  }

  ghost predicate IsCut(c: Cut, ts: seq<Sample>) {
    && Flat(c.pools) + c.open == ts && Samples(c.open) < MIN_SAMPLES
    && forall k :: 0 <= k < |c.pools| ==> Full(c.pools[k])
  }

  function Extend(c: Cut, t: Sample): Cut {
    if Samples(c.open + [t]) < MIN_SAMPLES then Cut(c.pools, c.open + [t]) else Cut(c.pools + [c.open + [t]], [])
  }

  predicate Above(pool: seq<Sample>) { Gaps(pool) * 1000 > TRIGGER_PERMILLE * Samples(pool) }
  predicate BelowRecover(pool: seq<Sample>) { Gaps(pool) * 1000 < RECOVER_PERMILLE * Samples(pool) }
  predicate BelowProbe(pool: seq<Sample>) { Gaps(pool) * 1000 < PROBE_PERMILLE * Samples(pool) }

  datatype Test = Lossy | Clean | Quiet

  predicate Passes(test: Test, pool: seq<Sample>) {
    match test
    case Lossy => Above(pool)
    case Clean => BelowRecover(pool)
    case Quiet => BelowProbe(pool)
  }

  /** Seconds covered by the longest run of pools at the end that all pass the test. */
  function Run(pools: seq<seq<Sample>>, test: Test): nat {
    if pools == [] || !Passes(test, pools[|pools| - 1]) then 0
    else Run(pools[..|pools| - 1], test) + |pools[|pools| - 1]|
  }

  predicate AllNonempty(ts: seq<Sample>) { forall k :: 0 <= k < |ts| ==> !Empty(ts[k]) }

  ghost predicate Inv(s: Ladder, c: Cut) {
    && s.level <= MAX_LEVEL && s.published <= MAX_LEVEL
    && s.received == Received(c.open) && s.gaps == Gaps(c.open) && s.ticks == |c.open|
    && Samples(c.open) < MIN_SAMPLES && AllNonempty(c.open)
    && s.trigger == Least(Run(c.pools, Lossy), TRIGGER_TICKS)
    && s.recover == Least(Run(c.pools, Clean), RECOVER_TICKS)
    && s.probe == Least(Run(c.pools, Quiet), PROBE_TICKS)
  }

  const NO_CUT := Cut([], [])

  /** The cut of the seconds since the windows were last cleared. */
  function Watch(c: Cut, s: Ladder, e: Event): Cut {
    if e.Publish? || e.Revert? then c
    else if Counts(s, e) && Do(s, e).level == s.level then Extend(c, e.sample)
    else NO_CUT
  }

  lemma SnocTick(ts: seq<Sample>, t: Sample)
    ensures Received(ts + [t]) == Received(ts) + t.received && Gaps(ts + [t]) == Gaps(ts) + t.gaps
  {
    assert (ts + [t])[..|ts|] == ts;
  }

  lemma RunSnoc(pools: seq<seq<Sample>>, pool: seq<Sample>, test: Test)
    ensures Run(pools + [pool], test) == if Passes(test, pool) then Run(pools, test) + |pool| else 0
  {
    assert (pools + [pool])[..|pools|] == pools;
  }

  /** Every nonempty second adds a sample, so a pool never spans more than a hundred of them. */
  lemma {:induction false} PoolIsShort(ts: seq<Sample>)
    requires AllNonempty(ts)
    ensures |ts| <= Samples(ts)
  {
    if ts != [] {
      assert AllNonempty(ts[..|ts| - 1]);
      PoolIsShort(ts[..|ts| - 1]);
      assert !Empty(ts[|ts| - 1]);
    }
  }

  /** Streaks, pool and level after one contributing second. */
  lemma CountingTick(s: Ladder, c: Cut, e: Event)
    requires Inv(s, c) && Counts(s, e)
    ensures var d, t := Extend(c, e.sample), Do(s, e);
      && |c.open| + 1 <= MIN_SAMPLES
      && (t.level == s.level + 1 <==> d.open == [] && Run(d.pools, Lossy) >= TRIGGER_TICKS && s.level < MAX_LEVEL)
      && (t.level == s.level - 1 <==>
            d.open == [] && (Run(d.pools, Clean) >= RECOVER_TICKS || Run(d.pools, Quiet) >= PROBE_TICKS) && s.level > 0)
      && s.level - 1 <= t.level <= s.level + 1 && t.published == s.published
      && (t.level == s.level ==> Inv(t, d))
      && (t.level != s.level ==> t == Clear(t))
  {
    var d := Extend(c, e.sample);
    SnocTick(c.open, e.sample);
    PoolIsShort(c.open);
    assert AllNonempty(c.open + [e.sample]);
    var pool := c.open + [e.sample];
    hide Run, Received, Gaps;
    NothingOpen();
    if Samples(pool) >= MIN_SAMPLES { JudgeSteps(Pool(s, e.sample), c.pools, pool); }
    hide Judge, Streak, AllNonempty;
  }

  lemma NothingOpen()
    ensures Samples([]) == 0 && AllNonempty([]) && Received([]) == 0 && Gaps([]) == 0
  {
  }

  /** Judging a full pool continues each streak by the pool's seconds, or ends it. */
  lemma JudgeSteps(u: Ladder, pools: seq<seq<Sample>>, pool: seq<Sample>)
    requires u.received == Received(pool) && u.gaps == Gaps(pool) && u.ticks == |pool| && Samples(pool) >= MIN_SAMPLES
    requires u.trigger == Least(Run(pools, Lossy), TRIGGER_TICKS)
    requires u.recover == Least(Run(pools, Clean), RECOVER_TICKS)
    requires u.probe == Least(Run(pools, Quiet), PROBE_TICKS)
    ensures var t, all := Judge(u), pools + [pool];
      && (t.level == u.level + 1 <==> Run(all, Lossy) >= TRIGGER_TICKS && u.level < MAX_LEVEL)
      && (t.level == u.level - 1 <==> (Run(all, Clean) >= RECOVER_TICKS || Run(all, Quiet) >= PROBE_TICKS) && u.level > 0)
      && u.level - 1 <= t.level <= u.level + 1 && t.published == u.published
      && (t.level != u.level ==> t == Clear(t))
      && (t.level == u.level ==>
            && t.received == t.gaps == t.ticks == 0
            && t.trigger == Least(Run(all, Lossy), TRIGGER_TICKS)
            && t.recover == Least(Run(all, Clean), RECOVER_TICKS)
            && t.probe == Least(Run(all, Quiet), PROBE_TICKS))
  {
    RunSnoc(pools, pool, Lossy);
    RunSnoc(pools, pool, Clean);
    RunSnoc(pools, pool, Quiet);
    hide Run, Received, Gaps;
  }

  lemma StepInv(s: Ladder, c: Cut, e: Event)
    requires Inv(s, c)
    ensures Inv(Do(s, e), Watch(c, s, e))
  {
    if Counts(s, e) {
      CountingTick(s, c, e);
      hide Judge, Extend;
    }
  }

  // ----- Whole runs -----

  function StateOf(h: seq<Event>): Ladder {
    if h == [] then INITIAL else Do(StateOf(h[..|h| - 1]), h[|h| - 1])
  }

  function CutOf(h: seq<Event>): Cut {
    if h == [] then NO_CUT else Watch(CutOf(h[..|h| - 1]), StateOf(h[..|h| - 1]), h[|h| - 1])
  }

  /** The contributing seconds since the windows were last cleared, one after another. */
  function SecondsOf(h: seq<Event>): seq<Sample> {
    if h == [] then []
    else
      var s, e := StateOf(h[..|h| - 1]), h[|h| - 1];
      if e.Publish? || e.Revert? then SecondsOf(h[..|h| - 1])
      else if Counts(s, e) && Do(s, e).level == s.level then SecondsOf(h[..|h| - 1]) + [e.sample]
      else []
  }

  lemma FlatSnoc(pools: seq<seq<Sample>>, pool: seq<Sample>)
    ensures Flat(pools + [pool]) == Flat(pools) + pool
  {
    assert (pools + [pool])[..|pools|] == pools;
  }

  lemma ExtendIsCut(c: Cut, ts: seq<Sample>, t: Sample)
    requires IsCut(c, ts)
    ensures IsCut(Extend(c, t), ts + [t])
  {
    var pool := c.open + [t];
    assert pool[..|c.open|] == c.open;
    FlatSnoc(c.pools, pool);
    assert Flat(c.pools) + pool == ts + [t];
  }

  lemma {:induction false} RunInv(h: seq<Event>)
    ensures Inv(StateOf(h), CutOf(h)) && IsCut(CutOf(h), SecondsOf(h))
  {
    if h != [] {
      var front, e := h[..|h| - 1], h[|h| - 1];
      RunInv(front);
      hide Inv, Do, IsCut, Extend, Counts;
      StepInv(StateOf(front), CutOf(front), e);
      if Counts(StateOf(front), e) { ExtendIsCut(CutOf(front), SecondsOf(front), e.sample); }
      EmptyCut();
    }
  }

  lemma EmptyCut()
    ensures IsCut(NO_CUT, [])
  {
  }

  lemma {:induction false} RunWitness(pools: seq<seq<Sample>>, test: Test) returns (k: nat)
    ensures k <= |pools| && |Flat(pools[k..])| == Run(pools, test)
    ensures forall j :: k <= j < |pools| ==> Passes(test, pools[j])
  {
    if pools == [] || !Passes(test, pools[|pools| - 1]) {
      k := |pools|;
    } else {
      var front := pools[..|pools| - 1];
      k := RunWitness(front, test);
      assert pools[k..] == front[k..] + [pools[|pools| - 1]];
      FlatSnoc(front[k..], pools[|pools| - 1]);
      forall j | k <= j < |pools| ensures Passes(test, pools[j]) {
        if j < |front| { assert Passes(test, front[j]); }
      }
    }
  }

  /** Pools `k` and later, all full and all passing `test`, cover at least `ticks` of the latest seconds. */
  ghost predicate Backed(c: Cut, seconds: seq<Sample>, test: Test, k: nat, ticks: nat) {
    && IsCut(c, seconds) && c.open == [] && k <= |c.pools| && |Flat(c.pools[k..])| >= ticks
    && forall j :: k <= j < |c.pools| ==> Passes(test, c.pools[j])
  }

  lemma Back(c: Cut, seconds: seq<Sample>, test: Test, ticks: nat) returns (k: nat)
    requires IsCut(c, seconds) && c.open == [] && Run(c.pools, test) >= ticks
    ensures Backed(c, seconds, test, k, ticks)
  {
    k := RunWitness(c.pools, test);
  }

  /**
   After any history the controller changes the level by at most one, only from a published level, and a
   change is backed by consecutive seconds without any idle or disturbed one in between: down by at least 5
   in full pools all above 20 %, up by at least 10 below 5 % or at least 60 below 10 %.
   */
  lemma StepIsBacked(h: seq<Event>, e: Event) returns (test: Test, k: nat)
    requires e.Tick? && !e.collecting && Do(StateOf(h), e).level != StateOf(h).level
    ensures var s, t := StateOf(h), Do(StateOf(h), e);
      && s.level == s.published && Counts(s, e)
      && (t.level == s.level + 1 <= MAX_LEVEL || t.level == s.level - 1)
      && (t.level > s.level <==> test.Lossy?)
      && var ticks := match test case Lossy => TRIGGER_TICKS case Clean => RECOVER_TICKS case Quiet => PROBE_TICKS;
         Backed(Extend(CutOf(h), e.sample), SecondsOf(h) + [e.sample], test, k, ticks)
  {
    RunInv(h);
    var s, c := StateOf(h), CutOf(h);
    CountingTick(s, c, e);
    ExtendIsCut(c, SecondsOf(h), e.sample);
    var d, seconds := Extend(c, e.sample), SecondsOf(h) + [e.sample];
    hide StateOf, CutOf, SecondsOf, Inv, IsCut, Extend, Run;
    if Do(s, e).level > s.level {
      test := Lossy;
      k := Back(d, seconds, Lossy, TRIGGER_TICKS);
    } else if Run(d.pools, Clean) >= RECOVER_TICKS {
      test := Clean;
      k := Back(d, seconds, Clean, RECOVER_TICKS);
    } else {
      test := Quiet;
      k := Back(d, seconds, Quiet, PROBE_TICKS);
    }
  }

  /** The level stays on the ladder and the eight-bit pool counter never reaches 100 between judgements. */
  lemma CountersFit(h: seq<Event>)
    ensures StateOf(h).level <= MAX_LEVEL && StateOf(h).published <= MAX_LEVEL && StateOf(h).ticks < MIN_SAMPLES
  {
    RunInv(h);
    PoolIsShort(CutOf(h).open);
    hide StateOf, CutOf;
  }

  /** All active trackers were ready at the last disturbed second, or an undisturbed one has set the starting point since. */
  function Armed(h: seq<Event>): bool {
    if h == [] then false
    else match h[|h| - 1]
      case Tick(_, disturbed, collecting, armed) => armed || (!disturbed && !collecting)
      case _ => Armed(h[..|h| - 1])
  }

  /** The level that was asked for when the layout was last published. */
  function LastPublished(h: seq<Event>): nat {
    if h == [] then 0
    else if h[|h| - 1].Publish? then StateOf(h[..|h| - 1]).level
    else LastPublished(h[..|h| - 1])
  }

  lemma ReadyStep(s: Ladder, e: Event)
    ensures Do(s, e).ready == if e.Tick? then e.armed || (!e.disturbed && !e.collecting) else s.ready
    ensures Do(s, e).published == if e.Publish? then s.level else s.published
  {
    hide Judge;
    if e.Tick? { JudgeFrame(Pool(s, e.sample)); }
  }

  lemma {:induction false} ReadyOf(h: seq<Event>)
    ensures StateOf(h).ready == Armed(h) && StateOf(h).published == LastPublished(h)
  {
    hide Do;
    if h != [] {
      ReadyOf(h[..|h| - 1]);
      ReadyStep(StateOf(h[..|h| - 1]), h[|h| - 1]);
    }
  }

  /** Which seconds contribute depends on the history only as described: a starting point since the last disturbance, and
      no step outstanding since the last publication. */
  lemma CountsIff(h: seq<Event>, e: Event)
    ensures Counts(StateOf(h), e) <==>
      && e.Tick? && !e.disturbed && !e.collecting && e.sample.received + e.sample.gaps > 0
      && Armed(h) && StateOf(h).level == LastPublished(h)
  {
    hide StateOf, Armed, LastPublished;
    ReadyOf(h);
  }

  lemma JudgeFrame(s: Ladder)
    ensures Judge(s).ready == s.ready && Judge(s).published == s.published
  {
  }

  /** Apart from a contributing second, the level moves only to 0 with a new membership, and back to the published one
      when a step is taken back or raw data are collected. */
  lemma LevelMoves(h: seq<Event>, e: Event)
    requires !Counts(StateOf(h), e)
    ensures StateOf(h + [e]).level ==
      if e.Membership? then 0
      else if e.Revert? || (e.Tick? && e.collecting) then LastPublished(h)
      else StateOf(h).level
    ensures e.Publish? ==> LastPublished(h + [e]) == StateOf(h).level
    ensures !e.Publish? && !e.Revert? ==> SecondsOf(h + [e]) == []
  {
    assert (h + [e])[..|h|] == h;
    ReadyOf(h);
    hide Judge;
  }

  // ----- The controller -----

  datatype Counter = Counter(received: nat, gaps: nat, restarts: nat)

  predicate Broken(was: Counter, now: Counter) {
    now.received < was.received || now.gaps < was.gaps || now.restarts != was.restarts
  }

  /** This second's receipts and gaps of the first `n` trackers that are active and unbroken. */
  function Since(active: seq<bool>, was: seq<Counter>, now: seq<Counter>, n: nat): Sample
    requires n <= |active| == |was| == |now|
  {
    if n == 0 then Sample(0, 0)
    else
      var t := Since(active, was, now, n - 1);
      if !active[n - 1] || Broken(was[n - 1], now[n - 1]) then t
      else Sample(t.received + (now[n - 1].received - was[n - 1].received), t.gaps + (now[n - 1].gaps - was[n - 1].gaps))
  }

  /** The tracker takes part in this second's loss. */
  predicate Included(active: seq<bool>, was: seq<Counter>, now: seq<Counter>, i: nat)
    requires i < |active| == |was| == |now|
  {
    active[i] && was[i].received <= now[i].received && was[i].gaps <= now[i].gaps && was[i].restarts == now[i].restarts
  }

  /** All receipts that `cs` counts for the included ones of the first `n` trackers. */
  function Receipts(cs: seq<Counter>, active: seq<bool>, was: seq<Counter>, now: seq<Counter>, n: nat): nat
    requires n <= |cs| == |active| == |was| == |now|
  {
    if n == 0 then 0
    else Receipts(cs, active, was, now, n - 1) + if Included(active, was, now, n - 1) then cs[n - 1].received else 0
  }

  /** Likewise for the gaps. */
  function GapCount(cs: seq<Counter>, active: seq<bool>, was: seq<Counter>, now: seq<Counter>, n: nat): nat
    requires n <= |cs| == |active| == |was| == |now|
  {
    if n == 0 then 0
    else GapCount(cs, active, was, now, n - 1) + if Included(active, was, now, n - 1) then cs[n - 1].gaps else 0
  }

  /** The second's sample is what the totals of the included trackers have grown by, receipts by receipts and gaps by gaps. */
  lemma {:induction false} SinceIsGrowth(active: seq<bool>, was: seq<Counter>, now: seq<Counter>, n: nat)
    requires n <= |active| == |was| == |now|
    ensures Receipts(now, active, was, now, n) == Receipts(was, active, was, now, n) + Since(active, was, now, n).received
    ensures GapCount(now, active, was, now, n) == GapCount(was, active, was, now, n) + Since(active, was, now, n).gaps
  {
    if n > 0 { SinceIsGrowth(active, was, now, n - 1); }
  }

  /** With one tracker included, the sample is that tracker's own difference; the others do not show in it. */
  lemma {:induction false} SoleTracker(active: seq<bool>, was: seq<Counter>, now: seq<Counter>, n: nat, i: nat)
    requires i < |active| == |was| == |now| && n <= |now|
    requires Included(active, was, now, i) && forall j :: 0 <= j < |now| && j != i ==> !Included(active, was, now, j)
    ensures Since(active, was, now, n) ==
      if i < n then Sample(now[i].received - was[i].received, now[i].gaps - was[i].gaps) else Sample(0, 0)
  {
    if n > 0 {
      SoleTracker(active, was, now, n - 1, i);
      assert Included(active, was, now, n - 1) <==> n - 1 == i;
    }
  }

  class Controller {
    var state: Ladder

    constructor ()
      ensures state == INITIAL
    {
      state := INITIAL;
    }

    /** Snapshots always advance, so that an excluded interval never turns into one second's loss. */
    method Collect(active: seq<bool>, previous: array<Counter>, now: seq<Counter>) returns (second: Sample, broken: bool)
      requires |active| == previous.Length == |now|
      modifies previous
      ensures previous[..] == now && second == Since(active, old(previous[..]), now, |now|)
      ensures Receipts(now, active, old(previous[..]), now, |now|)
        == Receipts(old(previous[..]), active, old(previous[..]), now, |now|) + second.received
      ensures GapCount(now, active, old(previous[..]), now, |now|)
        == GapCount(old(previous[..]), active, old(previous[..]), now, |now|) + second.gaps
      ensures broken <==> exists i :: 0 <= i < |now| && active[i] && Broken(old(previous[i]), now[i])
    {
      second, broken := Sample(0, 0), false;
      var i := 0;
      while i < |now|
        invariant i <= |now| && second == Since(active, old(previous[..]), now, i)
        invariant forall k :: 0 <= k < |now| ==> previous[k] == if k < i then now[k] else old(previous[k])
        invariant broken <==> exists k :: 0 <= k < i && active[k] && Broken(old(previous[k]), now[k])
        modifies previous
      {
        var was := previous[i];
        previous[i] := now[i];
        if active[i] {
          if Broken(was, now[i]) {
            broken := true;
          } else {
            second := Sample(second.received + (now[i].received - was.received), second.gaps + (now[i].gaps - was.gaps));
          }
        }
        i := i + 1;
      }
      SinceIsGrowth(active, old(previous[..]), now, |now|);
    }

    method ClearWindows()
      modifies this
      ensures state == Clear(old(state))
    {
      state := state.(trigger := 0, recover := 0, probe := 0, received := 0, gaps := 0, ticks := 0);
    }

    method Update(second: Sample, disturbed: bool, collecting: bool, armed: bool)
      modifies this
      ensures state == Do(old(state), Tick(second, disturbed, collecting, armed))
    {
      hide Streak;
      if collecting { state := state.(level := state.published); }
      if disturbed || collecting {
        state := state.(ready := armed);
        ClearWindows();
        return;
      }
      if !state.ready {
        state := state.(ready := true);
        ClearWindows();
        return;
      }
      if state.level != state.published || second.received + second.gaps == 0 {
        ClearWindows();
        return;
      }
      state := state.(received := state.received + second.received, gaps := state.gaps + second.gaps, ticks := state.ticks + 1);
      var samples := state.received + state.gaps;
      if samples < MIN_SAMPLES { return; }
      var scaled, credit := state.gaps * 1000, state.ticks;
      state := state.(received := 0, gaps := 0, ticks := 0,
                      trigger := Streak(scaled > TRIGGER_PERMILLE * samples, state.trigger, credit, TRIGGER_TICKS),
                      recover := Streak(scaled < RECOVER_PERMILLE * samples, state.recover, credit, RECOVER_TICKS),
                      probe := Streak(scaled < PROBE_PERMILLE * samples, state.probe, credit, PROBE_TICKS));
      if state.trigger >= TRIGGER_TICKS && state.level < MAX_LEVEL {
        state := state.(level := state.level + 1);
        ClearWindows();
      } else if (state.recover >= RECOVER_TICKS || state.probe >= PROBE_TICKS) && state.level > 0 {
        state := state.(level := state.level - 1);
        ClearWindows();
      }
    }
  }
}
