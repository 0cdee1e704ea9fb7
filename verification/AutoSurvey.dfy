/**
 The channel survey: every even channel and the home channel are measured twelve times in random order,
 then home and up to three finalists twenty-four times more, and only then may a move be requested.
 */
module AutoSurvey {
  import opened AutoPolicy

  const SCAN_ROUNDS := 12
  const CONFIRM_ROUNDS := 24
  const MAX_ATTEMPTS := 384
  const FINALISTS := 3

  datatype Energy = Energy(attempts: nat, visits: nat, peak: int)

  /** `readings` is history: every clean reading of each channel. */
  datatype Survey = Survey(
    active: bool,
    confirming: bool,
    home: nat,
    finalists: set<nat>,
    order: seq<nat>,
    candidate: nat,
    energy: seq<Energy>,
    scores: seq<int>,
    readings: seq<seq<nat>>)

  /** A measurement gives the strongest reading, or is discarded because of paired traffic. */
  datatype Visit = Reading(peak: nat) | Censored

  function Required(s: Survey): nat { SCAN_ROUNDS + if s.confirming then CONFIRM_ROUNDS else 0 }

  predicate Even(ch: nat) { ch <= 88 && ch % 2 == 0 }

  predicate InSurvey(s: Survey, ch: nat) { !s.confirming || ch == s.home || (Even(ch) && ch in s.finalists) }

  predicate Sized(s: Survey) {
    |s.energy| == CHANNELS && |s.scores| == CHANNELS && |s.readings| == CHANNELS && s.home < CHANNELS
  }

  /** Channels the next round must visit. */
  predicate Wanted(s: Survey, ch: nat)
    requires Sized(s)
  {
    ch < CHANNELS && (Even(ch) || ch == s.home) && InSurvey(s, ch) && s.energy[ch].visits < Required(s)
  }

  predicate Distinct(q: seq<nat>) { forall i, j :: 0 <= i < j < |q| ==> q[i] != q[j] }

  /** An order for the next round: every wanted channel once, nothing else. */
  predicate IsOrder(s: Survey, order: seq<nat>)
    requires Sized(s)
  {
    && Distinct(order) && (forall k :: 0 <= k < |order| ==> Wanted(s, order[k]))
    && (forall ch :: 0 <= ch < CHANNELS && Wanted(s, ch) ==> ch in order)
  }

  function Idle(home: nat): Survey {
    Survey(false, false, home, {}, [], 0, Fill(CHANNELS, Energy(0, 0, -1)), Fill(CHANNELS, -1), Fill(CHANNELS, []))
  }

  function Fill<T>(n: nat, x: T): (q: seq<T>)
    ensures |q| == n && forall i :: 0 <= i < n ==> q[i] == x
  {
    if n == 0 then [] else Fill(n - 1, x) + [x]
  }

  function Measured(s: Survey, visit: Visit): Survey
    requires Sized(s) && s.candidate < |s.order| && s.order[s.candidate] < CHANNELS
  {
    var ch := s.order[s.candidate];
    var e := s.energy[ch];
    match visit
    case Censored => s.(energy := s.energy[ch := e.(attempts := e.attempts + 1)])
    case Reading(v) =>
      var peak := if e.peak < 0 || v < e.peak then v else e.peak;
      s.(energy := s.energy[ch := Energy(e.attempts + 1, e.visits + 1, peak)],
         scores := s.scores[ch := peak],
         readings := s.readings[ch := s.readings[ch] + [v]])
  }

  predicate Surveyed(s: Survey, ch: nat) { ch < CHANNELS && (Even(ch) || ch == s.home) && InSurvey(s, ch) }

  predicate Complete(s: Survey)
    requires Sized(s)
  {
    forall ch :: 0 <= ch < CHANNELS && Surveyed(s, ch) ==> s.energy[ch].visits == Required(s)
  }

  predicate Exhausted(s: Survey)
    requires Sized(s)
  {
    exists ch :: 0 <= ch < CHANNELS && Surveyed(s, ch) && s.energy[ch].attempts >= MAX_ATTEMPTS && s.energy[ch].visits < Required(s)
  }

  /** The best channels one after another, at most `n`. */
  function Pick(peers: seq<Peer>, home: nat, scores: seq<int>, now: int, n: nat): (picked: seq<nat>)
    requires |scores| == CHANNELS
    ensures |picked| <= n && forall k :: 0 <= k < |picked| ==> picked[k] <= 88
    decreases n
  {
    var c := if n == 0 then -1 else Choose(peers, home, scores, now);
    if c < 0 then [] else [c] + Pick(peers, home, scores[c := -1], now, n - 1)
  }

  function Members(q: seq<nat>): set<nat> { set k | 0 <= k < |q| :: q[k] }

  function Kept(s: Survey, finalists: set<nat>, n: nat): (scores: seq<int>)
    requires Sized(s) && n <= CHANNELS
    ensures |scores| == n
    ensures forall ch :: 0 <= ch < n ==> scores[ch] == if Even(ch) && ch != s.home && ch !in finalists then -1 else s.scores[ch]
  {
    if n == 0 then [] else
      Kept(s, finalists, n - 1) + [if Even(n - 1) && n - 1 != s.home && n - 1 !in finalists then -1 else s.scores[n - 1]]
  }

  function Confirmed(s: Survey, finalists: set<nat>): Survey
    requires Sized(s)
  {
    s.(confirming := true, finalists := finalists, scores := Kept(s, finalists, CHANNELS))
  }

  datatype Decision = Continue | Requested(target: nat) | Rejected

  /** What the end of a round leads to, before a new order is drawn. */
  function Judge(s: Survey, expired: bool, peers: seq<Peer>, now: int): (Survey, Decision)
    requires Sized(s)
  {
    var picked := Pick(peers, s.home, s.scores, now, FINALISTS);
    if Complete(s) && !expired && !s.confirming && picked != [] then (Confirmed(s, Members(picked)), Continue)
    else if Complete(s) || Exhausted(s) || expired then
      var target := if Complete(s) && !expired && s.confirming then Choose(peers, s.home, s.scores, now) else -1;
      (Idle(s.home), if target >= 0 then Requested(target) else Rejected)
    else (s, Continue)
  }

  /** One measurement; `order` is the shuffled order of the next round, if one starts. */
  function Step(s: Survey, visit: Visit, expired: bool, peers: seq<Peer>, now: int, order: seq<nat>): (Survey, Decision)
    requires Sized(s) && s.candidate < |s.order| && s.order[s.candidate] < CHANNELS
  {
    var t := Measured(s, visit);
    if s.candidate + 1 < |s.order| && !expired then (t.(candidate := s.candidate + 1), Continue)
    else
      var (u, d) := Judge(t, expired, peers, now);
      (if d.Continue? then u.(candidate := 0, order := order) else u, d)
  }

  // ----- Invariant -----

  /** Strongest reading of a channel: the smallest number. */
  function Strongest(rs: seq<nat>): int {
    if rs == [] then -1
    else
      var p := Strongest(rs[..|rs| - 1]);
      if p < 0 || rs[|rs| - 1] < p then rs[|rs| - 1] else p
  }

  predicate Tallied(e: Energy, rs: seq<nat>) { e.visits == |rs| && e.peak == Strongest(rs) }

  /** Visit counts of one channel never exceed what its phase requires; confirmation starts from a full survey. */
  predicate Bounded(s: Survey, ch: nat)
    requires Sized(s) && ch < CHANNELS
  {
    && s.energy[ch].visits <= (if InSurvey(s, ch) then Required(s) else SCAN_ROUNDS)
    && (s.confirming && (Even(ch) || ch == s.home) ==> s.energy[ch].visits >= SCAN_ROUNDS)
  }

  predicate Scored(s: Survey, ch: nat)
    requires Sized(s) && ch < CHANNELS
  {
    s.scores[ch] == if InSurvey(s, ch) || !Even(ch) then s.energy[ch].peak else -1
  }

  ghost predicate Finals(s: Survey) {
    |s.finalists| <= FINALISTS && forall f :: f in s.finalists ==> Even(f) && f != s.home
  }

  /** What is left of the round's order is still wanted. */
  predicate Ordered(s: Survey)
    requires Sized(s)
  {
    s.candidate < |s.order| && Distinct(s.order) && forall k :: s.candidate <= k < |s.order| ==> Wanted(s, s.order[k])
  }

  /** The survey apart from its order. */
  ghost predicate Body(s: Survey) {
    && Sized(s) && Finals(s)
    && (forall ch :: 0 <= ch < CHANNELS ==> Tallied(s.energy[ch], s.readings[ch]))
    && (forall ch :: 0 <= ch < CHANNELS ==> Bounded(s, ch))
    && (forall ch :: 0 <= ch < CHANNELS ==> Scored(s, ch))
  }

  ghost predicate Inv(s: Survey) { Body(s) && (s.active ==> Ordered(s)) }

  lemma StrongestSnoc(rs: seq<nat>, v: nat)
    ensures Strongest(rs + [v]) == if Strongest(rs) < 0 || v < Strongest(rs) then v else Strongest(rs)
  {
    assert (rs + [v])[..|rs|] == rs;
  }

  lemma MeasuredInv(s: Survey, visit: Visit)
    requires Inv(s) && s.active
    ensures var t := Measured(s, visit);
      && Body(t) && t.home == s.home && t.active && t.order == s.order && t.candidate == s.candidate
      && forall k :: s.candidate < k < |s.order| ==> Wanted(t, s.order[k])
  {
    var t, ch := Measured(s, visit), s.order[s.candidate];
    assert Wanted(s, ch);
    if visit.Reading? { StrongestSnoc(s.readings[ch], visit.peak); }
    hide Strongest;
    forall k | s.candidate < k < |s.order| ensures Wanted(t, s.order[k]) { assert Wanted(s, s.order[k]); }
    forall c | 0 <= c < CHANNELS ensures Tallied(t.energy[c], t.readings[c]) && Bounded(t, c) && Scored(t, c) {
      assert Tallied(s.energy[c], s.readings[c]) && Bounded(s, c) && Scored(s, c);
    }
  }

  /** A measurement counts as an attempt at its channel, whatever becomes of it, and a clean one as a reading. */
  lemma VisitIsBooked(s: Survey, visit: Visit, c: nat)
    requires Sized(s) && s.candidate < |s.order| && s.order[s.candidate] < CHANNELS && c < CHANNELS
    ensures var t, here := Measured(s, visit), c == s.order[s.candidate];
      && Sized(t)
      && t.energy[c].attempts == s.energy[c].attempts + (if here then 1 else 0)
      && t.readings[c] == s.readings[c] + (if here && visit.Reading? then [visit.peak] else [])
      && (!here ==> t.energy[c] == s.energy[c] && t.scores[c] == s.scores[c])
  {
  }

  // ----- Finalists -----

  lemma EligibleWithout(peers: seq<Peer>, home: nat, scores: seq<int>, now: int, c: nat, x: nat)
    requires |scores| == CHANNELS && home < CHANNELS && c < CHANNELS && c != home
    ensures Eligible(peers, home, scores[c := -1], now, x) <==> x != c && Eligible(peers, home, scores, now, x)
  {
    hide Occupied;
  }

  /** `p` is picked on its merits. */
  ghost predicate Merited(peers: seq<Peer>, home: nat, scores: seq<int>, now: int, picked: seq<nat>, n: nat)
    requires |scores| == CHANNELS && home < CHANNELS
  {
    && Distinct(picked)
    && (forall k :: 0 <= k < |picked| ==> Eligible(peers, home, scores, now, picked[k]))
    && (forall x :: 0 <= x < CHANNELS && Eligible(peers, home, scores, now, x) && x !in picked ==>
          |picked| == n && forall k :: 0 <= k < |picked| ==> scores[x] <= scores[picked[k]])
  }

  /** The finalists are the quietest eligible channels: all of them, or three that none of the others beats. */
  lemma {:induction false} PickIsMerited(peers: seq<Peer>, home: nat, scores: seq<int>, now: int, n: nat)
    requires |scores| == CHANNELS && home < CHANNELS && scores[home] >= 0 && !Saturated(peers, now)
    ensures Merited(peers, home, scores, now, Pick(peers, home, scores, now, n), n)
    decreases n
  {
    hide Eligible, Saturated, BestBelow;
    var c := if n == 0 then -1 else Choose(peers, home, scores, now);
    forall x: nat | x < CHANNELS && Eligible(peers, home, scores, now, x)
      ensures n == 0 || (c >= 0 && scores[x] <= scores[c])
    {
      if n > 0 { ChoiceIsQuietest(peers, home, scores, now, x); }
    }
    if c >= 0 {
      ChoiceIsEligible(peers, home, scores, now);
      NotHome(peers, home, scores, now, c);
      var rest, after := Pick(peers, home, scores[c := -1], now, n - 1), scores[c := -1];
      hide Choose;
      PickIsMerited(peers, home, after, now, n - 1);
      PickStep(peers, home, scores, now, c, rest, n);
    }
  }

  lemma NotHome(peers: seq<Peer>, home: nat, scores: seq<int>, now: int, c: nat)
    requires |scores| == CHANNELS && home < CHANNELS && Eligible(peers, home, scores, now, c)
    ensures c != home && Even(c)
  {
  }

  lemma PickStep(peers: seq<Peer>, home: nat, scores: seq<int>, now: int, c: nat, rest: seq<nat>, n: nat)
    requires |scores| == CHANNELS && home < CHANNELS && c < CHANNELS && c != home && n > 0
    requires Eligible(peers, home, scores, now, c)
    requires forall x: nat :: x < CHANNELS && Eligible(peers, home, scores, now, x) ==> scores[x] <= scores[c]
    requires Merited(peers, home, scores[c := -1], now, rest, n - 1)
    ensures Merited(peers, home, scores, now, [c] + rest, n)
  {
    var picked := [c] + rest;
    forall x: nat | x < CHANNELS ensures Eligible(peers, home, scores[c := -1], now, x) <==> x != c && Eligible(peers, home, scores, now, x) {
      EligibleWithout(peers, home, scores, now, c, x);
    }
    forall k | 0 <= k < |rest| ensures rest[k] < CHANNELS && rest[k] != c && Eligible(peers, home, scores, now, rest[k]) {
      EligibleWithout(peers, home, scores, now, c, rest[k]);
      InRange(peers, home, scores[c := -1], now, rest[k]);
    }
    hide Eligible;
    assert forall k :: 0 < k < |picked| ==> picked[k] == rest[k - 1];
  }

  lemma InRange(peers: seq<Peer>, home: nat, scores: seq<int>, now: int, c: nat)
    requires |scores| == CHANNELS && home < CHANNELS && Eligible(peers, home, scores, now, c)
    ensures c < CHANNELS
  {
  }

  lemma {:induction false} MembersCount(q: seq<nat>)
    ensures |Members(q)| <= |q|
  {
    if q == [] {
      assert Members(q) == {};
    } else {
      var front := q[..|q| - 1];
      MembersCount(front);
      assert Members(q) == Members(front) + {q[|q| - 1]};
    }
  }

  // ----- Every measurement keeps the invariant -----

  lemma IdleInv(home: nat)
    requires home < CHANNELS
    ensures Inv(Idle(home)) && Body(Idle(home)) && Wanted(Idle(home), 0)
  {
  }

  lemma ConfirmedBody(s: Survey, peers: seq<Peer>, now: int)
    requires Body(s) && Complete(s) && !s.confirming
    requires var picked := Pick(peers, s.home, s.scores, now, FINALISTS); picked != []
    ensures var t := Confirmed(s, Members(Pick(peers, s.home, s.scores, now, FINALISTS)));
      Body(t) && Wanted(t, s.home)
  {
    var picked := Pick(peers, s.home, s.scores, now, FINALISTS);
    assert Choose(peers, s.home, s.scores, now) >= 0;
    ChoiceIsEligible(peers, s.home, s.scores, now);
    PickIsMerited(peers, s.home, s.scores, now, FINALISTS);
    MembersCount(picked);
    var t := Confirmed(s, Members(picked));
    hide Pick, Choose, BestBelow, Strongest, Merited;
    forall f | f in t.finalists ensures Even(f) && f != s.home {
      var k :| 0 <= k < |picked| && picked[k] == f;
      MeritedPick(peers, s.home, s.scores, now, picked, FINALISTS, k);
    }
    forall ch | 0 <= ch < CHANNELS ensures Bounded(t, ch) && Scored(t, ch) {
      assert Bounded(s, ch) && Scored(s, ch);
      assert Surveyed(s, ch) ==> s.energy[ch].visits == SCAN_ROUNDS;
    }
    assert Surveyed(s, s.home);
  }

  lemma MeritedPick(peers: seq<Peer>, home: nat, scores: seq<int>, now: int, picked: seq<nat>, n: nat, k: nat)
    requires |scores| == CHANNELS && home < CHANNELS && Merited(peers, home, scores, now, picked, n) && k < |picked|
    ensures Even(picked[k]) && picked[k] != home
  {
    assert Eligible(peers, home, scores, now, picked[k]);
  }

  lemma JudgeBody(s: Survey, expired: bool, peers: seq<Peer>, now: int)
    requires Body(s)
    ensures var (u, d) := Judge(s, expired, peers, now);
      Body(u) && u.home == s.home && (d.Continue? ==> exists ch :: 0 <= ch < CHANNELS && Wanted(u, ch))
  {
    IdleInv(s.home);
    hide Strongest, Idle;
    if Complete(s) && !expired && !s.confirming && Pick(peers, s.home, s.scores, now, FINALISTS) != [] {
      ConfirmedBody(s, peers, now);
      hide Body, Pick, Confirmed, Wanted;
    } else if !Complete(s) && !Exhausted(s) && !expired {
      var ch :| 0 <= ch < CHANNELS && Surveyed(s, ch) && s.energy[ch].visits != Required(s);
      assert Bounded(s, ch);
      assert Wanted(s, ch);
    }
  }

  datatype Event =
    | Start(order: seq<nat>)
    | Measure(visit: Visit, expired: bool, peers: seq<Peer>, now: int, order: seq<nat>)
    | Abort(home: nat)

  /** Orders are drawn by shuffling, so any order of the wanted channels may come up. */
  ghost predicate Possible(s: Survey, e: Event) {
    Sized(s) && match e
    case Start(order) => !s.active && IsOrder(Idle(s.home), order)
    case Measure(visit, expired, peers, now, order) =>
      && s.active && s.candidate < |s.order| && s.order[s.candidate] < CHANNELS
      && var (u, d) := Judge(Measured(s, visit), expired, peers, now);
         (expired || s.candidate + 1 == |s.order|) && d.Continue? ==> IsOrder(u, order)
    case Abort(home) => home < CHANNELS
  }

  function Do(s: Survey, e: Event): (Survey, Decision)
    requires Possible(s, e)
  {
    match e
    case Start(order) => (Idle(s.home).(active := true, order := order), Continue)
    case Measure(visit, expired, peers, now, order) => Step(s, visit, expired, peers, now, order)
    case Abort(home) => (Idle(home), Rejected)
  }

  lemma BodyFrame(s: Survey, candidate: nat, order: seq<nat>, active: bool)
    requires Body(s)
    ensures Body(s.(candidate := candidate, order := order, active := active))
    ensures forall ch :: 0 <= ch < CHANNELS ==> (Wanted(s, ch) <==> Wanted(s.(candidate := candidate, order := order, active := active), ch))
  {
    hide Strongest;
    var t := s.(candidate := candidate, order := order, active := active);
    forall ch | 0 <= ch < CHANNELS ensures Bounded(t, ch) && Scored(t, ch) { assert Bounded(s, ch) && Scored(s, ch); }
  }

  /** A freshly drawn order is a good one. */
  lemma NewRound(s: Survey, order: seq<nat>)
    requires Body(s) && IsOrder(s, order) && exists ch :: 0 <= ch < CHANNELS && Wanted(s, ch)
    ensures Inv(s.(candidate := 0, order := order, active := true))
  {
    BodyFrame(s, 0, order, true);
    var ch :| 0 <= ch < CHANNELS && Wanted(s, ch);
    assert ch in order;
    hide Body;
    forall k | 0 <= k < |order| ensures Wanted(s.(candidate := 0, order := order, active := true), order[k]) {
      assert Wanted(s, order[k]);
    }
  }

  lemma MeasureInv(s: Survey, e: Event)
    requires Inv(s) && Possible(s, e) && e.Measure?
    ensures Inv(Do(s, e).0)
  {
    var t := Measured(s, e.visit);
    MeasuredInv(s, e.visit);
    if s.candidate + 1 < |s.order| && !e.expired {
      BodyFrame(t, s.candidate + 1, s.order, true);
      hide Body, Measured;
      forall k | s.candidate + 1 <= k < |s.order| ensures Wanted(t.(candidate := s.candidate + 1), s.order[k]) {
        assert Wanted(t, s.order[k]);
      }
    } else {
      JudgeBody(t, e.expired, e.peers, e.now);
      IdleInv(s.home);
      JudgeActive(t, e.expired, e.peers, e.now);
      var (u, d) := Judge(t, e.expired, e.peers, e.now);
      hide Body, Measured, Judge, Idle;
      if d.Continue? { NewRound(u, e.order); }
    }
  }

  lemma JudgeActive(s: Survey, expired: bool, peers: seq<Peer>, now: int)
    requires Sized(s)
    ensures var (u, d) := Judge(s, expired, peers, now);
      if d.Continue? then u.active == s.active && u.home == s.home else u == Idle(s.home)
  {
    hide Pick, Complete, Exhausted, Idle;
  }

  lemma EventInv(s: Survey, e: Event)
    requires Inv(s) && Possible(s, e)
    ensures Inv(Do(s, e).0)
  {
    match e
    case Start(order) => IdleInv(s.home); hide Body, Idle; NewRound(Idle(s.home), order);
    case Measure(_, _, _, _, _) => MeasureInv(s, e);
    case Abort(home) => IdleInv(home); hide Idle;
  }

  // ----- Whole runs -----

  ghost predicate Moves(s: Survey, e: Event, t: Survey) { Possible(s, e) && t == Do(s, e).0 }

  ghost predicate Execution(trace: seq<Survey>, events: seq<Event>) {
    && |trace| == |events| + 1 && (exists home :: 0 <= home < CHANNELS && trace[0] == Idle(home))
    && forall k :: 0 <= k < |events| ==> Moves(trace[k], events[k], trace[k + 1])
  }

  lemma {:induction false} ReachableInv(trace: seq<Survey>, events: seq<Event>, n: nat)
    requires Execution(trace, events) && n < |trace|
    ensures Inv(trace[n])
  {
    hide Inv, Moves, Idle;
    if n == 0 {
      var home :| 0 <= home < CHANNELS && trace[0] == Idle(home);
      IdleInv(home);
    } else {
      ReachableInv(trace, events, n - 1);
      assert Moves(trace[n - 1], events[n - 1], trace[n - 1 + 1]);
      MovesInv(trace[n - 1], events[n - 1], trace[n]);
    }
  }

  lemma MovesInv(s: Survey, e: Event, t: Survey)
    requires Inv(s) && Moves(s, e, t)
    ensures Inv(t)
  {
    EventInv(s, e);
    hide Inv, Do;
  }

  /** No channel is ever measured more often than its phase asks for, and every reading is accounted for. */
  lemma VisitsNeverExceed(trace: seq<Survey>, events: seq<Event>, n: nat, ch: nat)
    requires Execution(trace, events) && n < |trace| && ch < CHANNELS
    ensures Sized(trace[n])
    ensures var s := trace[n];
      && s.energy[ch].visits == |s.readings[ch]|
      && s.energy[ch].visits <= if InSurvey(s, ch) then Required(s) else SCAN_ROUNDS
  {
    ReachableInv(trace, events, n);
    assert Tallied(trace[n].energy[ch], trace[n].readings[ch]) && Bounded(trace[n], ch);
  }

  /** The evidence a request rests on. */
  ghost predicate Justified(s: Survey, target: nat, peers: seq<Peer>, now: int) {
    && Sized(s) && s.confirming && |s.finalists| <= FINALISTS && target in s.finalists
    && Even(target) && target != s.home
    && |s.readings[target]| == |s.readings[s.home]| == SCAN_ROUNDS + CONFIRM_ROUNDS
    && Strongest(s.readings[target]) > Strongest(s.readings[s.home]) >= 0
    && forall i :: 0 <= i < |peers| && Fresh(peers[i], now) ==> !(-1 <= peers[i].channel - target <= 1)
  }

  lemma RequestFacts(t: Survey, peers: seq<Peer>, now: int, target: nat)
    requires Body(t) && Judge(t, false, peers, now).1 == Requested(target)
    ensures Justified(t, target, peers, now)
  {
    hide Pick, BestBelow, Strongest, Idle;
    ChoiceIsEligible(peers, t.home, t.scores, now);
    hide Choose;
    assert Scored(t, target) && Scored(t, t.home);
    assert Surveyed(t, target) && Surveyed(t, t.home);
    assert Tallied(t.energy[target], t.readings[target]) && Tallied(t.energy[t.home], t.readings[t.home]);
  }

  lemma ExpiredNeverRequests(t: Survey, peers: seq<Peer>, now: int)
    requires Sized(t)
    ensures !Judge(t, true, peers, now).1.Requested?
  {
    hide Pick, Idle;
  }

  /** There is a channel to move to: home was measured, the peer table is not full, and some channel is eligible. */
  ghost predicate MayMove(s: Survey, peers: seq<Peer>, now: int)
    requires Sized(s)
  {
    s.scores[s.home] >= 0 && !Saturated(peers, now) && exists c: nat :: Eligible(peers, s.home, s.scores, now, c)
  }

  lemma ChosenIff(s: Survey, peers: seq<Peer>, now: int)
    requires Sized(s)
    ensures Choose(peers, s.home, s.scores, now) >= 0 <==> MayMove(s, peers, now)
  {
    hide Eligible, Saturated, BestBelow;
    if Choose(peers, s.home, s.scores, now) >= 0 { ChoiceIsEligible(peers, s.home, s.scores, now); }
    if MayMove(s, peers, now) {
      var c: nat :| Eligible(peers, s.home, s.scores, now, c);
      ChoiceIsQuietest(peers, s.home, s.scores, now, c);
    }
  }

  /**
   What the end of a round comes to. A survey out of time, or out of attempts before it is complete, ends without a
   request; a complete one goes on to its finalists, or to a request, exactly when there is a channel to move to, and
   otherwise ends; an incomplete one goes on.
   */
  lemma RoundOutcome(s: Survey, expired: bool, peers: seq<Peer>, now: int)
    requires Sized(s)
    ensures var (u, d) := Judge(s, expired, peers, now);
      if expired || (!Complete(s) && Exhausted(s)) then u == Idle(s.home) && d == Rejected
      else if !Complete(s) then u == s && d == Continue
      else if !MayMove(s, peers, now) then u == Idle(s.home) && d == Rejected
      else if s.confirming then u == Idle(s.home) && d.Requested?
      else u.confirming && u.finalists != {} && u.readings == s.readings && d == Continue
  {
    ChosenIff(s, peers, now);
    PickStarts(s, peers, now);
    hide Idle, Complete, Exhausted, Choose, MayMove, Pick, Kept;
  }

  lemma PickStarts(s: Survey, peers: seq<Peer>, now: int)
    requires Sized(s)
    ensures Pick(peers, s.home, s.scores, now, FINALISTS) != [] <==> Choose(peers, s.home, s.scores, now) >= 0
    ensures Pick(peers, s.home, s.scores, now, FINALISTS) != [] ==> Members(Pick(peers, s.home, s.scores, now, FINALISTS)) != {}
  {
    hide Choose;
    var picked := Pick(peers, s.home, s.scores, now, FINALISTS);
    if picked != [] { assert picked[0] in Members(picked); }
  }

  /** A request is for the quietest channel there is to move to, the lowest-numbered of equals. */
  lemma RequestIsQuietest(s: Survey, peers: seq<Peer>, now: int, target: nat, c: nat)
    requires Sized(s) && Judge(s, false, peers, now).1 == Requested(target) && Eligible(peers, s.home, s.scores, now, c)
    ensures target < CHANNELS && c < CHANNELS
    ensures s.scores[c] < s.scores[target] || (s.scores[c] == s.scores[target] && target <= c)
  {
    hide Pick, Idle, Complete, Exhausted, BestBelow;
    ChosenIff(s, peers, now);
    ChoiceIsQuietest(peers, s.home, s.scores, now, c);
  }

  /** Every even channel and home have exactly twelve clean readings, and score by the strongest of them. */
  ghost predicate EquallySurveyed(s: Survey)
    requires Sized(s)
  {
    forall ch :: 0 <= ch < CHANNELS && (Even(ch) || ch == s.home) ==>
      |s.readings[ch]| == SCAN_ROUNDS && s.scores[ch] == Strongest(s.readings[ch])
  }

  /** Finalists are picked on their merits once all 45 even channels and home are equally surveyed. */
  lemma FinalistsAreBest(s: Survey, peers: seq<Peer>, now: int)
    requires Body(s) && !s.confirming && Judge(s, false, peers, now).1.Continue? && Judge(s, false, peers, now).0.confirming
    ensures var u := Judge(s, false, peers, now).0; var picked := Pick(peers, s.home, s.scores, now, FINALISTS);
      && u.finalists == Members(picked) && u.home == s.home
      && Merited(peers, s.home, s.scores, now, picked, FINALISTS) && EquallySurveyed(s)
  {
    hide BestBelow, Strongest, Idle, Eligible;
    var picked := Pick(peers, s.home, s.scores, now, FINALISTS);
    assert Choose(peers, s.home, s.scores, now) >= 0;
    ChoiceIsEligible(peers, s.home, s.scores, now);
    PickIsMerited(peers, s.home, s.scores, now, FINALISTS);
    hide Merited, Choose, Pick;
    forall ch | 0 <= ch < CHANNELS && (Even(ch) || ch == s.home)
      ensures |s.readings[ch]| == SCAN_ROUNDS && s.scores[ch] == Strongest(s.readings[ch])
    {
      assert Surveyed(s, ch) && Tallied(s.energy[ch], s.readings[ch]) && Scored(s, ch);
    }
  }

  /** Step `k` picked the finalists of the survey that is being confirmed at `n`. */
  ghost predicate PickedAt(trace: seq<Survey>, events: seq<Event>, k: nat, n: nat)
    requires n < |trace| == |events| + 1
  {
    && k < n && events[k].Measure? && Possible(trace[k], events[k])
    && var m, e := Measured(trace[k], events[k].visit), events[k];
       var picked := Pick(e.peers, m.home, m.scores, e.now, FINALISTS);
       && !m.confirming && EquallySurveyed(m) && Merited(e.peers, m.home, m.scores, e.now, picked, FINALISTS)
       && forall j :: k < j <= n ==> trace[j].confirming && trace[j].home == m.home && trace[j].finalists == Members(picked)
  }

  /** A survey is confirmed by going on with the same finalists, or by picking them. */
  lemma ConfirmingStep(s: Survey, e: Event, t: Survey)
    requires Inv(s) && Moves(s, e, t) && t.confirming
    ensures t.home == s.home
    ensures s.confirming ==> t.finalists == s.finalists
    ensures !s.confirming ==>
      && e.Measure?
      && var m := Measured(s, e.visit); var picked := Pick(e.peers, m.home, m.scores, e.now, FINALISTS);
         !m.confirming && m.home == s.home && EquallySurveyed(m)
         && Merited(e.peers, m.home, m.scores, e.now, picked, FINALISTS) && t.finalists == Members(picked)
  {
    if e.Measure? {
      var m := Measured(s, e.visit);
      MeasuredInv(s, e.visit);
      NeverLate(m, e.expired, e.peers, e.now);
      IdleInv(s.home);
      if !s.confirming { hide Body, Pick, Merited, Idle, EquallySurveyed; FinalistsAreBest(m, e.peers, e.now); }
      hide Body, Pick, Merited, Idle, EquallySurveyed;
    }
  }

  /** An expired survey picks nobody. */
  lemma NeverLate(m: Survey, expired: bool, peers: seq<Peer>, now: int)
    requires Sized(m)
    ensures expired ==> !Judge(m, expired, peers, now).0.confirming || Judge(m, expired, peers, now).0 == m
  {
    hide Pick;
  }

  lemma {:induction false} FinalistsWerePicked(trace: seq<Survey>, events: seq<Event>, n: nat) returns (k: nat)
    requires Execution(trace, events) && n < |trace| && trace[n].confirming
    ensures PickedAt(trace, events, k, n)
  {
    hide Inv, Pick, Merited, EquallySurveyed, Possible, Do, Measured;
    assert n > 0;
    ReachableInv(trace, events, n - 1);
    assert Moves(trace[n - 1], events[n - 1], trace[n - 1 + 1]);
    ConfirmingStep(trace[n - 1], events[n - 1], trace[n]);
    if trace[n - 1].confirming {
      k := FinalistsWerePicked(trace, events, n - 1);
    } else {
      k := n - 1;
    }
  }

  /**
   Every move is requested for a finalist that, like home, had exactly 36 clean readings, whose strongest
   reading is weaker than home's strongest, and that no fresh peer is next to. The finalists, at most three,
   are the best of the survey: they were picked at an earlier step of the same survey, when every even channel
   and home had twelve readings each, and no other eligible channel beat one of them.
   */
  lemma RequestIsJustified(trace: seq<Survey>, events: seq<Event>, n: nat, target: nat) returns (k: nat)
    requires Execution(trace, events) && n < |events| && events[n].Measure? && Possible(trace[n], events[n])
    requires Do(trace[n], events[n]).1 == Requested(target)
    ensures Justified(Measured(trace[n], events[n].visit), target, events[n].peers, events[n].now)
    ensures PickedAt(trace, events, k, n) && target in trace[n].finalists
  {
    ReachableInv(trace, events, n);
    var s, e := trace[n], events[n];
    MeasuredInv(s, e.visit);
    MeasuredKeeps(s, e.visit);
    hide Body, Measured, Judge;
    if e.expired { ExpiredNeverRequests(Measured(s, e.visit), e.peers, e.now); }
    RequestFacts(Measured(s, e.visit), e.peers, e.now, target);
    k := FinalistsWerePicked(trace, events, n);
  }

  lemma MeasuredKeeps(s: Survey, visit: Visit)
    requires Sized(s) && s.candidate < |s.order| && s.order[s.candidate] < CHANNELS
    ensures var m := Measured(s, visit); m.confirming == s.confirming && m.finalists == s.finalists && m.home == s.home
  {
  }

  // ----- Drawing an order -----

  lemma DistinctSnoc(q: seq<nat>, ch: nat)
    requires Distinct(q) && ch !in q
    ensures Distinct(q + [ch])
  {
  }

  lemma SwapKeepsOrder(s: Survey, before: seq<nat>, after: seq<nat>, a: nat, b: nat)
    requires Sized(s) && IsOrder(s, before) && a < |before| && b < |before|
    requires after == before[a := before[b]][b := before[a]]
    ensures IsOrder(s, after)
  {
    forall i, j | 0 <= i < j < |after| ensures after[i] != after[j] {
      assert before[if i == a then b else if i == b then a else i] == after[i];
      assert before[if j == a then b else if j == b then a else j] == after[j];
    }
    forall ch | 0 <= ch < CHANNELS && Wanted(s, ch) ensures ch in after {
      var k :| 0 <= k < |before| && before[k] == ch;
      assert after[if k == a then b else if k == b then a else k] == ch;
    }
  }
}
