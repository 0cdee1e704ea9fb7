/** The sweep as the worker keeps it: energy table, scores and visiting order updated in place. */
module AutoSweep {
  import opened AutoPolicy
  import opened AutoSurvey

  const ORDER := 46

  class Sweep {
    const home: nat
    const energy: array<Energy>
    const scores: array<int>
    const order: array<nat>
    var active: bool
    var confirming: bool
    var finalists: set<nat>
    var count: nat
    var candidate: nat
    ghost var readings: seq<seq<nat>>

    ghost predicate Valid()
      reads this
    {
      && energy.Length == CHANNELS && scores.Length == CHANNELS && order.Length == ORDER
      && home < CHANNELS && count <= ORDER && |readings| == CHANNELS
    }

    ghost function View(): Survey
      requires Valid()
      reads this, energy, scores, order
    {
      Survey(active, confirming, home, finalists, order[..count], candidate, energy[..], scores[..], readings)
    }

    constructor (home: nat)
      requires home < CHANNELS
      ensures Valid() && this.home == home && View() == Idle(home) && fresh(energy) && fresh(scores) && fresh(order)
    {
      this.home := home;
      energy := new Energy[CHANNELS](_ => Energy(0, 0, -1));
      scores := new int[CHANNELS](_ => -1);
      order := new nat[ORDER];
      active, confirming, finalists, count, candidate := false, false, {}, 0, 0;
      readings := Fill(CHANNELS, []);
      new;
      assert energy[..] == Fill(CHANNELS, Energy(0, 0, -1));
      assert scores[..] == Fill(CHANNELS, -1);
    }

    method Reset()
      requires Valid()
      modifies this, energy, scores
      ensures Valid() && View() == Idle(home)
    {
      var ch := 0;
      while ch < CHANNELS
        invariant ch <= CHANNELS
        invariant forall k :: 0 <= k < ch ==> energy[k] == Energy(0, 0, -1) && scores[k] == -1
        modifies energy, scores
      {
        scores[ch] := -1;
        energy[ch] := Energy(0, 0, -1);
        ch := ch + 1;
      }
      active, confirming, finalists, count, candidate := false, false, {}, 0, 0;
      readings := Fill(CHANNELS, []);
      assert energy[..] == Fill(CHANNELS, Energy(0, 0, -1));
      assert scores[..] == Fill(CHANNELS, -1);
    }

    /** Books one measurement of the current candidate. */
    method Book(visit: Visit)
      requires Valid() && candidate < count && order[candidate] < CHANNELS
      modifies this`readings, energy, scores
      ensures Valid() && View() == Measured(old(View()), visit)
    {
      var ch := order[candidate];
      var e := energy[ch];
      energy[ch] := e.(attempts := e.attempts + 1);
      match visit {
        case Reading(v) =>
          var peak := e.peak;
          if e.peak < 0 || v < e.peak { peak := v; }
          energy[ch] := Energy(e.attempts + 1, e.visits + 1, peak);
          scores[ch] := peak;
          readings := readings[ch := readings[ch] + [v]];
        case Censored =>
      }
      assert energy[..] == Measured(old(View()), visit).energy;
      assert scores[..] == Measured(old(View()), visit).scores;
    }

    /** Is every surveyed channel done, and has one used up its attempts without being done? */
    method Progress() returns (complete: bool, exhausted: bool)
      requires Valid()
      ensures complete == Complete(View()) && exhausted == Exhausted(View())
    {
      ghost var s := View();
      complete, exhausted := true, false;
      var required := SCAN_ROUNDS + if confirming then CONFIRM_ROUNDS else 0;
      var ch := 0;
      while ch <= 88
        invariant 0 <= ch <= 90 && ch % 2 == 0
        invariant complete == forall c :: 0 <= c < ch && Even(c) && InSurvey(s, c) ==> Finished(s, c)
        invariant exhausted == exists c :: 0 <= c < ch && Even(c) && InSurvey(s, c) && WornOut(s, c)
      {
        assert InSurvey(s, ch) <==> (!confirming || ch == home || ch in finalists);
        if !confirming || ch == home || ch in finalists {
          if energy[ch].visits != required { complete := false; assert !Finished(s, ch); }
          if energy[ch].attempts >= MAX_ATTEMPTS && energy[ch].visits < required { exhausted := true; assert WornOut(s, ch); }
        }
        ch := ch + 2;
      }
      if energy[home].visits != required { complete := false; }
      if energy[home].attempts >= MAX_ATTEMPTS && energy[home].visits < required { exhausted := true; }
      SurveyedChannels(s, complete, exhausted);
    }

    /** Picks up to three finalists; everything else but home loses its score. */
    method Confirm(policy: Policy, now: int) returns (ok: bool)
      requires Valid() && policy.Valid()
      modifies this, scores
      ensures Valid()
      ensures var picked := Pick(policy.peers[..], home, old(scores[..]), now, FINALISTS);
        && ok == (picked != [])
        && View() == if ok then Confirmed(old(View()), Members(picked)) else old(View())
    {
      ghost var was := scores[..];
      var chosen, values := PickFinalists(policy, now);
      hide Pick, Even;
      if |chosen| == 0 {
        assert scores[..] == was;
        return false;
      }
      Blank();
      Restore(chosen, values, was);
      finalists := Members(chosen);
      confirming := true;
      assert forall c :: c in chosen <==> c in finalists;
      assert scores[..] == Kept(old(View()), finalists, CHANNELS);
      return true;
    }

    method Blank()
      requires Valid()
      modifies scores
      ensures forall c :: 0 <= c < CHANNELS ==> scores[c] == if Even(c) && c != home then -1 else old(scores[c])
    {
      var ch := 0;
      while ch <= 88
        invariant 0 <= ch <= 90 && ch % 2 == 0
        invariant forall c :: 0 <= c < CHANNELS ==> scores[c] == if c < ch && Even(c) && c != home then -1 else old(scores[c])
        modifies scores
      {
        if ch != home { scores[ch] := -1; }
        ch := ch + 2;
      }
    }

    method Restore(chosen: seq<nat>, values: seq<int>, ghost was: seq<int>)
      requires Valid() && |values| == |chosen| && |was| == CHANNELS
      requires forall k :: 0 <= k < |chosen| ==> chosen[k] < CHANNELS && values[k] == was[chosen[k]]
      modifies scores
      ensures forall c :: 0 <= c < CHANNELS ==> scores[c] == if c in chosen then was[c] else old(scores[c])
    {
      var i := 0;
      while i < |chosen|
        invariant i <= |chosen|
        invariant forall c :: 0 <= c < CHANNELS ==> scores[c] == if c in chosen[..i] then was[c] else old(scores[c])
        modifies scores
      {
        scores[chosen[i]] := values[i];
        assert chosen[..i + 1] == chosen[..i] + [chosen[i]];
        i := i + 1;
      }
      assert chosen[..i] == chosen;
    }

    method PickFinalists(policy: Policy, now: int) returns (chosen: seq<nat>, values: seq<int>)
      requires Valid() && policy.Valid()
      modifies scores
      ensures chosen == Pick(policy.peers[..], home, old(scores[..]), now, FINALISTS) && |values| == |chosen|
      ensures Blanked(scores[..], old(scores[..]), chosen, values, home)
    {
      hide Pick, Choose, Blanked, TableOk;
      chosen, values := [], [];
      ghost var was, peers := scores[..], policy.peers[..];
      BlankedNone(was, home);
      ghost var all := Pick(peers, home, was, now, FINALISTS);
      while |chosen| < FINALISTS
        invariant |values| == |chosen| <= FINALISTS
        invariant all == chosen + Pick(peers, home, scores[..], now, FINALISTS - |chosen|)
        invariant Blanked(scores[..], was, chosen, values, home)
        decreases FINALISTS - |chosen|
        modifies scores
      {
        ghost var shown := scores[..];
        var c := policy.ChooseChannel(home, scores[..], now);
        PickFirst(all, chosen, peers, home, shown, now, FINALISTS - |chosen|);
        if c < 0 { return; }
        BlankedMore(peers, now, shown, was, chosen, values, home, c);
        chosen, values := chosen + [c], values + [scores[c]];
        scores[c] := -1;
        assert scores[..] == shown[c := -1];
      }
      PickNone(peers, home, scores[..], now);
    }

    /** Collects the channels still wanted and shuffles them; `random` is the generator's output. */
    method Draw(random: seq<nat>)
      requires Valid() && |random| >= ORDER
      modifies this`count, this`candidate, order
      ensures Valid() && View() == old(View()).(order := order[..count], candidate := 0) && IsOrder(old(View()), order[..count])
    {
      candidate := 0;
      Gather();
      ghost var s := old(View());
      var n := count;
      while n > 1
        invariant n <= count && IsOrder(s, order[..count])
        modifies order
      {
        var j := random[n - 1] % n;
        ghost var before := order[..count];
        order[n - 1], order[j] := order[j], order[n - 1];
        SwapKeepsOrder(s, before, order[..count], n - 1, j);
        n := n - 1;
      }
    }

    method Gather()
      requires Valid()
      modifies this`count, order
      ensures Valid() && IsOrder(old(View()), order[..count])
    {
      hide Gathered, Even, IsOrder, Wanted, InSurvey;
      ghost var s := View();
      var required := SCAN_ROUNDS + if confirming then CONFIRM_ROUNDS else 0;
      GatherNone(s);
      count := 0;
      var ch := 0;
      while ch <= 88
        invariant 0 <= ch <= 90 && ch % 2 == 0 && count <= ch / 2 && Gathered(s, order[..count], ch)
        modifies this`count, order
      {
        ghost var q := order[..count];
        GatherEven(s, q, ch);
        if (!confirming || ch == home || ch in finalists) && energy[ch].visits < required {
          order[count] := ch;
          count := count + 1;
          assert order[..count] == q + [ch];
        }
        ch := ch + 2;
      }
      ghost var q := order[..count];
      GatherHome(s, q);
      if (home > 88 || home % 2 != 0) && energy[home].visits < required {
        order[count] := home;
        count := count + 1;
        assert order[..count] == q + [home];
      }
    }

    /** One measurement with everything it leads to. */
    method Advance(visit: Visit, expired: bool, policy: Policy, now: int, random: seq<nat>) returns (d: Decision)
      requires Valid() && policy.Valid() && candidate < count && order[candidate] < CHANNELS && |random| >= ORDER
      modifies this, energy, scores, order
      ensures Valid()
      ensures (View(), d) == Step(old(View()), visit, expired, policy.peers[..], now, order[..count])
      ensures var (u, e) := Judge(Measured(old(View()), visit), expired, policy.peers[..], now);
        (expired || old(candidate) + 1 == old(count)) && e.Continue? ==> IsOrder(u, order[..count])
    {
      Book(visit);
      hide Idle, Measured, Pick, Confirmed, Complete, Exhausted, IsOrder;
      ghost var t, peers := View(), policy.peers[..];
      if candidate + 1 < count && !expired {
        candidate := candidate + 1;
        return Continue;
      }
      var complete, exhausted := Progress();
      if complete && !expired && !confirming {
        var ok := Confirm(policy, now);
        if ok {
          Draw(random);
          return Continue;
        }
      }
      if complete || exhausted || expired {
        var target := -1;
        if complete && !expired && confirming { target := policy.ChooseChannel(home, scores[..], now); }
        Reset();
        return if target >= 0 then Requested(target) else Rejected;
      }
      Draw(random);
      return Continue;
    }
  }

  predicate Finished(s: Survey, ch: nat)
    requires Sized(s) && ch < CHANNELS
  {
    s.energy[ch].visits == Required(s)
  }

  predicate WornOut(s: Survey, ch: nat)
    requires Sized(s) && ch < CHANNELS
  {
    s.energy[ch].attempts >= MAX_ATTEMPTS && s.energy[ch].visits < Required(s)
  }

  /** The even channels and home are all there is to survey. */
  lemma SurveyedChannels(s: Survey, complete: bool, exhausted: bool)
    requires Sized(s)
    requires complete == (Finished(s, s.home) && forall c :: 0 <= c < 90 && Even(c) && InSurvey(s, c) ==> Finished(s, c))
    requires exhausted == (WornOut(s, s.home) || exists c :: 0 <= c < 90 && Even(c) && InSurvey(s, c) && WornOut(s, c))
    ensures complete == Complete(s) && exhausted == Exhausted(s)
  {
    assert Surveyed(s, s.home);
    if complete {
      forall ch | 0 <= ch < CHANNELS && Surveyed(s, ch) ensures s.energy[ch].visits == Required(s) {
        if ch != s.home { assert Finished(s, ch); }
      }
    } else if Finished(s, s.home) {
      var c :| 0 <= c < 90 && Even(c) && InSurvey(s, c) && !Finished(s, c);
      assert Surveyed(s, c);
    }
    if WornOut(s, s.home) {
      assert Exhausted(s);
    } else if exhausted {
      var c :| 0 <= c < 90 && Even(c) && InSurvey(s, c) && WornOut(s, c);
      assert Surveyed(s, c);
    } else {
      forall ch | 0 <= ch < CHANNELS && Surveyed(s, ch) ensures !WornOut(s, ch) {
        if ch != s.home { assert Even(ch) && InSurvey(s, ch); }
      }
    }
  }

  /** Scores while finalists are being picked: theirs are set aside in `values`. */
  ghost predicate Blanked(now: seq<int>, was: seq<int>, chosen: seq<nat>, values: seq<int>, home: nat) {
    && |now| == |was| == CHANNELS && |values| == |chosen|
    && (forall k :: 0 <= k < |chosen| ==> chosen[k] < CHANNELS && chosen[k] != home && values[k] == was[chosen[k]])
    && (forall c :: 0 <= c < CHANNELS ==> now[c] == if c in chosen then -1 else was[c])
  }

  lemma BlankedNone(was: seq<int>, home: nat)
    requires |was| == CHANNELS
    ensures Blanked(was, was, [], [], home)
  {
  }

  lemma BlankedMore(peers: seq<Peer>, now: int, shown: seq<int>, was: seq<int>, chosen: seq<nat>, values: seq<int>, home: nat, c: nat)
    requires Blanked(shown, was, chosen, values, home) && c == Choose(peers, home, shown, now)
    ensures c < CHANNELS && Blanked(shown[c := -1], was, chosen + [c], values + [shown[c]], home)
  {
    ChoiceIsEligible(peers, home, shown, now);
    hide Choose, Occupied;
  }

  /** What is picked, split into the picks made so far and those to come. */
  lemma PickFirst(all: seq<nat>, chosen: seq<nat>, peers: seq<Peer>, home: nat, scores: seq<int>, now: int, n: nat)
    requires |scores| == CHANNELS && n > 0 && all == chosen + Pick(peers, home, scores, now, n)
    ensures var c := Choose(peers, home, scores, now);
      c < CHANNELS && all == if c < 0 then chosen else chosen + [c] + Pick(peers, home, scores[c := -1], now, n - 1)
  {
  }

  lemma PickNone(peers: seq<Peer>, home: nat, scores: seq<int>, now: int)
    requires |scores| == CHANNELS
    ensures Pick(peers, home, scores, now, 0) == []
  {
  }

  /** The wanted even channels below `ch`, each once. */
  predicate Gathered(s: Survey, q: seq<nat>, ch: nat)
    requires Sized(s)
  {
    && Distinct(q) && (forall k :: 0 <= k < |q| ==> Wanted(s, q[k]) && q[k] < ch && Even(q[k]))
    && (forall c :: 0 <= c < ch && Even(c) && Wanted(s, c) ==> c in q)
  }

  lemma GatherNone(s: Survey)
    requires Sized(s)
    ensures Gathered(s, [], 0)
  {
  }

  lemma GatherEven(s: Survey, q: seq<nat>, ch: nat)
    requires Sized(s) && Gathered(s, q, ch) && ch % 2 == 0 && ch <= 88
    ensures var wanted := (!s.confirming || ch == s.home || ch in s.finalists) && s.energy[ch].visits < Required(s);
      Gathered(s, if wanted then q + [ch] else q, ch + 2)
  {
    assert InSurvey(s, ch) <==> (!s.confirming || ch == s.home || ch in s.finalists);
    if ch !in q { DistinctSnoc(q, ch); }
  }

  lemma GatherHome(s: Survey, q: seq<nat>)
    requires Sized(s) && Gathered(s, q, 90)
    ensures var wanted := (s.home > 88 || s.home % 2 != 0) && s.energy[s.home].visits < Required(s);
      IsOrder(s, if wanted then q + [s.home] else q)
  {
    if s.home !in q { DistinctSnoc(q, s.home); }
  }
}
