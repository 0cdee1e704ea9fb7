/** The layout owner's shared state, updated in place under the interrupt lock. */
module TdmaScheduler {
  import opened TdmaWidth
  import opened Tdma

  /** What the first `n` trackers' share of a merge leaves. */
  ghost predicate Partial(s: State, now: int, n: nat, desired: set<nat>, evidence: set<nat>, seen: map<nat, int>) {
    && (forall j: nat :: j in desired <==>
          j < s.stored && if j < n then (j in s.desired && !Drops(s, j, now)) || Joins(s, j, now) else j in s.desired)
    && (forall j: nat :: j in evidence <==> j in s.evidence && !(j < n && (Drops(s, j, now) || Lapses(s, j, now))))
    && (forall j: nat :: j in seen <==> j in s.lastSeen && !(j < n && (Drops(s, j, now) || Lapses(s, j, now))))
    && (forall j: nat :: j in seen ==> seen[j] == s.lastSeen[j])
  }

  lemma PartialIsMerged(s: State, now: int, desired: set<nat>, evidence: set<nat>, seen: map<nat, int>)
    requires Partial(s, now, s.stored, desired, evidence, seen)
    ensures Merged(s, now) == Arm(s.(desired := desired, evidence := evidence, lastSeen := seen, joins := {}), now)
  {
    hide Drops, Joins, Lapses, Arm;
    var d := set i | 0 <= i < s.stored && ((i in s.desired && !Drops(s, i, now)) || Joins(s, i, now)) :: i;
    var e := set i | i in s.evidence && !(i < s.stored && (Drops(s, i, now) || Lapses(s, i, now))) :: i;
    var m := map i | i in s.lastSeen && !(i < s.stored && (Drops(s, i, now) || Lapses(s, i, now))) :: s.lastSeen[i];
    assert d == desired;
    assert e == evidence;
    assert m == seen;
  }

  class Scheduler {
    var s: State
    const configs: array<Config>

    ghost predicate Valid()
      reads this
    {
      configs.Length == TRACKERS && Inv(s)
    }

    constructor (stored: nat)
      requires stored <= TRACKERS
      ensures Valid() && Initial(s) && s.stored == stored && fresh(configs)
    {
      s := State(stored, {}, {}, {}, {}, map[], false, 0, false, 0, 0, 0, BASE, 0, false, false, false);
      configs := new Config[TRACKERS](_ => Config(UNASSIGNED, 0, BASE, 0));
    }

    /** Radio interrupt: a valid ping or data packet of tracker `i`. */
    method HandlePacket(i: nat, now: int)
      requires Valid()
      modifies this
      ensures Valid() && s == Do(old(s), Observe(i, now))
    {
      StepInv(s, Observe(i, now));
      if i < s.stored && i < TRACKERS {
        s := s.(lastSeen := s.lastSeen[i := now], evidence := s.evidence + {i});
        if i !in s.desired {
          s := s.(joins := s.joins + {i});
          if !s.armed { s := s.(deadline := now + COHORT, armed := true); }
        }
      }
    }

    /** Merges evidence into the desired membership, tracker by tracker. */
    method MergeEvidence(now: int)
      requires Valid()
      modifies this
      ensures Valid() && s == Merged(old(s), now)
    {
      MergedInv(s, now);
      var desired, evidence, seen := s.desired, s.evidence, s.lastSeen;
      var i := 0;
      while i < s.stored
        invariant i <= s.stored && s == old(s) && Partial(s, now, i, desired, evidence, seen)
      {
        hide Age, Inv, Merged;
        if i in s.desired {
          if (i !in s.active && (i !in s.evidence || Age(s, i, now) >= FRESH)) || (i in s.evidence && Age(s, i, now) >= GRACE) {
            desired, evidence, seen := desired - {i}, evidence - {i}, seen - {i};
          }
        } else if i in s.evidence && Age(s, i, now) < FRESH {
          desired := desired + {i};
        } else if i in s.evidence {
          evidence, seen := evidence - {i}, seen - {i};
        }
        i := i + 1;
      }
      PartialIsMerged(s, now, desired, evidence, seen);
      hide Merged;
      s := s.(desired := desired, evidence := evidence, lastSeen := seen, joins := {});
      if s.desired == s.active {
        s := s.(armed := false);
      } else if !s.armed {
        s := s.(armed := true, deadline := now);
      }
    }

    /** One pass of the layout owner; a publication rewrites every tracker's configuration. */
    method LayoutPass(forced: bool, again: bool, now: int) returns (result: Result)
      requires Valid() && forced == s.admin
      modifies this, configs
      ensures Valid() && s == Pass(old(s), forced, again, now).0 && result == Pass(old(s), forced, again, now).1
      ensures if result.Published? then IsLayout(configs[..], s.active, s.width, s.epoch) else configs[..] == old(configs[..])
    {
      PassInv(s, forced, again, now);
      hide Inv;
      ghost var before := s;
      SampledLevels(s, forced, again, now);
      if !forced && (again || s.joins != {} || !(s.desired <= s.active)) { MergeEvidence(now); }
      hide Merged, Rank, SlotTicks, IsLayout, Defers;
      if s.desired != s.active {
        s := s.(level := 0);
      } else if s.collecting {
        s := s.(level := s.publishedLevel);
      }
      assert s == Levelled(Sampled(before, forced, again, now));
      var (t, r) := Decide(s, forced, again, now);
      if r.Published? {
        var total := Publish(configs, t.active, t.width, t.epoch);
      }
      s := if forced && (r.Published? || r.Unchanged?) then t.(admin := false) else t;
      result := r;
    }
  }
}
