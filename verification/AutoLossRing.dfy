/** The ring of ten intervals that implements the loss window. */
module AutoLossRing {
  import opened AutoLoss

  datatype Interval = Interval(received: int, gaps: int, contributors: set<nat>, elapsed: int)

  function Contributors(a: Snapshot, b: Snapshot): set<nat>
    requires Sized(a) && Sized(b)
  {
    set i | i in b.active && b.trackers[i].received > a.trackers[i].received
  }

  function Between(a: Stamp, b: Stamp): Interval
    requires Sized(a.snapshot) && Sized(b.snapshot)
  {
    Interval(Received(b.snapshot, TRACKERS) - Received(a.snapshot, TRACKERS), Gaps(b.snapshot, TRACKERS) - Gaps(a.snapshot, TRACKERS),
             Contributors(a.snapshot, b.snapshot), b.time - a.time)
  }

  const NOTHING := Interval(0, 0, {}, 0)

  function Plus(x: Interval, y: Interval): Interval {
    Interval(x.received + y.received, x.gaps + y.gaps, x.contributors + y.contributors, x.elapsed + y.elapsed)
  }

  function Sum(items: seq<Interval>): Interval {
    if items == [] then NOTHING else Plus(Sum(items[..|items| - 1]), items[|items| - 1])
  }

  lemma PlusLaws(x: Interval, y: Interval, z: Interval)
    ensures Plus(x, NOTHING) == x && Plus(x, y) == Plus(y, x) && Plus(Plus(x, y), z) == Plus(x, Plus(y, z))
  {
  }

  lemma {:induction false} SumAppend(a: seq<Interval>, b: seq<Interval>)
    ensures Sum(a + b) == Plus(Sum(a), Sum(b))
  {
    hide Plus;
    if b == [] {
      PlusLaws(Sum(a), NOTHING, NOTHING);
      assert a + b == a;
    } else {
      var front, x := b[..|b| - 1], b[|b| - 1];
      assert (a + b)[..|a + b| - 1] == a + front;
      SumAppend(a, front);
      PlusLaws(Sum(a), Sum(front), x);
    }
  }

  /** The order of the intervals in the ring does not matter to its sum. */
  lemma SumRotated(ring: seq<Interval>, c: nat)
    requires c <= |ring|
    ensures Sum(ring[c..] + ring[..c]) == Sum(ring)
  {
    hide Plus, Sum;
    SumAppend(ring[c..], ring[..c]);
    SumAppend(ring[..c], ring[c..]);
    PlusLaws(Sum(ring[c..]), Sum(ring[..c]), NOTHING);
    assert ring[..c] + ring[c..] == ring;
  }

  /** The last `k` intervals, oldest first. */
  function Last(w: Window, k: nat): (items: seq<Interval>)
    requires Inv(w) && k < |w.stamps|
    ensures |items| == k
  {
    if k == 0 then [] else [Between(Ago(w, k), Ago(w, k - 1))] + Last(w, k - 1)
  }

  lemma AddBetween(a: Stamp, b: Stamp, c: Stamp)
    requires Sized(a.snapshot) && Sized(b.snapshot) && Sized(c.snapshot)
    requires !Broken(a.snapshot, b.snapshot) && !Broken(b.snapshot, c.snapshot)
    ensures Plus(Between(a, b), Between(b, c)) == Between(a, c)
  {
    hide Received, Gaps;
    forall i | i in c.snapshot.active
      ensures c.snapshot.trackers[i].received >= b.snapshot.trackers[i].received >= a.snapshot.trackers[i].received
    {
      assert !Rewound(a.snapshot.trackers[i], b.snapshot.trackers[i]) && !Rewound(b.snapshot.trackers[i], c.snapshot.trackers[i]);
    }
  }

  /** Intervals add up to the difference between the snapshots at their ends. */
  lemma {:induction false} IntervalsTelescope(w: Window, k: nat)
    requires Inv(w) && 0 < k < |w.stamps|
    ensures Sum(Last(w, k)) == Between(Ago(w, k), Ago(w, 0))
  {
    var first := Between(Ago(w, k), Ago(w, k - 1));
    SumAppend([first], Last(w, k - 1));
    assert [first][..0] == [];
    SumOne(first);
    if k > 1 {
      IntervalsTelescope(w, k - 1);
      NotBrokenAcross(w, k - 1);
      var n := |w.stamps| - k;
      assert Linked(w.stamps[n - 1], w.stamps[n]);
      hide Broken, Between, Plus, Sum;
      AddBetween(Ago(w, k), Ago(w, k - 1), Ago(w, 0));
    } else {
      assert Last(w, 0) == [];
      assert [first] + [] == [first];
    }
  }

  lemma SumOne(x: Interval)
    ensures Sum([x]) == x
  {
    assert [x][..0] == [];
  }

  /** How the ring holds the window: in place until it is full, then rotated by the cursor. */
  ghost predicate Holds(ring: seq<Interval>, count: nat, cursor: nat, w: Window) {
    && |ring| == SLOTS && count <= SLOTS && cursor < SLOTS
    && (w.valid ==>
          && Inv(w) && count == (if |w.stamps| - 1 < SLOTS then |w.stamps| - 1 else SLOTS)
          && (count < SLOTS ==> cursor == count && ring[..count] == Last(w, count))
          && (count == SLOTS ==> ring[cursor..] + ring[..cursor] == Last(w, SLOTS)))
  }

  lemma LastAppend(w: Window, v: Window, x: Stamp, k: nat)
    requires Inv(w) && Inv(v) && v.stamps == w.stamps + [x] && k < |w.stamps| && Sized(x.snapshot)
    ensures Last(v, k + 1) == Last(w, k) + [Between(Ago(w, 0), x)]
    decreases k
  {
    if k > 0 {
      LastAppend(w, v, x, k - 1);
      assert Ago(v, k + 1) == Ago(w, k) && Ago(v, k) == Ago(w, k - 1);
    }
  }

  lemma LastDrop(w: Window, k: nat)
    requires Inv(w) && 0 < k < |w.stamps|
    ensures Last(w, k)[1..] == Last(w, k - 1)
  {
  }

  /** Writing the newest interval at the cursor keeps the ring in step with the window. */
  lemma RingPush(ring: seq<Interval>, count: nat, cursor: nat, w: Window, x: Stamp)
    requires Holds(ring, count, cursor, w) && w.valid && Inv(w.(stamps := w.stamps + [x])) && Sized(x.snapshot)
    ensures var v := w.(stamps := w.stamps + [x]);
      Holds(ring[cursor := Between(Ago(w, 0), x)], if count < SLOTS then count + 1 else count, (cursor + 1) % SLOTS, v)
  {
    var v, item := w.(stamps := w.stamps + [x]), Between(Ago(w, 0), x);
    var next, at := ring[cursor := item], (cursor + 1) % SLOTS;
    if count < SLOTS {
      LastAppend(w, v, x, count);
      assert next[..count + 1] == ring[..count] + [item];
    } else {
      LastAppend(w, v, x, SLOTS);
      LastDrop(v, SLOTS + 1);
      assert (Last(w, SLOTS) + [item])[1..] == Last(w, SLOTS)[1..] + [item];
      Rotate(ring, cursor, item);
    }
    hide Last, Between, Inv;
  }

  lemma Rotate(ring: seq<Interval>, cursor: nat, item: Interval)
    requires |ring| == SLOTS && cursor < SLOTS
    ensures var next, at := ring[cursor := item], (cursor + 1) % SLOTS;
      next[at..] + next[..at] == (ring[cursor..] + ring[..cursor])[1..] + [item]
  {
    var next := ring[cursor := item];
    if cursor + 1 == SLOTS {
      assert next[0..] + next[..0] == ring[..cursor] + [item];
    } else {
      assert next[cursor + 1..] == ring[cursor + 1..];
      assert next[..cursor + 1] == ring[..cursor] + [item];
    }
  }

  class LossWindow {
    const ring: array<Interval>
    var previous: Stamp
    var count: nat
    var cursor: nat
    var valid: bool
    var resuming: bool
    ghost var window: Window

    ghost predicate Valid()
      reads this, ring
    {
      && ring.Length == SLOTS && window.valid == valid && Holds(ring[..], count, cursor, window) && Inv(window)
      && (valid ==> window.resuming == resuming) && (window.stamps != [] ==> previous == Ago(window, 0))
    }

    constructor (s: Snapshot)
      ensures Valid() && !valid && window.stamps == [] && fresh(ring)
    {
      ring := new Interval[SLOTS](_ => NOTHING);
      previous := Stamp(s, 0);
      count, cursor, valid, resuming := 0, 0, false, false;
      window := Window(false, false, []);
    }

    method Restart(s: Snapshot, now: int, resume: bool)
      requires Valid() && Sized(s)
      modifies this
      ensures Valid() && window == Baseline(s, now, resume)
    {
      previous := Stamp(s, now);
      count, cursor, valid, resuming := 0, 0, true, resume;
      window := Baseline(s, now, resume);
    }

    method Invalidate()
      requires Valid()
      modifies this
      ensures Valid() && window == old(window).(valid := false)
    {
      valid := false;
      window := window.(valid := false);
    }

    /** Replaces a baseline that nothing has been measured against yet. */
    method Refence(s: Snapshot, now: int)
      requires Valid() && valid && Sized(s)
      modifies this
      ensures Valid() && valid
      ensures window == if |old(window).stamps| == 1 then old(window).(stamps := [Stamp(s, now)]) else old(window)
    {
      if count == 0 {
        previous := Stamp(s, now);
        window := window.(stamps := [Stamp(s, now)]);
      }
    }

    /** Sums the trackers' differences since the previous snapshot. */
    method Measure(s: Snapshot, now: int) returns (item: Interval)
      requires Valid() && valid && Sized(s) && !Broken(previous.snapshot, s)
      ensures item == Between(previous, Stamp(s, now))
    {
      item := Interval(0, 0, {}, now - previous.time);
      var i := 0;
      ghost var a := previous.snapshot;
      while i < TRACKERS
        invariant i <= TRACKERS && item.elapsed == now - previous.time
        invariant item.received == Received(s, i) - Received(a, i) && item.gaps == Gaps(s, i) - Gaps(a, i)
        invariant item.contributors == set j | j in s.active && j < i && s.trackers[j].received > a.trackers[j].received
      {
        if i in s.active {
          assert !Rewound(a.trackers[i], s.trackers[i]);
          var received := s.trackers[i].received - previous.snapshot.trackers[i].received;
          item := item.(received := item.received + received, gaps := item.gaps + (s.trackers[i].gaps - previous.snapshot.trackers[i].gaps));
          if received != 0 { item := item.(contributors := item.contributors + {i}); }
        }
        i := i + 1;
      }
    }

    method Total() returns (sum: Interval)
      requires Valid()
      ensures sum == Sum(ring[..])
    {
      sum := NOTHING;
      var i := 0;
      while i < SLOTS
        invariant i <= SLOTS && sum == Sum(ring[..i])
      {
        assert ring[..i + 1][..i] == ring[..i];
        sum := Plus(sum, ring[i]);
        i := i + 1;
      }
      assert ring[..i] == ring[..];
    }

    method Discontinuous(s: Snapshot) returns (broken: bool)
      requires Valid() && valid && Sized(s)
      ensures broken == Broken(previous.snapshot, s)
    {
      var a := previous.snapshot;
      if a.active != s.active || a.resetEpoch != s.resetEpoch || a.layoutEpoch != s.layoutEpoch
         || a.capPending != s.capPending || a.home != s.home || a.eligible != s.eligible { return true; }
      var i := 0;
      while i < TRACKERS
        invariant i <= TRACKERS && forall j :: 0 <= j < i && j in s.active ==> !Rewound(a.trackers[j], s.trackers[j])
      {
        if i in s.active && Rewound(a.trackers[i], s.trackers[i]) { return true; }
        i := i + 1;
      }
      return false;
    }

    method Push(s: Snapshot, now: int, item: Interval)
      requires Valid() && valid && Sized(s) && item == Between(previous, Stamp(s, now))
      requires Inv(window.(stamps := window.stamps + [Stamp(s, now)]))
      modifies this, ring
      ensures Valid() && valid && window == old(window).(stamps := old(window).stamps + [Stamp(s, now)])
    {
      RingPush(ring[..], count, cursor, window, Stamp(s, now));
      hide Inv, Last, Between, Holds;
      ring[cursor] := item;
      cursor := (cursor + 1) % SLOTS;
      if count < SLOTS { count := count + 1; }
      previous := Stamp(s, now);
      window := window.(stamps := window.stamps + [Stamp(s, now)]);
      assert ring[..] == old(ring[..])[old(cursor) := item];
    }

    /** One evidence sample: unknown, clean, or more than 20 % loss. */
    method Add(s: Snapshot, now: int) returns (evidence: Evidence)
      requires Valid() && Sized(s)
      modifies this, ring
      ensures Valid() && window == Sample(old(window), s, now).0 && evidence == Sample(old(window), s, now).1
    {
      evidence := Unknown;
      var dt := now - previous.time;
      var broken := true;
      if valid { broken := Discontinuous(s); }
      if broken || !Usable(s) || dt < EVIDENCE_MS - JITTER || dt > EVIDENCE_MS + JITTER {
        Restart(s, now, false);
        return;
      }
      var item := Measure(s, now);
      if resuming {
        Restart(s, now, item.received == 0);
        return;
      }
      AppendInv(window, s, now);
      hide Inv, Last, Holds, Broken, Received, Gaps;
      Push(s, now, item);
      evidence := Judge();
    }

    method Judge() returns (evidence: Evidence)
      requires Valid() && valid
      modifies this, ring
      ensures Valid() && window == Verdict(old(window)).0 && evidence == Verdict(old(window)).1
    {
      evidence := Unknown;
      if count < SLOTS { return; }
      var sum := Total();
      SumRotated(ring[..], cursor);
      IntervalsTelescope(window, SLOTS);
      ghost var a, b := Ago(window, SLOTS), Ago(window, 0);
      assert sum == Between(a, b);
      HeardIff(a.snapshot, b.snapshot);
      var s := previous.snapshot;
      NotBrokenAcross(window, SLOTS);
      hide Broken, Received, Gaps, AllHeard, Last, Sum, Contributors;
      if sum.elapsed > WINDOW_MS + JITTER {
        Restart(s, previous.time, false);
      } else if sum.elapsed >= WINDOW_MS && sum.received == 0 {
        Restart(s, previous.time, true);
      } else if !(sum.elapsed < WINDOW_MS || sum.contributors != s.active || sum.received + sum.gaps < MIN_SAMPLES) {
        evidence := if sum.gaps * 100 > (sum.received + sum.gaps) * 20 then Lossy else Clean;
      }
    }
  }

  lemma HeardIff(a: Snapshot, b: Snapshot)
    requires Sized(a) && Sized(b)
    ensures Contributors(a, b) == b.active <==> AllHeard(a, b)
  {
    if Contributors(a, b) == b.active {
      forall i | i in b.active ensures b.trackers[i].received > a.trackers[i].received { assert i in Contributors(a, b); }
    } else {
      var i :| i in b.active && i !in Contributors(a, b);
    }
  }
}
