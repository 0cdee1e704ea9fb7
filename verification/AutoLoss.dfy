/**
 The ten-second loss window of automatic channel diagnosis. The firmware keeps a ring of ten one-second
 intervals; what it stands for is the difference between two snapshots of the loss counters.
 */
module AutoLoss {
  const TRACKERS := 16
  const EVIDENCE_MS := 1000
  const JITTER := 500
  const WINDOW_MS := 10000
  const SLOTS := 10
  const MIN_SAMPLES := 100

  datatype Counter = Counter(received: nat, gaps: nat, restarts: nat)

  datatype Snapshot = Snapshot(trackers: seq<Counter>, active: set<nat>, ready: set<nat>, resetEpoch: nat,
                               layoutEpoch: nat, capPending: bool, home: nat, eligible: bool)

  datatype Stamp = Stamp(snapshot: Snapshot, time: int)

  datatype Evidence = Unknown | Clean | Lossy

  /** The snapshots since the window's baseline, which is the first of them. */
  datatype Window = Window(valid: bool, resuming: bool, stamps: seq<Stamp>)

  predicate Sized(s: Snapshot) { |s.trackers| == TRACKERS && forall i :: i in s.active ==> i < TRACKERS }

  predicate Rewound(a: Counter, b: Counter) { a.restarts != b.restarts || b.received < a.received || b.gaps < a.gaps }

  /** The two snapshots do not belong to one uninterrupted measurement. */
  predicate Broken(a: Snapshot, b: Snapshot)
    requires Sized(a) && Sized(b)
  {
    || a.active != b.active || a.resetEpoch != b.resetEpoch || a.layoutEpoch != b.layoutEpoch
    || a.capPending != b.capPending || a.home != b.home || a.eligible != b.eligible
    || exists i :: 0 <= i < TRACKERS && i in b.active && Rewound(a.trackers[i], b.trackers[i])
  }

  /** Sums over the active trackers below `n`. */
  function Received(s: Snapshot, n: nat): nat
    requires Sized(s) && n <= TRACKERS
  {
    if n == 0 then 0 else Received(s, n - 1) + if n - 1 in s.active then s.trackers[n - 1].received else 0
  }

  function Gaps(s: Snapshot, n: nat): nat
    requires Sized(s) && n <= TRACKERS
  {
    if n == 0 then 0 else Gaps(s, n - 1) + if n - 1 in s.active then s.trackers[n - 1].gaps else 0
  }

  predicate Usable(s: Snapshot) {
    s.eligible && s.active != {} && !s.capPending && s.active <= s.ready
  }

  predicate OnGrid(w: Window, now: int) {
    w.stamps != [] && EVIDENCE_MS - JITTER <= now - w.stamps[|w.stamps| - 1].time <= EVIDENCE_MS + JITTER
  }

  function Baseline(s: Snapshot, now: int, resuming: bool): Window { Window(true, resuming, [Stamp(s, now)]) }

  ghost predicate Inv(w: Window) {
    && (w.valid ==> w.stamps != [])
    && (forall k :: 0 <= k < |w.stamps| ==> Sized(w.stamps[k].snapshot))
    && (forall k :: 0 < k < |w.stamps| ==> Linked(w.stamps[k - 1], w.stamps[k]))
  }

  /** Neighbouring stamps are one grid interval apart and belong together. */
  ghost predicate Linked(a: Stamp, b: Stamp) {
    && Sized(a.snapshot) && Sized(b.snapshot) && !Broken(a.snapshot, b.snapshot)
    && EVIDENCE_MS - JITTER <= b.time - a.time <= EVIDENCE_MS + JITTER
  }

  /** Every active tracker was heard in the window. */
  predicate AllHeard(a: Snapshot, b: Snapshot)
    requires Sized(a) && Sized(b)
  {
    forall i :: i in b.active ==> b.trackers[i].received > a.trackers[i].received
  }

  function Ago(w: Window, n: nat): Stamp
    requires n < |w.stamps|
  {
    w.stamps[|w.stamps| - 1 - n]
  }

  /** What a full window says: the counters now against the counters ten intervals ago. */
  function Verdict(w: Window): (Window, Evidence)
    requires Inv(w) && w.valid
  {
    if |w.stamps| <= SLOTS then (w, Unknown)
    else
      var a, b := Ago(w, SLOTS), Ago(w, 0);
      var received := Received(b.snapshot, TRACKERS) - Received(a.snapshot, TRACKERS);
      var gaps := Gaps(b.snapshot, TRACKERS) - Gaps(a.snapshot, TRACKERS);
      var elapsed := b.time - a.time;
      if elapsed > WINDOW_MS + JITTER then (Baseline(b.snapshot, b.time, false), Unknown)
      else if elapsed >= WINDOW_MS && received == 0 then (Baseline(b.snapshot, b.time, true), Unknown)
      else if elapsed < WINDOW_MS || !AllHeard(a.snapshot, b.snapshot) || received + gaps < MIN_SAMPLES then (w, Unknown)
      else (w, if gaps * 100 > (received + gaps) * 20 then Lossy else Clean)
  }

  function Sample(w: Window, s: Snapshot, now: int): (Window, Evidence)
    requires Inv(w) && Sized(s)
  {
    if !w.valid || !Usable(s) || !OnGrid(w, now) || Broken(Ago(w, 0).snapshot, s) then (Baseline(s, now, false), Unknown)
    else if w.resuming then
      (Baseline(s, now, Received(s, TRACKERS) == Received(Ago(w, 0).snapshot, TRACKERS)), Unknown)
    else
      AppendInv(w, s, now);
      Verdict(w.(stamps := w.stamps + [Stamp(s, now)]))
  }

  lemma AppendInv(w: Window, s: Snapshot, now: int)
    requires Inv(w) && Sized(s) && w.valid && OnGrid(w, now) && !Broken(Ago(w, 0).snapshot, s)
    ensures Inv(w.(stamps := w.stamps + [Stamp(s, now)]))
  {
    var next := w.stamps + [Stamp(s, now)];
    hide Broken, Sized;
    forall k | 0 < k < |next| ensures Linked(next[k - 1], next[k]) {
      if k < |w.stamps| { assert Linked(w.stamps[k - 1], w.stamps[k]); }
    }
  }

  lemma SampleInv(w: Window, s: Snapshot, now: int)
    requires Inv(w) && Sized(s)
    ensures Inv(Sample(w, s, now).0) && Sample(w, s, now).0.valid
  {
    if w.valid && OnGrid(w, now) && !Broken(Ago(w, 0).snapshot, s) { AppendInv(w, s, now); }
    hide Broken, Received, Gaps, AllHeard;
  }

  // ----- Windows are differences -----

  lemma {:induction false} NotBrokenAcross(w: Window, n: nat)
    requires Inv(w) && n < |w.stamps|
    ensures !Broken(Ago(w, n).snapshot, Ago(w, 0).snapshot)
  {
    if n > 0 {
      NotBrokenAcross(w, n - 1);
      var k := |w.stamps| - n;
      assert Linked(w.stamps[k - 1], w.stamps[k]);
      BrokenTransitive(Ago(w, n).snapshot, Ago(w, n - 1).snapshot, Ago(w, 0).snapshot);
    }
  }

  lemma BrokenTransitive(a: Snapshot, b: Snapshot, c: Snapshot)
    requires Sized(a) && Sized(b) && Sized(c) && !Broken(a, b) && !Broken(b, c)
    ensures !Broken(a, c)
  {
    forall i | 0 <= i < TRACKERS && i in c.active ensures !Rewound(a.trackers[i], c.trackers[i]) {
      assert !Rewound(a.trackers[i], b.trackers[i]) && !Rewound(b.trackers[i], c.trackers[i]);
    }
  }

  /**
   Loss is diagnosed only over 10.0 to 10.5 s of uninterrupted measurement in which every active tracker was
   heard, with at least a hundred samples of which more than a fifth are gaps.
   */
  lemma LossyMeans(w: Window, s: Snapshot, now: int)
    requires Inv(w) && Sized(s) && Sample(w, s, now).1.Lossy?
    ensures |w.stamps| >= SLOTS && w.valid && Usable(s)
    ensures var a := w.stamps[|w.stamps| - SLOTS];
      var received, gaps := Received(s, TRACKERS) - Received(a.snapshot, TRACKERS), Gaps(s, TRACKERS) - Gaps(a.snapshot, TRACKERS);
      && WINDOW_MS <= now - a.time <= WINDOW_MS + JITTER
      && Sized(a.snapshot) && !Broken(a.snapshot, s) && AllHeard(a.snapshot, s)
      && received + gaps >= MIN_SAMPLES && gaps * 5 > received + gaps
  {
    AppendInv(w, s, now);
    var v := w.(stamps := w.stamps + [Stamp(s, now)]);
    NotBrokenAcross(v, SLOTS);
    assert Ago(v, SLOTS) == w.stamps[|w.stamps| - SLOTS];
    hide Broken, Received, Gaps, AllHeard;
  }

  lemma {:induction false} ReceivedGrows(a: Snapshot, b: Snapshot, n: nat)
    requires Sized(a) && Sized(b) && !Broken(a, b) && n <= TRACKERS
    ensures Received(a, n) <= Received(b, n)
    ensures AllHeard(a, b) && (exists i :: 0 <= i < n && i in b.active) ==> Received(a, n) < Received(b, n)
  {
    if n > 0 {
      ReceivedGrows(a, b, n - 1);
      assert n - 1 in b.active ==> !Rewound(a.trackers[n - 1], b.trackers[n - 1]);
      assert a.active == b.active;
      hide Broken;
    }
  }

  /** The snapshot continues the measurement: a usable one, 0.5 to 1.5 s after the last, without a discontinuity. */
  predicate GoesOn(w: Window, s: Snapshot, now: int)
    requires Inv(w) && Sized(s)
  {
    && w.valid && s.eligible && s.active != {} && !s.capPending && s.active <= s.ready
    && 500 <= now - Ago(w, 0).time <= 1500 && !Broken(Ago(w, 0).snapshot, s)
  }

  /** Ten intervals end with this snapshot, and their ends are 10.0 to 10.5 s apart. */
  predicate SpansTen(w: Window, now: int) {
    |w.stamps| >= 10 && 10000 <= now - w.stamps[|w.stamps| - 10].time <= 10500
  }

  /** Enough for a judgement: a continued measurement over ten intervals, not just resumed after an idle one, in which
      every active tracker was heard and that counts at least a hundred samples. */
  ghost predicate Judgeable(w: Window, s: Snapshot, now: int)
    requires Inv(w) && Sized(s)
  {
    && GoesOn(w, s, now) && !w.resuming && SpansTen(w, now)
    && var a := w.stamps[|w.stamps| - 10].snapshot;
       && AllHeard(a, s)
       && Received(s, TRACKERS) + Gaps(s, TRACKERS) - Received(a, TRACKERS) - Gaps(a, TRACKERS) >= 100
  }

  /** More than a fifth of the samples since ten intervals ago are gaps. */
  ghost predicate FifthLost(w: Window, s: Snapshot)
    requires Inv(w) && Sized(s) && |w.stamps| >= 10
  {
    var a := w.stamps[|w.stamps| - 10].snapshot;
    var received, gaps := Received(s, TRACKERS) - Received(a, TRACKERS), Gaps(s, TRACKERS) - Gaps(a, TRACKERS);
    gaps * 5 > received + gaps
  }

  /** A sample is judged exactly when there is enough to judge, and then it is lossy exactly when more than a fifth is lost. */
  lemma VerdictIff(w: Window, s: Snapshot, now: int)
    requires Inv(w) && Sized(s)
    ensures Sample(w, s, now).1.Lossy? <==> Judgeable(w, s, now) && FifthLost(w, s)
    ensures Sample(w, s, now).1.Clean? <==> Judgeable(w, s, now) && !FifthLost(w, s)
  {
    if GoesOn(w, s, now) {
      AppendInv(w, s, now);
      var v := w.(stamps := w.stamps + [Stamp(s, now)]);
      if |w.stamps| >= SLOTS {
        NotBrokenAcross(v, SLOTS);
        assert Ago(v, SLOTS) == w.stamps[|w.stamps| - SLOTS];
        SomeActive(s);
        ReceivedGrows(Ago(v, SLOTS).snapshot, s, TRACKERS);
      }
      hide Broken, Received, Gaps, AllHeard, Inv;
    } else {
      hide Broken, Received, Gaps, AllHeard, Inv;
    }
  }

  lemma SomeActive(s: Snapshot)
    requires Sized(s) && s.active != {}
    ensures exists i :: 0 <= i < TRACKERS && i in s.active
  {
    var i :| i in s.active;
  }

  /** Idleness is remembered: after ten intervals without any receipt the window resumes only with an interval that has
      one, and that interval itself is not counted, since its gaps may reach back into the idle time. A measurement that
      does not go on, or has taken too long for its ten intervals, starts over; every other one is continued. */
  lemma IdleIsDiscarded(w: Window, s: Snapshot, now: int)
    requires Inv(w) && Sized(s)
    ensures Sample(w, s, now).0.resuming <==>
      && GoesOn(w, s, now)
      && if w.resuming then Received(s, TRACKERS) == Received(Ago(w, 0).snapshot, TRACKERS)
         else SpansTen(w, now) && Received(s, TRACKERS) == Received(w.stamps[|w.stamps| - 10].snapshot, TRACKERS)
    ensures Sample(w, s, now).0.valid && Sample(w, s, now).0.stamps ==
      if !GoesOn(w, s, now) || w.resuming || Sample(w, s, now).0.resuming
         || (|w.stamps| >= 10 && now - w.stamps[|w.stamps| - 10].time > 10500)
      then [Stamp(s, now)] else w.stamps + [Stamp(s, now)]
  {
    if GoesOn(w, s, now) {
      AppendInv(w, s, now);
      hide Broken, Received, Gaps, AllHeard, Inv;
    } else {
      hide Broken, Received, Gaps, AllHeard, Inv;
    }
  }
}
