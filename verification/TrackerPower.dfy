/**
 Which power notice wins. A tracker numbers its events 0, 1, 2, ... within a session and sends the number
 modulo 65536; here every received event is paired with its true number, which the receiver never sees.
 */
module TrackerPower {
  import opened SerialNumbers
  import opened TrackerEvents

  /** True numbers of the window's head and of the last applied power notice. */
  datatype Truth = Truth(head: int, notice: int)

  /** The cache's expanded order agrees with the true numbers up to a common offset. */
  ghost predicate Tracks(w: Window, p: Power, g: Truth) {
    && (w.live ==> g.head % SPACE == w.high)
    && (p.ordered ==> w.live && p.watermark - w.order == g.notice - g.head && g.notice % SPACE == p.sequence)
  }

  /** What must hold of a delayed or early event: half the sequence space is enough to place it. */
  ghost predicate InReach(w: Window, p: Power, g: Truth, index: int, now: nat) {
    if Quiet(w, now) then p.ordered ==> -HALF <= g.notice - index < HALF
    else -HALF <= index - g.head < HALF
  }

  ghost function Ahead(w: Window, g: Truth, index: int, now: nat): int {
    if Quiet(w, now) || index > g.head then index else g.head
  }

  ghost function Learn(c: Cache, g: Truth, e: Event, index: int, now: nat): Truth {
    Truth(Ahead(c.window, g, index, now),
          if e.kind.PowerKind? && (!c.power.ordered || index > g.notice) then index else g.notice)
  }

  lemma SignedTruth(i: int, j: int)
    requires -HALF <= i - j < HALF
    ensures Signed(i % SPACE, j % SPACE) == i - j
    ensures i >= j ==> Distance(i % SPACE, j % SPACE) == i - j
    ensures i <= j ==> Distance(j % SPACE, i % SPACE) == j - i
  {
  }

  lemma ZeroDistance(a: nat)
    requires a < SPACE
    ensures Distance(a, a) == 0
  {
  }

  /** The window places an event exactly, relative to everything it placed before. */
  lemma WindowTracks(w: Window, p: Power, g: Truth, index: int, now: nat)
    requires |w.seen| == WINDOW && Tracks(w, p, g) && InReach(w, p, g, index, now)
    requires Unseen(w, index % SPACE, now)
    ensures var v := Advance(w, index % SPACE, now); var q := Rebase(p, w, index % SPACE, now);
      var h := Truth(Ahead(w, g, index, now), g.notice);
      && Tracks(v, q, h) && v.live && Position(v, index % SPACE) - v.order == index - h.head
      && q == p.(watermark := q.watermark)
  {
    var seqNo := index % SPACE;
    ZeroDistance(seqNo);
    if Quiet(w, now) {
      if p.ordered { SignedTruth(g.notice, index); }
    } else {
      SignedTruth(index, g.head);
    }
    hide Distance, Signed, Shifted, Elapsed;
  }

  lemma SignedRange(a: nat, b: nat)
    ensures -HALF <= Signed(a, b) < HALF
  {
  }

  /** An event let through takes the place its true number demands, and the watermark keeps the notice's. */
  ghost predicate PlacedTruly(w: Window, p: Power, g: Truth, index: int, now: nat)
    requires |w.seen| == WINDOW && Unseen(w, index % SPACE, now)
  {
    var v, q := Advance(w, index % SPACE, now), Rebase(p, w, index % SPACE, now);
    var h := Truth(Ahead(w, g, index, now), g.notice);
    Tracks(v, q, h) && Position(v, index % SPACE) - v.order == index - h.head
  }

  lemma ReanchorLimit(w: Window, p: Power, g: Truth, index: int, now: nat)
    requires |w.seen| == WINDOW && Tracks(w, p, g) && Quiet(w, now) && p.ordered && PlacedTruly(w, p, g, index, now)
    ensures -HALF <= g.notice - index < HALF
  {
    SignedRange(p.sequence, index % SPACE);
    hide Signed, Distance, Elapsed;
  }

  lemma WindowLimit(w: Window, p: Power, g: Truth, index: int, now: nat)
    requires |w.seen| == WINDOW && Tracks(w, p, g) && !Quiet(w, now) && p.ordered && Unseen(w, index % SPACE, now)
    requires PlacedTruly(w, p, g, index, now)
    ensures -HALF <= index - g.head < HALF
  {
    hide Shifted, Elapsed;
  }

  /**
   Half the sequence space is exactly the limit, with and without a re-anchor: once a notice has been applied,
   an accepted event is placed by its true number if and only if it is in reach.
   */
  lemma PlacedIff(w: Window, p: Power, g: Truth, index: int, now: nat)
    requires |w.seen| == WINDOW && Tracks(w, p, g) && p.ordered && Unseen(w, index % SPACE, now)
    ensures PlacedTruly(w, p, g, index, now) <==> InReach(w, p, g, index, now)
  {
    if InReach(w, p, g, index, now) { WindowTracks(w, p, g, index, now); }
    if PlacedTruly(w, p, g, index, now) {
      hide PlacedTruly;
      if Quiet(w, now) { ReanchorLimit(w, p, g, index, now); } else { WindowLimit(w, p, g, index, now); }
    }
  }

  /** The part of the power record that later decisions read. */
  function Intent(p: Power): (PowerPhase, nat, int) { (p.phase, p.receivedAt, p.order) }

  /** Operation evidence may end an intention; it never touches the watermark. */
  lemma EvidenceKeepsWatermark(p: Power, e: Event, order: int, now: nat)
    ensures var q := Evidence(p, e, order, now); q == p.(phase := q.phase)
  {
  }

  lemma TakeTracks(c: Cache, e: Event, now: nat, g: Truth, index: int)
    requires WellFormed(c) && Valid(e) && Tracks(c.window, c.power, g)
    requires Take(c, e, now).accepted ==> index % SPACE == e.seqNo && InReach(c.window, c.power, g, index, now)
    ensures var o := Take(c, e, now);
      && Tracks(o.cache.window, o.cache.power, if o.accepted then Learn(c, g, e, index, now) else g)
      && (c.power.ordered ==> o.cache.power.ordered)
      && (o.accepted && e.kind.PowerKind? ==> o.cache.power.ordered)
      && (e.kind.PowerKind? && c.power.ordered && (o.accepted ==> index <= g.notice) && !Known(c, e) ==>
            Intent(o.cache.power) == Intent(c.power))
  {
    if Known(c, e) {
      EvidenceKeepsWatermark(c.power, e, At(c, Lookup(c, e)).order, now);
      hide Lookup, Evidence;
    } else if Unseen(c.window, e.seqNo, now) {
      WindowTracks(c.window, c.power, g, index, now);
      AdmittedShape(c, e, now);
      var w, order, d := Lookup(c, e), Order(c, e, now), Admitted(c, e, now);
      var f := if e.kind.PowerKind? then d.(power := Apply(d.power, e, order, now)) else d;
      StorePower(f, w, e, order, now);
      EvidenceKeepsWatermark(f.power, e, order, now);
      StoreFrame(f, w, e, order, now);
      hide Store, Advance, Unseen, Position, WellFormed, Elapsed, Evidence, Rebase, Lookup;
    }
  }

  lemma StoreFrame(c: Cache, w: Where, e: Event, order: int, now: nat)
    requires WellFormed(c) && w == Lookup(c, e)
    ensures Store(c, w, e, order, now).window == c.window
    ensures e.kind.PowerKind? && Valid(e) ==> Store(c, w, e, order, now) == c
  {
    hide Lookup, Evidence, Allocate;
  }

  // ----- Whole runs -----

  predicate FromSession(m: Move, nonce: nat) { m.Receiving? && m.event.nonce == nonce }

  /** What is known of session `nonce` after one more move. */
  ghost function Observe(c: Cache, m: Move, index: int, nonce: nat, g: Truth): Truth
    requires Possible(c, m)
  {
    if FromSession(m, nonce) && Accepts(c, m) then Learn(Enter(c, m.event, m.now), g, m.event, index, m.now) else g
  }

  /** What is known after `n` moves, starting from `g` in state `a`. */
  ghost function TruthFrom(trace: seq<Cache>, moves: seq<Move>, indices: seq<int>, nonce: nat, a: nat, g: Truth, n: nat): Truth
    requires Execution(trace, moves) && n <= |moves| == |indices|
  {
    if n <= a then g
    else
      assert Moves(trace[n - 1], moves[n - 1], trace[n - 1 + 1]);
      Observe(trace[n - 1], moves[n - 1], indices[n - 1], nonce, TruthFrom(trace, moves, indices, nonce, a, g, n - 1))
  }

  ghost predicate InSession(c: Cache, nonce: nat, g: Truth) { c.nonce == nonce ==> Tracks(c.window, c.power, g) }

  /** If the event is one of the session and accepted, it carries its true number modulo 65536 and is in reach. */
  ghost predicate Placeable(c: Cache, m: Move, index: int, nonce: nat, g: Truth) {
    Possible(c, m) && FromSession(m, nonce) && Accepts(c, m) ==>
      var d := Enter(c, m.event, m.now);
      index % SPACE == m.event.seqNo && InReach(d.window, d.power, g, index, m.now)
  }

  ghost predicate PlaceableFrom(trace: seq<Cache>, moves: seq<Move>, indices: seq<int>, nonce: nat, a: nat, g: Truth, n: nat)
    requires Execution(trace, moves) && n <= |moves| == |indices|
  {
    forall k :: a <= k < n ==> Placeable(trace[k], moves[k], indices[k], nonce, TruthFrom(trace, moves, indices, nonce, a, g, k))
  }

  lemma EnterTracks(c: Cache, e: Event, now: nat, g: Truth)
    requires InSession(c, e.nonce, g)
    ensures Tracks(Enter(c, e, now).window, Enter(c, e, now).power, g)
  {
  }

  lemma MoveTracks(c: Cache, m: Move, d: Cache, index: int, nonce: nat, g: Truth)
    requires Moves(c, m, d) && nonce != 0 && InSession(c, nonce, g) && Placeable(c, m, index, nonce, g)
    ensures InSession(d, nonce, Observe(c, m, index, nonce, g))
  {
    hide Tracks, InReach, Learn;
    match m {
      case Receiving(e, now) =>
        if !Old(c, e, now) {
          EnterWellFormed(c, e, now);
          TakeNonce(Enter(c, e, now), e, now);
          if e.nonce == nonce {
            EnterTracks(c, e, now, g);
            TakeTracks(Enter(c, e, now), e, now, g, index);
          }
          hide Take;
        }
      case Checking(i, now) =>
        if c.nonce == nonce { LapseTracks(c.window, c.power, now, g); }
        hide Lapse;
      case Repair =>
    }
  }

  lemma LapseTracks(w: Window, p: Power, now: nat, g: Truth)
    requires Tracks(w, p, g)
    ensures Tracks(w, Lapse(p, now), g)
  {
  }

  /** From a state the true numbers agree with, they go on agreeing across every re-anchor. */
  lemma {:induction false} WatermarkIsTrue(trace: seq<Cache>, moves: seq<Move>, indices: seq<int>, nonce: nat, a: nat, g: Truth, n: nat)
    requires Execution(trace, moves) && a <= n <= |moves| == |indices| && nonce != 0
    requires InSession(trace[a], nonce, g) && PlaceableFrom(trace, moves, indices, nonce, a, g, n)
    ensures InSession(trace[n], nonce, TruthFrom(trace, moves, indices, nonce, a, g, n))
  {
    if n > a {
      hide Moves, InSession, Placeable, Observe;
      WatermarkIsTrue(trace, moves, indices, nonce, a, g, n - 1);
      assert Moves(trace[n - 1], moves[n - 1], trace[n - 1 + 1]);
      MoveTracks(trace[n - 1], moves[n - 1], trace[n], indices[n - 1], nonce, TruthFrom(trace, moves, indices, nonce, a, g, n - 1));
    }
  }

  lemma NoticeIsNew(c: Cache, e: Event, log: set<int>)
    requires Inv(c, log) && Valid(e) && e.kind.PowerKind?
    ensures !Known(c, e)
  {
    var w := Lookup(c, e);
    if w.InOperations? { assert EntryOk(All(c)[w.i], w.i, c.nonce, log); }
  }

  lemma OldNoticeStep(c: Cache, m: Move, d: Cache, index: int, nonce: nat, g: Truth, log: set<int>)
    requires Moves(c, m, d) && Inv(c, log) && c.nonce == nonce && Tracks(c.window, c.power, g) && Placeable(c, m, index, nonce, g)
    requires FromSession(m, nonce) && m.event.kind.PowerKind? && c.power.ordered && (Accepts(c, m) ==> index <= g.notice)
    ensures Intent(d.power) == Intent(c.power)
  {
    NoticeIsNew(c, m.event, log);
    TakeTracks(c, m.event, m.now, g, index);
    hide Take, Tracks, InReach, Inv, Known;
  }

  lemma LearnGrows(c: Cache, m: Move, d: Cache, index: int, nonce: nat, g: Truth)
    requires Moves(c, m, d) && c.nonce == nonce == d.nonce && nonce != 0 && c.power.ordered
    requires Tracks(c.window, c.power, g) && Placeable(c, m, index, nonce, g)
    ensures d.power.ordered && Observe(c, m, index, nonce, g).notice >= g.notice
  {
    hide Tracks, InReach, Lookup;
    match m {
      case Receiving(e, now) =>
        if e.nonce == nonce {
          TakeTracks(c, e, now, g, index);
        } else if !Old(c, e, now) {
          EnterWellFormed(c, e, now);
          TakeNonce(Enter(c, e, now), e, now);
        }
        hide Take;
      case Checking(i, now) =>
      case Repair =>
    }
  }

  lemma NoticeTaken(c: Cache, m: Move, d: Cache, index: int, nonce: nat, g: Truth)
    requires Moves(c, m, d) && InSession(c, nonce, g) && Placeable(c, m, index, nonce, g)
    requires FromSession(m, nonce) && m.event.kind.PowerKind? && Accepts(c, m)
    ensures d.power.ordered && Observe(c, m, index, nonce, g).notice >= index
  {
    EnterWellFormed(c, m.event, m.now);
    EnterTracks(c, m.event, m.now, g);
    TakeTracks(Enter(c, m.event, m.now), m.event, m.now, g, index);
    hide Take, Tracks, InReach;
  }

  /** The session is the current one from state `a` to state `n`. */
  ghost predicate Stays(trace: seq<Cache>, nonce: nat, a: nat, n: nat)
    requires n < |trace|
  {
    forall j :: a <= j <= n ==> trace[j].nonce == nonce
  }

  lemma {:induction false} NoticeSurvives(trace: seq<Cache>, moves: seq<Move>, indices: seq<int>, nonce: nat, a: nat, g: Truth, n: nat)
    requires Execution(trace, moves) && a <= n <= |moves| == |indices| && nonce != 0 && Stays(trace, nonce, a, n)
    requires Tracks(trace[a].window, trace[a].power, g) && trace[a].power.ordered
    requires PlaceableFrom(trace, moves, indices, nonce, a, g, n)
    ensures trace[n].power.ordered && TruthFrom(trace, moves, indices, nonce, a, g, n).notice >= g.notice
    ensures Tracks(trace[n].window, trace[n].power, TruthFrom(trace, moves, indices, nonce, a, g, n))
  {
    hide Moves, Placeable, Observe, Tracks, Possible;
    if n > a {
      NoticeSurvives(trace, moves, indices, nonce, a, g, n - 1);
      WatermarkIsTrue(trace, moves, indices, nonce, a, g, n);
      assert Moves(trace[n - 1], moves[n - 1], trace[n - 1 + 1]);
      LearnGrows(trace[n - 1], moves[n - 1], trace[n], indices[n - 1], nonce, TruthFrom(trace, moves, indices, nonce, a, g, n - 1));
    }
  }

  /** An older notice leaves the intention alone, from a state the true numbers agree with. */
  lemma OlderLoses(trace: seq<Cache>, moves: seq<Move>, indices: seq<int>, nonce: nat, a: nat, g: Truth, n: nat)
    requires Execution(trace, moves) && a <= n < |moves| == |indices| && nonce != 0 && Stays(trace, nonce, a, n)
    requires Tracks(trace[a].window, trace[a].power, g) && trace[a].power.ordered
    requires PlaceableFrom(trace, moves, indices, nonce, a, g, n + 1)
    requires FromSession(moves[n], nonce) && moves[n].event.kind.PowerKind? && indices[n] <= g.notice
    ensures Intent(trace[n + 1].power) == Intent(trace[n].power)
  {
    hide Moves, Placeable, Observe, Tracks, Possible, Inv, Intent;
    var h := TruthFrom(trace, moves, indices, nonce, a, g, n);
    assert Placeable(trace[n], moves[n], indices[n], nonce, h);
    NoticeSurvives(trace, moves, indices, nonce, a, g, n);
    ReachableInv(trace, moves, n);
    assert Moves(trace[n], moves[n], trace[n + 1]);
    OldNoticeStep(trace[n], moves[n], trace[n + 1], indices[n], nonce, h, Log(trace, moves, n));
  }

  // ----- An applied notice is a fresh start -----

  /** The move is a power notice that the receiver takes for the newest. */
  ghost predicate Applies(c: Cache, m: Move)
    requires Possible(c, m)
  {
    && Accepts(c, m) && m.event.kind.PowerKind?
    && var d := Enter(c, m.event, m.now);
       WellFormed(d) && Unseen(d.window, m.event.seqNo, m.now) &&
       var p := Admitted(d, m.event, m.now).power; !p.ordered || Order(d, m.event, m.now) > p.watermark
  }

  /** True numbers counted from the notice just applied. */
  ghost function Anchor(c: Cache, index: int): Truth { Truth(index + Distance(c.window.high, c.power.sequence), index) }

  lemma AnchorNotice(c: Cache, index: int)
    ensures Anchor(c, index).notice == index
  {
  }

  lemma AnchorNumbers(index: int, high: nat, seqNo: nat)
    requires index % SPACE == seqNo && high < SPACE
    ensures (index + Distance(high, seqNo)) % SPACE == high
  {
  }

  /** Whatever happened before: once a notice is applied, window and watermark agree with its true number. */
  lemma AppliedAnchors(c: Cache, m: Move, d: Cache, index: int, log: set<int>)
    requires Moves(c, m, d) && Inv(c, log) && Applies(c, m) && index % SPACE == m.event.seqNo
    ensures d.nonce == m.event.nonce && d.power.ordered && Tracks(d.window, d.power, Anchor(d, index))
  {
    var e, now := m.event, m.now;
    var s := Enter(c, e, now);
    EnterInv(c, e, now, log);
    NoticeIsNew(s, e, log);
    hide Inv;
    TakeNonce(s, e, now);
    AppliedTake(s, e, now, index);
    hide Take, Tracks, Admitted, Order;
  }

  lemma AppliedTake(c: Cache, e: Event, now: nat, index: int)
    requires WellFormed(c) && Valid(e) && e.kind.PowerKind? && !Known(c, e) && Unseen(c.window, e.seqNo, now) && index % SPACE == e.seqNo
    requires var p := Admitted(c, e, now).power; !p.ordered || Order(c, e, now) > p.watermark
    ensures var d := Take(c, e, now).cache; d.power.ordered && Tracks(d.window, d.power, Anchor(d, index))
  {
    AdmittedShape(c, e, now);
    var w, order, d := Lookup(c, e), Order(c, e, now), Admitted(c, e, now);
    var f := d.(power := Apply(d.power, e, order, now));
    StoreFrame(f, w, e, order, now);
    AnchorNumbers(index, d.window.high, e.seqNo);
    AdvanceLives(c.window, e.seqNo, now);
    hide Store, Advance, Unseen, Elapsed, Rebase, Lookup, Distance, Known;
  }

  lemma AdvanceLives(w: Window, seqNo: nat, now: nat)
    requires |w.seen| == WINDOW && Unseen(w, seqNo, now)
    ensures Advance(w, seqNo, now).live
  {
  }

  /** Step `k` applies a notice of the session, whose true number is the given one. */
  ghost predicate AppliesAt(trace: seq<Cache>, moves: seq<Move>, indices: seq<int>, nonce: nat, k: nat)
    requires |trace| == |moves| + 1 && k < |moves| == |indices|
  {
    && Possible(trace[k], moves[k]) && FromSession(moves[k], nonce) && Applies(trace[k], moves[k])
    && indices[k] % SPACE == moves[k].event.seqNo
  }

  lemma NoticeAnchors(trace: seq<Cache>, moves: seq<Move>, indices: seq<int>, nonce: nat, k: nat)
    requires Execution(trace, moves) && k < |moves| == |indices| && AppliesAt(trace, moves, indices, nonce, k)
    ensures var c := trace[k + 1]; c.nonce == nonce && c.power.ordered && Tracks(c.window, c.power, Anchor(c, indices[k]))
  {
    ReachableInv(trace, moves, k);
    assert Moves(trace[k], moves[k], trace[k + 1]);
    hide Applies, Tracks, Inv, Possible, Log;
    AppliedAnchors(trace[k], moves[k], trace[k + 1], indices[k], Log(trace, moves, k));
  }

  /**
   Once a power notice has been applied, an older one that arrives later in the session never changes the
   stored intention, through any number of quiet intervals and re-anchors, as long as the events accepted since
   are in reach. What came before the notice does not matter, nor what is not accepted.
   */
  lemma OlderNoticeNeverWins(trace: seq<Cache>, moves: seq<Move>, indices: seq<int>, nonce: nat, k: nat, n: nat)
    requires Execution(trace, moves) && k < n < |moves| == |indices| && nonce != 0
    requires AppliesAt(trace, moves, indices, nonce, k) && Stays(trace, nonce, k + 1, n)
    requires PlaceableFrom(trace, moves, indices, nonce, k + 1, Anchor(trace[k + 1], indices[k]), n + 1)
    requires FromSession(moves[n], nonce) && moves[n].event.kind.PowerKind? && indices[n] <= indices[k]
    ensures Intent(trace[n + 1].power) == Intent(trace[n].power)
  {
    hide Tracks, PlaceableFrom, Intent, AppliesAt, Anchor, TruthFrom, Moves;
    var g := Anchor(trace[k + 1], indices[k]);
    AnchorNotice(trace[k + 1], indices[k]);
    NoticeAnchors(trace, moves, indices, nonce, k);
    OlderLoses(trace, moves, indices, nonce, k + 1, g, n);
  }

  /** Within reach a notice is applied exactly when it is newer than the last one applied. */
  lemma AppliesIffNewer(c: Cache, m: Move, index: int, nonce: nat, g: Truth)
    requires Possible(c, m) && c.nonce == nonce && Tracks(c.window, c.power, g) && c.power.ordered && Placeable(c, m, index, nonce, g)
    requires FromSession(m, nonce) && m.event.kind.PowerKind? && Accepts(c, m)
    ensures Applies(c, m) <==> index > g.notice
  {
    AcceptedIsUnseen(c, m, nonce);
    WindowTracks(c.window, c.power, g, index, m.now);
    hide Unseen, Advance, Rebase, Accepts, Position;
  }

  /** So after an applied notice the next one applied is the next accepted one that is newer than all before. */
  lemma NewerNoticeWins(trace: seq<Cache>, moves: seq<Move>, indices: seq<int>, nonce: nat, k: nat, n: nat)
    requires Execution(trace, moves) && k < n < |moves| == |indices| && nonce != 0
    requires AppliesAt(trace, moves, indices, nonce, k) && Stays(trace, nonce, k + 1, n)
    requires PlaceableFrom(trace, moves, indices, nonce, k + 1, Anchor(trace[k + 1], indices[k]), n + 1)
    requires Possible(trace[n], moves[n]) && FromSession(moves[n], nonce) && moves[n].event.kind.PowerKind? && Accepts(trace[n], moves[n])
    ensures Applies(trace[n], moves[n]) <==>
      indices[n] > TruthFrom(trace, moves, indices, nonce, k + 1, Anchor(trace[k + 1], indices[k]), n).notice
  {
    hide Tracks, Intent, AppliesAt, Anchor, TruthFrom, Moves, Placeable, Applies, Possible;
    var g := Anchor(trace[k + 1], indices[k]);
    NoticeAnchors(trace, moves, indices, nonce, k);
    NoticeSurvives(trace, moves, indices, nonce, k + 1, g, n);
    var h := TruthFrom(trace, moves, indices, nonce, k + 1, g, n);
    assert Placeable(trace[n], moves[n], indices[n], nonce, h);
    AppliesIffNewer(trace[n], moves[n], indices[n], nonce, h);
  }

  /** The whole-session form: with everything in reach from the start, any accepted notice beats every older one. */
  lemma OlderNoticeNeverWinsInSession(trace: seq<Cache>, moves: seq<Move>, indices: seq<int>, nonce: nat, k: nat, n: nat)
    requires Execution(trace, moves) && k < n < |moves| == |indices| && nonce != 0 && Stays(trace, nonce, k + 1, n)
    requires PlaceableFrom(trace, moves, indices, nonce, 0, Truth(0, 0), n + 1)
    requires Possible(trace[k], moves[k]) && FromSession(moves[k], nonce) && moves[k].event.kind.PowerKind? && Accepts(trace[k], moves[k])
    requires FromSession(moves[n], nonce) && moves[n].event.kind.PowerKind? && indices[n] <= indices[k]
    ensures Intent(trace[n + 1].power) == Intent(trace[n].power)
  {
    var g0 := Truth(0, 0);
    var g, h := TruthFrom(trace, moves, indices, nonce, 0, g0, k), TruthFrom(trace, moves, indices, nonce, 0, g0, k + 1);
    assert Placeable(trace[k], moves[k], indices[k], nonce, g);
    WatermarkIsTrue(trace, moves, indices, nonce, 0, g0, k);
    WatermarkIsTrue(trace, moves, indices, nonce, 0, g0, k + 1);
    assert Moves(trace[k], moves[k], trace[k + 1]);
    NoticeTaken(trace[k], moves[k], trace[k + 1], indices[k], nonce, g);
    TruthShifts(trace, moves, indices, nonce, 0, g0, k + 1, n + 1);
    hide Tracks, PlaceableFrom, Intent, Moves, Placeable, Observe;
    OlderLoses(trace, moves, indices, nonce, k + 1, h, n);
  }

  /** Starting later from what is known by then changes nothing. */
  lemma {:induction false} TruthShifts(trace: seq<Cache>, moves: seq<Move>, indices: seq<int>, nonce: nat, a: nat, g: Truth, b: nat, n: nat)
    requires Execution(trace, moves) && a <= b <= n <= |moves| == |indices|
    ensures var h := TruthFrom(trace, moves, indices, nonce, a, g, b);
      && TruthFrom(trace, moves, indices, nonce, b, h, n) == TruthFrom(trace, moves, indices, nonce, a, g, n)
      && (PlaceableFrom(trace, moves, indices, nonce, a, g, n) ==> PlaceableFrom(trace, moves, indices, nonce, b, h, n))
    decreases n
  {
    hide Moves, Placeable, Observe;
    var h := TruthFrom(trace, moves, indices, nonce, a, g, b);
    if n > b {
      TruthShifts(trace, moves, indices, nonce, a, g, b, n - 1);
      assert Moves(trace[n - 1], moves[n - 1], trace[n - 1 + 1]);
      if PlaceableFrom(trace, moves, indices, nonce, a, g, n) {
        assert Placeable(trace[n - 1], moves[n - 1], indices[n - 1], nonce, TruthFrom(trace, moves, indices, nonce, a, g, n - 1));
        forall k | b <= k < n ensures Placeable(trace[k], moves[k], indices[k], nonce, TruthFrom(trace, moves, indices, nonce, b, h, k)) {
          if k < n - 1 { assert PlaceableFrom(trace, moves, indices, nonce, b, h, n - 1); }
        }
      }
    }
  }

  // ----- The condition is exact -----

  /** If the event is one of the session and accepted, it is placed by its true number. */
  ghost predicate PlacedAt(c: Cache, m: Move, index: int, nonce: nat, g: Truth) {
    Possible(c, m) && FromSession(m, nonce) && Accepts(c, m) ==>
      var d := Enter(c, m.event, m.now);
      |d.window.seen| == WINDOW && Unseen(d.window, index % SPACE, m.now) && PlacedTruly(d.window, d.power, g, index, m.now)
  }

  ghost predicate PlacedFrom(trace: seq<Cache>, moves: seq<Move>, indices: seq<int>, nonce: nat, a: nat, g: Truth, n: nat)
    requires Execution(trace, moves) && n <= |moves| == |indices|
  {
    forall k :: a <= k < n ==> PlacedAt(trace[k], moves[k], indices[k], nonce, TruthFrom(trace, moves, indices, nonce, a, g, k))
  }

  /** The numbers given to the events of the session are the ones they carry. */
  ghost predicate Numbered(moves: seq<Move>, indices: seq<int>, nonce: nat)
    requires |moves| == |indices|
  {
    forall k :: 0 <= k < |moves| && FromSession(moves[k], nonce) ==> indices[k] % SPACE == moves[k].event.seqNo
  }

  lemma AcceptedIsUnseen(c: Cache, m: Move, nonce: nat)
    requires Possible(c, m) && FromSession(m, nonce) && Accepts(c, m)
    ensures |Enter(c, m.event, m.now).window.seen| == WINDOW && Unseen(Enter(c, m.event, m.now).window, m.event.seqNo, m.now)
  {
    EnterWellFormed(c, m.event, m.now);
    hide Unseen, Lookup, Store, Advance;
  }

  lemma PlacedStepIff(c: Cache, m: Move, index: int, nonce: nat, g: Truth)
    requires Possible(c, m) && c.nonce == nonce && Tracks(c.window, c.power, g) && c.power.ordered
    requires FromSession(m, nonce) ==> index % SPACE == m.event.seqNo
    ensures PlacedAt(c, m, index, nonce, g) <==> Placeable(c, m, index, nonce, g)
  {
    if FromSession(m, nonce) && Accepts(c, m) {
      AcceptedIsUnseen(c, m, nonce);
      PlacedIff(c.window, c.power, g, index, m.now);
      hide Unseen, PlacedTruly, InReach, Tracks;
    }
  }

  /**
   Over a run: from an applied notice on, every accepted event of the session is placed by its true number if
   and only if every one of them is in reach.
   */
  lemma {:induction false} PlacedRunIff(trace: seq<Cache>, moves: seq<Move>, indices: seq<int>, nonce: nat, a: nat, g: Truth, n: nat)
    requires Execution(trace, moves) && a <= n <= |moves| == |indices| && nonce != 0 && Numbered(moves, indices, nonce)
    requires Stays(trace, nonce, a, n) && Tracks(trace[a].window, trace[a].power, g) && trace[a].power.ordered
    ensures PlacedFrom(trace, moves, indices, nonce, a, g, n) <==> PlaceableFrom(trace, moves, indices, nonce, a, g, n)
  {
    hide Tracks, Placeable, PlacedAt, Observe, Do, Possible, TruthFrom;
    if n > a {
      PlacedRunIff(trace, moves, indices, nonce, a, g, n - 1);
      var c, m, h := trace[n - 1], moves[n - 1], TruthFrom(trace, moves, indices, nonce, a, g, n - 1);
      assert Moves(c, m, trace[n - 1 + 1]);
      if PlaceableFrom(trace, moves, indices, nonce, a, g, n - 1) {
        NoticeSurvives(trace, moves, indices, nonce, a, g, n - 1);
        PlacedStepIff(c, m, indices[n - 1], nonce, h);
        assert PlacedAt(c, m, indices[n - 1], nonce, h) <==> Placeable(c, m, indices[n - 1], nonce, h);
      }
    }
  }

  /** The same, said of the notice itself. */
  lemma AppliedRunIff(trace: seq<Cache>, moves: seq<Move>, indices: seq<int>, nonce: nat, k: nat, n: nat)
    requires Execution(trace, moves) && k < n <= |moves| == |indices| && nonce != 0 && Numbered(moves, indices, nonce)
    requires AppliesAt(trace, moves, indices, nonce, k) && Stays(trace, nonce, k + 1, n)
    ensures var g := Anchor(trace[k + 1], indices[k]);
      PlacedFrom(trace, moves, indices, nonce, k + 1, g, n) <==> PlaceableFrom(trace, moves, indices, nonce, k + 1, g, n)
  {
    hide Tracks, PlaceableFrom, PlacedFrom, AppliesAt, Anchor, TruthFrom, Moves;
    NoticeAnchors(trace, moves, indices, nonce, k);
    PlacedRunIff(trace, moves, indices, nonce, k + 1, Anchor(trace[k + 1], indices[k]), n);
  }

  // ----- When every event is in reach -----

  ghost predicate Within(x: int, low: int) { low <= x < low + HALF }

  ghost predicate Recent(c: Cache, nonce: nat, g: Truth, low: int) {
    c.nonce == nonce ==> (c.window.live ==> Within(g.head, low)) && (c.power.ordered ==> Within(g.notice, low))
  }

  lemma MoveRecent(c: Cache, m: Move, d: Cache, index: int, nonce: nat, g: Truth, low: int)
    requires Moves(c, m, d) && nonce != 0 && Recent(c, nonce, g, low) && Received(c, m, index, nonce, low)
    requires InSession(c, nonce, g) && Placeable(c, m, index, nonce, g)
    ensures Recent(d, nonce, Observe(c, m, index, nonce, g), low)
  {
    hide Tracks, InReach, Lookup;
    match m {
      case Receiving(e, now) =>
        if !Old(c, e, now) {
          EnterWellFormed(c, e, now);
          TakeNonce(Enter(c, e, now), e, now);
          if e.nonce == nonce { TakeLiveness(Enter(c, e, now), e, now); }
          hide Take;
        }
      case Checking(i, now) =>
      case Repair =>
    }
  }

  /** Window and watermark come to life only through an accepted event. */
  lemma TakeLiveness(c: Cache, e: Event, now: nat)
    requires WellFormed(c) && Valid(e)
    ensures var o := Take(c, e, now);
      && (!o.accepted ==> o.cache.window == c.window && o.cache.power.ordered == c.power.ordered)
      && (o.cache.power.ordered ==> c.power.ordered || e.kind.PowerKind?)
  {
    if Known(c, e) {
      EvidenceKeepsWatermark(c.power, e, At(c, Lookup(c, e)).order, now);
      hide Lookup, Evidence;
    } else if Unseen(c.window, e.seqNo, now) {
      AdmittedShape(c, e, now);
      var w, order, d := Lookup(c, e), Order(c, e, now), Admitted(c, e, now);
      var f := if e.kind.PowerKind? then d.(power := Apply(d.power, e, order, now)) else d;
      StorePower(f, w, e, order, now);
      EvidenceKeepsWatermark(f.power, e, order, now);
      hide Store, Advance, Unseen, Position, WellFormed, Elapsed, Evidence, Lookup;
    }
  }

  lemma RecentPlaceable(c: Cache, m: Move, index: int, nonce: nat, g: Truth, low: int)
    requires Recent(c, nonce, g, low) && Received(c, m, index, nonce, low)
    ensures Placeable(c, m, index, nonce, g)
  {
    hide Elapsed, Accepts;
  }

  /** If the event is one of the session and accepted, it carries its true number, one of the 32768 from `low` on. */
  ghost predicate Received(c: Cache, m: Move, index: int, nonce: nat, low: int) {
    Possible(c, m) && FromSession(m, nonce) && Accepts(c, m) ==> Within(index, low) && index % SPACE == m.event.seqNo
  }

  /**
   Accepted events that span fewer than 32768 numbers, together with the notice and the window's head they start
   from, are all in reach, whatever is lost, repeated, delayed or reordered.
   */
  lemma {:induction false} SpanSuffices(trace: seq<Cache>, moves: seq<Move>, indices: seq<int>, nonce: nat, a: nat, g: Truth, n: nat, low: int)
    requires Execution(trace, moves) && a <= n <= |moves| == |indices| && nonce != 0
    requires InSession(trace[a], nonce, g) && Recent(trace[a], nonce, g, low)
    requires forall k :: a <= k < n ==> Received(trace[k], moves[k], indices[k], nonce, low)
    ensures PlaceableFrom(trace, moves, indices, nonce, a, g, n)
    ensures Recent(trace[n], nonce, TruthFrom(trace, moves, indices, nonce, a, g, n), low)
  {
    hide Moves, Recent, Placeable, Within, Observe, InSession, Received;
    if n > a {
      SpanSuffices(trace, moves, indices, nonce, a, g, n - 1, low);
      WatermarkIsTrue(trace, moves, indices, nonce, a, g, n - 1);
      var h := TruthFrom(trace, moves, indices, nonce, a, g, n - 1);
      assert Moves(trace[n - 1], moves[n - 1], trace[n - 1 + 1]);
      assert Received(trace[n - 1], moves[n - 1], indices[n - 1], nonce, low);
      RecentPlaceable(trace[n - 1], moves[n - 1], indices[n - 1], nonce, h, low);
      MoveRecent(trace[n - 1], moves[n - 1], trace[n], indices[n - 1], nonce, h, low);
    }
  }

  /**
   Put together: after an applied notice, an older one changes nothing as long as the notice, the newest event
   seen by then and everything accepted since lie within 32768 numbers.
   */
  lemma OlderNoticeLosesWithinSpan(trace: seq<Cache>, moves: seq<Move>, indices: seq<int>, nonce: nat, k: nat, n: nat, low: int)
    requires Execution(trace, moves) && k < n < |moves| == |indices| && nonce != 0
    requires AppliesAt(trace, moves, indices, nonce, k) && Stays(trace, nonce, k + 1, n)
    requires Within(indices[k], low) && Within(Anchor(trace[k + 1], indices[k]).head, low)
    requires forall j :: k < j <= n ==> Received(trace[j], moves[j], indices[j], nonce, low)
    requires FromSession(moves[n], nonce) && moves[n].event.kind.PowerKind? && indices[n] <= indices[k]
    ensures Intent(trace[n + 1].power) == Intent(trace[n].power)
  {
    hide Tracks, Intent, AppliesAt, Received, PlaceableFrom, Anchor, TruthFrom, Moves, Within;
    AnchorNotice(trace[k + 1], indices[k]);
    NoticeAnchors(trace, moves, indices, nonce, k);
    SpanSuffices(trace, moves, indices, nonce, k + 1, Anchor(trace[k + 1], indices[k]), n + 1, low);
    OlderNoticeNeverWins(trace, moves, indices, nonce, k, n);
  }
}
