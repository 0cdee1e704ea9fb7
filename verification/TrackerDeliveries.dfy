/**
 What the host is told about a tracker: which received events are delivered, which observations the receiver
 adds of its own, and what becomes of an announced power-down.
 */
module TrackerDeliveries {
  import opened SerialNumbers
  import opened TrackerEvents
  import TrackerPower

  // ----- When a packet is news -----

  /** The packet repeats an event that some slot of the current session still holds. */
  ghost predicate Repeats(c: Cache, e: Event) {
    c.nonce == e.nonce && exists i :: 0 <= i < |All(c)| && All(c)[i].Entry? && All(c)[i].event == e
  }

  /** The packet is left over from the session before, which ended less than 15 s ago. */
  predicate LeftOver(c: Cache, e: Event, now: nat) {
    e.nonce != c.nonce && e.nonce == c.retiredNonce && Elapsed(now, c.retiredAt) < 15000
  }

  /** The packet's place is one no event of this pairing has taken: the first of a session or after 15 quiet seconds,
      one ahead of all others, or one of the last 64 that was left out. */
  ghost predicate NewPlace(c: Cache, e: Event, now: nat, log: set<int>) {
    || c.nonce != e.nonce || !c.window.live || Elapsed(now, c.window.highAt) >= 15000
    || 0 < Distance(e.seqNo, c.window.high) < HALF
    || (Distance(c.window.high, e.seqNo) < 64 && c.window.order - Distance(c.window.high, e.seqNo) !in log)
  }

  ghost predicate News(c: Cache, e: Event, now: nat, log: set<int>) {
    !LeftOver(c, e, now) && !Repeats(c, e) && NewPlace(c, e, now, log)
  }

  lemma SlotFound(c: Cache, e: Event, log: set<int>, i: nat)
    requires Inv(c, log) && Valid(e) && i < |All(c)| && All(c)[i].Entry? && All(c)[i].event == e
    ensures Known(c, e)
  {
    hide WindowExact;
    var w := Lookup(c, e);
    assert EntryOk(All(c)[i], i, c.nonce, log);
    if i < OPS {
      assert SameKey(c.operations[i], e);
      assert w.InOperations? && SameKey(c.operations[w.i], e);
      assert All(c)[w.i] == c.operations[w.i] && All(c)[i] == c.operations[i];
      assert w.i < i ==> Apart(All(c)[w.i], All(c)[i]);
    }
  }

  lemma KnownIff(c: Cache, e: Event, log: set<int>)
    requires Inv(c, log) && Valid(e) && c.nonce == e.nonce
    ensures Known(c, e) <==> Repeats(c, e)
  {
    if Repeats(c, e) {
      var i :| 0 <= i < |All(c)| && All(c)[i].Entry? && All(c)[i].event == e;
      SlotFound(c, e, log, i);
    }
    var w := Lookup(c, e);
    assert Known(c, e) ==> All(c)[Index(w)] == At(c, w);
  }

  lemma UnseenIff(w: Window, seqNo: nat, now: nat, log: set<int>)
    requires WindowExact(w, log) && seqNo < SPACE
    ensures Unseen(w, seqNo, now) <==>
      || !w.live || Elapsed(now, w.highAt) >= 15000
      || 0 < Distance(seqNo, w.high) < HALF
      || (Distance(w.high, seqNo) < 64 && w.order - Distance(w.high, seqNo) !in log)
  {
    hide Elapsed;
    assert Signed(seqNo, w.high) > 0 <==> 0 < Distance(seqNo, w.high) < HALF;
    hide Signed, Distance;
  }

  lemma EnterUnseen(c: Cache, e: Event, now: nat)
    requires WellFormed(c) && Valid(e) && c.nonce != e.nonce
    ensures WellFormed(Enter(c, e, now)) && Unseen(Enter(c, e, now).window, e.seqNo, now) && !Known(Enter(c, e, now), e)
  {
  }

  /** An event is accepted exactly when it is news. */
  lemma AcceptedIff(c: Cache, e: Event, now: nat, log: set<int>)
    requires Inv(c, log) && Valid(e)
    ensures Receive(c, e, now).accepted <==> News(c, e, now, log)
  {
    EnterInv(c, e, now, log);
    if c.nonce == e.nonce {
      KnownIff(c, e, log);
      UnseenIff(c.window, e.seqNo, now, log);
      hide Unseen, Known, WindowExact, EntriesOk, Store, Apply;
    } else {
      EnterUnseen(c, e, now);
      hide Unseen, Known, WindowExact, EntriesOk, Store, Apply, Enter;
    }
  }

  // ----- What a packet delivers -----

  /** A rest report whose state is already known at the same place or a later one. */
  ghost predicate Outdated(c: Cache, m: Move)
    requires Possible(c, m)
  {
    && m.Receiving? && Accepts(c, m) && m.event.what.Report? && c.nonce == m.event.nonce
    && var known := c.rest[if m.event.kind.FusionRest? then 1 else 0];
       known.Entry? && PositionOf(c, m) <= known.order
  }

  /** A packet that repeats a rest state reported silent. */
  ghost predicate Revives(c: Cache, m: Move) {
    && m.Receiving? && m.event.what.Report? && c.nonce == m.event.nonce
    && exists i :: 0 <= i < |c.rest| && c.rest[i].Entry? && c.rest[i].event == m.event && c.rest[i].stale
  }

  /** Everything one move delivers. */
  function Delivered(c: Cache, m: Move): seq<Delivery>
    requires Possible(c, m)
  {
    match m
    case Receiving(e, now) => Receive(c, e, now).out
    case Checking(i, now) => Check(c, i, now).1
    case Repair => []
  }

  lemma TakeDelivers(c: Cache, e: Event, now: nat)
    requires WellFormed(c) && Valid(e)
    ensures var o := Take(c, e, now);
      o.out ==
        if o.accepted then
          (if e.what.Report? && At(c, Lookup(c, e)).Entry? && Order(c, e, now) <= At(c, Lookup(c, e)).order then [] else [Fresh(e)])
        else if Known(c, e) && At(c, Lookup(c, e)).stale && e.what.Report? then [Recovered(e)] else []
  {
    hide Store, Apply, Lookup, At, Order, Unseen, Advance;
  }

  lemma RevivesIff(c: Cache, e: Event, now: nat, log: set<int>)
    requires Inv(c, log) && Valid(e) && c.nonce == e.nonce
    ensures Revives(c, Receiving(e, now)) <==> Known(c, e) && At(c, Lookup(c, e)).stale && e.what.Report?
  {
    hide Find, WindowExact;
    if Revives(c, Receiving(e, now)) {
      var i :| 0 <= i < |c.rest| && c.rest[i].Entry? && c.rest[i].event == e && c.rest[i].stale;
      assert All(c)[OPS + i] == c.rest[i] && EntryOk(All(c)[OPS + i], OPS + i, c.nonce, log);
    }
  }

  /**
   A received packet delivers the farewells of the session it ends, and then: the event itself if it is news,
   unless it is a rest report no newer than the one known; or the event as recovered if it repeats a rest
   state that had been reported silent; and otherwise nothing.
   */
  lemma PacketDelivers(c: Cache, m: Move, log: set<int>)
    requires Inv(c, log) && Possible(c, m) && m.Receiving?
    ensures Delivered(c, m) ==
      (if LeftOver(c, m.event, m.now) then [] else Leaving(c, m.event)) +
      (if News(c, m.event, m.now, log) && !Outdated(c, m) then [Fresh(m.event)]
       else if Revives(c, m) then [Recovered(m.event)] else [])
  {
    var e, now := m.event, m.now;
    AcceptedIff(c, e, now, log);
    hide News;
    EnterInv(c, e, now, log);
    if !LeftOver(c, e, now) {
      TakeDelivers(Enter(c, e, now), e, now);
      if c.nonce == e.nonce {
        RevivesIff(c, e, now, log);
        if Known(c, e) { KnownNotNews(c, e, now, log); }
        hide Take, Inv, Known, Order, Leaving, Revives;
      } else {
        EnterUnseen(c, e, now);
        NoRestYet(c, e, now);
        hide Take, Inv, Known, Order, Leaving, Enter, Lookup, At;
      }
    } else {
      hide Take, Inv, Leaving, Enter;
    }
  }

  lemma KnownNotNews(c: Cache, e: Event, now: nat, log: set<int>)
    requires Inv(c, log) && Valid(e) && c.nonce == e.nonce && Known(c, e)
    ensures !News(c, e, now, log) && !Take(c, e, now).accepted
  {
    KnownIff(c, e, log);
  }

  lemma NoRestYet(c: Cache, e: Event, now: nat)
    requires WellFormed(c) && Valid(e) && c.nonce != e.nonce
    ensures WellFormed(Enter(c, e, now)) && At(Enter(c, e, now), Lookup(Enter(c, e, now), e)).Unused?
  {
  }

  /** Slot `i` holds an unfinished operation, or a rest state that is not reported silent. */
  ghost predicate StillOpen(c: Cache, i: nat) {
    i < |All(c)| && All(c)[i].Entry? && if i < 8 then !Finishes(All(c)[i].event) else !All(c)[i].stale
  }

  lemma {:induction false} FarewellsBack(es: seq<Entry>, rest: bool, n: nat, o: Delivery) returns (i: nat)
    requires n <= |es| && o in Farewells(es, rest, n)
    ensures i < n && Open(es[i], rest) && o == Observation(es[i].event, SessionChanged)
  {
    if o in Farewells(es, rest, n - 1) { i := FarewellsBack(es, rest, n - 1, o); } else { i := n - 1; }
  }

  lemma LeavingIff(c: Cache, e: Event, log: set<int>, o: Delivery)
    requires Inv(c, log) && c.nonce != 0 && c.nonce != e.nonce
    ensures o in Leaving(c, e) <==> exists i: nat :: StillOpen(c, i) && o == Observation(All(c)[i].event, SessionChanged)
  {
    hide WindowExact, Apart;
    if o in Farewells(c.operations, false, OPS) {
      var i := FarewellsBack(c.operations, false, OPS, o);
      assert EntryOk(All(c)[i], i, c.nonce, log) && StillOpen(c, i);
    } else if o in Farewells(c.rest, true, 2) {
      var i := FarewellsBack(c.rest, true, 2, o);
      assert All(c)[OPS + i] == c.rest[i] && StillOpen(c, OPS + i);
    }
    if i: nat :| StillOpen(c, i) && o == Observation(All(c)[i].event, SessionChanged) {
      assert EntryOk(All(c)[i], i, c.nonce, log);
      if i < OPS { FarewellsExact(c.operations, false, OPS, i); } else { FarewellsExact(c.rest, true, 2, i - OPS); }
    }
  }

  /** When a packet ends a session, what was still open in it is reported as cut off by the change, and nothing else. */
  lemma SessionChangeReports(c: Cache, m: Move, log: set<int>, o: Delivery)
    requires Inv(c, log) && Possible(c, m) && m.Receiving? && o.Observation?
    ensures o in Delivered(c, m) <==>
      && c.nonce != 0 && c.nonce != m.event.nonce && !LeftOver(c, m.event, m.now)
      && exists i: nat :: StillOpen(c, i) && o == Observation(All(c)[i].event, SessionChanged)
  {
    PacketDelivers(c, m, log);
    if c.nonce != 0 && c.nonce != m.event.nonce { LeavingIff(c, m.event, log, o); }
    else { assert Leaving(c, m.event) == []; }
    hide Inv, News, Outdated, Revives, Leaving, Delivered, StillOpen;
  }

  // ----- Whole runs -----

  lemma Moved(trace: seq<Cache>, moves: seq<Move>, n: nat)
    requires Execution(trace, moves) && n + 1 < |trace|
    ensures |trace| == |moves| + 1 && Possible(trace[n], moves[n]) && Moves(trace[n], moves[n], trace[n + 1])
    ensures Inv(trace[n], Log(trace, moves, n))
  {
    ReachableInv(trace, moves, n);
    assert Moves(trace[n], moves[n], trace[n + 1]);
  }

  /** The events among deliveries that are passed on as new. */
  function FreshIn(out: seq<Delivery>): seq<Event> {
    if out == [] then [] else
    FreshIn(out[..|out| - 1]) + if out[|out| - 1].Fresh? then [out[|out| - 1].event] else []
  }

  /** All events passed on as new in the first `n` moves. */
  ghost function FreshSoFar(trace: seq<Cache>, moves: seq<Move>, n: nat): seq<Event>
    requires Execution(trace, moves) && n <= |moves|
  {
    if n == 0 then [] else
    Moved(trace, moves, n - 1);
    FreshSoFar(trace, moves, n - 1) + FreshIn(Delivered(trace[n - 1], moves[n - 1]))
  }

  /** Move `k` brings an event worth passing on. */
  ghost predicate Brings(trace: seq<Cache>, moves: seq<Move>, k: nat)
    requires Execution(trace, moves) && k < |moves|
  {
    Moved(trace, moves, k);
    moves[k].Receiving? && News(trace[k], moves[k].event, moves[k].now, Log(trace, moves, k)) && !Outdated(trace[k], moves[k])
  }

  /** The events the first `n` moves brought, in order of arrival. */
  ghost function Brought(trace: seq<Cache>, moves: seq<Move>, n: nat): seq<Event>
    requires Execution(trace, moves) && n <= |moves|
  {
    if n == 0 then [] else
    Brought(trace, moves, n - 1) + if Brings(trace, moves, n - 1) then [moves[n - 1].event] else []
  }

  lemma {:induction false} FreshInAppend(a: seq<Delivery>, b: seq<Delivery>)
    ensures FreshIn(a + b) == FreshIn(a) + FreshIn(b)
  {
    if b == [] {
      assert a + b == a;
    } else {
      assert (a + b)[..|a + b| - 1] == a + b[..|b| - 1];
      FreshInAppend(a, b[..|b| - 1]);
    }
  }

  lemma {:induction false} FarewellsNotFresh(es: seq<Entry>, rest: bool, n: nat)
    requires n <= |es|
    ensures FreshIn(Farewells(es, rest, n)) == []
  {
    if n > 0 {
      FarewellsNotFresh(es, rest, n - 1);
      FreshInAppend(Farewells(es, rest, n - 1), if Open(es[n - 1], rest) then [Observation(es[n - 1].event, SessionChanged)] else []);
    }
  }

  lemma LeavingNotFresh(c: Cache, e: Event)
    requires WellFormed(c)
    ensures FreshIn(Leaving(c, e)) == []
  {
    FarewellsNotFresh(c.operations, false, OPS);
    FarewellsNotFresh(c.rest, true, 2);
    FreshInAppend(Farewells(c.operations, false, OPS), Farewells(c.rest, true, 2));
  }

  lemma MoveFresh(trace: seq<Cache>, moves: seq<Move>, k: nat)
    requires Execution(trace, moves) && k < |moves|
    ensures Possible(trace[k], moves[k])
    ensures FreshIn(Delivered(trace[k], moves[k])) == if Brings(trace, moves, k) then [moves[k].event] else []
  {
    Moved(trace, moves, k);
    hide Inv, News, Outdated, Revives, Leaving, Execution;
    var c, m := trace[k], moves[k];
    if m.Receiving? {
      PacketDelivers(c, m, Log(trace, moves, k));
      LeavingNotFresh(c, m.event);
      hide Delivered;
      var first := if LeftOver(c, m.event, m.now) then [] else Leaving(c, m.event);
      var last := if Brings(trace, moves, k) then [Fresh(m.event)]
        else if Revives(c, m) then [Recovered(m.event)] else [];
      FreshInAppend(first, last);
      assert Delivered(c, m) == first + last;
    }
  }

  /** Over every run, what the host gets as new is exactly the events that were news, once each, in order of arrival. */
  lemma {:induction false} FreshAreTheNews(trace: seq<Cache>, moves: seq<Move>, n: nat)
    requires Execution(trace, moves) && n <= |moves|
    ensures FreshSoFar(trace, moves, n) == Brought(trace, moves, n)
  {
    hide Brings, Execution, Delivered, FreshIn;
    if n > 0 {
      FreshAreTheNews(trace, moves, n - 1);
      MoveFresh(trace, moves, n - 1);
    }
  }

  lemma Lengths(trace: seq<Cache>, moves: seq<Move>)
    requires Execution(trace, moves)
    ensures |trace| == |moves| + 1
  {
  }

  lemma {:induction false} LogKeeps(trace: seq<Cache>, moves: seq<Move>, j: nat, k: nat)
    requires Execution(trace, moves) && j < k <= |moves| && forall i :: j < i < k ==> !moves[i].Repair?
    requires Possible(trace[j], moves[j]) && Accepts(trace[j], moves[j])
    ensures PositionOf(trace[j], moves[j]) in Log(trace, moves, k)
  {
    hide Inv, Moves, PositionOf, Receive, Execution;
    Lengths(trace, moves);
    Moved(trace, moves, k - 1);
    if k > j + 1 { LogKeeps(trace, moves, j, k - 1); }
  }

  /** No event is news twice: two moves of one pairing that bring news take different places. */
  lemma NewsOnlyOnce(trace: seq<Cache>, moves: seq<Move>, j: nat, k: nat)
    requires Execution(trace, moves) && j < k < |moves| && Brings(trace, moves, j) && Brings(trace, moves, k)
    requires forall i :: j < i < k ==> !moves[i].Repair?
    ensures Possible(trace[j], moves[j]) && Possible(trace[k], moves[k])
    ensures Accepts(trace[j], moves[j]) && Accepts(trace[k], moves[k])
    ensures PositionOf(trace[j], moves[j]) != PositionOf(trace[k], moves[k])
  {
    Moved(trace, moves, j);
    Moved(trace, moves, k);
    hide Inv, News, Outdated, Moves, PositionOf;
    AcceptedIff(trace[j], moves[j].event, moves[j].now, Log(trace, moves, j));
    AcceptedIff(trace[k], moves[k].event, moves[k].now, Log(trace, moves, k));
    LogKeeps(trace, moves, j, k);
    PositionsDistinct(trace, moves, k);
  }

  // ----- What the slots remember -----

  /** Entry `y` is entry `x`, except for whether it was reported silent. */
  predicate SamePacket(x: Entry, y: Entry) {
    x.Entry? && y.Entry? && x == y.(stale := x.stale)
  }

  lemma StoreEntry(c: Cache, w: Where, e: Event, order: int, now: nat, i: nat)
    requires WellFormed(c) && w == Lookup(c, e) && i < OPS + 2
    ensures var d := Store(c, w, e, order, now);
      WellFormed(d) && (All(d)[i] == All(c)[i] ||
        (All(d)[i].Entry? && All(d)[i].event == e && All(d)[i].lastRx == now && !All(d)[i].stale))
  {
    if Cached(e) {
      var k := if w.Nowhere? then InOperations(Allocate(c.operations, now)) else w;
      var first := if w.Nowhere? || At(c, w).Unused? then order else At(c, w).firstOrder;
      PutAll(c.(power := if e.what.Report? then c.power else Evidence(c.power, e, order, now)), k,
             Entry(e, now, order, first, Finishes(e), false));
      hide Lookup, Evidence, Allocate;
    }
  }

  lemma TakeEntry(c: Cache, e: Event, now: nat, i: nat)
    requires WellFormed(c) && Valid(e) && i < OPS + 2
    ensures var d := Take(c, e, now).cache;
      WellFormed(d) && (All(d)[i] == All(c)[i] ||
        (All(d)[i].Entry? && All(d)[i].event == e && All(d)[i].lastRx == now && !All(d)[i].stale))
  {
    TakeWellFormed(c, e, now);
    if Known(c, e) {
      var w := Lookup(c, e);
      PutAll(c.(power := if e.kind.Calibration? then Evidence(c.power, e, At(c, w).order, now) else c.power), w,
             At(c, w).(lastRx := now, stale := false));
      hide Lookup, Evidence, WellFormed;
    } else if Unseen(c.window, e.seqNo, now) {
      var w, order, d := Lookup(c, e), Order(c, e, now), Admitted(c, e, now);
      AdmittedShape(c, e, now);
      var f := if e.kind.PowerKind? then d.(power := Apply(d.power, e, order, now)) else d;
      assert WellFormed(f);
      StoreEntry(f, w, e, order, now, i);
      hide Store, Advance, Apply, Rebase, Unseen;
    }
  }

  /** A slot changes by a packet that carries its event, or by being reported silent. */
  lemma EntryBack(c: Cache, m: Move, d: Cache, i: nat)
    requires Moves(c, m, d) && i < OPS + 2 && WellFormed(d) && All(d)[i].Entry?
    ensures || All(c)[i] == All(d)[i]
            || (m == Receiving(All(d)[i].event, All(d)[i].lastRx) && !All(d)[i].stale)
            || (&& m.Checking? && m.slot == i && SamePacket(All(c)[i], All(d)[i]) && !All(c)[i].stale && All(d)[i].stale
                && |Delivered(c, m)| == 1 && Delivered(c, m)[0].Observation? && Delivered(c, m)[0].event == All(d)[i].event)
  {
    match m {
      case Receiving(e, now) =>
        if !Old(c, e, now) {
          EnterWellFormed(c, e, now);
          TakeEntry(Enter(c, e, now), e, now, i);
          hide Take, WellFormed;
        }
      case Checking(j, now) =>
        var w := if j >= OPS then InRest(j - OPS) else InOperations(j);
        PutAll(c, w, At(c, w));
      case Repair =>
    }
  }

  /** The slot holds packet `k`, received at `moves[k].now`, and nothing but its silence has been noted since. */
  ghost predicate HeldSince(trace: seq<Cache>, moves: seq<Move>, k: nat, n: nat, i: nat)
    requires n < |trace| == |moves| + 1
  {
    && k < n && i < |All(trace[n])| && All(trace[n])[i].Entry?
    && moves[k] == Receiving(All(trace[n])[i].event, All(trace[n])[i].lastRx)
    && (forall j :: k < j <= n ==> i < |All(trace[j])| && SamePacket(All(trace[j])[i], All(trace[n])[i]))
    && !All(trace[k + 1])[i].stale
  }

  lemma InUseNeedsMove(trace: seq<Cache>, moves: seq<Move>, n: nat, i: nat)
    requires Execution(trace, moves) && n < |trace| && i < |All(trace[n])| && All(trace[n])[i].Entry?
    ensures n > 0
  {
  }

  /** Every slot in use goes back to the packet it holds. */
  lemma {:induction false} EntryHasPacket(trace: seq<Cache>, moves: seq<Move>, n: nat, i: nat) returns (k: nat)
    requires Execution(trace, moves) && n < |trace| && i < |All(trace[n])| && All(trace[n])[i].Entry?
    ensures |trace| == |moves| + 1 && HeldSince(trace, moves, k, n, i)
  {
    hide Inv, Moves, Execution, Delivered;
    InUseNeedsMove(trace, moves, n, i);
    Moved(trace, moves, n - 1);
    Shaped(trace, moves, n - 1);
    Shaped(trace, moves, n);
    EntryBack(trace[n - 1], moves[n - 1], trace[n], i);
    if moves[n - 1] == Receiving(All(trace[n])[i].event, All(trace[n])[i].lastRx) && !All(trace[n])[i].stale {
      k := n - 1;
    } else {
      k := EntryHasPacket(trace, moves, n - 1, i);
    }
  }

  lemma Shaped(trace: seq<Cache>, moves: seq<Move>, n: nat)
    requires Execution(trace, moves) && n < |trace|
    ensures WellFormed(trace[n]) && |All(trace[n])| == OPS + 2
  {
    ReachableInv(trace, moves, n);
  }

  predicate SlotIs(c: Cache, i: nat, x: Entry) { i < |All(c)| && All(c)[i] == x }

  /** Move `k` reported slot `i` silent, and nothing has been heard for it since. */
  ghost predicate SilentSince(trace: seq<Cache>, moves: seq<Move>, k: nat, n: nat, i: nat)
    requires n < |trace| == |moves| + 1 && i < |All(trace[n])| && All(trace[n])[i].Entry?
  {
    && k < n && Possible(trace[k], moves[k]) && moves[k].Checking? && moves[k].slot == i
    && (exists reason :: Delivered(trace[k], moves[k]) == [Observation(All(trace[n])[i].event, reason)])
    && (forall j :: k < j <= n ==> SlotIs(trace[j], i, All(trace[n])[i]))
  }

  lemma {:induction false} StaleWasReported(trace: seq<Cache>, moves: seq<Move>, n: nat, i: nat) returns (k: nat)
    requires Execution(trace, moves) && n < |trace| && i < |All(trace[n])| && All(trace[n])[i].Entry? && All(trace[n])[i].stale
    ensures |trace| == |moves| + 1 && SilentSince(trace, moves, k, n, i)
  {
    hide Inv, Moves, Execution, Delivered;
    InUseNeedsMove(trace, moves, n, i);
    Moved(trace, moves, n - 1);
    Shaped(trace, moves, n - 1);
    Shaped(trace, moves, n);
    EntryBack(trace[n - 1], moves[n - 1], trace[n], i);
    if All(trace[n - 1])[i] == All(trace[n])[i] {
      k := StaleWasReported(trace, moves, n - 1, i);
    } else {
      k := n - 1;
      var out := Delivered(trace[k], moves[k]);
      assert out == [Observation(out[0].event, out[0].reason)];
    }
  }

  /**
   The silence check reports a slot exactly when its packet does not finish an operation, its silence has not been
   reported yet, and nothing has been heard for it for 10 s (an operation) or 15 s (a rest state).
   */
  lemma SilenceReportedIff(trace: seq<Cache>, moves: seq<Move>, n: nat)
    requires Execution(trace, moves) && n < |moves| && moves[n].Checking?
    ensures Possible(trace[n], moves[n])
    ensures var x, out := All(trace[n])[moves[n].slot], Delivered(trace[n], moves[n]);
      if x.Entry? && !Finishes(x.event) && !x.stale
         && Elapsed(moves[n].now, x.lastRx) >= (if moves[n].slot < 8 then 10000 else 15000)
      then && |out| == 1 && out[0].Observation? && out[0].event == x.event
           && (moves[n].slot >= 8 ==> out[0].reason == TransportSilence)
           && SlotIs(trace[n + 1], moves[n].slot, x.(stale := true))
      else out == [] && trace[n + 1] == trace[n]
  {
    Moved(trace, moves, n);
    hide Execution, WindowExact, Apart, Elapsed;
    var c, m := trace[n], moves[n];
    assert EntryOk(All(c)[m.slot], m.slot, c.nonce, Log(trace, moves, n));
    var w := if m.slot >= OPS then InRest(m.slot - OPS) else InOperations(m.slot);
    if At(c, w).Entry? {
      PutAll(c.(power := if m.slot >= OPS then c.power else Lapse(c.power, m.now)), w, At(c, w).(stale := true));
    }
  }

  /** Some slot holds this event, heard at `now`. */
  ghost predicate Keeps(c: Cache, e: Event, now: nat) {
    exists i :: 0 <= i < |All(c)| && All(c)[i].Entry? && All(c)[i].event == e && All(c)[i].lastRx == now && !All(c)[i].stale
  }

  /** Some slot holds a later event of the same operation or rest state, or its result. */
  ghost predicate KnowsBetter(c: Cache, e: Event, order: int) {
    exists i :: 0 <= i < |All(c)| && All(c)[i].Entry? && All(c)[i].event.kind == e.kind &&
      (e.what.Report? || All(c)[i].event.operation == e.operation) &&
      (order <= All(c)[i].order || (Finishes(All(c)[i].event) && !Finishes(e)))
  }

  lemma StoreKeeps(c: Cache, w: Where, e: Event, order: int, now: nat, nonce: nat, log: set<int>)
    requires WellFormed(c) && EntriesOk(All(c), nonce, log) && Valid(e) && w == Lookup(c, e) && Cached(e)
    ensures Keeps(Store(c, w, e, order, now), e, now) || KnowsBetter(c, e, order)
  {
    var k := if w.Nowhere? then InOperations(Allocate(c.operations, now)) else w;
    var first := if w.Nowhere? || At(c, w).Unused? then order else At(c, w).firstOrder;
    var f := c.(power := if e.what.Report? then c.power else Evidence(c.power, e, order, now));
    var x := Entry(e, now, order, first, Finishes(e), false);
    PutAll(f, k, x);
    assert All(Put(f, k, x))[Index(k)] == x;
    assert EntryOk(All(c)[Index(k)], Index(k), nonce, log);
    hide Evidence, Allocate, EntriesOk;
    assert w == k ==> All(c)[Index(k)] == At(c, w);
  }

  lemma TakeKeeps(c: Cache, e: Event, now: nat, log: set<int>)
    requires Inv(c, log) && Valid(e) && Cached(e) && Take(c, e, now).accepted
    ensures Unseen(c.window, e.seqNo, now)
    ensures Keeps(Take(c, e, now).cache, e, now) || KnowsBetter(c, e, Order(c, e, now))
  {
    var w, order, d := Lookup(c, e), Order(c, e, now), Admitted(c, e, now);
    AdmittedShape(c, e, now);
    StoreKeeps(d, w, e, order, now, c.nonce, log);
    assert All(d) == All(c);
    if e.what.Report? && At(c, w).Entry? && order <= At(c, w).order {
      assert All(c)[Index(w)] == At(c, w) && EntryOk(All(c)[Index(w)], Index(w), c.nonce, log);
    }
    hide Store, Advance, Unseen, EntriesOk, Lookup;
  }

  /** The packet's operation or rest state, kept; steps that only store data and other notices are not. */
  predicate WorthKeeping(e: Event) {
    e.what.Report? || (e.kind.Calibration? && (!e.what.Step? || !e.storage))
  }

  /** News of an operation or a rest state is kept, unless something later, or the result, is known already. */
  lemma NewsIsKept(c: Cache, m: Move, d: Cache, log: set<int>)
    requires Inv(c, log) && Moves(c, m, d) && m.Receiving? && News(c, m.event, m.now, log) && WorthKeeping(m.event)
    ensures Keeps(d, m.event, m.now) || (c.nonce == m.event.nonce && Accepts(c, m) && KnowsBetter(c, m.event, PositionOf(c, m)))
  {
    var e, now := m.event, m.now;
    AcceptedIff(c, e, now, log);
    EnterInv(c, e, now, log);
    TakeKeeps(Enter(c, e, now), e, now, log);
    if c.nonce != e.nonce { NothingKnown(c, e, now, PositionOf(c, m)); }
    hide Take, Inv, News, Order, Keeps, KnowsBetter;
  }

  lemma NothingKnown(c: Cache, e: Event, now: nat, order: int)
    requires WellFormed(c) && c.nonce != e.nonce
    ensures !KnowsBetter(Enter(c, e, now), e, order)
  {
  }

  /** A repetition counts as having been heard: its slot is refreshed and no longer silent. */
  lemma RepetitionRefreshes(c: Cache, m: Move, d: Cache, log: set<int>)
    requires Inv(c, log) && Moves(c, m, d) && m.Receiving? && Repeats(c, m.event)
    ensures Keeps(d, m.event, m.now)
  {
    var e, now := m.event, m.now;
    KnownIff(c, e, log);
    var w := Lookup(c, e);
    var f := c.(power := if e.kind.Calibration? then Evidence(c.power, e, At(c, w).order, now) else c.power);
    var x := At(c, w).(lastRx := now, stale := false);
    PutAll(f, w, x);
    assert All(Put(f, w, x))[Index(w)] == x;
    hide Inv, Evidence, Lookup, Repeats;
  }

  // ----- What an announcement does -----

  /** An operation that falls silent while an announced power-down or reboot is less than 20 s old, and that was first
      seen no later than the announcement, is reported with that reason. */
  lemma SilenceIsBlamed(trace: seq<Cache>, moves: seq<Move>, k: nat, n: nat)
    requires Execution(trace, moves) && n < |moves| && moves[n].Checking? && moves[n].slot < OPS
    requires Standing(trace, moves, k, n) && Elapsed(moves[n].now, moves[k].now) < 20000
    requires Possible(trace[n], moves[n]) && Delivered(trace[n], moves[n]) != []
    requires trace[n].operations[moves[n].slot].Entry?
    requires trace[n].operations[moves[n].slot].firstOrder <= PositionOf(trace[k], moves[k])
    ensures Delivered(trace[n], moves[n])[0].Observation?
    ensures Delivered(trace[n], moves[n])[0].reason == if moves[k].event.power.WillReboot? then Reset else PowerDown
  {
    hide PositionOf, Accepts, Moves, Elapsed;
  }

  /** A notice taken for the newest replaces the intention, withdraws it, or, for a cancelled wake-on-motion, withdraws
      only that one; a notice not taken for the newest leaves it as it was. Repeating an intention does not renew it. */
  lemma NoticeEffect(c: Cache, m: Move, d: Cache, log: set<int>)
    requires Inv(c, log) && Moves(c, m, d) && m.Receiving? && m.event.kind.PowerKind? && Accepts(c, m) && c.nonce == m.event.nonce
    ensures var e, was := m.event, if Expired(c.power, m.now) then NoIntent else c.power.phase;
      d.power.phase ==
        if !TrackerPower.Applies(c, m) then c.power.phase
        else match e.power
          case WillWom => WillWom
          case WillShutdown => WillShutdown
          case WillReboot => WillReboot
          case Boot => NoIntent
          case Wake => NoIntent
          case WatchdogReset => NoIntent
          case WomCancelled => if was.WillWom? then NoIntent else was
          case NoIntent => was
    ensures TrackerPower.Applies(c, m) && Intends(m.event.power) ==>
      if c.power.phase == m.event.power && !Expired(c.power, m.now)
      then d.power.receivedAt == c.power.receivedAt && d.power.order == c.power.order
      else d.power.receivedAt == m.now && d.power.order == PositionOf(c, m)
  {
    var e, now := m.event, m.now;
    TrackerPower.NoticeIsNew(c, e, log);
    hide Inv, Known, Lookup, Advance, Order, Unseen, Elapsed;
  }

  /** What may end a standing intention within a session. */
  ghost predicate WithdrawnBy(c: Cache, m: Move) {
    match m
    case Receiving(e, now) =>
      || (e.kind.PowerKind? && (e.power.Boot? || e.power.Wake? || e.power.WatchdogReset? || e.power.WomCancelled?))
      || (Elapsed(now, c.power.receivedAt) >= 20000 && (e.kind.PowerKind? || e.kind.Calibration?))
      || (e.kind.Calibration? && (Elapsed(now, c.power.receivedAt) > 10000 || e.what.Accepted? || e.what.Begin?))
    case Checking(i, now) => i < OPS && Elapsed(now, c.power.receivedAt) >= 20000
    case Repair => true
  }

  lemma TakeWithdraws(c: Cache, e: Event, now: nat)
    requires WellFormed(c) && Valid(e) && !c.power.phase.NoIntent? && Take(c, e, now).cache.power.phase.NoIntent?
    ensures WithdrawnBy(c, Receiving(e, now))
  {
    if Known(c, e) {
      hide Lookup, Elapsed;
    } else if Unseen(c.window, e.seqNo, now) {
      var w, order, d := Lookup(c, e), Order(c, e, now), Admitted(c, e, now);
      AdmittedShape(c, e, now);
      var f := if e.kind.PowerKind? then d.(power := Apply(d.power, e, order, now)) else d;
      StorePower(f, w, e, order, now);
      if !e.kind.Calibration? { StoreNoEvidence(f, w, e, order, now); }
      hide Store, Advance, Unseen, Position, WellFormed, Elapsed;
    }
  }

  lemma StoreNoEvidence(c: Cache, w: Where, e: Event, order: int, now: nat)
    requires WellFormed(c) && Valid(e) && w == Lookup(c, e) && !e.kind.Calibration?
    ensures Store(c, w, e, order, now).power == c.power
  {
    hide Lookup, Evidence, Allocate;
  }

  /** Within a session an announced intention is withdrawn only by a notice to that effect, by evidence of an operation,
      or by its age. */
  lemma IntentionEndsForCause(c: Cache, m: Move, d: Cache)
    requires Moves(c, m, d) && !c.power.phase.NoIntent? && d.power.phase.NoIntent?
    requires m.Receiving? ==> c.nonce == m.event.nonce
    ensures WithdrawnBy(c, m)
  {
    if m.Receiving? {
      TakeWithdraws(c, m.event, m.now);
      hide Take, WellFormed;
    }
  }

  /** A packet that is the latest evidence of an operation ends an intention that is more than 10 s old, and a newer
      operation's start ends any. */
  lemma EvidenceEndsIntention(c: Cache, m: Move, d: Cache, log: set<int>, i: nat)
    requires Inv(c, log) && Moves(c, m, d) && m.Receiving? && c.nonce == m.event.nonce && m.event.kind.Calibration?
    requires WellFormed(d) && i < OPS && d.operations[i].Entry? && d.operations[i].event == m.event
    requires c.operations[i] != d.operations[i] && !c.power.phase.NoIntent?
    requires Elapsed(m.now, c.power.receivedAt) > 10000 ||
             ((m.event.what.Accepted? || m.event.what.Begin?) && d.operations[i].order > c.power.order)
    ensures d.power.phase.NoIntent?
  {
    hide WindowExact, EntriesOk, Find, Victim, Elapsed, Advance, Distance;
  }

  // ----- Packets of an ended session -----

  lemma TakeRetired(c: Cache, e: Event, now: nat)
    requires WellFormed(c) && Valid(e)
    ensures var d := Take(c, e, now).cache;
      d.nonce == c.nonce && d.retiredNonce == c.retiredNonce && d.retiredAt == c.retiredAt
  {
    hide Lookup, Evidence, Allocate, Advance, Apply, Rebase, Unseen;
  }

  /** The session before the current one, and when it ended, change only when a session ends. */
  lemma RetiredStep(c: Cache, m: Move, d: Cache)
    requires Moves(c, m, d) && !m.Repair?
    ensures if d.nonce == c.nonce then d.retiredNonce == c.retiredNonce && d.retiredAt == c.retiredAt
            else m.Receiving? && d.nonce == m.event.nonce && (c.nonce != 0 ==> d.retiredNonce == c.nonce && d.retiredAt == m.now)
  {
    if m.Receiving? {
      EnterWellFormed(c, m.event, m.now);
      TakeRetired(Enter(c, m.event, m.now), m.event, m.now);
      hide Take, WellFormed;
    }
  }

  lemma {:induction false} RetiredStays(trace: seq<Cache>, moves: seq<Move>, k: nat, n: nat)
    requires Execution(trace, moves) && k < n < |trace|
    requires trace[k].nonce != 0 && forall j :: k < j <= n ==> trace[j].nonce == trace[n].nonce != trace[k].nonce
    requires forall j :: k <= j < n ==> !moves[j].Repair?
    ensures moves[k].Receiving? && trace[n].retiredNonce == trace[k].nonce && trace[n].retiredAt == moves[k].now
  {
    hide Inv, Moves, Execution;
    Lengths(trace, moves);
    Moved(trace, moves, n - 1);
    RetiredStep(trace[n - 1], moves[n - 1], trace[n]);
    if n > k + 1 { RetiredStays(trace, moves, k, n - 1); }
  }

  /** Once a session has given way to another, packets that still belong to it change nothing and deliver nothing for
      15 s, as long as the new session lasts. */
  lemma EndedSessionIsIgnored(trace: seq<Cache>, moves: seq<Move>, k: nat, n: nat)
    requires Execution(trace, moves) && k < n < |moves|
    requires trace[k].nonce != 0 && forall j :: k < j <= n ==> trace[j].nonce == trace[n].nonce != trace[k].nonce
    requires forall j :: k <= j < n ==> !moves[j].Repair?
    requires moves[n].Receiving? && moves[n].event.nonce == trace[k].nonce
    requires moves[k].Receiving? ==> Elapsed(moves[n].now, moves[k].now) < 15000
    ensures Possible(trace[n], moves[n]) && trace[n + 1] == trace[n] && Delivered(trace[n], moves[n]) == []
  {
    RetiredStays(trace, moves, k, n);
    Moved(trace, moves, n);
    hide Execution, Inv, Take, WellFormed;
  }
}
