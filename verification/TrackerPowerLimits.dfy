/**
 Runs in which the order of power notices is lost because an event is more than half the sequence space away.
 Each is a handful of packets of one session, from the blank cache.
 */
module TrackerPowerLimits {
  import opened SerialNumbers
  import opened TrackerEvents
  import opened TrackerPower

  function PowerEvent(seqNo: nat, phase: PowerPhase): Event { Event(1, seqNo, 0, PowerKind, Notice, false, phase, 0, 0) }
  function Click(seqNo: nat): Event { Event(1, seqNo, 0, Button, Notice, false, NoIntent, 0, 1) }

  /** A cache of session 1 that holds no operation. */
  ghost predicate Bare(c: Cache) { WellFormed(c) && c.nonce == 1 && c.operations == NO_ENTRIES && c.window.live }

  lemma NothingCached(e: Event)
    ensures Find(NO_ENTRIES, e, 0) == OPS
  {
  }

  lemma First(e: Event) returns (c: Cache)
    requires Valid(e) && e.nonce == 1 && e.kind.PowerKind?
    ensures Possible(BLANK, Receiving(e, 0)) && Moves(BLANK, Receiving(e, 0), c) && Accepts(BLANK, Receiving(e, 0)) && Bare(c)
    ensures c.window.high == e.seqNo && c.window.order == SPACE && c.window.highAt == 0
    ensures c.power == Apply(NO_POWER, e, SPACE, 0)
  {
    BlankInv();
    NothingCached(e);
    c := Receive(BLANK, e, 0).cache;
  }

  /** An accepted click or notice moves the window; a notice is also weighed against the watermark. */
  lemma Later(c: Cache, e: Event, now: nat) returns (d: Cache)
    requires Bare(c) && Valid(e) && e.nonce == 1 && (e.kind.PowerKind? || e.kind.Button?) && Unseen(c.window, e.seqNo, now)
    ensures Moves(c, Receiving(e, now), d) && Accepts(c, Receiving(e, now)) && Bare(d)
    ensures d.window == Advance(c.window, e.seqNo, now)
    ensures var p, order := Rebase(c.power, c.window, e.seqNo, now), Position(d.window, e.seqNo);
      d.power == if e.kind.PowerKind? then Apply(p, e, order, now) else p
  {
    NothingCached(e);
    AdmittedShape(c, e, now);
    d := Receive(c, e, now).cache;
    hide Advance, Unseen, Apply, Rebase, Position;
  }

  /** A run of session 1 with the events' true numbers. */
  ghost predicate Example(trace: seq<Cache>, moves: seq<Move>, indices: seq<int>) {
    && Execution(trace, moves) && |moves| == |indices| && Numbered(moves, indices, 1)
    && (forall k :: 0 <= k < |moves| ==> FromSession(moves[k], 1) && Possible(trace[k], moves[k]) && Accepts(trace[k], moves[k]))
    && forall k :: 0 < k < |trace| ==> trace[k].nonce == 1
  }

  /** Not quiet, and ahead of the window: the window moves up to the event. */
  lemma Onward(c: Cache, e: Event, now: nat) returns (d: Cache)
    requires Bare(c) && Valid(e) && e.nonce == 1 && (e.kind.PowerKind? || e.kind.Button?)
    requires Elapsed(now, c.window.highAt) < TTL && Signed(e.seqNo, c.window.high) > 0
    ensures Possible(c, Receiving(e, now)) && Moves(c, Receiving(e, now), d) && Accepts(c, Receiving(e, now)) && Bare(d)
    ensures d.window.high == e.seqNo && d.window.order == c.window.order + Distance(e.seqNo, c.window.high) && d.window.highAt == now
    ensures d.power == if e.kind.PowerKind? then Apply(c.power, e, d.window.order, now) else c.power
  {
    ZeroDistance(e.seqNo);
    d := Later(c, e, now);
    hide Bare, Moves, Accepts, Apply;
  }

  /** After a quiet interval: the window starts over at the event and the watermark moves along. */
  lemma Reanchored(c: Cache, e: Event, now: nat) returns (d: Cache)
    requires Bare(c) && Valid(e) && e.nonce == 1 && (e.kind.PowerKind? || e.kind.Button?)
    requires Elapsed(now, c.window.highAt) >= TTL && c.power.ordered
    ensures Possible(c, Receiving(e, now)) && Moves(c, Receiving(e, now), d) && Accepts(c, Receiving(e, now)) && Bare(d)
    ensures d.window.high == e.seqNo && d.window.order == c.window.order + SPACE && d.window.highAt == now
    ensures var p := c.power.(watermark := d.window.order + Signed(c.power.sequence, e.seqNo));
      d.power == if e.kind.PowerKind? then Apply(p, e, d.window.order, now) else p
  {
    ZeroDistance(e.seqNo);
    d := Later(c, e, now);
    hide Bare, Moves, Accepts, Apply;
  }

  lemma BareNonce(c: Cache)
    requires Bare(c)
    ensures c.nonce == 1
  {
  }

  /**
   A quiet interval apart: the cancellation numbered 40000, then the shutdown notice numbered 0. The older one
   replaces the newer.
   */
  lemma DistantNoticeWins() returns (trace: seq<Cache>, moves: seq<Move>, indices: seq<int>)
    ensures Example(trace, moves, indices) && indices == [40000, 0]
    ensures forall k :: 0 <= k < 2 ==> moves[k].event.kind.PowerKind?
    ensures trace[1].power.phase == NoIntent && trace[2].power.phase == WillShutdown
  {
    hide Moves, Accepts, Possible, Bare;
    moves, indices := [Receiving(PowerEvent(40000, WomCancelled), 0), Receiving(PowerEvent(0, WillShutdown), TTL)], [40000, 0];
    var c := First(PowerEvent(40000, WomCancelled));
    var d := Reanchored(c, PowerEvent(0, WillShutdown), TTL);
    BareNonce(c);
    BareNonce(d);
    trace := [BLANK, c, d];
  }

  /**
   Without any quiet interval and with fewer than 32768 events sent since the last applied notice: the
   cancellation numbered 10000, event 42000, then the shutdown notice numbered 5000. It lies more than half the
   sequence space behind the window's head, is taken for the newest, and replaces the cancellation.
   */
  lemma DelayedNoticeWins() returns (trace: seq<Cache>, moves: seq<Move>, indices: seq<int>)
    ensures Example(trace, moves, indices) && indices == [10000, 42000, 5000]
    ensures moves[0].event.kind.PowerKind? && moves[2].event.kind.PowerKind?
    ensures trace[2].power.phase == NoIntent && trace[3].power.phase == WillShutdown
  {
    hide Moves, Accepts, Possible, Bare;
    moves := [Receiving(PowerEvent(10000, WomCancelled), 0), Receiving(Click(42000), 1), Receiving(PowerEvent(5000, WillShutdown), 2)];
    indices := [10000, 42000, 5000];
    var c := First(PowerEvent(10000, WomCancelled));
    var d := Onward(c, Click(42000), 1);
    var e := Onward(d, PowerEvent(5000, WillShutdown), 2);
    BareNonce(c);
    BareNonce(d);
    BareNonce(e);
    trace := [BLANK, c, d, e];
  }

  /**
   The other side of a re-anchor out of reach: boot notice 0, events up to 40000, a quiet interval, event 40001.
   The watermark now lies ahead of the window, and the shutdown notice 40002 that follows in order is ignored.
   */
  lemma NewerNoticeIgnored() returns (trace: seq<Cache>, moves: seq<Move>, indices: seq<int>)
    ensures Example(trace, moves, indices) && indices == [0, 20000, 40000, 40001, 40002]
    ensures moves[0].event.kind.PowerKind? && moves[4].event == PowerEvent(40002, WillShutdown)
    ensures trace[5].power == trace[4].power && trace[5].power.phase == NoIntent
  {
    hide Moves, Accepts, Possible, Bare;
    indices := [0, 20000, 40000, 40001, 40002];
    moves := [Receiving(PowerEvent(0, Boot), 0), Receiving(Click(20000), 1), Receiving(Click(40000), 2),
              Receiving(Click(40001), TTL + 2), Receiving(PowerEvent(40002, WillShutdown), TTL + 3)];
    var c := First(PowerEvent(0, Boot));
    var d := Onward(c, Click(20000), 1);
    var e := Onward(d, Click(40000), 2);
    var f := Reanchored(e, Click(40001), TTL + 2);
    var g := Onward(f, PowerEvent(40002, WillShutdown), TTL + 3);
    BareNonce(c);
    BareNonce(d);
    BareNonce(e);
    BareNonce(f);
    BareNonce(g);
    trace := [BLANK, c, d, e, f, g];
  }
}
