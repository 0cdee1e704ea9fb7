/**
 The receiver's cache of tracker events: a 64-entry sequence window that is re-anchored after quiet
 intervals and new sessions, eight cached operations, two rest states and one power intention.

 Times are 32-bit milliseconds and are compared by wrapping difference. Expanded order is unbounded.
 */
module TrackerEvents {
  import opened SerialNumbers

  const OPS := 8
  const WINDOW := 64
  const TTL := 15000
  const RELEVANCE := 20000
  const ACTIVITY := 10000
  const CAL_SILENCE := 10000
  const REST_STALE := 15000

  datatype Kind = Calibration(code: nat) | TrackerRest | FusionRest | PowerKind | Button
  datatype What = Accepted | Begin | Step | End | Rejected | Report | Notice
  datatype PowerPhase = NoIntent | WillWom | WillShutdown | Boot | Wake | WillReboot | WomCancelled | WatchdogReset
  datatype Reason = TransportSilence | SessionChanged | PowerDown | Reset

  /** `storage` marks the STORAGE phase; `power` is the phase of a power notice. */
  datatype Event = Event(nonce: nat, seqNo: nat, operation: nat, kind: Kind, what: What,
                         storage: bool, power: PowerPhase, outcome: nat, detail: nat)

  datatype Delivery = Fresh(event: Event) | Recovered(event: Event) | Observation(event: Event, reason: Reason)

  datatype Entry = Unused | Entry(event: Event, lastRx: nat, order: int, firstOrder: int, terminal: bool, stale: bool)

  datatype Window = Window(live: bool, high: nat, order: int, highAt: nat, seen: seq<bool>)

  datatype Power = Power(receivedAt: nat, order: int, watermark: int, sequence: nat, phase: PowerPhase, ordered: bool)

  datatype Cache = Cache(nonce: nat, retiredNonce: nat, retiredAt: nat, window: Window,
                         operations: seq<Entry>, rest: seq<Entry>, power: Power)

  /** The decoder's validity rules that matter here: a session nonce, 16-bit sequence, and kind matching event type. */
  predicate Valid(e: Event) {
    && e.nonce != 0 && e.seqNo < SPACE
    && match e.kind
       case Calibration(_) => e.operation != 0 && !e.what.Report? && !e.what.Notice?
       case TrackerRest => e.what.Report?
       case FusionRest => e.what.Report?
       case PowerKind => e.what.Notice?
       case Button => e.what.Notice?
  }

  predicate WellFormed(c: Cache) {
    && |c.operations| == OPS && |c.rest| == 2 && |c.window.seen| == WINDOW && c.window.high < SPACE
    && c.power.sequence < SPACE
  }

  const NO_POWER := Power(0, 0, 0, 0, NoIntent, false)
  const NO_ENTRIES := [Unused, Unused, Unused, Unused, Unused, Unused, Unused, Unused]
  function Clear(n: nat): (bits: seq<bool>)
    ensures |bits| == n && forall i :: 0 <= i < n ==> !bits[i]
  {
    if n == 0 then [] else Clear(n - 1) + [false]
  }

  const BLANK := Cache(0, 0, 0, Window(false, 0, 0, 0, Clear(WINDOW)), NO_ENTRIES, [Unused, Unused], NO_POWER)

  function Elapsed(now: nat, since: nat): nat { (now - since) % 0x1_0000_0000 }

  // ----- The sequence window -----

  /** The bitmap moved up by `shift` with the newest bit set. */
  function Shifted(seen: seq<bool>, shift: nat): seq<bool>
    requires |seen| == WINDOW
  {
    if shift >= WINDOW then Clear(WINDOW)[0 := true]
    else (Clear(shift) + seen[..WINDOW - shift])[0 := true]
  }

  predicate Quiet(w: Window, now: nat) { !w.live || Elapsed(now, w.highAt) >= TTL }

  predicate Unseen(w: Window, seqNo: nat, now: nat)
    requires |w.seen| == WINDOW
  {
    Quiet(w, now) || Signed(seqNo, w.high) > 0 || (Distance(w.high, seqNo) < WINDOW && !w.seen[Distance(w.high, seqNo)])
  }

  /** The window after a sequence number that `Unseen` lets through. */
  function Advance(w: Window, seqNo: nat, now: nat): Window
    requires |w.seen| == WINDOW && Unseen(w, seqNo, now)
  {
    if Quiet(w, now) then Window(true, seqNo, w.order + SPACE, now, Clear(WINDOW)[0 := true])
    else if Signed(seqNo, w.high) > 0
    then Window(true, seqNo, w.order + Distance(seqNo, w.high), now, Shifted(w.seen, Distance(seqNo, w.high)))
    else w.(seen := w.seen[Distance(w.high, seqNo) := true])
  }

  function Position(w: Window, seqNo: nat): int { w.order - Distance(w.high, seqNo) }

  /** A re-anchor moves the power watermark along. */
  function Rebase(p: Power, w: Window, seqNo: nat, now: nat): Power {
    if Quiet(w, now) && p.ordered
    then p.(watermark := w.order + SPACE + Signed(p.sequence, seqNo))
    else p
  }

  // ----- Power intention -----

  predicate Intends(phase: PowerPhase) { phase.WillWom? || phase.WillShutdown? || phase.WillReboot? }

  predicate Expired(p: Power, now: nat) { Elapsed(now, p.receivedAt) >= RELEVANCE }

  function Apply(p: Power, e: Event, order: int, now: nat): Power {
    if p.ordered && order <= p.watermark then p
    else
      var q := p.(ordered := true, sequence := e.seqNo, watermark := order,
                  phase := if !p.phase.NoIntent? && Expired(p, now) then NoIntent else p.phase);
      if Intends(e.power) then
        (if q.phase != e.power then q.(receivedAt := now, order := order, phase := e.power) else q)
      else if e.power.WomCancelled? then (if q.phase.WillWom? then q.(phase := NoIntent) else q)
      else if e.power.Boot? || e.power.Wake? || e.power.WatchdogReset? then q.(phase := NoIntent)
      else q
  }

  function Evidence(p: Power, e: Event, order: int, now: nat): Power {
    if p.phase.NoIntent? then p
    else if Expired(p, now) || (order > p.order && (e.what.Accepted? || e.what.Begin?)) || Elapsed(now, p.receivedAt) > ACTIVITY
    then p.(phase := NoIntent)
    else p
  }

  function Lapse(p: Power, now: nat): Power {
    if !p.phase.NoIntent? && Expired(p, now) then p.(phase := NoIntent) else p
  }

  function SilenceReason(p: Power, firstOrder: int): Reason {
    if p.phase.NoIntent? || firstOrder > p.order then TransportSilence
    else if p.phase.WillReboot? then Reset else PowerDown
  }

  // ----- Cached operations -----

  predicate SameKey(e: Entry, event: Event) {
    e.Entry? && e.event.operation == event.operation && e.event.kind == event.kind
  }

  /** Index of the slot that caches the operation of `event`, or the number of slots. */
  function Find(ops: seq<Entry>, event: Event, from: nat): (i: nat)
    requires from <= |ops|
    ensures from <= i <= |ops|
    ensures forall j :: from <= j < i ==> !SameKey(ops[j], event)
    ensures i < |ops| ==> SameKey(ops[i], event)
    decreases |ops| - from
  {
    if from == |ops| || SameKey(ops[from], event) then from else Find(ops, event, from + 1)
  }

  /** `a` is a better victim than `b`: a finished operation first, then the one silent for longest. */
  predicate Sooner(a: Entry, b: Entry, now: nat) {
    a.Entry? && b.Entry? &&
    ((a.terminal && !b.terminal) || (a.terminal == b.terminal && Elapsed(now, a.lastRx) > Elapsed(now, b.lastRx)))
  }

  /** The first `n` slots are all in use and `best` is the first best victim among them. */
  ghost predicate BestOf(ops: seq<Entry>, now: nat, n: nat, best: nat)
    requires n <= |ops|
  {
    n > 0 ==>
      && best < n
      && (forall j :: 0 <= j < n ==> ops[j].Entry? && !Sooner(ops[j], ops[best], now))
      && (forall j :: 0 <= j < best ==> Sooner(ops[best], ops[j], now))
  }

  /** The first free slot, or else the first best victim. */
  function Victim(ops: seq<Entry>, now: nat, from: nat, best: nat): (v: nat)
    requires best <= from <= |ops| && best < |ops|
    requires BestOf(ops, now, from, best)
    ensures v < |ops|
    ensures ops[v].Unused? ==> forall j :: 0 <= j < v ==> ops[j].Entry?
    ensures ops[v].Entry? ==> BestOf(ops, now, |ops|, v)
    decreases |ops| - from
  {
    if from == |ops| then best
    else if ops[from].Unused? then from
    else if from == 0 || Sooner(ops[from], ops[best], now) then Victim(ops, now, from + 1, from)
    else Victim(ops, now, from + 1, best)
  }

  function Allocate(ops: seq<Entry>, now: nat): (v: nat)
    requires |ops| == OPS
    ensures v < OPS
  {
    Victim(ops, now, 0, 0)
  }

  // ----- One received event -----

  datatype Where = InRest(i: nat) | InOperations(i: nat) | Nowhere

  function Lookup(c: Cache, e: Event): (w: Where)
    requires WellFormed(c)
    ensures w.InRest? ==> w.i < 2
    ensures w.InOperations? ==> w.i < OPS
  {
    if e.what.Report? then InRest(if e.kind.FusionRest? then 1 else 0)
    else
      var i := Find(c.operations, e, 0);
      if i < OPS then InOperations(i) else Nowhere
  }

  function At(c: Cache, w: Where): Entry
    requires WellFormed(c) && (w.InRest? ==> w.i < 2) && (w.InOperations? ==> w.i < OPS)
  {
    match w
    case InRest(i) => c.rest[i]
    case InOperations(i) => c.operations[i]
    case Nowhere => Unused
  }

  function Put(c: Cache, w: Where, e: Entry): Cache
    requires WellFormed(c) && (w.InRest? ==> w.i < 2) && (w.InOperations? ==> w.i < OPS)
  {
    match w
    case InRest(i) => c.(rest := c.rest[i := e])
    case InOperations(i) => c.(operations := c.operations[i := e])
    case Nowhere => c
  }

  predicate Old(c: Cache, e: Event, now: nat) {
    c.nonce != e.nonce && e.nonce == c.retiredNonce && Elapsed(now, c.retiredAt) < TTL
  }

  /** A new session forgets the old one's operations, rest states and power intention, not its order. */
  function Enter(c: Cache, e: Event, now: nat): Cache {
    if c.nonce == e.nonce then c
    else Cache(e.nonce,
               if c.nonce != 0 then c.nonce else c.retiredNonce, if c.nonce != 0 then now else c.retiredAt,
               c.window.(live := false), NO_ENTRIES, [Unused, Unused], NO_POWER)
  }

  predicate Open(e: Entry, rest: bool) { e.Entry? && if rest then !e.stale else !e.terminal }

  /** Observations for those of the first `n` entries that are still open. */
  function Farewells(es: seq<Entry>, rest: bool, n: nat): (out: seq<Delivery>)
    requires n <= |es|
    ensures |out| <= n
  {
    if n == 0 then []
    else Farewells(es, rest, n - 1) + if Open(es[n - 1], rest) then [Observation(es[n - 1].event, SessionChanged)] else []
  }

  function Leaving(c: Cache, e: Event): seq<Delivery>
    requires WellFormed(c)
  {
    if c.nonce == e.nonce || c.nonce == 0 then []
    else Farewells(c.operations, false, OPS) + Farewells(c.rest, true, 2)
  }

  /** A session change reports exactly the entries that were open, in slot order. */
  lemma {:induction false} FarewellsExact(es: seq<Entry>, rest: bool, n: nat, i: nat)
    requires n <= |es| && i < n && Open(es[i], rest)
    ensures var out, k := Farewells(es, rest, n), |Farewells(es, rest, i)|;
      && k < |out| && out[k] == Observation(es[i].event, SessionChanged)
      && |out| <= k + (n - i) && out[..k] == Farewells(es, rest, i)
  {
    if i + 1 < n { FarewellsExact(es, rest, n - 1, i); }
  }

  datatype Outcome = Outcome(cache: Cache, out: seq<Delivery>, accepted: bool)

  predicate Known(c: Cache, e: Event)
    requires WellFormed(c)
  {
    At(c, Lookup(c, e)).Entry? && At(c, Lookup(c, e)).event == e
  }

  /** An exact repetition of a cached event only refreshes it. */
  function Heartbeat(c: Cache, e: Event, now: nat): Outcome
    requires WellFormed(c) && Known(c, e)
  {
    var w := Lookup(c, e);
    var entry := At(c, w);
    var power := if e.kind.Calibration? then Evidence(c.power, e, entry.order, now) else c.power;
    Outcome(Put(c.(power := power), w, entry.(lastRx := now, stale := false)),
            if entry.stale && e.what.Report? then [Recovered(e)] else [], false)
  }

  predicate Finishes(e: Event) { e.what.End? || e.what.Rejected? }

  predicate Cached(e: Event) { e.what.Report? || (e.kind.Calibration? && !(e.what.Step? && e.storage)) }

  /** An old start or step cannot roll back a result or a newer phase. */
  predicate Supersedes(was: Entry, e: Event, order: int) {
    was.Unused? || (order > was.order && (!was.terminal || Finishes(e)))
  }

  function Store(c: Cache, w: Where, e: Event, order: int, now: nat): Cache
    requires WellFormed(c) && (w.InRest? ==> w.i < 2) && (w.InOperations? ==> w.i < OPS)
  {
    if !Cached(e) then c
    else if w.Nowhere? then
      Put(c.(power := if e.what.Report? then c.power else Evidence(c.power, e, order, now)),
          InOperations(Allocate(c.operations, now)), Entry(e, now, order, order, Finishes(e), false))
    else
      var was := At(c, w);
      if !Supersedes(was, e, order) then c
      else
        Put(c.(power := if e.what.Report? then c.power else Evidence(c.power, e, order, now)),
            w, Entry(e, now, order, if was.Unused? then order else was.firstOrder, Finishes(e), false))
  }

  /** The cache once the window has let `e` through. */
  function Admitted(c: Cache, e: Event, now: nat): Cache
    requires WellFormed(c) && Unseen(c.window, e.seqNo, now)
  {
    c.(window := Advance(c.window, e.seqNo, now), power := Rebase(c.power, c.window, e.seqNo, now))
  }

  function Order(c: Cache, e: Event, now: nat): int
    requires WellFormed(c) && Unseen(c.window, e.seqNo, now)
  {
    Position(Advance(c.window, e.seqNo, now), e.seqNo)
  }

  function Take(c: Cache, e: Event, now: nat): Outcome
    requires WellFormed(c) && Valid(e)
  {
    if Known(c, e) then Heartbeat(c, e, now)
    else if !Unseen(c.window, e.seqNo, now) then Outcome(c, [], false)
    else
      var w, order, d := Lookup(c, e), Order(c, e, now), Admitted(c, e, now);
      if e.what.Report? && At(c, w).Entry? && order <= At(c, w).order then Outcome(d, [], true)
      else
        var f := if e.kind.PowerKind? then d.(power := Apply(d.power, e, order, now)) else d;
        Outcome(Store(f, w, e, order, now), [Fresh(e)], true)
  }

  function Receive(c: Cache, e: Event, now: nat): Outcome
    requires WellFormed(c) && Valid(e)
  {
    if Old(c, e, now) then Outcome(c, [], false)
    else var o := Take(Enter(c, e, now), e, now); o.(out := Leaving(c, e) + o.out)
  }

  /** One slot of the periodic silence check; slots 8 and 9 are the rest states. */
  function Check(c: Cache, i: nat, now: nat): (Cache, seq<Delivery>)
    requires WellFormed(c) && i < OPS + 2
  {
    var rest := i >= OPS;
    var entry := if rest then c.rest[i - OPS] else c.operations[i];
    if entry.Entry? && !entry.terminal && !entry.stale && Elapsed(now, entry.lastRx) >= (if rest then REST_STALE else CAL_SILENCE)
    then
      var power := if rest then c.power else Lapse(c.power, now);
      var d := Put(c.(power := power), if rest then InRest(i - OPS) else InOperations(i), entry.(stale := true));
      (d, [Observation(entry.event, if rest then TransportSilence else SilenceReason(power, entry.firstOrder))])
    else (c, [])
  }

  // ----- Shape -----

  lemma TakeWellFormed(c: Cache, e: Event, now: nat)
    requires WellFormed(c) && Valid(e)
    ensures WellFormed(Take(c, e, now).cache) && |Take(c, e, now).out| <= 1
  {
    hide Find, Victim, Elapsed, Distance;
    SignedDistance(c.window.high, e.seqNo);
  }

  lemma EnterWellFormed(c: Cache, e: Event, now: nat)
    requires WellFormed(c)
    ensures WellFormed(Enter(c, e, now))
  {
  }

  /** One event never produces more than the eleven deliveries there is room for. */
  lemma OutputFits(c: Cache, e: Event, now: nat)
    requires WellFormed(c) && Valid(e)
    ensures WellFormed(Receive(c, e, now).cache) && |Receive(c, e, now).out| <= OPS + 3
  {
    EnterWellFormed(c, e, now);
    TakeWellFormed(Enter(c, e, now), e, now);
    hide Take, Enter;
  }

  // ----- Expanded positions -----

  /** `seen` is exactly the accepted positions among the last 64, and nothing accepted lies ahead. */
  ghost predicate WindowExact(w: Window, log: set<int>) {
    && |w.seen| == WINDOW && w.high < SPACE
    && (forall p :: p in log ==> p <= w.order)
    && (w.live ==> forall age :: 0 <= age < WINDOW ==> (w.seen[age] <==> w.order - age in log))
  }

  /** An event the window lets through takes a position no earlier event of this pairing had. */
  lemma AdvanceExact(w: Window, seqNo: nat, now: nat, log: set<int>)
    requires WindowExact(w, log) && seqNo < SPACE && Unseen(w, seqNo, now)
    ensures var v := Advance(w, seqNo, now); var p := Position(v, seqNo);
      p !in log && WindowExact(v, log + {p})
  {
    hide Elapsed;
    var v := Advance(w, seqNo, now);
    var p := Position(v, seqNo);
    SignedDistance(seqNo, w.high);
    hide Distance, Signed;
    forall age | 0 <= age < WINDOW ensures v.seen[age] <==> v.order - age in log + {p} {
      if v.order != w.order && age > 0 { assert age >= v.order - w.order ==> v.order - age == w.order - (age - (v.order - w.order)); }
    }
  }

  lemma SignedDistance(a: nat, b: nat)
    requires a < SPACE && b < SPACE
    ensures Distance(a, a) == 0 && Distance(a, b) < SPACE
    ensures Signed(a, b) > 0 ==> 0 < Distance(a, b) < HALF
  {
  }

  // ----- What the cache holds -----

  /** All ten entries: operations, then the two rest states. */
  function All(c: Cache): seq<Entry> { c.operations + c.rest }

  /** An entry belongs to the session, to its slot, and to an accepted position. */
  ghost predicate EntryOk(x: Entry, i: nat, nonce: nat, log: set<int>) {
    x.Entry? ==>
      && x.order in log && x.firstOrder <= x.order && x.event.nonce == nonce && x.terminal == Finishes(x.event)
      && if i < OPS then x.event.kind.Calibration? && !x.event.what.Report?
         else x.event.what.Report? && x.event.kind == if i == OPS then TrackerRest else FusionRest
  }

  predicate Apart(x: Entry, y: Entry) {
    x.Entry? && y.Entry? ==> x.order != y.order && !SameKey(x, y.event)
  }

  ghost predicate EntriesOk(all: seq<Entry>, nonce: nat, log: set<int>) {
    && (forall i :: 0 <= i < |all| ==> EntryOk(all[i], i, nonce, log))
    && (forall i, j :: 0 <= i < j < |all| ==> Apart(all[i], all[j]))
  }

  ghost predicate Inv(c: Cache, log: set<int>) {
    && WellFormed(c) && WindowExact(c.window, log) && EntriesOk(All(c), c.nonce, log)
  }

  lemma EntriesGrow(all: seq<Entry>, nonce: nat, log: set<int>, p: int)
    requires EntriesOk(all, nonce, log)
    ensures EntriesOk(all, nonce, log + {p})
  {
    hide Apart;
  }

  lemma NewEntry(all: seq<Entry>, nonce: nat, log: set<int>, k: nat, x: Entry)
    requires EntriesOk(all, nonce, log) && k < |all| && x.Entry? && x.order !in log
    requires EntryOk(x, k, nonce, log + {x.order})
    requires forall j :: 0 <= j < |all| && j != k ==> !SameKey(all[j], x.event)
    ensures EntriesOk(all[k := x], nonce, log + {x.order})
  {
    var next := all[k := x];
    forall i, j | 0 <= i < j < |next| ensures Apart(next[i], next[j]) {
      if i == k { assert EntryOk(all[j], j, nonce, log); }
      if j == k { assert EntryOk(all[i], i, nonce, log); }
      assert Apart(all[i], all[j]);
    }
  }

  /** Refreshing an entry changes neither its position nor its event. */
  lemma Refresh(all: seq<Entry>, nonce: nat, log: set<int>, k: nat, lastRx: nat, stale: bool)
    requires EntriesOk(all, nonce, log) && k < |all| && all[k].Entry?
    ensures EntriesOk(all[k := all[k].(lastRx := lastRx, stale := stale)], nonce, log)
  {
    var next := all[k := all[k].(lastRx := lastRx, stale := stale)];
    assert forall i :: 0 <= i < |all| ==> EntryOk(all[i], i, nonce, log) ==> EntryOk(next[i], i, nonce, log);
    forall i, j | 0 <= i < j < |next| ensures Apart(next[i], next[j]) { assert Apart(all[i], all[j]); }
  }

  function Index(w: Where): nat { match w case InRest(i) => OPS + i case InOperations(i) => i case Nowhere => 0 }

  predicate InSlot(w: Where) { (w.InRest? && w.i < 2) || (w.InOperations? && w.i < OPS) }

  lemma PutAll(c: Cache, w: Where, x: Entry)
    requires WellFormed(c) && InSlot(w)
    ensures WellFormed(Put(c, w, x)) && All(Put(c, w, x)) == All(c)[Index(w) := x] && All(c)[Index(w)] == At(c, w)
    ensures Put(c, w, x) == c.(operations := Put(c, w, x).operations, rest := Put(c, w, x).rest)
  {
  }

  /** Only the slot found for an event can hold its key. */
  lemma KeyElsewhere(c: Cache, e: Event, log: set<int>, j: nat)
    requires Inv(c, log) && Valid(e) && Cached(e) && j < OPS + 2
    requires var w := Lookup(c, e); w.Nowhere? || j != Index(w)
    ensures !SameKey(All(c)[j], e)
  {
    hide WindowExact, Find;
    assert EntryOk(All(c)[j], j, c.nonce, log);
    var w := Lookup(c, e);
    if w.InOperations? && j < OPS {
      assert SameKey(c.operations[w.i], e);
      if j < w.i { assert Apart(All(c)[j], All(c)[w.i]); } else { assert Apart(All(c)[w.i], All(c)[j]); }
    }
  }

  lemma HeartbeatInv(c: Cache, e: Event, now: nat, log: set<int>)
    requires Inv(c, log) && Valid(e) && Known(c, e)
    ensures Inv(Heartbeat(c, e, now).cache, log)
  {
    var w := Lookup(c, e);
    var x := At(c, w).(lastRx := now, stale := false);
    PutAll(c, w, x);
    Refresh(All(c), c.nonce, log, Index(w), now, false);
    hide EntriesOk, WindowExact, Lookup, Evidence;
  }

  lemma StoreInv(c: Cache, w: Where, e: Event, order: int, now: nat, log: set<int>)
    requires WellFormed(c) && EntriesOk(All(c), c.nonce, log) && Valid(e) && e.nonce == c.nonce && order !in log
    requires w == Lookup(c, e)
    requires Cached(e) ==> forall j :: 0 <= j < OPS + 2 && (w.Nowhere? || j != Index(w)) ==> !SameKey(All(c)[j], e)
    ensures var d := Store(c, w, e, order, now);
      WellFormed(d) && d.window == c.window && d.nonce == c.nonce && EntriesOk(All(d), c.nonce, log + {order})
  {
    EntriesGrow(All(c), c.nonce, log, order);
    if Cached(e) {
      var k := if w.Nowhere? then InOperations(Allocate(c.operations, now)) else w;
      var was := At(c, k);
      if w.Nowhere? || Supersedes(was, e, order) {
        var first := if w.Nowhere? || was.Unused? then order else was.firstOrder;
        var x := Entry(e, now, order, first, Finishes(e), false);
        var f := c.(power := if e.what.Report? then c.power else Evidence(c.power, e, order, now));
        PutAll(f, k, x);
        assert EntryOk(All(c)[Index(k)], Index(k), c.nonce, log);
        NewEntry(All(c), c.nonce, log, Index(k), x);
        hide EntriesOk, Lookup, Evidence, Allocate;
      }
    }
  }

  lemma TakeInv(c: Cache, e: Event, now: nat, log: set<int>)
    requires Inv(c, log) && Valid(e) && c.nonce == e.nonce
    ensures var o := Take(c, e, now);
      if o.accepted then Unseen(c.window, e.seqNo, now) && Order(c, e, now) !in log && Inv(o.cache, log + {Order(c, e, now)})
      else Inv(o.cache, log)
  {
    if Known(c, e) {
      HeartbeatInv(c, e, now, log);
      hide Inv, Heartbeat;
    } else if Unseen(c.window, e.seqNo, now) {
      AdvanceExact(c.window, e.seqNo, now, log);
      var w, order, d := Lookup(c, e), Order(c, e, now), Admitted(c, e, now);
      EntriesGrow(All(c), c.nonce, log, order);
      if Cached(e) {
        forall j | 0 <= j < OPS + 2 && (w.Nowhere? || j != Index(w)) ensures !SameKey(All(c)[j], e) { KeyElsewhere(c, e, log, j); }
      }
      var f := if e.kind.PowerKind? then d.(power := Apply(d.power, e, order, now)) else d;
      hide EntriesOk, WindowExact, Advance, Apply, Rebase, Unseen;
      StoreInv(f, w, e, order, now, log);
    }
  }

  lemma EnterInv(c: Cache, e: Event, now: nat, log: set<int>)
    requires Inv(c, log)
    ensures Inv(Enter(c, e, now), log) && Enter(c, e, now).nonce == e.nonce
  {
  }

  lemma CheckInv(c: Cache, i: nat, now: nat, log: set<int>)
    requires Inv(c, log) && i < OPS + 2
    ensures Inv(Check(c, i, now).0, log)
  {
    var w := if i >= OPS then InRest(i - OPS) else InOperations(i);
    if At(c, w).Entry? {
      PutAll(c, w, At(c, w).(stale := true));
      Refresh(All(c), c.nonce, log, Index(w), At(c, w).lastRx, true);
      hide EntriesOk, WindowExact;
    }
  }

  // ----- Whole runs -----

  /** Repair is a new pairing generation: the cache starts over. */
  datatype Move = Receiving(event: Event, now: nat) | Checking(slot: nat, now: nat) | Repair

  predicate Possible(c: Cache, m: Move) {
    WellFormed(c) && match m
    case Receiving(e, _) => Valid(e)
    case Checking(i, _) => i < OPS + 2
    case Repair => true
  }

  function Do(c: Cache, m: Move): Cache
    requires Possible(c, m)
  {
    match m
    case Receiving(e, now) => Receive(c, e, now).cache
    case Checking(i, now) => Check(c, i, now).0
    case Repair => BLANK
  }

  predicate Accepts(c: Cache, m: Move)
    requires Possible(c, m)
  {
    m.Receiving? && Receive(c, m.event, m.now).accepted
  }

  /** The expanded position an accepted event takes. */
  function PositionOf(c: Cache, m: Move): int
    requires Possible(c, m) && Accepts(c, m)
  {
    EnterWellFormed(c, m.event, m.now);
    Order(Enter(c, m.event, m.now), m.event, m.now)
  }

  function Note(c: Cache, m: Move, log: set<int>): set<int>
    requires Possible(c, m)
  {
    if m.Repair? then {} else if Accepts(c, m) then log + {PositionOf(c, m)} else log
  }

  ghost predicate Moves(c: Cache, m: Move, d: Cache) { Possible(c, m) && d == Do(c, m) }

  ghost predicate Execution(trace: seq<Cache>, moves: seq<Move>) {
    && |trace| == |moves| + 1 && trace[0] == BLANK
    && forall k :: 0 <= k < |moves| ==> Moves(trace[k], moves[k], trace[k + 1])
  }

  /** Positions accepted in the current pairing, after the first `n` moves. */
  ghost function Log(trace: seq<Cache>, moves: seq<Move>, n: nat): set<int>
    requires Execution(trace, moves) && n <= |moves|
  {
    if n == 0 then {}
    else
      assert Moves(trace[n - 1], moves[n - 1], trace[n - 1 + 1]);
      Note(trace[n - 1], moves[n - 1], Log(trace, moves, n - 1))
  }

  lemma BlankInv()
    ensures Inv(BLANK, {})
  {
  }

  lemma MoveInv(c: Cache, m: Move, d: Cache, log: set<int>)
    requires Inv(c, log) && Moves(c, m, d)
    ensures Inv(d, Note(c, m, log))
    ensures Accepts(c, m) ==> PositionOf(c, m) !in log
  {
    hide Inv, Take, Check, Order, Enter;
    match m {
      case Receiving(e, now) =>
        EnterInv(c, e, now, log);
        if !Old(c, e, now) { TakeInv(Enter(c, e, now), e, now, log); }
      case Checking(i, now) => CheckInv(c, i, now, log);
      case Repair => BlankInv();
    }
  }

  /**
   Over every run: the window bitmap is exactly the accepted positions among the last 64, every cached
   entry sits at its own accepted position, and no two operations share a key.
   */
  lemma {:induction false} ReachableInv(trace: seq<Cache>, moves: seq<Move>, n: nat)
    requires Execution(trace, moves) && n <= |moves|
    ensures Inv(trace[n], Log(trace, moves, n))
  {
    hide Inv, Moves, Note;
    if n == 0 {
      BlankInv();
    } else {
      ReachableInv(trace, moves, n - 1);
      assert Moves(trace[n - 1], moves[n - 1], trace[n - 1 + 1]);
      MoveInv(trace[n - 1], moves[n - 1], trace[n], Log(trace, moves, n - 1));
    }
  }

  /** Across re-anchors and session changes no position is ever accepted twice in one pairing. */
  lemma PositionsDistinct(trace: seq<Cache>, moves: seq<Move>, n: nat)
    requires Execution(trace, moves) && n < |moves|
    ensures Moves(trace[n], moves[n], trace[n + 1])
    ensures Accepts(trace[n], moves[n]) ==> PositionOf(trace[n], moves[n]) !in Log(trace, moves, n)
  {
    hide Inv, Note;
    ReachableInv(trace, moves, n);
    assert Moves(trace[n], moves[n], trace[n + 1]);
    MoveInv(trace[n], moves[n], trace[n + 1], Log(trace, moves, n));
  }

  // ----- Cached entries only move forward -----

  /** `y` continues `x`: the same operation of the same session, never older, never un-finished. */
  ghost predicate Continues(x: Entry, y: Entry) {
    x.Entry? && y.Entry? && SameKey(x, y.event) && x.event.nonce == y.event.nonce ==>
      && x.order <= y.order && x.firstOrder == y.firstOrder
      && (x.event != y.event ==> x.order < y.order)
      && (x.terminal ==> y.terminal)
  }

  lemma StoreContinues(c: Cache, w: Where, e: Event, order: int, now: nat, i: nat)
    requires WellFormed(c) && w == Lookup(c, e) && i < OPS + 2
    requires Cached(e) && w.Nowhere? ==> forall j :: 0 <= j < OPS + 2 ==> !SameKey(All(c)[j], e)
    ensures var d := Store(c, w, e, order, now); WellFormed(d) && Continues(All(c)[i], All(d)[i])
  {
    if Cached(e) {
      var k := if w.Nowhere? then InOperations(Allocate(c.operations, now)) else w;
      var was := At(c, k);
      if w.Nowhere? || Supersedes(was, e, order) {
        var first := if w.Nowhere? || was.Unused? then order else was.firstOrder;
        var x := Entry(e, now, order, first, Finishes(e), false);
        PutAll(c.(power := if e.what.Report? then c.power else Evidence(c.power, e, order, now)), k, x);
        assert w.Nowhere? ==> !SameKey(All(c)[i], e);
        hide Lookup, Evidence, Allocate;
      }
    }
  }

  lemma TakeContinues(c: Cache, e: Event, now: nat, log: set<int>, i: nat)
    requires Inv(c, log) && Valid(e) && i < OPS + 2
    ensures var d := Take(c, e, now).cache; WellFormed(d) && Continues(All(c)[i], All(d)[i])
  {
    TakeWellFormed(c, e, now);
    if Known(c, e) {
      var w := Lookup(c, e);
      PutAll(c, w, At(c, w).(lastRx := now, stale := false));
      hide Lookup, Evidence, EntriesOk, WindowExact;
    } else if Unseen(c.window, e.seqNo, now) {
      var w, order, d := Lookup(c, e), Order(c, e, now), Admitted(c, e, now);
      if Cached(e) && w.Nowhere? {
        forall j | 0 <= j < OPS + 2 ensures !SameKey(All(c)[j], e) { KeyElsewhere(c, e, log, j); }
      }
      var f := if e.kind.PowerKind? then d.(power := Apply(d.power, e, order, now)) else d;
      hide EntriesOk, WindowExact, Advance, Apply, Rebase, Unseen;
      assert WellFormed(f);
      StoreContinues(f, w, e, order, now, i);
    }
  }

  lemma TakeNonce(c: Cache, e: Event, now: nat)
    requires WellFormed(c) && Valid(e)
    ensures Take(c, e, now).cache.nonce == c.nonce
  {
    hide Lookup, Evidence, Allocate, Advance, Apply, Rebase, Unseen;
  }

  /** A new session starts new entries, so nothing of it continues an old one. */
  lemma SessionApart(c: Cache, m: Move, d: Cache, log: set<int>, i: nat)
    requires Inv(c, log) && Moves(c, m, d) && m.Receiving? && c.nonce != m.event.nonce && !Old(c, m.event, m.now) && i < OPS + 2
    ensures WellFormed(d) && Continues(All(c)[i], All(d)[i])
  {
    MoveInv(c, m, d, log);
    EnterInv(c, m.event, m.now, log);
    TakeNonce(Enter(c, m.event, m.now), m.event, m.now);
    hide Take, Enter, WindowExact;
    assert EntryOk(All(c)[i], i, c.nonce, log) && EntryOk(All(d)[i], i, d.nonce, Note(c, m, log));
  }

  lemma MoveContinues(c: Cache, m: Move, d: Cache, log: set<int>, i: nat)
    requires Inv(c, log) && Moves(c, m, d) && !m.Repair? && i < OPS + 2
    ensures WellFormed(d) && Continues(All(c)[i], All(d)[i])
  {
    match m {
      case Receiving(e, now) =>
        hide Take, Inv, Continues;
        if Old(c, e, now) {
          ContinuesSelf(All(c)[i]);
        } else if c.nonce == e.nonce {
          TakeContinues(c, e, now, log, i);
        } else {
          SessionApart(c, m, d, log, i);
        }
      case Checking(j, now) =>
        var w := if j >= OPS then InRest(j - OPS) else InOperations(j);
        if At(c, w).Entry? { PutAll(c, w, At(c, w).(stale := true)); }
    }
  }

  lemma ContinuesSelf(x: Entry)
    ensures Continues(x, x)
  {
  }

  /** Slot `i` caches operation `e` of its session. */
  predicate Holds(c: Cache, i: nat, e: Event) {
    WellFormed(c) && i < OPS + 2 && SameKey(All(c)[i], e) && All(c)[i].event.nonce == e.nonce
  }

  /**
   As long as an operation or rest state stays cached, its position only grows, it keeps the position it
   was first seen at, and once finished it stays finished.
   */
  lemma {:induction false} CachedOnlyAdvances(trace: seq<Cache>, moves: seq<Move>, a: nat, b: nat, i: nat, e: Event)
    requires Execution(trace, moves) && a <= b <= |moves|
    requires forall k :: a <= k <= b ==> Holds(trace[k], i, e)
    requires forall k :: a <= k < b ==> !moves[k].Repair?
    ensures Holds(trace[a], i, e) && Holds(trace[b], i, e) && Continues(All(trace[a])[i], All(trace[b])[i])
    decreases b - a
  {
    hide Inv, Moves, Log;
    if a < b {
      CachedOnlyAdvances(trace, moves, a, b - 1, i, e);
      ReachableInv(trace, moves, b - 1);
      assert Moves(trace[b - 1], moves[b - 1], trace[b - 1 + 1]);
      MoveContinues(trace[b - 1], moves[b - 1], trace[b], Log(trace, moves, b - 1), i);
      assert Holds(trace[a], i, e) && Holds(trace[b - 1], i, e) && Holds(trace[b], i, e);
    } else {
      assert Holds(trace[a], i, e);
    }
  }

  // ----- Silence is blamed on a power intention only while it stands -----

  /** `c` to `d` keeps the intention, drops it, or takes a new one from an accepted notice. */
  ghost predicate IntentMove(c: Cache, m: Move, d: Cache)
    requires Possible(c, m)
  {
    !d.power.phase.NoIntent? ==>
      || (d.power.phase == c.power.phase && d.power.receivedAt == c.power.receivedAt && d.power.order == c.power.order)
      || (&& m.Receiving? && m.event.kind.PowerKind? && Intends(m.event.power) && Accepts(c, m)
          && d.power.phase == m.event.power && d.power.receivedAt == m.now && d.power.order == PositionOf(c, m))
  }

  lemma StorePower(c: Cache, w: Where, e: Event, order: int, now: nat)
    requires WellFormed(c) && w == Lookup(c, e)
    ensures var d := Store(c, w, e, order, now);
      d.power == c.power || d.power == Evidence(c.power, e, order, now)
  {
    hide Lookup, Evidence, Allocate;
  }

  lemma TakeIntent(c: Cache, e: Event, now: nat)
    requires WellFormed(c) && Valid(e)
    ensures var d := Take(c, e, now).cache;
      !d.power.phase.NoIntent? ==>
        || (d.power.phase == c.power.phase && d.power.receivedAt == c.power.receivedAt && d.power.order == c.power.order)
        || (&& Take(c, e, now).accepted && Unseen(c.window, e.seqNo, now) && e.kind.PowerKind? && Intends(e.power)
            && d.power.phase == e.power && d.power.receivedAt == now && d.power.order == Order(c, e, now))
  {
    TakeWellFormed(c, e, now);
    if Known(c, e) {
      hide Lookup, Allocate;
    } else if Unseen(c.window, e.seqNo, now) {
      var w, order, d := Lookup(c, e), Order(c, e, now), Admitted(c, e, now);
      var f := if e.kind.PowerKind? then d.(power := Apply(d.power, e, order, now)) else d;
      AdmittedShape(c, e, now);
      StorePower(f, w, e, order, now);
      hide Store, Advance, Unseen, Position, WellFormed, Elapsed;
    }
  }

  lemma AdmittedShape(c: Cache, e: Event, now: nat)
    requires WellFormed(c) && Valid(e) && Unseen(c.window, e.seqNo, now)
    ensures WellFormed(Admitted(c, e, now))
  {
  }

  lemma MoveIntent(c: Cache, m: Move, d: Cache)
    requires Moves(c, m, d)
    ensures IntentMove(c, m, d)
  {
    if m.Receiving? {
      EnterWellFormed(c, m.event, m.now);
      TakeIntent(Enter(c, m.event, m.now), m.event, m.now);
      hide Take, Order, WellFormed;
    }
  }

  /** Notice `k` set the intention that still stands after `n` moves. */
  ghost predicate Standing(trace: seq<Cache>, moves: seq<Move>, k: nat, n: nat)
    requires Execution(trace, moves) && n <= |moves|
  {
    && k < n && Moves(trace[k], moves[k], trace[k + 1]) && Accepts(trace[k], moves[k])
    && moves[k].event.kind.PowerKind? && Intends(moves[k].event.power)
    && trace[n].power.receivedAt == moves[k].now && trace[n].power.order == PositionOf(trace[k], moves[k])
    && forall j :: k < j <= n ==> trace[j].power.phase == moves[k].event.power
  }

  lemma {:induction false} IntentionHasNotice(trace: seq<Cache>, moves: seq<Move>, n: nat) returns (k: nat)
    requires Execution(trace, moves) && n <= |moves| && !trace[n].power.phase.NoIntent?
    ensures Standing(trace, moves, k, n)
  {
    assert n > 0;
    var c, m := trace[n - 1], moves[n - 1];
    assert Moves(c, m, trace[n - 1 + 1]);
    MoveIntent(c, m, trace[n]);
    hide Moves, Accepts, PositionOf, Intends;
    if trace[n].power.phase == c.power.phase && trace[n].power.receivedAt == c.power.receivedAt && trace[n].power.order == c.power.order {
      k := IntentionHasNotice(trace, moves, n - 1);
    } else {
      k := n - 1;
    }
  }

  /**
   Calling an operation's silence a power-down or a reset needs a power notice that announced it, less than
   20 s ago, whose intention has stood ever since, and an operation first seen no later than that notice.
   */
  lemma SilenceNeedsNotice(trace: seq<Cache>, moves: seq<Move>, n: nat) returns (k: nat)
    requires Execution(trace, moves) && n < |moves| && moves[n].Checking?
    requires WellFormed(trace[n]) && moves[n].slot < OPS + 2
    requires var out := Check(trace[n], moves[n].slot, moves[n].now).1;
      out != [] && (out[0].reason.PowerDown? || out[0].reason.Reset?)
    ensures Standing(trace, moves, k, n) && Elapsed(moves[n].now, moves[k].now) < 20000
    ensures moves[n].slot < OPS && trace[n].operations[moves[n].slot].Entry?
    ensures trace[n].operations[moves[n].slot].firstOrder <= PositionOf(trace[k], moves[k])
    ensures Check(trace[n], moves[n].slot, moves[n].now).1[0].reason.Reset? <==> moves[k].event.power.WillReboot?
  {
    k := IntentionHasNotice(trace, moves, n);
    hide PositionOf, Accepts, Moves, Elapsed;
  }
}
