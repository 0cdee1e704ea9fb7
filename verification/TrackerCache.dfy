/** The cache as the receiver keeps it: one object per tracker, updated in place. */
module TrackerCache {
  import opened SerialNumbers
  import opened TrackerEvents

  class EventCache {
    var nonce: nat
    var retiredNonce: nat
    var retiredAt: nat
    var window: Window
    var power: Power
    const operations: array<Entry>
    const rest: array<Entry>

    ghost predicate Valid()
      reads this, operations, rest
    {
      operations != rest && WellFormed(View())
    }

    ghost function View(): Cache
      reads this, operations, rest
    {
      Cache(nonce, retiredNonce, retiredAt, window, operations[..], rest[..], power)
    }

    constructor ()
      ensures Valid() && View() == BLANK && fresh(operations) && fresh(rest)
    {
      nonce, retiredNonce, retiredAt := 0, 0, 0;
      window := Window(false, 0, 0, 0, Clear(WINDOW));
      power := NO_POWER;
      operations := new Entry[OPS](_ => Unused);
      rest := new Entry[2](_ => Unused);
      new;
      assert operations[..] == NO_ENTRIES && rest[..] == [Unused, Unused];
    }

    /** Lets a new sequence number through and moves the window; a repeated or too old one changes nothing. */
    method Admit(e: Event, now: nat) returns (ok: bool)
      requires Valid() && TrackerEvents.Valid(e)
      modifies this`window, this`power
      ensures Valid() && ok == old(Unseen(window, e.seqNo, now))
      ensures View() == if ok then old(Admitted(View(), e, now)) else old(View())
    {
      hide Elapsed, Distance, Signed;
      AdmitShape(View(), e, now);
      if !window.live || Elapsed(now, window.highAt) >= TTL {
        if power.ordered {
          power := power.(watermark := window.order + SPACE + Signed(power.sequence, e.seqNo));
        }
        window := Window(true, e.seqNo, window.order + SPACE, now, Clear(WINDOW)[0 := true]);
        return true;
      }
      if Signed(e.seqNo, window.high) > 0 {
        var shift := Distance(e.seqNo, window.high);
        var seen := if shift >= WINDOW then Clear(WINDOW)[0 := true]
                    else (Clear(shift) + window.seen[..WINDOW - shift])[0 := true];
        window := Window(true, e.seqNo, window.order + shift, now, seen);
        return true;
      }
      var age := Distance(window.high, e.seqNo);
      if age >= WINDOW || window.seen[age] { return false; }
      window := window.(seen := window.seen[age := true]);
      return true;
    }

    method FindOperation(e: Event) returns (i: nat)
      requires Valid()
      ensures i == Find(operations[..], e, 0)
    {
      i := 0;
      while i < OPS
        invariant i <= OPS && Find(operations[..], e, 0) == Find(operations[..], e, i)
      {
        if SameKey(operations[i], e) { return; }
        i := i + 1;
      }
    }

    method AllocateOperation(now: nat) returns (v: nat)
      requires Valid()
      ensures v == Allocate(operations[..], now)
    {
      var i, oldest := 0, 0;
      while i < OPS
        invariant oldest <= i <= OPS && oldest < OPS && BestOf(operations[..], now, i, oldest)
        invariant Allocate(operations[..], now) == Victim(operations[..], now, i, oldest)
      {
        hide Elapsed;
        if operations[i].Unused? { return i; }
        if i == 0 || Sooner(operations[i], operations[oldest], now) { oldest := i; }
        i := i + 1;
      }
      return oldest;
    }

    /** Observations for the entries a session change cuts off. */
    method Farewell(es: array<Entry>, isRest: bool) returns (out: seq<Delivery>)
      ensures out == Farewells(es[..], isRest, es.Length)
    {
      out := [];
      var i := 0;
      while i < es.Length
        invariant i <= es.Length && out == Farewells(es[..], isRest, i)
      {
        if Open(es[i], isRest) { out := out + [Observation(es[i].event, SessionChanged)]; }
        i := i + 1;
      }
    }

    method Clean(es: array<Entry>)
      modifies es
      ensures es[..] == seq(es.Length, _ => Unused)
    {
      var i := 0;
      while i < es.Length
        invariant i <= es.Length && forall j :: 0 <= j < i ==> es[j].Unused?
        modifies es
      {
        es[i] := Unused;
        i := i + 1;
      }
    }

    method EnterSession(e: Event, now: nat) returns (out: seq<Delivery>)
      requires Valid()
      modifies this, operations, rest
      ensures Valid() && View() == Enter(old(View()), e, now) && out == Leaving(old(View()), e)
    {
      out := [];
      if nonce == e.nonce { return; }
      if nonce != 0 {
        var open := Farewell(operations, false);
        var resting := Farewell(rest, true);
        out := open + resting;
        retiredNonce, retiredAt := nonce, now;
      }
      nonce, power := e.nonce, NO_POWER;
      window := window.(live := false);
      Clean(operations);
      Clean(rest);
      assert operations[..] == NO_ENTRIES && rest[..] == [Unused, Unused];
    }

    method Replace(w: Where, x: Entry)
      requires Valid() && InSlot(w)
      modifies operations, rest
      ensures Valid() && View() == Put(old(View()), w, x)
    {
      match w {
        case InRest(i) => rest[i] := x;
        case InOperations(i) => operations[i] := x;
      }
      assert operations[..] == Put(old(View()), w, x).operations && rest[..] == Put(old(View()), w, x).rest;
    }

    method Locate(e: Event) returns (w: Where, x: Entry)
      requires Valid()
      ensures w == Lookup(View(), e) && x == At(View(), w)
    {
      hide Find;
      if e.what.Report? {
        w := InRest(if e.kind.FusionRest? then 1 else 0);
        x := rest[w.i];
        return;
      }
      var i := FindOperation(e);
      if i < OPS {
        w, x := InOperations(i), operations[i];
      } else {
        w, x := Nowhere, Unused;
      }
    }

    method NotePower(e: Event, order: int, now: nat)
      requires Valid() && TrackerEvents.Valid(e)
      modifies this`power
      ensures Valid() && power == Apply(old(power), e, order, now)
    {
      hide Elapsed;
      if power.ordered && order <= power.watermark { return; }
      power := power.(ordered := true, sequence := e.seqNo, watermark := order);
      if !power.phase.NoIntent? && Elapsed(now, power.receivedAt) >= RELEVANCE { power := power.(phase := NoIntent); }
      match e.power {
        case WillWom | WillShutdown | WillReboot =>
          if power.phase != e.power { power := power.(receivedAt := now, order := order); }
          power := power.(phase := e.power);
        case WomCancelled =>
          if power.phase.WillWom? { power := power.(phase := NoIntent); }
        case Boot | Wake | WatchdogReset => power := power.(phase := NoIntent);
        case NoIntent =>
      }
    }

    method StoreEvent(w: Where, e: Event, order: int, now: nat)
      requires Valid() && w == Lookup(View(), e)
      modifies this`power, operations, rest
      ensures Valid() && View() == Store(old(View()), w, e, order, now)
    {
      if !Cached(e) { return; }
      hide Find, Victim, Sooner, Elapsed;
      var slot := w;
      var x := Entry(e, now, order, order, Finishes(e), false);
      if w.Nowhere? {
        var v := AllocateOperation(now);
        slot := InOperations(v);
      } else {
        var was := if w.InRest? then rest[w.i] else operations[w.i];
        if !Supersedes(was, e, order) { return; }
        if was.Entry? { x := x.(firstOrder := was.firstOrder); }
      }
      if !e.what.Report? { power := Evidence(power, e, order, now); }
      Replace(slot, x);
    }

    method TakeEvent(e: Event, now: nat) returns (out: seq<Delivery>)
      requires Valid() && TrackerEvents.Valid(e)
      modifies this, operations, rest
      ensures Valid() && View() == Take(old(View()), e, now).cache && out == Take(old(View()), e, now).out
    {
      hide Elapsed, Find, Unseen, Store, Apply, Put, Lookup, At;
      var w, was := Locate(e);
      if was.Entry? && was.event == e {
        KnownSlot(View(), e);
        if e.kind.Calibration? { power := Evidence(power, e, was.order, now); }
        Replace(w, was.(lastRx := now, stale := false));
        return if was.stale && e.what.Report? then [Recovered(e)] else [];
      }
      ghost var c := View();
      var ok := Admit(e, now);
      if !ok { return []; }
      var order := window.order - Distance(window.high, e.seqNo);
      if e.what.Report? && was.Entry? && order <= was.order { return []; }
      if e.kind.PowerKind? { NotePower(e, order, now); }
      SameLookup(c, View(), e);
      StoreEvent(w, e, order, now);
      return [Fresh(e)];
    }

    /** One queued event, start to finish. */
    method ProcessRx(e: Event, now: nat) returns (out: seq<Delivery>)
      requires Valid() && TrackerEvents.Valid(e)
      modifies this, operations, rest
      ensures Valid() && View() == Receive(old(View()), e, now).cache && out == Receive(old(View()), e, now).out
    {
      hide Elapsed, Take, Enter, Leaving, WellFormed;
      if nonce != e.nonce && e.nonce == retiredNonce && Elapsed(now, retiredAt) < TTL { return []; }
      EnterWellFormed(View(), e, now);
      var farewell := EnterSession(e, now);
      var events := TakeEvent(e, now);
      return farewell + events;
    }

    /** The silence check of one slot. */
    method CheckSlot(i: nat, now: nat) returns (out: seq<Delivery>)
      requires Valid() && i < OPS + 2
      modifies this`power, operations, rest
      ensures Valid() && View() == Check(old(View()), i, now).0 && out == Check(old(View()), i, now).1
    {
      hide Elapsed;
      var w := if i >= OPS then InRest(i - OPS) else InOperations(i);
      var x := if i >= OPS then rest[i - OPS] else operations[i];
      if x.Entry? && !x.terminal && !x.stale && Elapsed(now, x.lastRx) >= (if i >= OPS then REST_STALE else CAL_SILENCE) {
        var reason := TransportSilence;
        if i < OPS {
          if !power.phase.NoIntent? && Elapsed(now, power.receivedAt) >= RELEVANCE { power := power.(phase := NoIntent); }
          reason := SilenceReason(power, x.firstOrder);
        }
        Replace(w, x.(stale := true));
        return [Observation(x.event, reason)];
      }
      return [];
    }
  }

  lemma KnownSlot(c: Cache, e: Event)
    requires WellFormed(c) && At(c, Lookup(c, e)).Entry?
    ensures InSlot(Lookup(c, e))
  {
  }

  lemma SameLookup(c: Cache, d: Cache, e: Event)
    requires WellFormed(c) && WellFormed(d) && c.operations == d.operations
    ensures Lookup(c, e) == Lookup(d, e)
  {
  }

  lemma AdmitShape(c: Cache, e: Event, now: nat)
    requires WellFormed(c) && TrackerEvents.Valid(e)
    ensures Unseen(c.window, e.seqNo, now) ==> WellFormed(Admitted(c, e, now))
  {
    if Unseen(c.window, e.seqNo, now) { AdmittedShape(c, e, now); }
  }
}
