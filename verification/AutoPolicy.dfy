/** Foreign receivers heard on the home channel, and the choice of a quieter channel. */
module AutoPolicy {
  import opened SerialNumbers

  const PEERS := 16
  const CHANNELS := 101
  const EXPIRY := 120000

  /** An identity is six bytes, here one number; zero is no identity. */
  datatype Peer = Peer(id: nat, channel: nat, observations: nat, sequence: nat, seen: int)

  datatype Beacon = Beacon(wellFormed: bool, id: nat, channel: nat, sequence: nat)

  predicate Fresh(p: Peer, now: int) { p.observations > 0 && now >= p.seen && now - p.seen < EXPIRY }

  // ----- The peer table -----

  predicate Acceptable(own: nat, b: Beacon) { b.wellFormed && b.channel <= 100 && b.id != 0 && b.id != own }

  /** Slot for a sender: its own if it has one, else the first that holds no fresh peer, else none. */
  function SlotFor(peers: seq<Peer>, id: nat, now: int, k: nat, free: nat): (i: nat)
    requires k <= |peers| && free <= |peers|
    requires free < |peers| ==> free < k && !Fresh(peers[free], now)
    requires forall j :: 0 <= j < k ==> peers[j].id != id
    requires free == |peers| ==> forall j :: 0 <= j < k ==> Fresh(peers[j], now)
    ensures i <= |peers|
    ensures i < |peers| ==> peers[i].id == id || (!Fresh(peers[i], now) && forall j :: 0 <= j < |peers| ==> peers[j].id != id)
    ensures i == |peers| ==> forall j :: 0 <= j < |peers| ==> Fresh(peers[j], now) && peers[j].id != id
    decreases |peers| - k
  {
    if k == |peers| then free
    else if peers[k].id == id then k
    else SlotFor(peers, id, now, k + 1, if free == |peers| && !Fresh(peers[k], now) then k else free)
  }

  predicate Replayed(p: Peer, b: Beacon, now: int) {
    Fresh(p, now) && p.id == b.id && Signed(b.sequence, p.sequence) <= 0
  }

  function Heard(p: Peer, b: Beacon, now: int): Peer {
    var count := if Fresh(p, now) && p.id == b.id && p.channel == b.channel then p.observations else 0;
    Peer(b.id, b.channel, if count < 3 then count + 1 else 3, b.sequence, now)
  }

  function Observed(peers: seq<Peer>, own: nat, b: Beacon, now: int): (seq<Peer>, bool) {
    if !Acceptable(own, b) then (peers, false)
    else
      var i := SlotFor(peers, b.id, now, 0, |peers|);
      if i == |peers| || Replayed(peers[i], b, now) then (peers, false)
      else (peers[i := Heard(peers[i], b, now)], true)
  }

  /** No sender is recorded twice, and neither this receiver nor nobody is recorded. */
  predicate TableOk(peers: seq<Peer>, own: nat) {
    && (forall i, j :: 0 <= i < j < |peers| && peers[i].id != 0 ==> peers[i].id != peers[j].id)
    && (forall i :: 0 <= i < |peers| && peers[i].observations > 0 ==> peers[i].id != 0 && peers[i].id != own)
  }

  /** The entry a recorded beacon leaves: what it said, and how often in a row that channel has been heard, up to three. */
  predicate Records(was: Peer, p: Peer, b: Beacon, now: int) {
    && p.id == b.id && p.channel == b.channel && p.sequence == b.sequence && p.seen == now
    && p.observations ==
         if Fresh(was, now) && was.id == b.id && was.channel == b.channel && was.observations < 3 then was.observations + 1
         else if Fresh(was, now) && was.id == b.id && was.channel == b.channel then 3
         else 1
  }

  lemma SlotIsOwn(peers: seq<Peer>, own: nat, id: nat, now: int, i: nat)
    requires TableOk(peers, own) && id != 0 && i < |peers| && peers[i].id == id
    ensures SlotFor(peers, id, now, 0, |peers|) == i
  {
    hide SlotFor, Fresh;
    assert SlotFor(peers, id, now, 0, |peers|) < |peers|;
  }

  /**
   Recording a beacon keeps one entry per sender and every other fresh peer; an acceptable beacon is refused exactly as a
   replay or because sixteen other fresh peers fill the table.
   */
  lemma ObserveKeepsTable(peers: seq<Peer>, own: nat, b: Beacon, now: int)
    requires TableOk(peers, own)
    ensures var (after, ok) := Observed(peers, own, b, now);
      && |after| == |peers| && TableOk(after, own)
      && (forall i :: 0 <= i < |peers| && Fresh(peers[i], now) && peers[i].id != b.id ==> after[i] == peers[i])
      && (ok ==> exists i :: 0 <= i < |after| && Records(peers[i], after[i], b, now))
      && (!ok ==> after == peers)
      && (ok <==>
            && Acceptable(own, b)
            && (forall i :: 0 <= i < |peers| ==> !Replayed(peers[i], b, now))
            && !(forall i :: 0 <= i < |peers| ==> Fresh(peers[i], now) && peers[i].id != b.id))
  {
    if Acceptable(own, b) {
      var i := SlotFor(peers, b.id, now, 0, |peers|);
      if r :| 0 <= r < |peers| && Replayed(peers[r], b, now) { SlotIsOwn(peers, own, b.id, now, r); }
      if i < |peers| && !Replayed(peers[i], b, now) {
        var after := peers[i := Heard(peers[i], b, now)];
        RecordedKeeps(peers, own, b, now, i);
        assert Records(peers[i], after[i], b, now);
      }
      hide SlotFor, Fresh, Signed, TableOk;
    }
  }

  lemma RecordedKeeps(peers: seq<Peer>, own: nat, b: Beacon, now: int, i: nat)
    requires TableOk(peers, own) && Acceptable(own, b) && i < |peers|
    requires peers[i].id == b.id || forall j :: 0 <= j < |peers| ==> peers[j].id != b.id
    ensures TableOk(peers[i := Heard(peers[i], b, now)], own)
  {
    var after := peers[i := Heard(peers[i], b, now)];
    forall j, k | 0 <= j < k < |after| && after[j].id != 0 ensures after[j].id != after[k].id {
      if j != i && k != i { assert peers[j].id != peers[k].id; }
      if peers[i].id == b.id { if j == i { assert peers[i].id != peers[k].id; } }
    }
  }

  // ----- Choosing a channel -----

  predicate Occupied(peers: seq<Peer>, channel: nat, now: int) {
    exists i :: 0 <= i < |peers| && Fresh(peers[i], now) && -1 <= peers[i].channel - channel <= 1
  }

  /** A higher score is a quieter channel; negative means not measured. */
  predicate Eligible(peers: seq<Peer>, home: nat, scores: seq<int>, now: int, channel: nat)
    requires |scores| == CHANNELS && home < CHANNELS
  {
    && channel <= 88 && channel % 2 == 0 && channel != home
    && scores[channel] >= 0 && scores[channel] > scores[home] && !Occupied(peers, channel, now)
  }

  predicate Saturated(peers: seq<Peer>, now: int) { forall i :: 0 <= i < |peers| ==> Fresh(peers[i], now) }

  /** The quietest eligible channel below `limit`, the lowest-numbered of equals, or -1. */
  function BestBelow(peers: seq<Peer>, home: nat, scores: seq<int>, now: int, limit: nat): (best: int)
    requires |scores| == CHANNELS && home < CHANNELS
    ensures -1 <= best <= 88
  {
    if limit == 0 then -1
    else
      var best := BestBelow(peers, home, scores, now, limit - 1);
      if Eligible(peers, home, scores, now, limit - 1) && (best < 0 || scores[limit - 1] > scores[best]) then limit - 1 else best
  }

  lemma {:induction false} BestSpec(peers: seq<Peer>, home: nat, scores: seq<int>, now: int, limit: nat)
    requires |scores| == CHANNELS && home < CHANNELS
    ensures var best := BestBelow(peers, home, scores, now, limit);
      && best < limit && (best >= 0 ==> Eligible(peers, home, scores, now, best))
      && forall c :: 0 <= c < limit && Eligible(peers, home, scores, now, c) ==>
           best >= 0 && (scores[c] < scores[best] || (scores[c] == scores[best] && best <= c))
  {
    hide Occupied;
    if limit > 0 { BestSpec(peers, home, scores, now, limit - 1); }
  }

  function Choose(peers: seq<Peer>, home: nat, scores: seq<int>, now: int): (best: int)
    requires |scores| == CHANNELS
  {
    if home >= CHANNELS || scores[home] < 0 || Saturated(peers, now) then -1 else BestBelow(peers, home, scores, now, 89)
  }

  /** Whatever is chosen is even, at most 88, not home, strictly quieter than home, and free of fresh neighbours. */
  lemma ChoiceIsEligible(peers: seq<Peer>, home: nat, scores: seq<int>, now: int)
    requires |scores| == CHANNELS && Choose(peers, home, scores, now) >= 0
    ensures home < CHANNELS && scores[home] >= 0 && Eligible(peers, home, scores, now, Choose(peers, home, scores, now))
  {
    BestSpec(peers, home, scores, now, 89);
    hide Occupied, BestBelow;
  }

  /** Nothing eligible is quieter than the choice, and nothing is chosen only if nothing may be. */
  lemma ChoiceIsQuietest(peers: seq<Peer>, home: nat, scores: seq<int>, now: int, c: nat)
    requires |scores| == CHANNELS && home < CHANNELS && scores[home] >= 0 && !Saturated(peers, now)
    requires Eligible(peers, home, scores, now, c)
    ensures var best := Choose(peers, home, scores, now);
      best >= 0 && (scores[c] < scores[best] || (scores[c] == scores[best] && best <= c))
  {
    BestSpec(peers, home, scores, now, 89);
    hide Occupied, BestBelow;
  }

  /** Odd channels are never eligible, so even ones can be tried alone. */
  lemma NextEven(peers: seq<Peer>, home: nat, scores: seq<int>, now: int, ch: nat)
    requires |scores| == CHANNELS && home < CHANNELS && ch % 2 == 0 && ch <= 88
    ensures var b := BestBelow(peers, home, scores, now, if ch == 0 then 0 else ch - 1);
      BestBelow(peers, home, scores, now, ch + 1) ==
      if Eligible(peers, home, scores, now, ch) && (b < 0 || scores[ch] > scores[b]) then ch else b
  {
    hide Occupied;
    if ch > 0 { assert BestBelow(peers, home, scores, now, ch) == BestBelow(peers, home, scores, now, ch - 1); }
  }

  class Policy {
    const own: nat
    const peers: array<Peer>

    ghost predicate Valid()
      reads this, peers
    {
      peers.Length == PEERS && TableOk(peers[..], own)
    }

    constructor (own: nat)
      ensures Valid() && this.own == own && fresh(peers) && forall i :: 0 <= i < PEERS ==> peers[i] == Peer(0, 0, 0, 0, 0)
    {
      this.own := own;
      peers := new Peer[PEERS](_ => Peer(0, 0, 0, 0, 0));
    }

    method FindSlot(id: nat, now: int) returns (slot: nat)
      requires Valid()
      ensures slot == SlotFor(peers[..], id, now, 0, PEERS)
    {
      slot := PEERS;
      var i := 0;
      while i < PEERS
        invariant i <= PEERS && slot <= PEERS && (slot < PEERS ==> slot < i && !Fresh(peers[slot], now))
        invariant forall j :: 0 <= j < i ==> peers[j].id != id
        invariant slot == PEERS ==> forall j :: 0 <= j < i ==> Fresh(peers[j], now)
        invariant SlotFor(peers[..], id, now, 0, PEERS) == SlotFor(peers[..], id, now, i, slot)
      {
        hide Fresh;
        if peers[i].id == id { return i; }
        if !Fresh(peers[i], now) && slot == PEERS { slot := i; }
        i := i + 1;
      }
    }

    method Observe(b: Beacon, now: int) returns (ok: bool)
      requires Valid()
      modifies peers
      ensures Valid() && peers[..] == Observed(old(peers[..]), own, b, now).0 && ok == Observed(old(peers[..]), own, b, now).1
    {
      ObserveKeepsTable(peers[..], own, b, now);
      hide SlotFor, TableOk, Fresh, Signed;
      if !b.wellFormed || b.channel > 100 || b.id == 0 || b.id == own { return false; }
      var slot := FindSlot(b.id, now);
      if slot == PEERS { return false; }
      var p := peers[slot];
      var known := Fresh(p, now) && p.id == b.id;
      if known && Signed(b.sequence, p.sequence) <= 0 { return false; }
      var count := if known && p.channel == b.channel then p.observations else 0;
      peers[slot] := Peer(b.id, b.channel, if count < 3 then count + 1 else 3, b.sequence, now);
      return true;
    }

    method IsOccupied(channel: nat, now: int) returns (occupied: bool)
      requires Valid()
      ensures occupied == Occupied(peers[..], channel, now)
    {
      var i := 0;
      while i < PEERS
        invariant i <= PEERS && !Occupied(peers[..i], channel, now)
      {
        if Fresh(peers[i], now) && -1 <= peers[i].channel - channel <= 1 {
          assert peers[..][i] == peers[i];
          return true;
        }
        i := i + 1;
      }
      assert peers[..i] == peers[..];
      return false;
    }

    method ChooseChannel(home: nat, scores: seq<int>, now: int) returns (best: int)
      requires Valid() && |scores| == CHANNELS
      ensures best == Choose(peers[..], home, scores, now)
    {
      if home > 100 || scores[home] < 0 { return -1; }
      var live, i := 0, 0;
      while i < PEERS
        invariant i <= PEERS && live <= i && (live == i <==> forall j :: 0 <= j < i ==> Fresh(peers[j], now))
      {
        if Fresh(peers[i], now) { live := live + 1; }
        i := i + 1;
      }
      if live == PEERS { return -1; }
      best := -1;
      var ch := 0;
      while ch <= 88
        invariant 0 <= ch <= 90 && ch % 2 == 0
        invariant best == BestBelow(peers[..], home, scores, now, if ch == 0 then 0 else ch - 1)
      {
        NextEven(peers[..], home, scores, now, ch);
        hide Occupied, Fresh, BestBelow;
        var occupied := IsOccupied(ch, now);
        if !(ch == home || scores[ch] < 0 || occupied || scores[ch] <= scores[home]) && (best < 0 || scores[ch] > scores[best]) {
          best := ch;
        }
        ch := ch + 2;
      }
    }
  }
}
