/** Slot widths and slot numbers of the radio's time-division layout. Times are in 32768 Hz ticks. */
module TdmaWidth {
  import opened LossLadder

  const TRACKERS := 16
  const TICKS := 32768
  const BASE := 16
  const LEVEL0_MAX := 64
  const BYTE_MAX := 255
  const UNASSIGNED := 0xFF

  function Limit(level: nat): nat { if level == 0 then LEVEL0_MAX else BYTE_MAX }

  function Even(x: nat): nat { x - x % 2 }

  lemma PositiveProduct(a: nat, b: nat)
    requires a > 0 && b > 0
    ensures a * b > 0
  {
  }

  function Cap(level: nat): (cap: nat)
    requires level <= MAX_LEVEL
    ensures 115 <= cap <= 220
  {
    LEVELS[level]
  }

  /** The widest slot that leaves each of `n` trackers `cap` turns a second. */
  function Room(n: nat, cap: nat): nat
    requires n > 0 && cap > 0
  {
    PositiveProduct(n, cap);
    Share(n * cap)
  }

  function Share(parts: nat): nat
    requires parts > 0
  {
    TICKS / parts
  }

  /** Slot width for `n` active trackers at a ladder level; test mode always takes the narrowest. */
  function SlotTicks(n: nat, level: nat, testAll: bool): nat
    requires level <= MAX_LEVEL
  {
    if n == 0 || testAll then BASE
    else
      var room := Room(n, Cap(level));
      var even := Even(if room < Limit(level) then room else Limit(level));
      if even > BASE then even else BASE
  }

  /** Transmission opportunities per second of each of `n` trackers. */
  function Opportunities(n: nat, width: nat): nat
    requires n > 0 && width > 0
  {
    PositiveProduct(width, n);
    Share(width * n)
  }

  lemma QuotientAtLeast(total: nat, d: nat, q: nat)
    requires d > 0
    ensures total / d >= q <==> q * d <= total
  {
    var k := total / d;
    assert k * d + total % d == total;
    Distribute(k, k, d);
    if k < q { Distribute(q, k + 1, d); } else { Distribute(k, q, d); }
  }

  lemma Distribute(a: nat, b: nat, d: nat)
    requires a >= b
    ensures a * d >= b * d && (b + 1) * d == b * d + d
  {
    assert (a - b) * d >= 0;
  }

  /** A width fits `room` exactly when it leaves every tracker at least `cap` opportunities. */
  lemma FitsRoom(n: nat, cap: nat, width: nat)
    requires n > 0 && cap > 0 && width > 0
    ensures width <= Room(n, cap) <==> Opportunities(n, width) >= cap
  {
    PositiveProduct(n, cap);
    PositiveProduct(width, n);
    QuotientAtLeast(TICKS, n * cap, width);
    QuotientAtLeast(TICKS, width * n, cap);
    assert width * (n * cap) == cap * (width * n);
  }

  /**
   The width is even and fits its byte; if wider than the base it keeps the ladder's opportunity cap, and no
   wider even width within the level's limit would.
   */
  lemma WidthIsWidest(n: nat, level: nat, testAll: bool)
    requires level <= MAX_LEVEL
    ensures var w := SlotTicks(n, level, testAll);
      && w % 2 == 0 && BASE <= w <= 254
      && (w > BASE ==> n > 0 && w <= (if level == 0 then 64 else 255) && Opportunities(n, w) >= Cap(level))
      && (n > 0 && !testAll ==>
            forall v :: w < v <= (if level == 0 then 64 else 255) && v % 2 == 0 ==> Opportunities(n, v) < Cap(level))
      && (testAll ==> w == BASE)
  {
    if n > 0 && !testAll {
      var w, room := SlotTicks(n, level, testAll), Room(n, Cap(level));
      if w > BASE { FitsRoom(n, Cap(level), w); }
      forall v: nat | w < v <= Limit(level) && v % 2 == 0 ensures Opportunities(n, v) < Cap(level) {
        FitsRoom(n, Cap(level), v);
      }
    }
  }

  /** With at most sixteen trackers nobody ever gets fewer than 115 opportunities a second. */
  lemma AtLeast115(n: nat, level: nat, testAll: bool)
    requires 0 < n <= TRACKERS && level <= MAX_LEVEL
    ensures Opportunities(n, SlotTicks(n, level, testAll)) >= 115
  {
    WidthIsWidest(n, level, testAll);
    var w := SlotTicks(n, level, testAll);
    if w == BASE {
      assert BASE * n <= 256;
      QuotientAtLeast(TICKS, BASE * n, 115);
    }
  }

  // ----- Slot numbers -----

  /** Members of `mask` below `i`. */
  function Rank(mask: set<nat>, i: nat): nat {
    if i == 0 then 0 else Rank(mask, i - 1) + if i - 1 in mask then 1 else 0
  }

  lemma {:induction false} RankGrows(mask: set<nat>, i: nat, j: nat)
    requires i <= j
    ensures Rank(mask, i) <= Rank(mask, j)
    ensures i < j && i in mask ==> Rank(mask, i) < Rank(mask, j)
    decreases j
  {
    if i < j { RankGrows(mask, i, j - 1); }
  }

  lemma {:induction false} RankHits(mask: set<nat>, n: nat, slot: nat) returns (i: nat)
    requires slot < Rank(mask, n)
    ensures i < n && i in mask && Rank(mask, i) == slot
  {
    if n - 1 in mask && Rank(mask, n - 1) == slot { i := n - 1; } else { i := RankHits(mask, n - 1, slot); }
  }

  datatype Config = Config(slot: nat, total: nat, width: nat, epoch: nat)

  function Assigned(mask: set<nat>, i: nat): nat { if i in mask then Rank(mask, i) else UNASSIGNED }

  /** The configuration every tracker is given by a publication. */
  predicate IsLayout(configs: seq<Config>, mask: set<nat>, width: nat, epoch: nat) {
    && |configs| == TRACKERS
    && forall i :: 0 <= i < TRACKERS ==> configs[i] == Config(Assigned(mask, i), Rank(mask, TRACKERS), width, epoch)
  }

  ghost predicate Owned(configs: seq<Config>, mask: set<nat>, slot: nat) {
    exists i :: 0 <= i < |configs| && i in mask && configs[i].slot == slot
  }

  /** Active trackers own the slots 0..total-1, each slot exactly one of them; the others own none. */
  lemma LayoutIsBijective(configs: seq<Config>, mask: set<nat>, width: nat, epoch: nat)
    requires IsLayout(configs, mask, width, epoch)
    ensures forall i :: 0 <= i < TRACKERS ==>
      if i in mask then configs[i].slot < configs[i].total <= TRACKERS else configs[i].slot == UNASSIGNED
    ensures forall i, j :: 0 <= i < j < TRACKERS && i in mask && j in mask ==> configs[i].slot != configs[j].slot
    ensures forall slot :: 0 <= slot < Rank(mask, TRACKERS) ==> Owned(configs, mask, slot)
    ensures forall i, j :: 0 <= i < TRACKERS && 0 <= j < TRACKERS ==>
      configs[i].total == configs[j].total && configs[i].width == configs[j].width && configs[i].epoch == configs[j].epoch
  {
    RankBound(mask, TRACKERS);
    forall i, j | 0 <= i < j <= TRACKERS ensures i in mask ==> Rank(mask, i) < Rank(mask, j) { RankGrows(mask, i, j); }
    forall slot | 0 <= slot < Rank(mask, TRACKERS) ensures Owned(configs, mask, slot) {
      var i := RankHits(mask, TRACKERS, slot);
      assert configs[i].slot == slot;
    }
  }

  lemma {:induction false} RankBound(mask: set<nat>, n: nat)
    ensures Rank(mask, n) <= n
  {
    if n > 0 { RankBound(mask, n - 1); }
  }

  /** The four bytes of the packed word. */
  function Pack(c: Config): nat { ((c.slot * 0x100 + c.total) * 0x100 + c.width) * 0x100 + c.epoch }

  function Unpack(w: nat): Config {
    Config(w / 0x100 / 0x100 / 0x100, w / 0x100 / 0x100 % 0x100, w / 0x100 % 0x100, w % 0x100)
  }

  lemma LowByte(high: nat, low: nat)
    requires low < 0x100
    ensures (high * 0x100 + low) / 0x100 == high && (high * 0x100 + low) % 0x100 == low
  {
  }

  lemma PackRoundTrip(c: Config)
    requires c.slot < 0x100 && c.total < 0x100 && c.width < 0x100 && c.epoch < 0x100
    ensures Unpack(Pack(c)) == c && Pack(c) < 0x1_0000_0000
    ensures Pack(c) / 0x100_0000 == c.slot && Pack(c) % 0x100 == c.epoch
    ensures Pack(c) / 0x1_0000 == c.slot * 0x100 + c.total
  {
    var high := c.slot * 0x100 + c.total;
    LowByte(c.slot, c.total);
    LowByte(high, c.width);
    LowByte(high * 0x100 + c.width, c.epoch);
  }

  /** Writes the layout tracker by tracker. */
  method Publish(configs: array<Config>, mask: set<nat>, width: nat, epoch: nat) returns (total: nat)
    requires configs.Length == TRACKERS
    modifies configs
    ensures total == Rank(mask, TRACKERS) && IsLayout(configs[..], mask, width, epoch)
  {
    total := 0;
    var i := 0;
    while i < TRACKERS
      invariant i <= TRACKERS && total == Rank(mask, i)
    {
      if i in mask { total := total + 1; }
      i := i + 1;
    }
    var slot := 0;
    i := 0;
    while i < TRACKERS
      invariant i <= TRACKERS && slot == Rank(mask, i)
      invariant forall k :: 0 <= k < i ==> configs[k] == Config(Assigned(mask, k), total, width, epoch)
      modifies configs
    {
      var given := UNASSIGNED;
      if i in mask {
        given := slot;
        slot := slot + 1;
      }
      configs[i] := Config(given, total, width, epoch);
      i := i + 1;
    }
  }
}
