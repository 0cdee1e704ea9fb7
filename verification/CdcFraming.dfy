/**
 Data-collection framing: the receiver prints frames into a byte ring, the host resynchronises on them.

   AA 55 | length | payload ... rssi ticks(4, big-endian) | CRC-8 over length and everything after it
 */
module CdcFraming {
  /** Bytes and 32-bit words are plain integers; `IsByte` and `IsWord` say where their range matters. */
  type Bytes = seq<int>

  predicate IsByte(b: int) { 0 <= b < 0x100 }
  predicate IsWord(w: int) { 0 <= w < 0x1_0000_0000 }

  const SYNC0 := 0xAA
  const SYNC1 := 0x55
  const CRC_INIT: bv8 := 0x07
  const FOOTER := 5

  datatype Frame = Frame(payload: Bytes, rssi: int, ticks: int)

  // ----- CRC-8 -----

  function ShiftBit(crc: bv8): bv8 {
    if crc & 0x80 != 0 then (crc << 1) ^ 0x07 else crc << 1
  }

  function ShiftBits(crc: bv8, n: nat): bv8
    decreases n
  {
    if n == 0 then crc else ShiftBits(ShiftBit(crc), n - 1)
  }

  function CrcByte(crc: bv8, b: int): bv8 { ShiftBits(crc ^ ((b % 0x100) as bv8), 8) }

  function Crc(data: Bytes, init: bv8): bv8 {
    if data == [] then init else Crc(data[1..], CrcByte(init, data[0]))
  }

  /** Feeding the CRC in pieces, as the receiver does, equals the host's single pass. */
  lemma {:induction false} CrcComposes(a: Bytes, b: Bytes, init: bv8)
    ensures Crc(a + b, init) == Crc(b, Crc(a, init))
  {
    if a == [] {
      assert a + b == b;
    } else {
      assert (a + b)[1..] == a[1..] + b;
      CrcComposes(a[1..], b, CrcByte(init, a[0]));
    }
  }

  lemma {:induction false} ShiftBitsSnoc(crc: bv8, n: nat)
    ensures ShiftBits(crc, n + 1) == ShiftBit(ShiftBits(crc, n))
    decreases n
  {
    if n > 0 { ShiftBitsSnoc(ShiftBit(crc), n - 1); }
  }

  lemma CrcSnoc(data: Bytes, i: nat, init: bv8)
    requires i < |data|
    ensures Crc(data[..i + 1], init) == CrcByte(Crc(data[..i], init), data[i])
  {
    hide CrcByte;
    assert data[..i + 1] == data[..i] + [data[i]];
    CrcComposes(data[..i], [data[i]], init);
  }

  lemma CrcEmpty(data: Bytes, init: bv8)
    ensures Crc(data[..0], init) == init
  {
  }

  lemma EightShifts(crc: bv8)
    ensures ShiftBits(crc, 8) ==
      ShiftBit(ShiftBit(ShiftBit(ShiftBit(ShiftBit(ShiftBit(ShiftBit(ShiftBit(crc))))))))
  {
    var a := ShiftBit(ShiftBit(crc));
    var b := ShiftBit(ShiftBit(a));
    var c := ShiftBit(ShiftBit(b));
    assert ShiftBits(crc, 8) == ShiftBits(a, 6);
    assert ShiftBits(a, 6) == ShiftBits(b, 4);
    assert ShiftBits(b, 4) == ShiftBits(c, 2);
  }

  lemma DigitStep(crc: bv8, b: int, bits: bv8, next: bv8, data: Bytes)
    requires data != [] && data[0] == b && (b % 0x100) as bv8 == bits
    requires next == ShiftBit(ShiftBit(ShiftBit(ShiftBit(ShiftBit(ShiftBit(ShiftBit(ShiftBit(crc ^ bits))))))))
    ensures Crc(data, crc) == Crc(data[1..], next)
  {
    EightShifts(crc ^ bits);
  }

  lemma Digits123(data: Bytes)
    requires |data| >= 3 && data[0] == 0x31 && data[1] == 0x32 && data[2] == 0x33
    ensures Crc(data, 0x00) == Crc(data[3..], 0xC0)
  {
    hide Crc;
    DigitStep(0x00, 0x31, 0x31, 0x97, data);
    DigitStep(0x97, 0x32, 0x32, 0x72, data[1..]);
    assert data[1..][1..] == data[2..];
    DigitStep(0x72, 0x33, 0x33, 0xC0, data[2..]);
    assert data[2..][1..] == data[3..];
  }

  lemma Digits456(data: Bytes)
    requires |data| >= 3 && data[0] == 0x34 && data[1] == 0x35 && data[2] == 0x36
    ensures Crc(data, 0xC0) == Crc(data[3..], 0xFD)
  {
    hide Crc;
    DigitStep(0xC0, 0x34, 0x34, 0xC2, data);
    DigitStep(0xC2, 0x35, 0x35, 0xCB, data[1..]);
    assert data[1..][1..] == data[2..];
    DigitStep(0xCB, 0x36, 0x36, 0xFD, data[2..]);
    assert data[2..][1..] == data[3..];
  }

  lemma Digits789(data: Bytes)
    requires |data| >= 3 && data[0] == 0x37 && data[1] == 0x38 && data[2] == 0x39
    ensures Crc(data, 0xFD) == Crc(data[3..], 0xF4)
  {
    hide Crc;
    DigitStep(0xFD, 0x37, 0x37, 0x78, data);
    DigitStep(0x78, 0x38, 0x38, 0xC7, data[1..]);
    assert data[1..][1..] == data[2..];
    DigitStep(0xC7, 0x39, 0x39, 0xF4, data[2..]);
    assert data[2..][1..] == data[3..];
  }

  /** The check value of the CRC-8 with polynomial 07: that of the ASCII digits 1 to 9 is F4. */
  lemma CrcCheckValue(digits: Bytes)
    requires |digits| == 9 && forall k :: 0 <= k < 9 ==> digits[k] == 0x31 + k
    ensures Crc(digits, 0) == 0xF4
  {
    hide Crc;
    Digits123(digits);
    Digits456(digits[3..]);
    assert digits[3..][3..] == digits[6..];
    Digits789(digits[6..]);
    assert digits[6..][3..] == digits[..0];
    CrcEmpty(digits, 0xF4);
  }

  /** The host's CRC loop. */
  method HostCrc(data: Bytes, init: bv8) returns (crc: bv8)
    ensures crc == Crc(data, init)
  {
    hide Crc;
    CrcEmpty(data, init);
    crc := init;
    var i := 0;
    while i < |data|
      invariant i <= |data| && crc == Crc(data[..i], init)
    {
      var before := crc ^ ((data[i] % 0x100) as bv8);
      crc := before;
      var bit := 0;
      while bit < 8
        invariant bit <= 8 && crc == ShiftBits(before, bit)
      {
        ShiftBitsSnoc(before, bit);
        if crc & 0x80 != 0 { crc := (crc << 1) ^ 0x07; } else { crc := crc << 1; }
        bit := bit + 1;
      }
      CrcSnoc(data, i, init);
      i := i + 1;
    }
    assert data[..i] == data;
  }

  // ----- Frames on the wire -----

  function TickBytes(t: int): Bytes {
    [t / 0x100_0000, t / 0x1_0000 % 0x100, t / 0x100 % 0x100, t % 0x100]
  }

  function TickValue(b: Bytes): int
    requires |b| == 4
  {
    b[0] * 0x100_0000 + b[1] * 0x1_0000 + b[2] * 0x100 + b[3]
  }

  lemma TicksRoundTrip(t: int)
    requires IsWord(t)
    ensures TickValue(TickBytes(t)) == t
  {
  }

  /** The most significant byte goes first. */
  lemma TicksBigEndian(t: int)
    requires IsWord(t)
    ensures TickBytes(t)[0] * 0x100_0000 <= t < (TickBytes(t)[0] + 1) * 0x100_0000 && IsByte(TickBytes(t)[0])
  {
  }

  /** The length byte: payload, rssi and ticks, truncated to eight bits. */
  function LengthByte(payloadLen: nat): (b: int)
    ensures IsByte(b)
  { (payloadLen + FOOTER) % 256 }

  function Body(f: Frame): Bytes { f.payload + [f.rssi] + TickBytes(f.ticks) }

  function Encode(f: Frame): Bytes {
    var n := LengthByte(|f.payload|);
    [SYNC0, SYNC1, n] + Body(f) + [Crc([n] + Body(f), CRC_INIT) as int]
  }

  function EncodeAll(fs: seq<Frame>): Bytes {
    if fs == [] then [] else Encode(fs[0]) + EncodeAll(fs[1..])
  }

  /** Frames whose length byte does not wrap. */
  predicate Representable(f: Frame) { |f.payload| <= 250 && IsWord(f.ticks) }

  // ----- What a byte stream means, without any buffering -----

  predicate SyncAt(s: Bytes, i: nat) { i + 1 < |s| && s[i] == SYNC0 && s[i + 1] == SYNC1 }

  /** Index of the first sync marker, or -1. */
  function Find(s: Bytes): (i: int)
    ensures i == -1 || 0 <= i <= |s| - 2
  {
    FindFrom(s, 0)
  }

  function FindFrom(s: Bytes, k: nat): (i: int)
    ensures i == -1 || k <= i <= |s| - 2
    decreases |s| - k
  {
    if k >= |s| then -1 else if SyncAt(s, k) then k else FindFrom(s, k + 1)
  }

  lemma {:induction false} FindFromSpec(s: Bytes, k: nat)
    requires forall j :: 0 <= j < k ==> !SyncAt(s, j)
    ensures var i := FindFrom(s, k);
      && (i >= 0 ==> SyncAt(s, i) && forall j :: 0 <= j < i ==> !SyncAt(s, j))
      && (i < 0 ==> forall j :: 0 <= j < |s| ==> !SyncAt(s, j))
    decreases |s| - k
  {
    if k < |s| && !SyncAt(s, k) { FindFromSpec(s, k + 1); }
  }

  lemma FindSpec(s: Bytes)
    ensures var i := Find(s);
      && (i >= 0 ==> SyncAt(s, i) && forall j :: 0 <= j < i ==> !SyncAt(s, j))
      && (i < 0 ==> forall j :: 0 <= j < |s| ==> !SyncAt(s, j))
  {
    FindFromSpec(s, 0);
    hide FindFrom;
  }

  /** Bytes of the frame that starts `s` with a sync marker and a length byte. */
  function Total(s: Bytes): nat
    requires |s| >= 3 && IsByte(s[2])
  {
    3 + s[2] + 1
  }

  predicate Complete(s: Bytes) { |s| >= 3 && IsByte(s[2]) && |s| >= Total(s) }

  predicate Intact(s: Bytes)
    requires Complete(s)
  {
    Crc(s[2..3 + s[2]], CRC_INIT) as int == s[3 + s[2]]
  }

  /** The frame at the head of `s`; frames too short to carry a tracker packet yield nothing. */
  function Decode(s: Bytes): seq<Frame>
    requires Complete(s)
  {
    var n := s[2] - FOOTER;
    if n < 2 then [] else [Frame(s[3..3 + n], s[3 + n], TickValue(s[4 + n..8 + n]))]
  }

  /** How far the scan moves past a marker: over the frame, or over the marker alone if the CRC is wrong. */
  function Skip(u: Bytes): (k: nat)
    requires Complete(u)
    ensures 2 <= k <= |u|
  {
    if Intact(u) then Total(u) else 2
  }

  function Yield(u: Bytes): seq<Frame>
    requires Complete(u)
  {
    if Intact(u) then Decode(u) else []
  }

  /** All frames in a complete byte stream. */
  function Frames(s: Bytes): seq<Frame>
    decreases |s|
  {
    var i := Find(s);
    if i < 0 || !Complete(s[i..]) then []
    else Yield(s[i..]) + Frames(s[i..][Skip(s[i..])..])
  }

  // ----- The host's buffer loop -----

  datatype Parsed = Parsed(frames: seq<Frame>, rest: Bytes)

  /** One pass of the loop over the buffer: what it yields and what it keeps for the next read. */
  function Loop(buf: Bytes): Parsed
    decreases |buf|
  {
    if |buf| < 4 then Parsed([], buf)
    else
      var i := Find(buf);
      if i < 0 then Parsed([], buf[|buf| - 1..])
      else if !Complete(buf[i..]) then Parsed([], buf[i..])
      else
        var p := Loop(buf[i..][Skip(buf[i..])..]);
        Parsed(Yield(buf[i..]) + p.frames, p.rest)
  }

  lemma HeadOutcome(u: Bytes)
    requires Complete(u)
    ensures if Intact(u) then Skip(u) == Total(u) && Yield(u) == Decode(u) else Skip(u) == 2 && Yield(u) == []
  {
    hide Intact, Decode;
  }

  lemma IntactIff(u: Bytes)
    requires Complete(u)
    ensures Total(u) == 3 + u[2] + 1 <= |u| && 0 <= u[2]
    ensures Intact(u) <==> Crc(u[2..3 + u[2]], CRC_INIT) as int == u[3 + u[2]]
  {
    hide Crc;
  }

  lemma LoopStep(buf: Bytes)
    requires |buf| >= 4 && Find(buf) >= 0 && Complete(buf[Find(buf)..])
    ensures var u := buf[Find(buf)..]; var p := Loop(u[Skip(u)..]);
      Loop(buf) == Parsed(Yield(u) + p.frames, p.rest)
  {
    hide Skip, Yield, Find, Complete;
  }

  lemma LoopStop(buf: Bytes)
    requires |buf| < 4 || Find(buf) < 0 || !Complete(buf[Find(buf)..])
    ensures Loop(buf) == Parsed([], if |buf| < 4 then buf else if Find(buf) < 0 then buf[|buf| - 1..] else buf[Find(buf)..])
  {
    hide Skip, Yield, Find, Complete;
  }

  /** Handles the frame at the head of the buffer and returns what follows it. */
  method TakeFrame(buf: Bytes) returns (frames: seq<Frame>, rest: Bytes)
    requires Complete(buf)
    ensures frames == Yield(buf) && rest == buf[Skip(buf)..] && |rest| < |buf|
  {
    HeadOutcome(buf);
    IntactIff(buf);
    hide Decode, Skip, Yield, Crc, Intact, Total;
    var length := buf[2];
    var crc := HostCrc(buf[2..3 + length], CRC_INIT);
    if crc as int != buf[3 + length] { return [], buf[2..]; }
    return Decode(buf), buf[3 + length + 1..];
  }

  method ParseBuffer(input: Bytes) returns (frames: seq<Frame>, buf: Bytes)
    ensures Parsed(frames, buf) == Loop(input)
  {
    hide Loop, Find, Skip, Yield, Complete;
    buf := input;
    frames := [];
    while |buf| >= 4
      invariant Loop(input) == Parsed(frames + Loop(buf).frames, Loop(buf).rest)
      decreases |buf|
    {
      var idx := Find(buf);
      if idx < 0 {
        LoopStop(buf);
        buf := buf[|buf| - 1..];
        return;
      }
      if !Complete(buf[idx..]) {
        LoopStop(buf);
        buf := buf[idx..];
        return;
      }
      LoopStep(buf);
      var found, rest := TakeFrame(buf[idx..]);
      frames, buf := frames + found, rest;
    }
    LoopStop(buf);
  }

  // ----- Buffering changes nothing -----

  lemma FramesStep(s: Bytes)
    requires Find(s) >= 0 && Complete(s[Find(s)..])
    ensures var u := s[Find(s)..]; Frames(s) == Yield(u) + Frames(u[Skip(u)..])
  {
    hide Skip, Yield, Find, Complete;
  }

  lemma FramesStop(s: Bytes)
    requires Find(s) < 0 || !Complete(s[Find(s)..])
    ensures Frames(s) == []
  {
    hide Skip, Yield, Find, Complete;
  }

  lemma FindShift(s: Bytes, k: nat)
    requires k <= |s| && forall j :: 0 <= j < k ==> !SyncAt(s, j)
    ensures Find(s[k..]) == if Find(s) < 0 then -1 else Find(s) - k
    ensures Find(s) < 0 || Find(s) >= k
  {
    var t, i, j := s[k..], Find(s), Find(s[k..]);
    FindSpec(s);
    FindSpec(t);
    hide Find;
    assert i >= 0 ==> SyncAt(t, i - k);
    assert j >= 0 ==> SyncAt(s, j + k);
  }

  /** Bytes before which no sync marker starts can be dropped. */
  lemma DropPrefix(s: Bytes, k: nat)
    requires k <= |s| && forall j :: 0 <= j < k ==> !SyncAt(s, j)
    ensures Frames(s) == Frames(s[k..])
  {
    hide Skip, Yield, Find, Complete, Frames, SyncAt;
    FindShift(s, k);
    var i := Find(s);
    if i >= 0 { assert s[k..][i - k..] == s[i..]; }
    if i < 0 || !Complete(s[i..]) {
      FramesStop(s);
      FramesStop(s[k..]);
    } else {
      FramesStep(s);
      FramesStep(s[k..]);
    }
  }

  lemma SliceOfPrefix(u: Bytes, y: Bytes, a: nat, b: nat)
    requires a <= b <= |u|
    ensures (u + y)[a..b] == u[a..b]
  {
  }

  lemma SuffixOfPrefix(u: Bytes, y: Bytes, k: nat)
    requires k <= |u|
    ensures (u + y)[k..] == u[k..] + y
  {
  }

  lemma DecodeKeeps(u: Bytes, y: Bytes)
    requires Complete(u)
    ensures Complete(u + y) && Decode(u + y) == Decode(u)
  {
    hide TickValue;
    var n := u[2];
    if n >= 7 {
      SliceOfPrefix(u, y, 3, n - 2);
      SliceOfPrefix(u, y, n - 1, n + 3);
    }
  }

  lemma HeadKeeps(u: Bytes, y: Bytes)
    requires Complete(u)
    ensures Complete(u + y) && Total(u + y) == Total(u)
    ensures Yield(u + y) == Yield(u) && Skip(u + y) == Skip(u)
  {
    hide Crc, Decode;
    SliceOfPrefix(u, y, 2, 3 + u[2]);
    DecodeKeeps(u, y);
  }

  lemma FindInPrefix(x: Bytes, y: Bytes)
    requires Find(x) >= 0
    ensures Find(x + y) == Find(x)
  {
    FindSpec(x);
    FindSpec(x + y);
    hide Find;
    assert SyncAt(x + y, Find(x));
    forall j | 0 <= j < Find(x) ensures !SyncAt(x + y, j) { assert !SyncAt(x, j); }
  }

  lemma ContinueAfterFrame(x: Bytes, y: Bytes)
    requires Find(x) >= 0 && Complete(x[Find(x)..])
    ensures var u := x[Find(x)..]; var v := u[Skip(u)..];
      && Frames(x) == Yield(u) + Frames(v) && Frames(x + y) == Yield(u) + Frames(v + y)
      && Loop(x) == Parsed(Yield(u) + Loop(v).frames, Loop(v).rest)
  {
    var i, s := Find(x), x + y;
    var u := x[i..];
    FindInPrefix(x, y);
    SuffixOfPrefix(x, y, i);
    HeadKeeps(u, y);
    hide Skip, Yield, Find, Complete, Frames, Loop;
    FramesStep(x);
    FramesStep(s);
    LoopStep(x);
    SuffixOfPrefix(u, y, Skip(u));
  }

  /** Parsing can stop at any byte: what the buffer keeps stands for everything read so far. */
  lemma {:induction false} LoopContinues(x: Bytes, y: Bytes)
    ensures Loop(x).frames == Frames(x)
    ensures Frames(x + y) == Frames(x) + Frames(Loop(x).rest + y)
    decreases |x|
  {
    hide Skip, Yield, Find, Complete, Frames, Loop;
    var i := Find(x);
    if |x| < 4 {
      TooShort(x);
    } else if i < 0 || !Complete(x[i..]) {
      NothingYet(x, y);
    } else {
      LongEnough(x[i..]);
      ContinueAfterFrame(x, y);
      var u := x[i..];
      LoopContinues(u[Skip(u)..], y);
    }
  }

  lemma LongEnough(u: Bytes)
    requires Complete(u)
    ensures |u| >= 4
  {
  }

  lemma TooShort(x: Bytes)
    requires |x| < 4
    ensures Frames(x) == [] && Loop(x) == Parsed([], x)
  {
    if Find(x) >= 0 { assert !Complete(x[Find(x)..]); }
  }

  /** Without a complete frame nothing is yielded, and dropping the bytes before the marker loses nothing. */
  lemma NothingYet(x: Bytes, y: Bytes)
    requires |x| >= 4 && (Find(x) < 0 || !Complete(x[Find(x)..]))
    ensures Frames(x) == [] && Loop(x).frames == [] && Frames(x + y) == Frames(Loop(x).rest + y)
  {
    FramesStop(x);
    LoopStop(x);
    FindSpec(x);
    var i, s := Find(x), x + y;
    hide Frames, Loop, Find, Complete;
    var k := if i < 0 then |x| - 1 else i;
    forall j | 0 <= j < k ensures !SyncAt(s, j) { assert !SyncAt(x, j); }
    DropPrefix(s, k);
    SuffixOfPrefix(x, y, k);
  }

  lemma RestIsBarren(x: Bytes)
    ensures Frames(Loop(x).rest) == []
  {
    LoopContinues(x, []);
    assert x + [] == x && Loop(x).rest + [] == Loop(x).rest;
  }

  function Concat(chunks: seq<Bytes>): Bytes {
    if chunks == [] then [] else chunks[0] + Concat(chunks[1..])
  }

  /** Everything yielded while `chunks` arrive one after another. */
  function Feed(buf: Bytes, chunks: seq<Bytes>): seq<Frame>
    decreases |chunks|
  {
    if chunks == [] then []
    else var p := Loop(buf + chunks[0]); p.frames + Feed(p.rest, chunks[1..])
  }

  lemma {:induction false} FeedMeans(buf: Bytes, chunks: seq<Bytes>)
    requires Frames(buf) == []
    ensures Feed(buf, chunks) == Frames(buf + Concat(chunks))
    decreases |chunks|
  {
    if chunks == [] {
      assert buf + Concat(chunks) == buf;
    } else {
      var x, y := buf + chunks[0], Concat(chunks[1..]);
      assert buf + Concat(chunks) == x + y;
      LoopContinues(x, y);
      RestIsBarren(x);
      hide Loop, Frames;
      FeedMeans(Loop(x).rest, chunks[1..]);
    }
  }

  /** The frames yielded do not depend on how the stream is split into reads. */
  lemma SplitIndependent(chunks: seq<Bytes>, others: seq<Bytes>)
    requires Concat(chunks) == Concat(others)
    ensures Feed([], chunks) == Feed([], others) == Frames(Concat(chunks))
  {
    FeedMeans([], chunks);
    FeedMeans([], others);
    assert [] + Concat(chunks) == Concat(chunks);
  }

  lemma FeedOne(buf: Bytes, chunks: seq<Bytes>, k: nat)
    requires k < |chunks|
    ensures var p := Loop(buf + chunks[k]); Feed(buf, chunks[k..]) == p.frames + Feed(p.rest, chunks[k + 1..])
  {
    hide Loop;
    assert chunks[k..][1..] == chunks[k + 1..];
  }

  method ReadFrames(chunks: seq<Bytes>) returns (out: seq<Frame>)
    ensures out == Frames(Concat(chunks))
  {
    hide Loop, Frames, Concat;
    var buf: Bytes := [];
    out := [];
    var k := 0;
    assert chunks[0..] == chunks;
    while k < |chunks|
      invariant k <= |chunks| && Feed([], chunks) == out + Feed(buf, chunks[k..])
    {
      FeedOne(buf, chunks, k);
      hide Feed;
      var frames, rest := ParseBuffer(buf + chunks[k]);
      out, buf := out + frames, rest;
      k := k + 1;
    }
    SplitIndependent(chunks, chunks);
  }

  // ----- Round trip -----

  /** Where the parts of an encoded frame lie. */
  lemma EncodedLayout(f: Frame, tail: Bytes)
    requires Representable(f)
    ensures var s, m, n := Encode(f) + tail, |f.payload|, LengthByte(|f.payload|);
      && SyncAt(s, 0) && |s| >= m + 9 && s[2] == n && n == m + FOOTER
      && s[2..m + 8] == [n] + Body(f) && s[m + 8] == Crc([n] + Body(f), CRC_INIT) as int
      && s[3..3 + m] == f.payload && s[3 + m] == f.rssi && s[4 + m..8 + m] == TickBytes(f.ticks) && s[m + 9..] == tail
  {
    hide Crc, TickBytes;
    FourTicks(f.ticks);
  }

  lemma EncodedHead(f: Frame, tail: Bytes)
    requires Representable(f)
    ensures var s := Encode(f) + tail;
      && Find(s) == 0 && s[0..] == s && Complete(s) && s[Skip(s)..] == tail
      && Yield(s) == if |f.payload| < 2 then [] else [f]
  {
    EncodedLayout(f, tail);
    FindSpec(Encode(f) + tail);
    TicksRoundTrip(f.ticks);
    FourTicks(f.ticks);
    hide Crc, TickBytes, TickValue, Encode, Body, LengthByte;
  }

  lemma FourTicks(t: int)
    ensures |TickBytes(t)| == 4
  {
  }

  /** The frames of `fs` that carry a tracker packet. */
  function Carried(fs: seq<Frame>): seq<Frame> {
    if fs == [] then [] else (if |fs[0].payload| < 2 then [] else [fs[0]]) + Carried(fs[1..])
  }

  predicate AllRepresentable(fs: seq<Frame>) { forall f :: f in fs ==> Representable(f) }

  lemma EncodeNone(tail: Bytes)
    ensures EncodeAll([]) + tail == tail
  {
  }

  lemma EncodeAllThen(fs: seq<Frame>, tail: Bytes)
    requires fs != []
    ensures EncodeAll(fs) + tail == Encode(fs[0]) + (EncodeAll(fs[1..]) + tail)
  {
    hide Encode;
  }

  /** From a frame boundary, written frames come back exactly, whatever follows them. */
  lemma {:induction false} FramesComeBack(fs: seq<Frame>, tail: Bytes)
    requires AllRepresentable(fs)
    ensures Frames(EncodeAll(fs) + tail) == Carried(fs) + Frames(tail)
  {
    hide Encode, Frames, EncodeAll;
    if fs == [] {
      EncodeNone(tail);
    } else {
      var more := EncodeAll(fs[1..]) + tail;
      var one: seq<Frame> := if |fs[0].payload| < 2 then [] else [fs[0]];
      EncodeAllThen(fs, tail);
      EncodedThen(fs[0], more);
      FramesComeBack(fs[1..], tail);
      assert one + (Carried(fs[1..]) + Frames(tail)) == one + Carried(fs[1..]) + Frames(tail);
    }
  }

  lemma EncodedThen(f: Frame, tail: Bytes)
    requires Representable(f)
    ensures Frames(Encode(f) + tail) == (if |f.payload| < 2 then [] else [f]) + Frames(tail)
  {
    EncodedHead(f, tail);
    hide Encode, Skip, Yield, Find, Complete;
  }

  lemma {:induction false} YieldedLengths(s: Bytes, g: Frame)
    requires g in Frames(s)
    ensures 2 <= |g.payload| <= 250
    decreases |s|
  {
    hide Crc, TickValue;
    var u := s[Find(s)..];
    if g !in Yield(u) { YieldedLengths(u[Skip(u)..], g); }
  }

  /** Longer payloads make the length byte wrap, and are never recovered; shorter ones are skipped. */
  lemma RecoveredIff(f: Frame)
    requires |f.payload| <= 255 && IsWord(f.ticks)
    ensures Frames(Encode(f)) == [f] <==> 2 <= |f.payload| <= 250
  {
    if Representable(f) {
      FramesComeBack([f], []);
      assert EncodeAll([f]) + [] == Encode(f);
      assert Carried([f]) + Frames([]) == Carried([f]);
      hide Encode, EncodeAll, Frames;
      assert Carried([f]) == if |f.payload| < 2 then [] else [f];
    } else if Frames(Encode(f)) == [f] {
      assert f in Frames(Encode(f));
      YieldedLengths(Encode(f), f);
    }
  }

  lemma PrefixYieldsPrefix(x: Bytes, y: Bytes)
    ensures Frames(x) <= Frames(x + y)
  {
    LoopContinues(x, y);
  }

  // ----- Resynchronisation -----

  /** No marker that starts in `x` begins an intact frame of `x + y`, and none is cut off by its end. */
  ghost predicate Noise(x: Bytes, y: Bytes) {
    forall j :: 0 <= j < |x| && SyncAt(x + y, j) ==> Complete((x + y)[j..]) && !Intact((x + y)[j..])
  }

  lemma NoiseShift(x: Bytes, y: Bytes, k: nat)
    requires Noise(x, y) && k <= |x|
    ensures Noise(x[k..], y) && (x + y)[k..] == x[k..] + y
  {
    var s, t := x + y, x[k..] + y;
    hide Complete, Intact;
    assert s[k..] == t;
    forall j | 0 <= j < |x[k..]| && SyncAt(t, j) ensures Complete(t[j..]) && !Intact(t[j..]) {
      assert SyncAt(s, j + k) && s[j + k..] == t[j..];
    }
  }

  /** Whatever precedes a frame boundary and holds no intact frame is skipped, without losing anything after it. */
  lemma {:induction false} NoiseIsSkipped(x: Bytes, y: Bytes)
    requires Noise(x, y) && (y == [] || y[0] != SYNC1)
    ensures Frames(x + y) == Frames(y)
    decreases |x|
  {
    hide Complete, Intact, Find, Frames;
    var s := x + y;
    FindSpec(s);
    var i := Find(s);
    if 0 <= i < |x| {
      assert Complete(s[i..]) && !Intact(s[i..]);
      FramesStep(s);
      assert i + 1 < |x|;
      assert s[i..][2..] == s[i + 2..];
      NoiseShift(x, y, i + 2);
      NoiseIsSkipped(x[i + 2..], y);
    } else {
      DropPrefix(s, |x|);
      assert s[|x|..] == y;
    }
  }

  /** After noise the host is back in step with the first frame. */
  lemma ResyncAfterNoise(x: Bytes, fs: seq<Frame>, tail: Bytes)
    requires AllRepresentable(fs) && fs != [] && Noise(x, EncodeAll(fs) + tail)
    ensures Frames(x + (EncodeAll(fs) + tail)) == Carried(fs) + Frames(tail)
  {
    FramesComeBack(fs, tail);
    StartsWithSync(fs, tail);
    hide Noise, EncodeAll, Frames, Carried;
    NoiseIsSkipped(x, EncodeAll(fs) + tail);
  }

  lemma StartsWithSync(fs: seq<Frame>, tail: Bytes)
    requires fs != []
    ensures |EncodeAll(fs) + tail| > 0 && (EncodeAll(fs) + tail)[0] == SYNC0
  {
    hide Crc;
  }
}
