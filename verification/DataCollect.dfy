/** The receiver's byte ring between the radio side, which writes whole frames, and the USB side, which drains it. */
module DataCollect {
  import opened CdcFraming

  const SIZE := 16384

  /** Position `x`, less than two turns, folded into the ring. */
  function Wrap(x: nat): nat { if x >= SIZE then x - SIZE else x }

  function Used(head: nat, tail: nat): int { if head < tail then head - tail + SIZE else head - tail }

  ghost function Held(ring: Bytes, head: nat, tail: nat): Bytes
    requires |ring| == SIZE && head < SIZE && tail < SIZE
  {
    if tail <= head then ring[tail..head] else ring[tail..] + ring[..head]
  }

  lemma HeldPut(ring: Bytes, head: nat, tail: nat, b: int)
    requires |ring| == SIZE && head < SIZE && tail < SIZE && Used(head, tail) < SIZE - 1
    ensures Held(ring[head := b], Wrap(head + 1), tail) == Held(ring, head, tail) + [b]
    ensures Used(Wrap(head + 1), tail) == Used(head, tail) + 1
  {
    var next := ring[head := b];
    assert tail <= head ==> next[tail..head] == ring[tail..head];
    assert next[..head] == ring[..head];
    if head + 1 == SIZE {
      assert next[tail..] == ring[tail..head] + [b];
    }
  }

  lemma HeldTake(ring: Bytes, head: nat, tail: nat, n: nat)
    requires |ring| == SIZE && head < SIZE && tail < SIZE && n <= Contiguous(head, tail)
    ensures tail + n <= SIZE && n <= |Held(ring, head, tail)|
    ensures ring[tail..tail + n] == Held(ring, head, tail)[..n]
    ensures Held(ring, head, Wrap(tail + n)) == Held(ring, head, tail)[n..]
  {
  }

  /** Bytes that can be sent without wrapping. */
  function Contiguous(head: nat, tail: nat): nat
    requires tail < SIZE
  {
    if tail == head then 0 else if tail < head then head - tail else SIZE - tail
  }

  class Collector {
    const ring: array<int>
    var head: nat
    var tail: nat
    var sent: nat
    var dropped: nat
    var ready: bool

    ghost predicate Valid()
      reads this
    {
      ring.Length == SIZE && head < SIZE && tail < SIZE
    }

    ghost function Contents(): Bytes
      requires Valid()
      reads this, ring
    {
      Held(ring[..], head, tail)
    }

    constructor (ready: bool)
      ensures Valid() && fresh(ring) && Contents() == [] && sent == dropped == 0 && this.ready == ready
    {
      ring := new int[SIZE];
      head, tail, sent, dropped := 0, 0, 0, 0;
      this.ready := ready;
    }

    method Put(b: int)
      requires Valid() && Used(head, tail) < SIZE - 1
      modifies this`head, ring
      ensures Valid() && Contents() == old(Contents()) + [b]
      ensures Used(head, tail) == old(Used(head, tail)) + 1
    {
      HeldPut(ring[..], head, tail, b);
      ring[head] := b;
      assert ring[..] == old(ring[..])[head := b];
      head := (head + 1) % SIZE;
    }

    method PutAll(data: Bytes)
      requires Valid() && Used(head, tail) + |data| <= SIZE - 1
      modifies this`head, ring
      ensures Valid() && Contents() == old(Contents()) + data
      ensures Used(head, tail) == old(Used(head, tail)) + |data|
    {
      var i := 0;
      while i < |data|
        invariant i <= |data| && Valid()
        invariant Contents() == old(Contents()) + data[..i]
        invariant Used(head, tail) == old(Used(head, tail)) + i
        modifies this`head, ring
      {
        Put(data[i]);
        assert data[..i + 1] == data[..i] + [data[i]];
        i := i + 1;
      }
      assert data[..i] == data;
    }

    /** A frame goes in whole or not at all; the CRC is built up piece by piece. */
    method Write(data: Bytes, rssi: int, ticks: int) returns (taken: bool)
      requires Valid() && |data| <= 255
      modifies this`head, this`sent, this`dropped, ring
      ensures Valid() && taken == (ready && old(Used(head, tail)) + |data| + 9 < SIZE)
      ensures Contents() == if taken then old(Contents()) + Encode(Frame(data, rssi, ticks)) else old(Contents())
      ensures sent == old(sent) + (if taken then 1 else 0)
      ensures dropped == old(dropped) + (if ready && !taken then 1 else 0)
    {
      hide Held, Used, Crc, TickBytes, Encode, LengthByte;
      if !ready { return false; }
      var size := 2 + 1 + |data| + 1 + 4 + 1;
      if SIZE - 1 - Used(head, tail) < size {
        dropped := dropped + 1;
        return false;
      }
      var length := LengthByte(|data|);
      var stamp := TickBytes(ticks);
      FourTicks(ticks);
      PutAll([SYNC0, SYNC1, length]);
      var crc := HostCrc([length], CRC_INIT);
      PutAll(data);
      crc := HostCrc(data, crc);
      Put(rssi);
      crc := HostCrc([rssi], crc);
      PutAll(stamp);
      crc := HostCrc(stamp, crc);
      Put(crc as int);
      EncodeByPieces(old(Contents()), Frame(data, rssi, ticks));
      sent := sent + 1;
      taken := true;
    }

    /** The USB side sends up to the wrap point; the driver may take fewer bytes than offered. */
    method Send(accepted: nat) returns (bytes: Bytes)
      requires Valid() && accepted <= Contiguous(head, tail)
      modifies this`tail
      ensures Valid() && old(Contents()) == bytes + Contents() && |bytes| == accepted
    {
      HeldTake(ring[..], head, tail, accepted);
      bytes := ring[tail..tail + accepted];
      tail := (tail + accepted) % SIZE;
    }
  }

  lemma PiecewiseCrc(length: int, data: Bytes, rssi: int, stamp: Bytes)
    ensures Crc(stamp, Crc([rssi], Crc(data, Crc([length], CRC_INIT)))) == Crc([length] + (data + [rssi] + stamp), CRC_INIT)
  {
    hide Crc;
    CrcComposes([length], data + [rssi] + stamp, CRC_INIT);
    CrcComposes(data + [rssi], stamp, Crc([length], CRC_INIT));
    CrcComposes(data, [rssi], Crc([length], CRC_INIT));
  }

  lemma EncodeByPieces(held: Bytes, f: Frame)
    ensures var n, stamp := LengthByte(|f.payload|), TickBytes(f.ticks);
      held + [SYNC0, SYNC1, n] + f.payload + [f.rssi] + stamp + [Crc(stamp, Crc([f.rssi], Crc(f.payload, Crc([n], CRC_INIT)))) as int]
      == held + Encode(f)
  {
    hide Crc, TickBytes, LengthByte;
    PiecewiseCrc(LengthByte(|f.payload|), f.payload, f.rssi, TickBytes(f.ticks));
  }

  // ----- A whole session -----

  datatype Op = Packet(frame: Frame) | Drain(bytes: nat)

  lemma {:induction false} EncodeAllSnoc(fs: seq<Frame>, f: Frame)
    ensures EncodeAll(fs + [f]) == EncodeAll(fs) + Encode(f)
  {
    if fs == [] {
      assert [f][1..] == [];
    } else {
      assert (fs + [f])[1..] == fs[1..] + [f];
      EncodeAllSnoc(fs[1..], f);
    }
  }

  predicate AllIn(fs: seq<Frame>, ops: seq<Op>) { forall f :: f in fs ==> Packet(f) in ops }

  lemma AllInSnoc(fs: seq<Frame>, ops: seq<Op>, k: nat)
    requires AllIn(fs, ops) && k < |ops| && ops[k].Packet?
    ensures AllIn(fs + [ops[k].frame], ops)
  {
  }

  method Apply(c: Collector, op: Op) returns (bytes: Bytes, frames: seq<Frame>)
    requires c.Valid() && c.ready && (op.Packet? ==> |op.frame.payload| <= 255)
    modifies c`head, c`tail, c`sent, c`dropped, c.ring
    ensures c.Valid() && |frames| <= 1 && (frames != [] ==> op.Packet? && frames == [op.frame])
    ensures bytes + c.Contents() == old(c.Contents()) + (if frames == [] then [] else Encode(frames[0]))
    ensures c.dropped == old(c.dropped) + if op.Packet? && frames == [] then 1 else 0
  {
    hide Held, Used, Encode;
    bytes, frames := [], [];
    match op {
      case Packet(f) =>
        var taken := c.Write(f.payload, f.rssi, f.ticks);
        if taken { frames := [f]; }
      case Drain(limit) =>
        var n := Contiguous(c.head, c.tail);
        bytes := c.Send(if limit < n then limit else n);
    }
  }

  lemma Regroup(wire: Bytes, bytes: Bytes, now: Bytes, was: Bytes, added: Bytes)
    requires bytes + now == was + added
    ensures wire + bytes + now == wire + was + added
  {
    assert wire + bytes + now == wire + (bytes + now);
  }

  /**
   Radio and USB side interleaved in any order. The bytes that reached the host and the bytes still in the
   ring are together the encoding of the accepted packets, in order.
   */
  method Collect(ops: seq<Op>) returns (wire: Bytes, ghost held: Bytes, accepted: seq<Frame>, dropped: nat)
    requires forall k :: 0 <= k < |ops| && ops[k].Packet? ==> |ops[k].frame.payload| <= 255
    ensures wire + held == EncodeAll(accepted)
    ensures AllIn(accepted, ops)
    ensures |accepted| + dropped == Packets(ops)
  {
    hide Held, Used, Encode, EncodeAll, Packets, AllIn;
    EmptySession(ops);
    var c := new Collector(true);
    wire, accepted := [], [];
    var k := 0;
    while k < |ops|
      invariant k <= |ops| && c.Valid() && fresh(c) && fresh(c.ring) && c.ready
      invariant wire + c.Contents() == EncodeAll(accepted)
      invariant AllIn(accepted, ops)
      invariant |accepted| + c.dropped == Packets(ops[..k])
      modifies c, c.ring
    {
      PacketsSnoc(ops, k);
      ghost var was, before := c.Contents(), EncodeAll(accepted);
      var bytes, frames := Apply(c, ops[k]);
      assert wire + bytes + c.Contents() == before + if frames == [] then [] else Encode(frames[0]) by {
        Regroup(wire, bytes, c.Contents(), was, if frames == [] then [] else Encode(frames[0]));
      }
      if frames != [] {
        EncodeAllSnoc(accepted, frames[0]);
        AllInSnoc(accepted, ops, k);
        accepted := accepted + frames;
      }
      wire := wire + bytes;
      k := k + 1;
    }
    assert ops[..k] == ops;
    dropped := c.dropped;
    held := c.Contents();
  }

  lemma EmptySession(ops: seq<Op>)
    ensures EncodeAll([]) == [] && AllIn([], ops) && Packets(ops[..0]) == 0
  {
  }

  function Packets(ops: seq<Op>): nat {
    if ops == [] then 0 else Packets(ops[..|ops| - 1]) + if ops[|ops| - 1].Packet? then 1 else 0
  }

  lemma PacketsSnoc(ops: seq<Op>, k: nat)
    requires k < |ops|
    ensures Packets(ops[..k + 1]) == Packets(ops[..k]) + if ops[k].Packet? then 1 else 0
  {
    assert ops[..k + 1][..k] == ops[..k];
  }

  /** What the host has parsed at any moment is a prefix of the packets the ring accepted. */
  lemma HostSeesPrefix(wire: Bytes, held: Bytes, accepted: seq<Frame>)
    requires wire + held == EncodeAll(accepted) && AllRepresentable(accepted)
    ensures Frames(wire) <= Carried(accepted)
    ensures held == [] ==> Frames(wire) == Carried(accepted)
  {
    PrefixYieldsPrefix(wire, held);
    FramesComeBack(accepted, []);
    hide Frames, EncodeAll, Carried;
    assert EncodeAll(accepted) + [] == EncodeAll(accepted);
    NothingInNothing();
    if held == [] { assert wire + held == wire; }
  }

  lemma NothingInNothing()
    ensures Frames([]) == []
  {
  }
}
