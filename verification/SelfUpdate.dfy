/**
 The receiver's self-update from end to end: the bytes the host sent, through staging flash, to the words of the
 application region.
 */
module SelfUpdate {
  import ReceiverOta
  import opened FlashCopy

  /** Byte `k` of a little-endian word. */
  function ByteOf(w: bv32, k: nat): bv8 {
    if k == 0 then (w & 0xFF) as bv8
    else if k == 1 then ((w >> 8) & 0xFF) as bv8
    else if k == 2 then ((w >> 16) & 0xFF) as bv8
    else ((w >> 24) & 0xFF) as bv8
  }

  function Packed(a: bv8, b: bv8, c: bv8, d: bv8): bv32 {
    (a as bv32) | ((b as bv32) << 8) | ((c as bv32) << 16) | ((d as bv32) << 24)
  }

  lemma PackedBytes(a: bv8, b: bv8, c: bv8, d: bv8)
    ensures ByteOf(Packed(a, b, c, d), 0) == a && ByteOf(Packed(a, b, c, d), 1) == b
    ensures ByteOf(Packed(a, b, c, d), 2) == c && ByteOf(Packed(a, b, c, d), 3) == d
  {
  }

  /** The flash words from byte address `base` on hold these bytes. */
  ghost predicate Stored(flash: seq<bv32>, base: nat, bytes: seq<int>) {
    forall i :: 0 <= i < |bytes| ==> base / 4 + i / 4 < |flash| && ByteOf(flash[base / 4 + i / 4], i % 4) as int == bytes[i]
  }

  /** Equal words hold equal bytes. */
  lemma CopiedBytes(now: seq<bv32>, was: seq<bv32>, target: nat, staging: nat, bytes: seq<int>, size: nat)
    requires size <= |bytes| && Stored(was, staging, bytes)
    requires target / 4 + ImageWords(size) <= |now| && staging / 4 + ImageWords(size) <= |was|
    requires now[target / 4..target / 4 + ImageWords(size)] == was[staging / 4..staging / 4 + ImageWords(size)]
    ensures Stored(now, target, bytes[..size])
  {
    hide ByteOf;
    forall i | 0 <= i < size
      ensures target / 4 + i / 4 < |now| && ByteOf(now[target / 4 + i / 4], i % 4) as int == bytes[..size][i]
    {
      WordInImage(i, size);
      hide ImageWords;
      var k := i / 4;
      assert now[target / 4..target / 4 + ImageWords(size)][k] == was[staging / 4..staging / 4 + ImageWords(size)][k];
    }
  }

  lemma WordInImage(i: nat, size: nat)
    requires i < size
    ensures i / 4 < ImageWords(size)
  {
  }

  lemma StagedImage(trace: seq<ReceiverOta.State>, steps: seq<ReceiverOta.Step>, crc: ReceiverOta.Bytes -> int, n: nat)
    requires ReceiverOta.Execution(trace, steps, crc) && n < |steps| && steps[n].StartCopy?
    ensures |trace| == |steps| + 1
    ensures var s, image := trace[n], ReceiverOta.Received(steps, n);
      s.imageSize <= |s.staging| && s.staging[..s.imageSize] == image && crc(image) == s.imageCrc
  {
    var k := ReceiverOta.ActivationIsVerified(trace, steps, crc, n);
    hide ReceiverOta.Execution, ReceiverOta.Received;
  }

  /**
   Activation at step `n` of any interleaving of the two threads, with the geometry its BEGIN was accepted with
   and flash holding the session's staging bytes: afterwards the application region holds exactly the bytes of
   the accepted data reports, in order.
   */
  method Install(flash: array<bv32>, b: Board, base: nat,
                 ghost trace: seq<ReceiverOta.State>, ghost steps: seq<ReceiverOta.Step>, ghost crc: ReceiverOta.Bytes -> int,
                 ghost n: nat, size: nat)
    requires ReceiverOta.Execution(trace, steps, crc) && n < |steps| && steps[n].StartCopy? && trace[n].imageSize == size
    requires WellBuilt(b) && Aligned(base) && Begin(b, size, base).Accepted? && b.flashEnd <= flash.Length * 4
    requires Stored(flash[..], Begin(b, size, base).geometry.staging, trace[n].staging)
    modifies flash
    ensures var image := ReceiverOta.Received(steps, n);
      && |image| == size && crc(image) == trace[n].imageCrc
      && Stored(flash[..], Begin(b, size, base).geometry.target, image)
  {
    hide ReceiverOta.Execution, ReceiverOta.Received, WellBuilt, Aligned, ImageWords, ByteOf, Stored, Begin;
    StagedImage(trace, steps, crc, n);
    ghost var was := flash[..];
    Activate(flash, b, size, base);
    ghost var g := Begin(b, size, base).geometry;
    CopiedBytes(flash[..], was, g.target, g.staging, trace[n].staging, size);
  }

  /** The host's view: it announced the size of `image` and its reports carried the chunks of `image`, whatever was
      repeated or lost; then the application region holds `image`. */
  method InstallImage(flash: array<bv32>, b: Board, base: nat, ghost image: seq<int>, ghost begin: nat,
                      ghost trace: seq<ReceiverOta.State>, ghost steps: seq<ReceiverOta.Step>, ghost crc: ReceiverOta.Bytes -> int,
                      ghost n: nat, size: nat)
    requires ReceiverOta.Execution(trace, steps, crc) && n < |steps| && steps[n].StartCopy? && trace[n].imageSize == size
    requires ReceiverOta.HostSends(image, steps, begin, n)
    requires WellBuilt(b) && Aligned(base) && Begin(b, size, base).Accepted? && b.flashEnd <= flash.Length * 4
    requires Stored(flash[..], Begin(b, size, base).geometry.staging, trace[n].staging)
    modifies flash
    ensures |image| == size && Stored(flash[..], Begin(b, size, base).geometry.target, image)
  {
    hide ReceiverOta.Execution, ReceiverOta.Received, ReceiverOta.HostSends, WellBuilt, Aligned, Stored, Begin;
    ReceiverOta.HostImageIsStaged(image, trace, steps, crc, begin, n);
    Install(flash, b, base, trace, steps, crc, n, size);
  }
}
