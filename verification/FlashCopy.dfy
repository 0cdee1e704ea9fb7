/**
 Staging geometry and the RAM-resident page copier of the receiver self-update.

 Flash is an array of 32-bit words. Erasing a page sets its words to ones; programming a word can only
 clear bits. Page and image sizes are in bytes, as in the firmware.
 */
module FlashCopy {
  const PAGE := 4096
  const PAGE_WORDS := 1024
  const MIN_BASE := 0x1000

  /** The part of a build that BEGIN validates against. */
  datatype Board = Board(flashBase: nat, flashEnd: nat, appSize: nat)

  datatype Geometry = Geometry(staging: nat, target: nat)
  datatype Outcome = Accepted(geometry: Geometry) | SizeError

  function Pages(size: nat): nat { (size + PAGE - 1) / PAGE }

  /** The size and address checks of BEGIN, in order. */
  function Begin(b: Board, size: nat, base: nat): Outcome {
    if size == 0 || size > (b.flashEnd - b.flashBase) / 2 then SizeError
    else if base != 0 && base < MIN_BASE then SizeError
    else if base != 0 && base > b.flashBase then SizeError
    else if base != 0 && base + size > b.flashEnd then SizeError
    else
      var raw := b.flashEnd - Pages(size) * PAGE;
      var staging := raw - raw % PAGE;
      if staging < b.flashBase + (if size > b.appSize then size else b.appSize) then SizeError
      else Accepted(Geometry(staging, if base != 0 then base else b.flashBase))
  }

  predicate Aligned(x: nat) { x % PAGE == 0 }

  /** Boards as they are built: page-aligned base at or above the first page, page-aligned end. */
  predicate WellBuilt(b: Board) {
    Aligned(b.flashBase) && MIN_BASE <= b.flashBase && Aligned(b.flashEnd)
  }

  lemma PagesCover(size: nat)
    ensures size <= Pages(size) * PAGE < size + PAGE
  {
  }

  lemma CeilingFits(size: nat, bound: nat)
    requires Aligned(bound) && size <= bound
    ensures Pages(size) * PAGE <= bound
  {
  }

  lemma AlignedSum(x: nat, y: nat)
    requires Aligned(x) && Aligned(y)
    ensures Aligned(x + y) && (x <= y ==> Aligned(y - x))
  {
    var p, q := x / PAGE, y / PAGE;
    assert x == p * PAGE && y == q * PAGE;
    MultipleIsAligned(p + q);
    if x <= y { MultipleIsAligned(q - p); }
  }

  lemma MultipleIsAligned(n: nat)
    ensures Aligned(n * PAGE)
  {
  }

  /**
   An accepted BEGIN puts the page-rounded destination entirely below staging, staging entirely inside the
   flash region, and neither over the running application's code.
   */
  lemma AcceptedIsDisjoint(b: Board, size: nat, base: nat)
    requires WellBuilt(b) && Aligned(base) && Begin(b, size, base).Accepted?
    ensures var g := Begin(b, size, base).geometry; var bytes := Pages(size) * PAGE;
      && 0 < size <= bytes && Aligned(g.staging) && Aligned(g.target)
      && MIN_BASE <= g.target <= b.flashBase
      && g.target + bytes <= g.staging
      && g.staging + bytes == b.flashEnd
      && b.flashBase + b.appSize <= g.staging
  {
    var g := Begin(b, size, base).geometry;
    PagesCover(size);
    AlignedSum(Pages(size) * PAGE, b.flashEnd);
    AlignedSum(g.target, g.staging);
    CeilingFits(size, g.staging - g.target);
  }

  /** Conversely every image that leaves room is accepted, so the checks reject nothing that fits. */
  lemma FittingIsAccepted(b: Board, size: nat, base: nat)
    requires WellBuilt(b) && Aligned(base) && b.flashBase <= b.flashEnd
    requires 0 < size <= (b.flashEnd - b.flashBase) / 2
    requires base == 0 || MIN_BASE <= base <= b.flashBase
    requires b.flashBase + size + Pages(size) * PAGE <= b.flashEnd && b.flashBase + b.appSize + Pages(size) * PAGE <= b.flashEnd
    ensures Begin(b, size, base).Accepted?
  {
    PagesCover(size);
    AlignedSum(Pages(size) * PAGE, b.flashEnd);
  }

  /** Exactly which requests are accepted: a size of at most half the region, a base that is absent or lies between the
      first page and the application with the image inside the flash, and room above the application or image for staging. */
  lemma AcceptedIff(b: Board, size: nat, base: nat)
    requires WellBuilt(b) && b.flashBase <= b.flashEnd
    ensures Begin(b, size, base).Accepted? <==>
      && 0 < size && 2 * size <= b.flashEnd - b.flashBase
      && (base == 0 || (0x1000 <= base <= b.flashBase && base + size <= b.flashEnd))
      && b.flashBase + size + Pages(size) * PAGE <= b.flashEnd && b.flashBase + b.appSize + Pages(size) * PAGE <= b.flashEnd
    ensures Begin(b, size, base).Accepted? ==> Begin(b, size, base).geometry.target == if base != 0 then base else b.flashBase
  {
    PagesCover(size);
    PagesAligned(size);
    StagingBelow(b.flashEnd, Pages(size) * PAGE);
  }

  lemma PagesAligned(size: nat)
    ensures Aligned(Pages(size) * PAGE)
  {
  }

  lemma StagingBelow(end: nat, bytes: nat)
    requires Aligned(end) && Aligned(bytes)
    ensures (end - bytes) % PAGE == 0
  {
  }

  // ----- The copier -----

  /** Words of page `i` that belong to an image of `size` bytes. */
  function Words(size: nat, i: nat): nat
    requires i * PAGE < size
  {
    if size - i * PAGE < PAGE then (size - i * PAGE + 3) / 4 else PAGE_WORDS
  }

  method SamePage(flash: array<bv32>, dst: nat, src: nat, words: nat) returns (same: bool)
    requires dst + words <= flash.Length && src + words <= flash.Length
    ensures same <==> flash[dst..dst + words] == flash[src..src + words]
  {
    var w := 0;
    while w < words
      invariant w <= words
      invariant flash[dst..dst + w] == flash[src..src + w]
    {
      if flash[dst + w] != flash[src + w] {
        assert flash[dst..dst + words][w] != flash[src..src + words][w];
        return false;
      }
      w := w + 1;
    }
    return true;
  }

  method ErasePage(flash: array<bv32>, page: nat)
    requires page + PAGE_WORDS <= flash.Length
    modifies flash
    ensures forall k :: 0 <= k < flash.Length ==>
      flash[k] == if page <= k < page + PAGE_WORDS then 0xFFFF_FFFF else old(flash[k])
  {
    var w := 0;
    while w < PAGE_WORDS
      invariant w <= PAGE_WORDS
      invariant forall k :: 0 <= k < flash.Length ==> flash[k] == if page <= k < page + w then 0xFFFF_FFFF else old(flash[k])
    {
      flash[page + w] := 0xFFFF_FFFF;
      w := w + 1;
    }
  }

  lemma ErasedTakesAnyWord(x: bv32)
    ensures 0xFFFF_FFFF & x == x
  {
  }

  method ProgramPage(flash: array<bv32>, dst: nat, src: nat, words: nat)
    requires dst + words <= src && src + words <= flash.Length
    requires forall k :: dst <= k < dst + words ==> flash[k] == 0xFFFF_FFFF
    modifies flash
    ensures forall k :: 0 <= k < flash.Length ==>
      flash[k] == if dst <= k < dst + words then old(flash[k - dst + src]) else old(flash[k])
  {
    var w := 0;
    while w < words
      invariant w <= words
      invariant forall k :: 0 <= k < flash.Length ==>
        flash[k] == if dst <= k < dst + w then old(flash[k - dst + src]) else old(flash[k])
    {
      ErasedTakesAnyWord(flash[src + w]);
      flash[dst + w] := flash[dst + w] & flash[src + w];
      w := w + 1;
    }
  }

  function ImageWords(size: nat): nat { (size + 3) / 4 }

  /** The pages' word ranges tile the image: page `i` ends where page `i + 1` starts or where the image ends. */
  lemma WordsTile(size: nat, i: nat)
    requires i < Pages(size)
    ensures i * PAGE < size && 0 < Words(size, i) <= PAGE_WORDS
    ensures i + 1 < Pages(size) ==> Words(size, i) == PAGE_WORDS
    ensures i + 1 == Pages(size) ==> i * PAGE_WORDS + Words(size, i) == ImageWords(size)
    ensures i * PAGE_WORDS + Words(size, i) <= ImageWords(size)
  {
  }

  /** Word `k` of the destination once the first `done` image words have been dealt with. */
  predicate Copied(now: seq<bv32>, was: seq<bv32>, dst: nat, src: nat, done: nat)
    requires |now| == |was| && dst + done <= |was| && src + done <= |was|
  {
    forall k :: dst <= k < dst + done ==> now[k] == was[k - dst + src]
  }

  /** Nothing outside the destination pages changes, and page tails are kept or erased. */
  predicate OnlyDestination(now: seq<bv32>, was: seq<bv32>, dst: nat, done: nat, end: nat)
    requires |now| == |was|
  {
    && (forall k :: 0 <= k < |now| && (k < dst || end <= k) ==> now[k] == was[k])
    && (forall k :: dst + done <= k < end && k < |now| ==> now[k] == was[k] || now[k] == 0xFFFF_FFFF)
  }

  method CopyPage(flash: array<bv32>, dst: nat, src: nat, words: nat)
    requires words <= PAGE_WORDS && dst + PAGE_WORDS <= src && src + words <= flash.Length
    modifies flash
    ensures Copied(flash[..], old(flash[..]), dst, src, words)
    ensures OnlyDestination(flash[..], old(flash[..]), dst, words, dst + PAGE_WORDS)
    ensures old(flash[dst..dst + words]) == old(flash[src..src + words]) ==> flash[..] == old(flash[..])
  {
    var same := SamePage(flash, dst, src, words);
    if same {
      forall k | dst <= k < dst + words ensures flash[k] == flash[k - dst + src] {
        assert flash[dst..dst + words][k - dst] == flash[src..src + words][k - dst];
      }
    } else {
      ErasePage(flash, dst);
      ProgramPage(flash, dst, src, words);
    }
  }

  /** Flash after `i` pages; `done` image words are in place and the pages above are untouched. */
  ghost predicate PagesDone(now: seq<bv32>, was: seq<bv32>, dst: nat, src: nat, size: nat, i: nat) {
    && |now| == |was| && i <= Pages(size)
    && var done := if i == Pages(size) then ImageWords(size) else i * PAGE_WORDS;
       && dst + done <= |was| && src + done <= |was| && done <= i * PAGE_WORDS
       && Copied(now, was, dst, src, done) && OnlyDestination(now, was, dst, done, dst + i * PAGE_WORDS)
  }

  lemma NextPage(now: seq<bv32>, mid: seq<bv32>, was: seq<bv32>, dst: nat, src: nat, size: nat, i: nat)
    requires i < Pages(size) && PagesDone(mid, was, dst, src, size, i) && |now| == |mid|
    requires dst + Pages(size) * PAGE_WORDS <= src && src + ImageWords(size) <= |was|
    requires i * PAGE < size && dst + i * PAGE_WORDS + Words(size, i) <= |was| && src + i * PAGE_WORDS + Words(size, i) <= |was|
    requires Copied(now, mid, dst + i * PAGE_WORDS, src + i * PAGE_WORDS, Words(size, i))
    requires OnlyDestination(now, mid, dst + i * PAGE_WORDS, Words(size, i), dst + i * PAGE_WORDS + PAGE_WORDS)
    ensures PagesDone(now, was, dst, src, size, i + 1)
  {
    WordsTile(size, i);
    var words := Words(size, i);
    var done := i * PAGE_WORDS + words;
    hide Words, Pages, ImageWords;
    forall k | dst <= k < dst + done ensures now[k] == was[k - dst + src] {
      assert mid[k - dst + src] == was[k - dst + src];
    }
    assert Copied(now, was, dst, src, done);
  }

  lemma PageInRange(length: nat, dst: nat, src: nat, size: nat, i: nat)
    requires dst + Pages(size) * PAGE_WORDS <= src && src + ImageWords(size) <= length && i < Pages(size)
    requires i * PAGE < size
    ensures dst + i * PAGE_WORDS + PAGE_WORDS <= src + i * PAGE_WORDS
    ensures src + i * PAGE_WORDS + Words(size, i) <= length && dst + i * PAGE_WORDS + Words(size, i) <= length
  {
    WordsTile(size, i);
    hide Words, ImageWords, Pages;
  }

  /**
   The copier: afterwards the destination holds the source image word for word, and everything outside the
   destination pages, the source included, is as it was.
   */
  method CopyImage(flash: array<bv32>, dst: nat, src: nat, size: nat)
    requires dst + Pages(size) * PAGE_WORDS <= src && src + ImageWords(size) <= flash.Length
    modifies flash
    ensures Copied(flash[..], old(flash[..]), dst, src, ImageWords(size))
    ensures OnlyDestination(flash[..], old(flash[..]), dst, ImageWords(size), dst + Pages(size) * PAGE_WORDS)
    ensures flash[src..src + ImageWords(size)] == old(flash[src..src + ImageWords(size)])
  {
    hide Pages, ImageWords, PagesDone, Copied, OnlyDestination, Words;
    var pages := Pages(size);
    var i := 0;
    ghost var was := flash[..];
    NoPageDone(was, dst, src, size);
    while i < pages
      invariant i <= pages && PagesDone(flash[..], was, dst, src, size, i)
    {
      WordsTile(size, i);
      PageInRange(flash.Length, dst, src, size, i);
      ghost var mid := flash[..];
      var words := Words(size, i);
      CopyPage(flash, dst + i * PAGE_WORDS, src + i * PAGE_WORDS, words);
      NextPage(flash[..], mid, was, dst, src, size, i);
      i := i + 1;
    }
    AllPagesDone(flash[..], was, dst, src, size);
  }

  lemma NoPageDone(was: seq<bv32>, dst: nat, src: nat, size: nat)
    requires dst + Pages(size) * PAGE_WORDS <= src && src + ImageWords(size) <= |was|
    ensures PagesDone(was, was, dst, src, size, 0)
  {
  }

  lemma AllPagesDone(now: seq<bv32>, was: seq<bv32>, dst: nat, src: nat, size: nat)
    requires dst + Pages(size) * PAGE_WORDS <= src && src + ImageWords(size) <= |was|
    requires PagesDone(now, was, dst, src, size, Pages(size))
    ensures dst + ImageWords(size) <= |was| && Copied(now, was, dst, src, ImageWords(size))
    ensures OnlyDestination(now, was, dst, ImageWords(size), dst + Pages(size) * PAGE_WORDS)
    ensures now[src..src + ImageWords(size)] == was[src..src + ImageWords(size)]
  {
    hide Pages, ImageWords;
  }

  /** BEGIN's geometry makes the copier safe: an accepted update ends with the staged image at its target. */
  method Activate(flash: array<bv32>, b: Board, size: nat, base: nat)
    requires WellBuilt(b) && Aligned(base) && Begin(b, size, base).Accepted? && b.flashEnd <= flash.Length * 4
    modifies flash
    ensures var g := Begin(b, size, base).geometry; var n := ImageWords(size);
      && g.target / 4 + n <= g.staging / 4 && g.staging / 4 + n <= flash.Length
      && flash[g.target / 4..g.target / 4 + n] == old(flash[g.staging / 4..g.staging / 4 + n])
      && flash[g.staging / 4..] == old(flash[g.staging / 4..]) && flash[..g.target / 4] == old(flash[..g.target / 4])
  {
    var g := Begin(b, size, base).geometry;
    WordGeometry(b, size, base);
    hide Begin, WellBuilt, Aligned, Pages, ImageWords;
    CopyImage(flash, g.target / 4, g.staging / 4, size);
  }

  lemma WordGeometry(b: Board, size: nat, base: nat)
    requires WellBuilt(b) && Aligned(base) && Begin(b, size, base).Accepted?
    ensures var g := Begin(b, size, base).geometry;
      && g.target / 4 + Pages(size) * PAGE_WORDS <= g.staging / 4
      && g.staging / 4 + ImageWords(size) <= b.flashEnd / 4
      && ImageWords(size) <= Pages(size) * PAGE_WORDS
  {
    AcceptedIsDisjoint(b, size, base);
    PagesCover(size);
  }
}
