/**
 One SLOB page: the free list as it is encoded in the page's own memory, best-fit allocation
 from it and address-ordered, coalescing reinsertion into it.

 A pointer into the page is a unit offset from the page's first unit; offset PAGE_UNITS is the
 first unit of the following page, which marks the end of the list.
 */
module SlobPages {
  import opened Collections
  import opened SlobFreeList

  type SlobIdx = x: int | -32768 <= x < 32768 witness 0 // s16

  /** The offset of the first block of bs, or `end` when there is none. */
  function First(bs: seq<Block>, end: nat): nat {
    if bs == [] then end else bs[0].off
  }

  /** The packed header of a free block: size and next offset, or one negated next offset. */
  ghost predicate Header(m: seq<int>, b: Block, next: nat) {
    && b.len >= 1 && b.End() <= |m| && next > 0
    && if b.len > 1 then m[b.off] == b.len && m[b.off + 1] == next else m[b.off] == 0 - next
  }

  /** The blocks xs are linked in m, each to the next and the last one to offset `end`. */
  ghost predicate Seg(m: seq<int>, xs: seq<Block>, end: nat) {
    forall i :: 0 <= i < |xs| ==> Header(m, xs[i], First(xs[i + 1..], end))
  }

  lemma SegConcat(m: seq<int>, xs: seq<Block>, ys: seq<Block>, end: nat)
    ensures Seg(m, xs + ys, end) <==> Seg(m, xs, First(ys, end)) && Seg(m, ys, end)
  {
    var zs := xs + ys;
    forall i | 0 <= i < |xs|
      ensures zs[i] == xs[i] && First(zs[i + 1..], end) == First(xs[i + 1..], First(ys, end)) {}
    forall i | 0 <= i < |ys|
      ensures zs[|xs| + i] == ys[i] && First(zs[|xs| + i + 1..], end) == First(ys[i + 1..], end) {
      assert zs[|xs| + i + 1..] == ys[i + 1..];
    }
    if Seg(m, zs, end) {
      forall i | 0 <= i < |ys| ensures Header(m, ys[i], First(ys[i + 1..], end)) {
        assert Header(m, zs[|xs| + i], First(zs[|xs| + i + 1..], end));
      }
    }
  }

  lemma SegOne(m: seq<int>, b: Block, end: nat)
    ensures Seg(m, [b], end) <==> Header(m, b, end)
  {
    assert [b][1..] == [];
    if Seg(m, [b], end) {
      assert Header(m, [b][0], First([b][1..], end));
    }
  }

  ghost predicate Agree(m: seq<int>, m': seq<int>, c: Block) {
    |m| == |m'| && forall u :: 0 <= u < |m| && !c.Has(u) ==> m[u] == m'[u]
  }

  /** Writing inside block c leaves a list segment that lies outside c alone. */
  lemma SegFrame(m: seq<int>, m': seq<int>, xs: seq<Block>, end: nat, c: Block)
    requires Seg(m, xs, end) && Agree(m, m', c)
    requires forall i :: 0 <= i < |xs| ==> xs[i].End() <= c.off || c.End() <= xs[i].off
    ensures Seg(m', xs, end)
  {}

  /** A segment's first, k-th and remaining blocks. */
  lemma SegAround(m: seq<int>, bs: seq<Block>, k: nat)
    requires k < |bs| && Seg(m, bs, PAGE_UNITS)
    ensures Seg(m, bs[..k], bs[k].off) && Seg(m, bs[k + 1..], PAGE_UNITS)
    ensures Header(m, bs[k], First(bs[k + 1..], PAGE_UNITS))
  {}

  /** The inverse: three linked pieces make one list. */
  lemma SegJoin(m: seq<int>, pre: seq<Block>, mid: seq<Block>, post: seq<Block>)
    requires Seg(m, pre, First(mid, First(post, PAGE_UNITS)))
    requires Seg(m, mid, First(post, PAGE_UNITS)) && Seg(m, post, PAGE_UNITS)
    ensures Seg(m, pre + mid + post, PAGE_UNITS)
  {}

  lemma SegPair(m: seq<int>, b1: Block, b2: Block, end: nat)
    requires Header(m, b1, b2.off) && Header(m, b2, end)
    ensures Seg(m, [b1, b2], end)
  {}

  /** A list whose block k was rewritten in place, with everything else untouched. */
  lemma SegSplice(m: seq<int>, m': seq<int>, bs: seq<Block>, k: nat, mid: seq<Block>)
    requires Ordered(bs) && k < |bs| && Seg(m, bs, PAGE_UNITS) && Agree(m, m', bs[k])
    requires mid != [] && mid[0].off == bs[k].off && Seg(m', mid, First(bs[k + 1..], PAGE_UNITS))
    ensures Seg(m', bs[..k] + mid + bs[k + 1..], PAGE_UNITS)
  {
    SegAround(m, bs, k);
    SegFrame(m, m', bs[..k], bs[k].off, bs[k]);
    SegFrame(m, m', bs[k + 1..], PAGE_UNITS, bs[k]);
    SegJoin(m', bs[..k], mid, bs[k + 1..]);
  }

  lemma HeaderFrame(m: seq<int>, m': seq<int>, b: Block, next: nat, c: Block)
    requires Header(m, b, next) && Agree(m, m', c) && (b.End() <= c.off || c.End() <= b.off)
    ensures Header(m', b, next)
  {}

  function HeadSplit(b: Block, delta: nat): seq<Block>
    requires delta < b.len
  {
    [Block(b.off, delta), Block(b.off + delta, b.len - delta)]
  }

  /** Writing the second header, then the first, splits block k of the list in two. */
  lemma SegHeadSplit(m0: seq<int>, m1: seq<int>, m2: seq<int>, bs: seq<Block>, k: nat, delta: nat)
    requires Ordered(bs) && k < |bs| && Seg(m0, bs, PAGE_UNITS) && 0 < delta < bs[k].len
    requires var s := HeadSplit(bs[k], delta);
             && Header(m1, s[1], First(bs[k + 1..], PAGE_UNITS)) && Agree(m0, m1, s[1])
             && Header(m2, s[0], s[1].off) && Agree(m1, m2, s[0])
    ensures var bs2 := bs[..k] + HeadSplit(bs[k], delta) + bs[k + 1..];
            Seg(m2, bs2, PAGE_UNITS) && Ordered(bs2)
  {
    var s, end := HeadSplit(bs[k], delta), First(bs[k + 1..], PAGE_UNITS);
    HeaderFrame(m1, m2, s[1], end, s[0]);
    SegPair(m2, s[0], s[1], end);
    SegSplice(m0, m2, bs, k, s);
    SpliceOrdered(bs, k, s);
  }

  /** The last block of xs, if any, was rewritten to point at `to`. */
  ghost predicate Relinked(m: seq<int>, m': seq<int>, xs: seq<Block>, to: nat) {
    if xs == [] then m' == m
    else Header(m', xs[|xs| - 1], to) && Agree(m, m', xs[|xs| - 1])
  }

  lemma SegRelink(m: seq<int>, m': seq<int>, xs: seq<Block>, end: nat, to: nat)
    requires Ordered(xs) && Seg(m, xs, end) && Relinked(m, m', xs, to)
    ensures Seg(m', xs, to)
  {}

  /** Writing inside block c, which lies inside bs[k] or touches no block, keeps the rest linked. */
  lemma SegTail(m: seq<int>, m': seq<int>, bs: seq<Block>, k: nat, c: Block)
    requires Ordered(bs) && k < |bs| && Seg(m, bs, PAGE_UNITS) && Agree(m, m', c) && c.End() <= bs[k].End()
    ensures Seg(m', bs[k + 1..], PAGE_UNITS)
  {
    SegAround(m, bs, k);
    hide Seg, Header, Agree;
    var post := bs[k + 1..];
    assert forall x :: 0 <= x < |post| ==> c.End() <= post[x].off;
    SegFrame(m, m', post, PAGE_UNITS, c);
  }

  /** Relinking the block before bs[k] past bs[k] takes bs[k] off the list. */
  lemma SegUnlink(m: seq<int>, m': seq<int>, bs: seq<Block>, k: nat)
    requires Ordered(bs) && k < |bs| && Seg(m, bs, PAGE_UNITS)
    requires Relinked(m, m', bs[..k], First(bs[k + 1..], PAGE_UNITS))
    ensures Seg(m', bs[..k] + [] + bs[k + 1..], PAGE_UNITS)
  {
    SegAround(m, bs, k);
    SegRelink(m, m', bs[..k], bs[k].off, First(bs[k + 1..], PAGE_UNITS));
    if k > 0 {
      SegTail(m, m', bs, k, bs[k - 1]);
    }
    SegJoin(m', bs[..k], [], bs[k + 1..]);
  }

  /** Relinking the block before bs[k] to c, a piece of bs[k] that is then given a header. */
  lemma SegShorten(m0: seq<int>, m1: seq<int>, m2: seq<int>, bs: seq<Block>, k: nat, c: Block)
    requires Ordered(bs) && k < |bs| && Seg(m0, bs, PAGE_UNITS)
    requires bs[k].off <= c.off && c.End() <= bs[k].End()
    requires Relinked(m0, m1, bs[..k], c.off)
    requires Header(m2, c, First(bs[k + 1..], PAGE_UNITS)) && Agree(m1, m2, c)
    ensures Seg(m2, bs[..k] + [c] + bs[k + 1..], PAGE_UNITS)
  {
    hide Seg, Header, Agree;
    SegAround(m0, bs, k);
    SegRelink(m0, m1, bs[..k], bs[k].off, c.off);
    if k > 0 {
      SegTail(m0, m1, bs, k, bs[k - 1]);
    }
    SegFrame(m1, m2, bs[..k], c.off, c);
    SegFrame(m1, m2, bs[k + 1..], PAGE_UNITS, c);
    SegOne(m2, c, First(bs[k + 1..], PAGE_UNITS));
    SegJoin(m2, bs[..k], [c], bs[k + 1..]);
  }

  /** A header written in the gap before the list, or over its first block, extends the list. */
  lemma SegInsertFront(m: seq<int>, m': seq<int>, bs: seq<Block>, j: nat, b: Block)
    requires Ordered(bs) && j <= |bs| && Seg(m, bs, PAGE_UNITS)
    requires Header(m', b, First(bs[j..], PAGE_UNITS)) && Agree(m, m', b)
    requires j < |bs| ==> b.End() <= bs[j].off
    ensures Seg(m', [b] + bs[j..], PAGE_UNITS)
  {
    assert bs == bs[..j] + bs[j..];
    SegConcat(m, bs[..j], bs[j..], PAGE_UNITS);
    assert forall i :: 0 <= i < |bs[j..]| ==> b.End() <= bs[j..][i].off;
    SegFrame(m, m', bs[j..], PAGE_UNITS, b);
    SegOne(m', b, First(bs[j..], PAGE_UNITS));
    SegConcat(m', [b], bs[j..], PAGE_UNITS);
  }

  /**
   Header b written in the gap after bs[i] (and over the blocks bs[i + 1..j]), then bs[i] rewritten
   as p: the list goes on from p to b, or p has swallowed b.
   */
  lemma SegInsertAfter(m0: seq<int>, m1: seq<int>, m2: seq<int>, bs: seq<Block>, i: nat, j: nat, b: Block, p: Block)
    requires Ordered(bs) && i < j <= |bs| && Seg(m0, bs, PAGE_UNITS)
    requires bs[i].End() <= b.off && (j < |bs| ==> b.End() <= bs[j].off)
    requires Header(m1, b, First(bs[j..], PAGE_UNITS)) && Agree(m0, m1, b)
    requires p.off == bs[i].off && Agree(m1, m2, p)
    requires (p == bs[i] && Header(m2, p, b.off)) || (p.End() == b.End() && Header(m2, p, First(bs[j..], PAGE_UNITS)))
    ensures Seg(m2, bs[..i] + (if p == bs[i] then [p, b] else [p]) + bs[j..], PAGE_UNITS)
  {
    var pre, post, end := bs[..i], bs[j..], First(bs[j..], PAGE_UNITS);
    SegAround(m0, bs, i);
    assert bs[i + 1..] == bs[i + 1..j] + post;
    SegConcat(m0, bs[i + 1..j], post, PAGE_UNITS);
    assert forall x :: 0 <= x < |post| ==> b.End() <= post[x].off;
    SegFrame(m0, m1, pre, p.off, b);
    SegFrame(m0, m1, post, PAGE_UNITS, b);
    SegFrame(m1, m2, pre, p.off, p);
    SegFrame(m1, m2, post, PAGE_UNITS, p);
    if p == bs[i] {
      HeaderFrame(m1, m2, b, end, p);
      SegPair(m2, p, b, end);
      SegJoin(m2, pre, [p, b], post);
    } else {
      SegOne(m2, p, end);
      SegJoin(m2, pre, [p], post);
    }
  }

  const NULL := -1 // the null slob_t pointer

  class SlobPage {
    const base: nat             // address of the page's first byte
    const mem: array<SlobIdx>   // the page, unit by unit
    var free: nat               // first free block
    var units: SlobIdx          // free units left in the page
    var slobFree: bool          // PageSlobFree: the page is on a list of partially free pages
    ghost var blocks: seq<Block>

    ghost predicate Linked()
      reads this, mem
    {
      mem.Length == PAGE_UNITS && Ordered(blocks) && free == First(blocks, PAGE_UNITS) && Seg(mem[..], blocks, PAGE_UNITS)
    }

    ghost predicate Valid()
      reads this, mem
    {
      && base % PAGE_SIZE == 0
      && Linked() && Canonical(blocks)
      && units == TotalLen(blocks)
      && (slobFree <==> blocks != [])
    }

    /** A page fresh from the page allocator: one free block, the whole page (slob_alloc). */
    constructor (base: nat)
      requires base % PAGE_SIZE == 0
      ensures Valid() && fresh(mem) && this.base == base
      ensures blocks == [Block(0, PAGE_UNITS)] && slobFree
    {
      this.base := base;
      mem := new SlobIdx[PAGE_UNITS];
      units := PAGE_UNITS;
      free := 0;
      slobFree := true;
      blocks := [Block(0, PAGE_UNITS)];
      new;
      SetSlob(0, PAGE_UNITS, PAGE_UNITS);
      SegOne(mem[..], blocks[0], PAGE_UNITS);
    }

    method SetSlob(s: nat, size: nat, next: nat)
      requires mem.Length == PAGE_UNITS && 1 <= size && s + size <= PAGE_UNITS && 0 < next <= PAGE_UNITS
      modifies mem
      ensures Header(mem[..], Block(s, size), next)
      ensures Agree(old(mem[..]), mem[..], Block(s, size))
    {
      if size > 1 {
        mem[s] := size;
        mem[s + 1] := next;
      } else {
        mem[s] := 0 - next;
      }
    }

    function Units(s: nat): int
      requires s < mem.Length
      reads mem
    {
      if mem[s] > 0 then mem[s] else 1
    }

    function Next(s: nat): int
      requires s < mem.Length && (mem[s] < 0 || s + 1 < mem.Length)
      reads mem
    {
      var word: int := mem[s];
      if word < 0 then -word else mem[s + 1]
    }

    /** True if s is the last free block: the next offset is the start of a page. */
    predicate Last(s: nat)
      requires s < mem.Length && (mem[s] < 0 || s + 1 < mem.Length)
      reads mem
    {
      Next(s) % PAGE_UNITS == 0
    }

    /** Reading a header back gives what was encoded: size, next, and whether the list ends. */
    lemma Decode(i: int)
      requires Linked() && 0 <= i < |blocks|
      ensures var s, next := blocks[i].off, First(blocks[i + 1..], PAGE_UNITS);
              && s < mem.Length && (mem[s] < 0 || s + 1 < mem.Length)
              && Units(s) == blocks[i].len && Next(s) == next
              && (Last(s) <==> i == |blocks| - 1)
              && s < blocks[i].End() <= next <= PAGE_UNITS
    {}

    // ---------------------------------------------------------------- allocation

    /** Splits free block k in two adjacent ones, the second starting at the aligned unit. */
    method SplitHead(ghost k: int, cur: nat, delta: nat)
      requires Linked() && 0 <= k < |blocks| && cur == blocks[k].off && 0 < delta < blocks[k].len
      modifies mem, this`blocks
      ensures Linked()
      ensures blocks == old(blocks)[..k] + HeadSplit(old(blocks)[k], delta) + old(blocks)[k + 1..]
    {
      hide Ordered, Seg;
      Decode(k);
      var avail, next := Units(cur), Next(cur);
      ghost var m0 := mem[..];
      SetSlob(cur + delta, avail - delta, next);
      ghost var m1 := mem[..];
      SetSlob(cur, delta, cur + delta);
      SegHeadSplit(m0, m1, mem[..], blocks, k, delta);
      blocks := blocks[..k] + HeadSplit(blocks[k], delta) + blocks[k + 1..];
      assert free == First(blocks, PAGE_UNITS);
    }

    /** Points the list at `to` from `prev`, or from the head of the list when prev is null. */
    method Relink(ghost k: int, prev: int, to: nat)
      requires Linked() && 0 <= k < |blocks| && 0 < to <= PAGE_UNITS
      requires prev == if k == 0 then NULL else blocks[k - 1].off
      modifies mem, this`free
      ensures free == if k == 0 then to else old(free)
      ensures Relinked(old(mem[..]), mem[..], blocks[..k], to)
    {
      hide Ordered, Seg;
      if prev != NULL {
        Decode(k - 1);
        SetSlob(prev, Units(prev), to);
      } else {
        free := to;
      }
    }

    /** Takes free block k off the list. */
    method Unlink(ghost k: int, prev: int, cur: nat)
      requires Linked() && 0 <= k < |blocks| && cur == blocks[k].off
      requires prev == if k == 0 then NULL else blocks[k - 1].off
      modifies mem, this`blocks, this`free
      ensures Linked() && blocks == old(blocks)[..k] + [] + old(blocks)[k + 1..]
    {
      hide Ordered, Seg;
      Decode(k);
      ghost var m := mem[..];
      Relink(k, prev, Next(cur));
      SegUnlink(m, mem[..], blocks, k);
      OrderedSmall(blocks[k]);
      SpliceOrdered(blocks, k, []);
      blocks := blocks[..k] + [] + blocks[k + 1..];
    }

    /** Shortens free block k by its first n units. */
    method Shorten(ghost k: int, prev: int, cur: nat, n: nat)
      requires Linked() && 0 <= k < |blocks| && cur == blocks[k].off && 0 < n < blocks[k].len
      requires prev == if k == 0 then NULL else blocks[k - 1].off
      modifies mem, this`blocks, this`free
      ensures Linked()
      ensures var b := old(blocks)[k];
              blocks == old(blocks)[..k] + [Block(b.off + n, b.len - n)] + old(blocks)[k + 1..]
    {
      hide Ordered, Seg;
      Decode(k);
      ghost var m0 := mem[..];
      var avail, next := Units(cur), Next(cur);
      Relink(k, prev, cur + n);
      ghost var m1, c := mem[..], Block(cur + n, avail - n);
      SetSlob(cur + n, avail - n, next);
      SegShorten(m0, m1, mem[..], blocks, k, c);
      OrderedSmall(c);
      SpliceOrdered(blocks, k, [c]);
      blocks := blocks[..k] + [c] + blocks[k + 1..];
    }

    /** Takes the first n units of free block k. */
    method TakeFront(ghost k: int, prev: int, cur: nat, n: nat)
      requires Linked() && 0 <= k < |blocks| && cur == blocks[k].off && 0 < n <= blocks[k].len
      requires prev == if k == 0 then NULL else blocks[k - 1].off
      modifies mem, this`blocks, this`free
      ensures Linked() && blocks == Take(old(blocks), k, 0, n)
    {
      hide Ordered, Seg;
      Decode(k);
      if Units(cur) == n { // exact fit: unlink
        Unlink(k, prev, cur);
      } else { // fragment
        Shorten(k, prev, cur, n);
      }
    }

    /** Takes n units of free block k, `delta` units into it. */
    method CarveOut(ghost k: int, prev: int, cur: nat, delta: nat, n: nat)
      requires Linked() && 0 <= k < |blocks| && cur == blocks[k].off && 0 < n && n + delta <= blocks[k].len
      requires prev == if k == 0 then NULL else blocks[k - 1].off
      modifies mem, this`blocks, this`free
      ensures Linked() && blocks == Take(old(blocks), k, delta, n)
    {
      hide Ordered, Seg;
      if delta > 0 { // need to fragment head to align
        ghost var bs := blocks;
        SplitHead(k, cur, delta);
        SplitThenTake(bs, k, delta, n, blocks);
        TakeFront(k + 1, cur, cur + delta, n);
      } else {
        TakeFront(k, prev, cur, n);
      }
    }

    /** The scan of slob_page_alloc: the best-fit block and the block before it, or null. */
    method FindBestFit(n: nat, align: nat) returns (bestPrev: int, bestCur: int, bestDelta: nat, ghost k: int)
      requires Valid() && slobFree
      ensures bestCur == NULL ==> forall i :: 0 <= i < |blocks| ==> !Fits(blocks[i], base, n, align)
      ensures bestCur != NULL ==>
        && 0 <= k < |blocks| && IsBestFit(blocks, k, base, n, align)
        && bestCur == blocks[k].off && bestPrev == (if k == 0 then NULL else blocks[k - 1].off)
        && bestDelta == AlignDelta(base, blocks[k].off, align) && n + bestDelta <= blocks[k].len
    {
      hide Ordered, Canonical, Seg, AlignDelta;
      var prev, cur, bestDiff := NULL, free, 0;
      bestPrev, bestCur, bestDelta := NULL, NULL, 0;
      ghost var i := 0;
      k := -1;
      while true
        invariant 0 <= i < |blocks| && cur == blocks[i].off
        invariant prev == if i == 0 then NULL else blocks[i - 1].off
        invariant BestAmong(blocks, i, k, base, n, align)
        invariant k < 0 <==> bestCur == NULL
        invariant k >= 0 ==>
          && bestCur == blocks[k].off && bestPrev == (if k == 0 then NULL else blocks[k - 1].off)
          && bestDelta == AlignDelta(base, blocks[k].off, align) && bestDiff == Slack(blocks[k], base, n, align)
        decreases |blocks| - i
      {
        Decode(i);
        var avail, delta := Units(cur), AlignDelta(base, cur, align);
        if avail >= n + delta && (bestCur == NULL || avail - (n + delta) < bestDiff) {
          bestPrev, bestCur, bestDelta, bestDiff := prev, cur, delta, avail - (n + delta);
          k := i;
        }
        if Last(cur) {
          break;
        }
        prev, cur := cur, Next(cur);
        i := i + 1;
      }
    }

    /** Takes n units of the chosen block and updates the unit count and the flag. */
    method TakeChosen(ghost k: int, prev: int, cur: nat, delta: nat, n: nat)
      requires Valid() && 0 <= k < |blocks| && cur == blocks[k].off && 0 < n && n + delta <= blocks[k].len
      requires prev == if k == 0 then NULL else blocks[k - 1].off
      modifies mem, this`blocks, this`free, this`units, this`slobFree
      ensures Valid() && blocks == Take(old(blocks), k, delta, n) && units == old(units) - n
    {
      hide Ordered, Canonical, Seg, Take;
      TakeCanonical(blocks, k, delta, n);
      CarveOut(k, prev, cur, delta, n);
      units := units - n;
      TotalLenZero(blocks);
      if units == 0 {
        slobFree := false;
      }
    }

    /** slob_page_alloc: a best-fit block of SlobUnits(size) units, or nothing if none fits. */
    method PageAlloc(size: nat, align: nat) returns (r: Option<nat>, ghost k: int)
      requires Valid() && slobFree && size > 0 && ValidAlign(align)
      modifies mem, this`blocks, this`free, this`units, this`slobFree
      ensures Valid()
      ensures r.None? ==>
        && (forall i :: 0 <= i < |blocks| ==> !Fits(blocks[i], base, SlobUnits(size), align))
        && mem[..] == old(mem[..]) && blocks == old(blocks) && slobFree
      ensures r.Some? ==>
        && IsBestFit(old(blocks), k, base, SlobUnits(size), align)
        && r.value == old(blocks)[k].off + AlignDelta(base, old(blocks)[k].off, align)
        && r.value + SlobUnits(size) <= PAGE_UNITS
        && AlignedTo(base + SLOB_UNIT * r.value, align)
        && blocks == Take(old(blocks), k, r.value - old(blocks)[k].off, SlobUnits(size))
        && CoversWithout(blocks, old(blocks), Block(r.value, SlobUnits(size)))
        && units == old(units) - SlobUnits(size)
    {
      hide Linked, Canonical, ValidAlign, AlignDelta, AlignUp, AlignedTo, SlobUnits, Fits, Slack, IsBestFit, CoversWithout, Take, TotalLen;
      var n := SlobUnits(size);
      var bestPrev, bestCur, bestDelta;
      bestPrev, bestCur, bestDelta, k := FindBestFit(n, align);
      if bestCur == NULL {
        return None, k;
      }
      Decode(k);
      TakeCovers(blocks, k, bestDelta, n);
      PageAligned(base, bestCur, align);
      TakeChosen(k, bestPrev, bestCur, bestDelta, n);
      r := Some(bestCur + bestDelta);
    }

    // ---------------------------------------------------------------- freeing

    /** A page about to become partially free: the freed block is its whole list. */
    method FreeFirst(b: nat, n: nat)
      requires Valid() && !slobFree && 0 < n && b + n <= PAGE_UNITS
      modifies mem, this`blocks, this`free, this`units, this`slobFree
      ensures Valid() && slobFree && blocks == [Block(b, n)]
    {
      units := n;
      free := b;
      SetSlob(b, n, PAGE_UNITS);
      blocks := [Block(b, n)];
      SegOne(mem[..], Block(b, n), PAGE_UNITS);
      slobFree := true;
    }

    /** Reinsertion before the first free block. */
    method InsertBefore(b: nat, n: nat)
      requires Linked() && blocks != [] && 0 < n && b + n <= blocks[0].off
      modifies mem, this`blocks, this`free
      ensures blocks != [] && free == First(blocks, PAGE_UNITS) && Seg(mem[..], blocks, PAGE_UNITS)
      ensures blocks == InsertedFront(old(blocks), Block(b, n))
    {
      hide Ordered, Seg;
      Decode(0);
      ghost var m := mem[..];
      if b + n == free {
        var joined := n + Units(free);
        free := Next(free);
        SetSlob(b, joined, free);
        SegInsertFront(m, mem[..], blocks, 1, Block(b, joined));
      } else {
        SetSlob(b, n, free);
        SegInsertFront(m, mem[..], blocks, 0, Block(b, n));
      }
      free := b;
      ghost var j, m' := JoinCount(Block(b, n), blocks), JoinNext(Block(b, n), blocks);
      assert [m'] + blocks[j..] == InsertedFront(blocks, Block(b, n));
      blocks := InsertedFront(blocks, Block(b, n));
    }

    /** The walk of slob_free: the last free block before b, and the one after that. */
    method FindGap(b: nat) returns (prev: nat, next: nat, ghost i: int)
      requires Linked() && blocks != [] && blocks[0].off <= b < PAGE_UNITS
      ensures 0 <= i < |blocks| && prev == blocks[i].off && next == First(blocks[i + 1..], PAGE_UNITS)
      ensures prev <= b <= next
    {
      hide Ordered, Seg;
      Decode(0);
      i, prev, next := 0, free, Next(free);
      while b > next
        invariant 0 <= i < |blocks| && prev == blocks[i].off && next == First(blocks[i + 1..], PAGE_UNITS)
        invariant prev <= b
        decreases |blocks| - i
      {
        i := i + 1;
        Decode(i);
        prev, next := next, Next(next);
      }
    }

    /** The header of a freed block that goes between free block i and `next`, which it swallows if they touch. */
    method WriteFreed(ghost i: int, b: nat, n: nat, prev: nat, next: nat) returns (ghost j: int, ghost c: Block)
      requires Linked() && 0 <= i < |blocks| && prev == blocks[i].off && next == First(blocks[i + 1..], PAGE_UNITS)
      requires 0 < n && blocks[i].End() <= b && b + n <= next
      modifies mem
      ensures c == JoinNext(Block(b, n), blocks[i + 1..]) && j == i + 1 + JoinCount(Block(b, n), blocks[i + 1..]) <= |blocks|
      ensures c.off == b && (j < |blocks| ==> c.End() <= blocks[j].off) && b < First(blocks[j..], PAGE_UNITS) <= PAGE_UNITS
      ensures Header(mem[..], c, First(blocks[j..], PAGE_UNITS)) && Agree(old(mem[..]), mem[..], c)
    {
      hide Seg;
      Decode(i);
      j, c := i + 1, Block(b, n);
      if !Last(prev) && b + n == next {
        Decode(i + 1);
        var joined := n + Units(next);
        j, c := i + 2, Block(b, joined);
        SetSlob(b, joined, Next(next));
      } else {
        SetSlob(b, n, next);
      }
    }

    /** Reinsertion after free block i, which is followed by `next`. */
    method InsertAt(ghost i: int, b: nat, n: nat, prev: nat, next: nat)
      requires Linked() && 0 <= i < |blocks| && prev == blocks[i].off && next == First(blocks[i + 1..], PAGE_UNITS)
      requires 0 < n && blocks[i].End() <= b && b + n <= next
      modifies mem, this`blocks
      ensures blocks != [] && free == First(blocks, PAGE_UNITS) && Seg(mem[..], blocks, PAGE_UNITS)
      ensures blocks == InsertedAfter(old(blocks), i, Block(b, n))
    {
      hide Ordered, Seg, JoinNext, JoinCount;
      Decode(i);
      ghost var m0, bs := mem[..], blocks;
      ghost var j, c := WriteFreed(i, b, n, prev, next);
      ghost var m1 := mem[..];
      SegAround(m0, bs, i);
      HeaderFrame(m0, m1, bs[i], next, c);
      var prevUnits := Units(prev);
      if prev + prevUnits == b {
        var joined := Units(b) + prevUnits;
        SetSlob(prev, joined, Next(b));
        SegInsertAfter(m0, m1, mem[..], bs, i, j, c, Block(prev, joined));
      } else {
        SetSlob(prev, prevUnits, b);
        SegInsertAfter(m0, m1, mem[..], bs, i, j, c, bs[i]);
      }
      blocks := InsertedAfter(bs, i, Block(b, n));
    }

    /**
     The part of slob_free that keeps the page: n units at b go back on the list.  Afterwards the
     list is canonical and covers what it covered plus the freed block.
     */
    method Free(b: nat, n: nat)
      requires Valid() && 0 < n && b + n <= PAGE_UNITS
      requires forall u :: Block(b, n).Has(u) ==> !Covered(blocks, u)
      modifies mem, this`blocks, this`free, this`units, this`slobFree
      ensures Valid() && slobFree
      ensures CoversWithout(old(blocks), blocks, Block(b, n))
      ensures units == old(units) + n && (!old(slobFree) ==> blocks == [Block(b, n)])
    {
      hide Ordered, Canonical, Seg, Covered, CoversWithout, InsertedFront, InsertedAfter, TotalLen;
      ghost var bs := blocks;
      if !slobFree {
        TotalLenNone();
        FreeFirst(b, n);
        FreedAlone(b, n);
        return;
      }
      FreeUnitsBound(bs, Block(b, n));
      units := units + n;
      if b < free {
        GapBounds(bs, Block(b, n), 0);
        InsertFront(bs, Block(b, n));
        InsertBefore(b, n);
        CanonicalOrdered(blocks);
      } else {
        var prev, next; ghost var i;
        prev, next, i := FindGap(b);
        GapBounds(bs, Block(b, n), i + 1);
        InsertAfter(bs, i, Block(b, n));
        InsertAt(i, b, n, prev, next);
        CanonicalOrdered(blocks);
      }
    }

    lemma FreedAlone(b: nat, n: nat)
      ensures CoversWithout([], [Block(b, n)], Block(b, n))
    {
      forall u ensures Covered([Block(b, n)], u) <==> Block(b, n).Has(u) {
        CoveredOne(Block(b, n), u);
      }
    }

    /** Allocating from a page and freeing again restores its free list and unit count exactly. */
    method AllocThenFree(size: nat, align: nat) returns (ok: bool)
      requires Valid() && slobFree && size > 0 && ValidAlign(align)
      modifies mem, this`blocks, this`free, this`units, this`slobFree
      ensures Valid() && blocks == old(blocks) && free == old(free) && units == old(units) && slobFree
      ensures ok <==> exists i :: 0 <= i < |blocks| && Fits(blocks[i], base, SlobUnits(size), align)
    {
      ghost var before := blocks;
      var r; ghost var k;
      r, k := PageAlloc(size, align);
      ok := r.Some?;
      if ok {
        ghost var mid := blocks;
        Free(r.value, SlobUnits(size));
        TakeThenInsert(before, mid, blocks, Block(r.value, SlobUnits(size)));
      }
    }

    /** The owner of an allocated block writes into it: the free list does not notice. */
    method Store(u: nat, v: SlobIdx)
      requires Valid() && u < PAGE_UNITS && !Covered(blocks, u)
      modifies mem
      ensures Valid()
    {
      ghost var m, c := mem[..], Block(u, 1);
      mem[u] := v;
      SegFrame(m, mem[..], blocks, PAGE_UNITS, c);
    }
  }
}
