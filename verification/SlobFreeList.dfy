/**
 The free list of one SLOB page, as a value.

 A page is PAGE_UNITS units long and a free block is a run of units.  The list the allocator
 keeps inside the page is canonical: in address order, in bounds, and with an allocated unit
 between any two free blocks.  A canonical list is determined by the set of units it covers
 (`CanonicalUnique`), so the allocator's operations are specified by what they do to that set.
 */
module SlobFreeList {
  import opened Arithmetic

  const PAGE_SIZE: nat := 4096
  const SLOB_UNIT: nat := 2     // sizeof(slob_t): PAGE_SIZE <= 32767 * 2 makes slobidx_t an s16
  const PAGE_UNITS: nat := 2048 // SLOB_UNITS(PAGE_SIZE)

  function SlobUnits(size: nat): (units: nat)
    ensures size > 0 ==> units > 0
    ensures size <= PAGE_SIZE ==> units <= PAGE_UNITS
  {
    (size + SLOB_UNIT - 1) / SLOB_UNIT
  }

  datatype Block = Block(off: nat, len: nat) {
    function End(): nat {
      off + len
    }
    predicate Has(u: int) {
      off <= u < off + len
    }
  }

  /** In address order and in bounds; neighbours may touch (the state in the middle of a split). */
  ghost predicate Ordered(bs: seq<Block>) {
    && (forall i :: 0 <= i < |bs| ==> 1 <= bs[i].len && bs[i].End() <= PAGE_UNITS)
    && (forall i, j :: 0 <= i < j < |bs| ==> bs[i].End() <= bs[j].off)
  }

  /** In address order, in bounds, and never two adjacent free blocks. */
  ghost predicate Canonical(bs: seq<Block>) {
    && Ordered(bs)
    && (forall i, j :: 0 <= i < j < |bs| ==> bs[i].End() < bs[j].off)
  }

  ghost predicate Covered(bs: seq<Block>, u: int) {
    exists i :: 0 <= i < |bs| && bs[i].Has(u)
  }

  /** The two lists cover the same units, except that `ys` does not cover the units of `b`. */
  ghost predicate CoversWithout(ys: seq<Block>, xs: seq<Block>, b: Block) {
    && (forall u :: Covered(ys, u) <==> Covered(xs, u) && !b.Has(u))
    && (forall u :: b.Has(u) ==> Covered(xs, u))
  }

  function TotalLen(bs: seq<Block>): nat {
    if bs == [] then 0 else bs[0].len + TotalLen(bs[1..])
  }

  lemma {:induction false} TotalLenConcat(xs: seq<Block>, ys: seq<Block>)
    ensures TotalLen(xs + ys) == TotalLen(xs) + TotalLen(ys)
  {
    if xs == [] {
      assert xs + ys == ys;
    } else {
      TotalLenConcat(xs[1..], ys);
      assert (xs + ys)[1..] == xs[1..] + ys;
    }
  }

  /** Replacing bs[k] by `mid` changes the total by the difference of the two. */
  lemma TotalLenSplice(bs: seq<Block>, k: nat, mid: seq<Block>)
    requires k < |bs|
    ensures TotalLen(bs[..k] + mid + bs[k + 1..]) == TotalLen(bs) - bs[k].len + TotalLen(mid)
  {
    assert bs == bs[..k] + [bs[k]] + bs[k + 1..];
    TotalLenConcat(bs[..k] + [bs[k]], bs[k + 1..]);
    TotalLenConcat(bs[..k], [bs[k]]);
    TotalLenConcat(bs[..k] + mid, bs[k + 1..]);
    TotalLenConcat(bs[..k], mid);
  }

  lemma CoveredConcat(xs: seq<Block>, ys: seq<Block>, u: int)
    ensures Covered(xs + ys, u) <==> Covered(xs, u) || Covered(ys, u)
  {
    if Covered(xs, u) {
      var i :| 0 <= i < |xs| && xs[i].Has(u);
      assert (xs + ys)[i] == xs[i];
    }
    if Covered(ys, u) {
      var i :| 0 <= i < |ys| && ys[i].Has(u);
      assert (xs + ys)[|xs| + i] == ys[i];
    }
  }

  lemma CoveredOne(b: Block, u: int)
    ensures Covered([b], u) <==> b.Has(u)
  {
    if b.Has(u) {
      assert [b][0].Has(u);
    }
  }

  lemma CoveredTail(bs: seq<Block>, u: int)
    requires Ordered(bs) && bs != []
    ensures Covered(bs[1..], u) <==> Covered(bs, u) && u >= bs[0].End()
  {}

  lemma OrderedTail(bs: seq<Block>)
    requires Ordered(bs) && bs != []
    ensures Ordered(bs[1..])
    ensures Canonical(bs) ==> Canonical(bs[1..])
  {}

  /** No block starts before the first block of a canonical list covering at least as much. */
  lemma FirstBlockLeast(xs: seq<Block>, ys: seq<Block>)
    requires Canonical(xs) && Canonical(ys) && xs != []
    requires forall u :: Covered(xs, u) ==> Covered(ys, u)
    ensures ys != [] && ys[0].off <= xs[0].off
  {
    assert xs[0].Has(xs[0].off);
    assert Covered(ys, xs[0].off);
  }

  lemma FirstBlockEnd(xs: seq<Block>, ys: seq<Block>)
    requires Canonical(xs) && Canonical(ys) && xs != [] && ys != [] && xs[0].off == ys[0].off
    requires forall u :: Covered(xs, u) ==> Covered(ys, u)
    ensures xs[0].End() <= ys[0].End()
  {
    var u := ys[0].End();
    assert !Covered(ys, u);
    assert !xs[0].Has(u);
  }

  /** The free list is canonical: it is a function of the set of free units. */
  lemma {:induction false} CanonicalUnique(xs: seq<Block>, ys: seq<Block>)
    requires Canonical(xs) && Canonical(ys)
    requires forall u :: Covered(xs, u) <==> Covered(ys, u)
    ensures xs == ys
    decreases |xs|
  {
    if xs == [] {
      if ys != [] {
        assert Covered(ys, ys[0].off) by { assert ys[0].Has(ys[0].off); }
      }
    } else {
      FirstBlockLeast(xs, ys);
      FirstBlockLeast(ys, xs);
      FirstBlockEnd(xs, ys);
      FirstBlockEnd(ys, xs);
      OrderedTail(xs);
      OrderedTail(ys);
      forall u ensures Covered(xs[1..], u) <==> Covered(ys[1..], u) {
        CoveredTail(xs, u);
        CoveredTail(ys, u);
      }
      CanonicalUnique(xs[1..], ys[1..]);
      assert xs == [xs[0]] + xs[1..] && ys == [ys[0]] + ys[1..];
    }
  }

  ghost function Interval(lo: int, hi: int): (r: set<int>)
    ensures forall u :: u in r <==> lo <= u < hi
    ensures lo <= hi ==> |r| == hi - lo
    decreases hi - lo
  {
    if lo < hi then Interval(lo, hi - 1) + {hi - 1} else {}
  }

  ghost function FreeUnits(bs: seq<Block>): set<int> {
    if bs == [] then {} else Interval(bs[0].off, bs[0].End()) + FreeUnits(bs[1..])
  }

  lemma CoveredSplit(bs: seq<Block>, u: int)
    requires bs != []
    ensures Covered(bs, u) <==> bs[0].Has(u) || Covered(bs[1..], u)
  {}

  lemma {:induction false} FreeUnitsMember(bs: seq<Block>, u: int)
    ensures u in FreeUnits(bs) <==> Covered(bs, u)
  {
    if bs != [] {
      FreeUnitsMember(bs[1..], u);
      CoveredSplit(bs, u);
    }
  }

  /** The unit count of a page is the number of units its list covers. */
  lemma {:induction false} FreeUnitsCount(bs: seq<Block>)
    requires Ordered(bs)
    ensures |FreeUnits(bs)| == TotalLen(bs)
    decreases |bs|
  {
    if bs != [] {
      var first, rest := Interval(bs[0].off, bs[0].End()), FreeUnits(bs[1..]);
      OrderedTail(bs);
      FreeUnitsCount(bs[1..]);
      forall u ensures u !in first || u !in rest {
        FreeUnitsMember(bs[1..], u);
        CoveredTail(bs, u);
      }
      assert first !! rest;
    }
  }

  lemma FreeUnitsSize(bs: seq<Block>)
    requires Ordered(bs)
    ensures forall u :: u in FreeUnits(bs) <==> Covered(bs, u)
    ensures |FreeUnits(bs)| == TotalLen(bs)
  {
    FreeUnitsCount(bs);
    forall u ensures u in FreeUnits(bs) <==> Covered(bs, u) {
      FreeUnitsMember(bs, u);
    }
  }

  lemma FullCovers(bs: seq<Block>, b: Block, u: int)
    requires Ordered(bs) && b.End() <= PAGE_UNITS
    requires forall v :: b.Has(v) ==> !Covered(bs, v)
    requires TotalLen(bs) + b.len == PAGE_UNITS
    requires 0 <= u < PAGE_UNITS
    ensures Covered(bs, u) || b.Has(u)
  {
    FreeUnitsSize(bs);
    var block := Interval(b.off, b.End());
    assert FreeUnits(bs) !! block by {
      assert forall v :: v in block ==> b.Has(v);
    }
    var used := FreeUnits(bs) + block;
    FullInterval(used, PAGE_UNITS, u);
  }

  lemma OnlyBlock(bs: seq<Block>, b: Block)
    requires Ordered(bs) && b.End() <= PAGE_UNITS
    requires forall u :: b.Has(u) ==> !Covered(bs, u)
    requires forall u :: 0 <= u < PAGE_UNITS ==> Covered(bs, u) || b.Has(u)
    ensures TotalLen(bs) + b.len == PAGE_UNITS
  {
    FreeUnitsSize(bs);
    var block := Interval(b.off, b.End());
    assert FreeUnits(bs) !! block by {
      assert forall v :: v in block ==> b.Has(v);
    }
    SameInterval(FreeUnits(bs) + block, PAGE_UNITS);
  }

  lemma SameInterval(used: set<int>, n: nat)
    requires forall v :: v in used <==> 0 <= v < n
    ensures |used| == n
  {
    assert used == Interval(0, n);
  }

  /** Free units and one block in use fill the page exactly if there is no unit that is neither. */
  lemma FullPage(bs: seq<Block>, b: Block)
    requires Ordered(bs) && b.End() <= PAGE_UNITS
    requires forall v :: b.Has(v) ==> !Covered(bs, v)
    ensures TotalLen(bs) + b.len == PAGE_UNITS <==> forall u :: 0 <= u < PAGE_UNITS ==> Covered(bs, u) || b.Has(u)
  {
    if TotalLen(bs) + b.len == PAGE_UNITS {
      forall u | 0 <= u < PAGE_UNITS ensures Covered(bs, u) || b.Has(u) {
        FullCovers(bs, b, u);
      }
    } else if forall u :: 0 <= u < PAGE_UNITS ==> Covered(bs, u) || b.Has(u) {
      OnlyBlock(bs, b);
    }
  }

  /** A block in use and the free units do not exceed the page. */
  lemma FreeUnitsBound(bs: seq<Block>, b: Block)
    requires Ordered(bs) && b.End() <= PAGE_UNITS
    requires forall v :: b.Has(v) ==> !Covered(bs, v)
    ensures TotalLen(bs) + b.len <= PAGE_UNITS
  {
    FreeUnitsSize(bs);
    var block := Interval(b.off, b.End());
    assert FreeUnits(bs) !! block by {
      assert forall v :: v in block ==> b.Has(v);
    }
    IntervalBound(FreeUnits(bs) + block, PAGE_UNITS);
  }

  lemma IntervalBound(used: set<int>, n: nat)
    requires forall v :: v in used ==> 0 <= v < n
    ensures |used| <= n
  {
    SubsetSize(used, Interval(0, n));
  }

  lemma FullInterval(used: set<int>, n: nat, u: int)
    requires forall v :: v in used ==> 0 <= v < n
    requires |used| == n && 0 <= u < n
    ensures u in used
  {
    if u !in used {
      SubsetSize(used, Interval(0, n) - {u});
    }
  }

  lemma {:induction false} SubsetSize<T>(a: set<T>, b: set<T>)
    requires a <= b
    ensures |a| <= |b|
    decreases a
  {
    if a != {} {
      var x :| x in a;
      SubsetSize(a - {x}, b - {x});
    }
  }

  // ---------------------------------------------------------------- alignment and best fit

  predicate PowerOfTwo(a: nat) {
    a == 1 || (a >= 2 && a % 2 == 0 && PowerOfTwo(a / 2))
  }

  /** The kernel's ALIGN(x, a): the least multiple of a that is >= x (a is a power of two). */
  function AlignUp(x: nat, a: nat): (r: nat)
    requires a > 0
    ensures x <= r < x + a && r % a == 0
  {
    AlignDivides((x + a - 1) / a, a);
    (x + a - 1) / a * a
  }

  lemma AlignDivides(q: int, a: nat)
    requires a > 0
    ensures q * a % a == 0
  {
    ModUnique(q * a, a, q, 0);
  }

  /** Units skipped at the head of a free block at unit `off` to reach the wanted alignment. */
  function AlignDelta(base: nat, off: nat, align: nat): nat {
    if align == 0 then 0
    else (AlignUp(base + SLOB_UNIT * off, align) - (base + SLOB_UNIT * off)) / SLOB_UNIT
  }

  ghost predicate ValidAlign(align: nat) {
    align == 0 || PowerOfTwo(align)
  }

  predicate AlignedTo(addr: nat, align: nat) {
    align == 0 || addr % align == 0
  }

  lemma MultipleOfEven(x: int, a: int)
    requires a > 0 && a % 2 == 0 && x % a == 0
    ensures x % 2 == 0
  {
    var h, q := a / 2, x / a;
    assert x == (2 * h) * q;
    assert x == 2 * (h * q);
  }

  /** Skipping AlignDelta units lands exactly on the aligned address. */
  lemma AlignDeltaExact(base: nat, off: nat, align: nat)
    requires ValidAlign(align) && base % SLOB_UNIT == 0
    ensures AlignedTo(base + SLOB_UNIT * (off + AlignDelta(base, off, align)), align)
    ensures align > 0 ==>
      base + SLOB_UNIT * (off + AlignDelta(base, off, align)) == AlignUp(base + SLOB_UNIT * off, align)
  {
    hide AlignUp;
    if align > 0 {
      AlignUpEven(base + SLOB_UNIT * off, align);
    }
  }

  lemma PageAligned(base: nat, off: nat, align: nat)
    requires base % PAGE_SIZE == 0 && ValidAlign(align)
    ensures AlignedTo(base + SLOB_UNIT * (off + AlignDelta(base, off, align)), align)
  {
    hide AlignDelta, AlignedTo, ValidAlign;
    assert base % SLOB_UNIT == 0;
    AlignDeltaExact(base, off, align);
  }

  lemma AlignUpEven(addr: nat, align: nat)
    requires align > 0 && (align == 1 || align % 2 == 0) && addr % 2 == 0
    ensures (AlignUp(addr, align) - addr) % 2 == 0
  {
    hide AlignUp;
    var r := AlignUp(addr, align);
    assert r % 2 == 0 by {
      if align > 1 {
        MultipleOfEven(r, align);
      }
    }
  }

  lemma {:induction false} PowerOfTwoDivides(a: nat, b: nat)
    requires PowerOfTwo(a) && PowerOfTwo(b) && a <= b
    ensures b % a == 0
  {
    if a == 1 {
    } else {
      PowerOfTwoDivides(a / 2, b / 2);
      var q := (b / 2) / (a / 2);
      assert b / 2 == q * (a / 2);
      assert b == q * a by { assert 2 * (q * (a / 2)) == q * (2 * (a / 2)); }
      AlignDivides(q, a);
    }
  }

  /** At the start of a page, every power-of-two alignment up to the page size is already met. */
  lemma PageStartAligned(base: nat, align: nat)
    requires base % PAGE_SIZE == 0 && ValidAlign(align) && align <= PAGE_SIZE
    ensures AlignDelta(base, 0, align) == 0
  {
    if align > 0 {
      assert PowerOfTwo(2) && PowerOfTwo(4) && PowerOfTwo(8) && PowerOfTwo(16) && PowerOfTwo(32)
        && PowerOfTwo(64) && PowerOfTwo(128) && PowerOfTwo(256) && PowerOfTwo(512)
        && PowerOfTwo(1024) && PowerOfTwo(2048);
      assert PowerOfTwo(PAGE_SIZE);
      PowerOfTwoDivides(align, PAGE_SIZE);
      var m, n := PAGE_SIZE / align, base / PAGE_SIZE;
      assert base == (n * m) * align by {
        assert base == n * PAGE_SIZE && PAGE_SIZE == m * align;
        assert n * (m * align) == (n * m) * align;
      }
      ModUnique(base + align - 1, align, n * m, align - 1);
    }
  }

  predicate Fits(b: Block, base: nat, units: nat, align: nat) {
    b.len >= units + AlignDelta(base, b.off, align)
  }

  /** What is left over of a fitting block: the quantity best fit minimises. */
  function Slack(b: Block, base: nat, units: nat, align: nat): int {
    b.len - (units + AlignDelta(base, b.off, align))
  }

  /** bs[k] is the best fit: least slack, and the first in address order among equals. */
  ghost predicate IsBestFit(bs: seq<Block>, k: int, base: nat, units: nat, align: nat) {
    && 0 <= k < |bs| && Fits(bs[k], base, units, align)
    && (forall i :: 0 <= i < |bs| && Fits(bs[i], base, units, align) ==>
          Slack(bs[k], base, units, align) <= Slack(bs[i], base, units, align))
    && (forall i :: 0 <= i < k && Fits(bs[i], base, units, align) ==>
          Slack(bs[k], base, units, align) < Slack(bs[i], base, units, align))
  }

  /** The same among the first n blocks only; a negative k says that none of them fits. */
  ghost predicate BestAmong(bs: seq<Block>, n: int, k: int, base: nat, units: nat, align: nat) {
    && 0 <= n <= |bs| && k < n
    && if k < 0 then forall i :: 0 <= i < n ==> !Fits(bs[i], base, units, align)
       else
         && Fits(bs[k], base, units, align)
         && (forall i :: 0 <= i < n && Fits(bs[i], base, units, align) ==>
               Slack(bs[k], base, units, align) <= Slack(bs[i], base, units, align))
         && (forall i :: 0 <= i < k && Fits(bs[i], base, units, align) ==>
               Slack(bs[k], base, units, align) < Slack(bs[i], base, units, align))
  }

  /** Best fit is a function of the list: at most one block qualifies. */
  lemma BestFitUnique(bs: seq<Block>, j: int, k: int, base: nat, units: nat, align: nat)
    requires IsBestFit(bs, j, base, units, align) && IsBestFit(bs, k, base, units, align)
    ensures j == k
  {}

  // ---------------------------------------------------------------- carving a block out

  /** What remains of `b` when `units` units are taken at distance `delta` from its start. */
  function Carve(b: Block, delta: nat, units: nat): seq<Block>
    requires b.len >= units + delta
  {
    (if delta > 0 then [Block(b.off, delta)] else [])
    + (if b.len > delta + units then [Block(b.off + delta + units, b.len - delta - units)] else [])
  }

  function Take(bs: seq<Block>, k: nat, delta: nat, units: nat): seq<Block>
    requires k < |bs| && bs[k].len >= units + delta
  {
    bs[..k] + Carve(bs[k], delta, units) + bs[k + 1..]
  }

  /** Splitting off the head first and then taking from the rest is the same carving. */
  lemma SplitThenTake(bs: seq<Block>, k: nat, delta: nat, units: nat, split: seq<Block>)
    requires k < |bs| && 0 < delta && bs[k].len >= units + delta && units > 0
    requires split == bs[..k] + [Block(bs[k].off, delta), Block(bs[k].off + delta, bs[k].len - delta)] + bs[k + 1..]
    ensures k + 1 < |split| && split[k + 1] == Block(bs[k].off + delta, bs[k].len - delta)
    ensures Take(split, k + 1, 0, units) == Take(bs, k, delta, units)
  {}

  lemma TotalLenZero(bs: seq<Block>)
    requires Ordered(bs)
    ensures TotalLen(bs) == 0 <==> bs == []
  {}

  lemma TotalLenNone()
    ensures TotalLen([]) == 0
    ensures forall b: Block :: TotalLen([b]) == b.len
  {}

  lemma CanonicalOrdered(bs: seq<Block>)
    requires Canonical(bs)
    ensures Ordered(bs)
  {}

  lemma CarveLen(b: Block, delta: nat, units: nat)
    requires b.len >= units + delta
    ensures TotalLen(Carve(b, delta, units)) == b.len - units
  {
    var head := if delta > 0 then [Block(b.off, delta)] else [];
    var tail := if b.len > delta + units then [Block(b.off + delta + units, b.len - delta - units)] else [];
    TotalLenConcat(head, tail);
  }

  lemma CarveCovers(b: Block, delta: nat, units: nat, u: int)
    requires b.len >= units + delta
    ensures Covered(Carve(b, delta, units), u) <==> b.Has(u) && !Block(b.off + delta, units).Has(u)
  {
    var head := if delta > 0 then [Block(b.off, delta)] else [];
    var tail := if b.len > delta + units then [Block(b.off + delta + units, b.len - delta - units)] else [];
    CoveredConcat(head, tail, u);
    CoveredOne(Block(b.off, delta), u);
    if b.len > delta + units {
      CoveredOne(Block(b.off + delta + units, b.len - delta - units), u);
    }
  }

  /** Both parts of a list cut at index i are canonical, or ordered, when the list is. */
  lemma CutCanonical(bs: seq<Block>, i: nat)
    requires i <= |bs|
    ensures Canonical(bs) ==> Canonical(bs[..i]) && Canonical(bs[i..])
    ensures Ordered(bs) ==> Ordered(bs[..i]) && Ordered(bs[i..])
  {
    assert forall k :: 0 <= k < |bs| - i ==> bs[i..][k] == bs[i + k];
  }

  lemma ConcatOrdered(xs: seq<Block>, ys: seq<Block>)
    requires Ordered(xs) && Ordered(ys)
    requires xs != [] && ys != [] ==> xs[|xs| - 1].End() <= ys[0].off
    ensures Ordered(xs + ys)
  {
    var zs, n := xs + ys, |xs|;
    forall i, j | 0 <= i < j < |zs| ensures zs[i].End() <= zs[j].off {
      if j < n {
        assert zs[i] == xs[i] && zs[j] == xs[j];
      } else if n <= i {
        assert zs[i] == ys[i - n] && zs[j] == ys[j - n];
      } else {
        assert zs[i] == xs[i] && zs[j] == ys[j - n];
        assert xs[i].End() <= xs[n - 1].End() && ys[0].off <= ys[j - n].off;
      }
    }
  }

  lemma ConcatCanonical(xs: seq<Block>, ys: seq<Block>)
    requires Canonical(xs) && Canonical(ys)
    requires xs != [] && ys != [] ==> xs[|xs| - 1].End() < ys[0].off
    ensures Canonical(xs + ys)
  {
    ConcatOrdered(xs, ys);
    forall i, j | 0 <= i < j < |xs + ys| ensures (xs + ys)[i].End() < (xs + ys)[j].off {
      if i < |xs| <= j {
        assert xs[i].End() <= xs[|xs| - 1].End() && ys[0].off <= ys[j - |xs|].off;
      }
    }
  }

  /** The bounds of the neighbours of bs[k]. */
  lemma Neighbours(bs: seq<Block>, k: nat)
    requires Ordered(bs) && k < |bs|
    ensures bs[k].len >= 1 && bs[k].End() <= PAGE_UNITS
    ensures k > 0 ==> bs[k - 1].End() <= bs[k].off
    ensures k + 1 < |bs| ==> bs[k].End() <= bs[k + 1].off
    ensures Canonical(bs) && k > 0 ==> bs[k - 1].End() < bs[k].off
    ensures Canonical(bs) && k + 1 < |bs| ==> bs[k].End() < bs[k + 1].off
  {}

  /** Replacing bs[k] by a canonical list inside its bounds keeps the list canonical. */
  lemma SpliceCanonical(bs: seq<Block>, k: nat, mid: seq<Block>)
    requires Canonical(bs) && k < |bs| && Canonical(mid)
    requires mid != [] ==> bs[k].off <= mid[0].off && mid[|mid| - 1].End() <= bs[k].End()
    ensures Canonical(bs[..k] + mid + bs[k + 1..])
  {
    CanonicalOrdered(bs);
    hide Canonical, Ordered;
    Neighbours(bs, k);
    CutCanonical(bs, k);
    CutCanonical(bs, k + 1);
    ConcatCanonical(bs[..k], mid);
    ConcatCanonical(bs[..k] + mid, bs[k + 1..]);
  }

  /** Replacing bs[k] by an ordered list inside its bounds keeps the list ordered. */
  lemma SpliceOrdered(bs: seq<Block>, k: nat, mid: seq<Block>)
    requires Ordered(bs) && k < |bs| && Ordered(mid)
    requires mid != [] ==> bs[k].off <= mid[0].off && mid[|mid| - 1].End() <= bs[k].End()
    ensures Ordered(bs[..k] + mid + bs[k + 1..])
  {}

  lemma OrderedSmall(b: Block)
    ensures Ordered([])
    ensures 1 <= b.len && b.End() <= PAGE_UNITS ==> Canonical([b]) && Ordered([b])
  {}

  lemma TakeCanonical(bs: seq<Block>, k: nat, delta: nat, units: nat)
    requires Canonical(bs) && k < |bs| && bs[k].len >= units + delta && units > 0
    ensures Canonical(Take(bs, k, delta, units))
    ensures TotalLen(Take(bs, k, delta, units)) == TotalLen(bs) - units
  {
    CanonicalOrdered(bs);
    Neighbours(bs, k);
    hide Canonical, Ordered;
    var mid := Carve(bs[k], delta, units);
    CarveCanonical(bs[k], delta, units);
    CarveLen(bs[k], delta, units);
    TotalLenSplice(bs, k, mid);
    SpliceCanonical(bs, k, mid);
  }

  lemma CarveCanonical(b: Block, delta: nat, units: nat)
    requires b.len >= units + delta && units > 0 && b.End() <= PAGE_UNITS
    ensures var mid := Carve(b, delta, units);
            Canonical(mid) && (mid != [] ==> b.off <= mid[0].off && mid[|mid| - 1].End() <= b.End())
  {}

  /** Membership in a list split around index k. */
  lemma CoveredAround(bs: seq<Block>, k: nat, mid: seq<Block>, u: int)
    requires Canonical(bs) && k < |bs|
    ensures Covered(bs[..k] + mid + bs[k + 1..], u) <==>
            Covered(bs[..k], u) || Covered(mid, u) || Covered(bs[k + 1..], u)
    ensures Covered(bs, u) <==> Covered(bs[..k], u) || bs[k].Has(u) || Covered(bs[k + 1..], u)
    ensures bs[k].Has(u) ==> !Covered(bs[..k], u) && !Covered(bs[k + 1..], u)
  {
    CoveredConcat(bs[..k] + mid, bs[k + 1..], u);
    CoveredConcat(bs[..k], mid, u);
    assert bs == bs[..k] + [bs[k]] + bs[k + 1..];
    CoveredConcat(bs[..k] + [bs[k]], bs[k + 1..], u);
    CoveredConcat(bs[..k], [bs[k]], u);
    CoveredOne(bs[k], u);
  }

  /** Taking removes exactly the taken units from the free set. */
  lemma TakeCovers(bs: seq<Block>, k: nat, delta: nat, units: nat)
    requires Canonical(bs) && k < |bs| && bs[k].len >= units + delta && units > 0
    ensures CoversWithout(Take(bs, k, delta, units), bs, Block(bs[k].off + delta, units))
  {
    var b := Block(bs[k].off + delta, units);
    forall u
      ensures Covered(Take(bs, k, delta, units), u) <==> Covered(bs, u) && !b.Has(u)
      ensures b.Has(u) ==> Covered(bs, u)
    {
      CoveredAround(bs, k, Carve(bs[k], delta, units), u);
      CarveCovers(bs[k], delta, units, u);
    }
  }

  // ---------------------------------------------------------------- putting a block back

  /** A block whose units are all in use lies in the gap between two neighbouring free blocks. */
  lemma GapBounds(bs: seq<Block>, b: Block, k: nat)
    requires Ordered(bs) && k <= |bs| && b.len > 0
    requires forall u :: b.Has(u) ==> !Covered(bs, u)
    requires k > 0 ==> bs[k - 1].off <= b.off
    requires k < |bs| ==> b.off <= bs[k].off
    ensures k > 0 ==> bs[k - 1].End() <= b.off
    ensures k < |bs| ==> b.End() <= bs[k].off
  {
    assert b.Has(b.off) && !Covered(bs, b.off);
    if k < |bs| {
      assert bs[k].Has(bs[k].off);
      assert Covered(bs, bs[k].off);
    }
  }

  /** bs with the blocks bs[i..j] replaced by ms. */
  function Replace(bs: seq<Block>, i: nat, j: nat, ms: seq<Block>): seq<Block>
    requires i <= j <= |bs|
  {
    bs[..i] + ms + bs[j..]
  }

  lemma ReplaceCanonical(bs: seq<Block>, i: nat, j: nat, ms: seq<Block>)
    requires Canonical(bs) && i <= j <= |bs| && Canonical(ms) && ms != []
    requires i > 0 ==> bs[i - 1].End() < ms[0].off
    requires j < |bs| ==> ms[|ms| - 1].End() < bs[j].off
    ensures Canonical(Replace(bs, i, j, ms))
  {
    hide Canonical;
    CutCanonical(bs, i);
    CutCanonical(bs, j);
    ConcatCanonical(bs[..i], ms);
    ConcatCanonical(bs[..i] + ms, bs[j..]);
  }

  lemma ReplaceCovers(bs: seq<Block>, i: nat, j: nat, ms: seq<Block>, b: Block)
    requires i <= j <= |bs|
    requires forall u :: Covered(ms, u) <==> Covered(bs[i..j], u) || b.Has(u)
    requires forall u :: b.Has(u) ==> !Covered(bs, u)
    ensures CoversWithout(bs, Replace(bs, i, j, ms), b)
  {
    forall u
      ensures Covered(bs, u) <==> Covered(Replace(bs, i, j, ms), u) && !b.Has(u)
      ensures b.Has(u) ==> Covered(Replace(bs, i, j, ms), u)
    {
      CoveredConcat(bs[..i] + ms, bs[j..], u);
      CoveredConcat(bs[..i], ms, u);
      assert bs == bs[..i] + bs[i..j] + bs[j..];
      CoveredConcat(bs[..i] + bs[i..j], bs[j..], u);
      CoveredConcat(bs[..i], bs[i..j], u);
    }
  }

  lemma ReplaceLen(bs: seq<Block>, i: nat, j: nat, ms: seq<Block>)
    requires i <= j <= |bs|
    ensures TotalLen(Replace(bs, i, j, ms)) == TotalLen(bs) - TotalLen(bs[i..j]) + TotalLen(ms)
  {
    TotalLenConcat(bs[..i] + ms, bs[j..]);
    TotalLenConcat(bs[..i], ms);
    assert bs == bs[..i] + bs[i..j] + bs[j..];
    TotalLenConcat(bs[..i] + bs[i..j], bs[j..]);
    TotalLenConcat(bs[..i], bs[i..j]);
  }

  lemma PairFacts(x: Block, y: Block, u: int)
    ensures Covered([x, y], u) <==> x.Has(u) || y.Has(u)
    ensures TotalLen([x, y]) == x.len + y.len
  {
    assert [x, y] == [x] + [y];
    CoveredConcat([x], [y], u);
    CoveredOne(x, u);
    CoveredOne(y, u);
    TotalLenConcat([x], [y]);
  }

  /** Block b joined with the free block y, if that one starts where b ends. */
  function JoinNext(b: Block, ys: seq<Block>): Block {
    if ys != [] && b.End() == ys[0].off then Block(b.off, b.len + ys[0].len) else b
  }

  function JoinCount(b: Block, ys: seq<Block>): nat {
    if ys != [] && b.End() == ys[0].off then 1 else 0
  }

  /** bs with b put before its first block, joined to it when they touch. */
  function InsertedFront(bs: seq<Block>, b: Block): seq<Block> {
    Replace(bs, 0, JoinCount(b, bs), [JoinNext(b, bs)])
  }

  lemma InsertFront(bs: seq<Block>, b: Block)
    requires Canonical(bs) && b.len > 0 && b.End() <= PAGE_UNITS
    requires forall u :: b.Has(u) ==> !Covered(bs, u)
    requires bs != [] ==> b.off < bs[0].off
    ensures Canonical(InsertedFront(bs, b))
    ensures CoversWithout(bs, InsertedFront(bs, b), b)
    ensures TotalLen(InsertedFront(bs, b)) == TotalLen(bs) + b.len
  {
    var j, m := JoinCount(b, bs), JoinNext(b, bs);
    GapBounds(bs, b, 0);
    ReplaceCanonical(bs, 0, j, [m]);
    forall u ensures Covered([m], u) <==> Covered(bs[0..j], u) || b.Has(u) {
      CoveredOne(m, u);
      if j == 1 {
        CoveredOne(bs[0], u);
        assert bs[0..1] == [bs[0]];
      }
    }
    assert j == 1 ==> bs[0..1] == [bs[0]];
    ReplaceCovers(bs, 0, j, [m], b);
    ReplaceLen(bs, 0, j, [m]);
  }

  /** Block b joined with the free block p before it, if that one ends where b starts. */
  function JoinPrev(p: Block, b: Block): seq<Block> {
    if p.End() == b.off then [Block(p.off, p.len + b.len)] else [p, b]
  }

  /** bs with b inserted after free block i, joined to either neighbour when they touch. */
  function InsertedAfter(bs: seq<Block>, i: nat, b: Block): seq<Block>
    requires i < |bs|
  {
    var ys := bs[i + 1..];
    Replace(bs, i, i + 1 + JoinCount(b, ys), JoinPrev(bs[i], JoinNext(b, ys)))
  }

  ghost predicate Insertable(bs: seq<Block>, i: nat, b: Block) {
    && Canonical(bs) && b.len > 0 && b.End() <= PAGE_UNITS && i < |bs|
    && (forall u :: b.Has(u) ==> !Covered(bs, u))
    && bs[i].off <= b.off && (i + 1 < |bs| ==> b.off <= bs[i + 1].off)
  }

  lemma JoinPrevCanonical(bs: seq<Block>, i: nat, j: nat, m: Block)
    requires Canonical(bs) && i < j <= |bs| && m.len > 0 && m.End() <= PAGE_UNITS
    requires bs[i].End() <= m.off && (j < |bs| ==> m.End() < bs[j].off)
    ensures Canonical(Replace(bs, i, j, JoinPrev(bs[i], m)))
  {
    var ms := JoinPrev(bs[i], m);
    assert Canonical(ms) && ms[0].off == bs[i].off && ms[|ms| - 1].End() == m.End();
    ReplaceCanonical(bs, i, j, ms);
  }

  lemma InsertAfterCanonical(bs: seq<Block>, i: nat, b: Block)
    requires Canonical(bs) && b.len > 0 && b.End() <= PAGE_UNITS && i < |bs|
    requires bs[i].End() <= b.off && (i + 1 < |bs| ==> b.End() <= bs[i + 1].off)
    ensures Canonical(InsertedAfter(bs, i, b))
  {
    var ys := bs[i + 1..];
    if ys != [] && b.End() == ys[0].off {
      JoinPrevCanonical(bs, i, i + 2, JoinNext(b, ys));
    } else {
      JoinPrevCanonical(bs, i, i + 1, b);
    }
  }

  lemma InsertAfterMiddle(bs: seq<Block>, i: nat, b: Block, u: int)
    requires Insertable(bs, i, b)
    ensures var ys := bs[i + 1..];
            var ms, olds := JoinPrev(bs[i], JoinNext(b, ys)), bs[i..i + 1 + JoinCount(b, ys)];
            && (Covered(ms, u) <==> Covered(olds, u) || b.Has(u))
            && TotalLen(ms) == TotalLen(olds) + b.len
  {
    var ys := bs[i + 1..];
    GapBounds(bs, b, i + 1);
    JoinPrevFacts(bs[i], JoinNext(b, ys), u);
    if JoinCount(b, ys) == 0 {
      assert bs[i..i + 1] == [bs[i]];
      CoveredOne(bs[i], u);
    } else {
      assert bs[i..i + 2] == [bs[i], bs[i + 1]];
      PairFacts(bs[i], bs[i + 1], u);
    }
  }

  lemma InsertAfterCovers(bs: seq<Block>, i: nat, b: Block)
    requires Insertable(bs, i, b)
    ensures CoversWithout(bs, InsertedAfter(bs, i, b), b)
  {
    hide Canonical;
    var ys := bs[i + 1..];
    var ms, j := JoinPrev(bs[i], JoinNext(b, ys)), i + 1 + JoinCount(b, ys);
    forall u ensures Covered(ms, u) <==> Covered(bs[i..j], u) || b.Has(u) {
      InsertAfterMiddle(bs, i, b, u);
    }
    ReplaceCovers(bs, i, j, ms, b);
  }

  /** The insertion adds exactly the units of b to the free set. */
  lemma InsertAfter(bs: seq<Block>, i: nat, b: Block)
    requires Insertable(bs, i, b)
    ensures Canonical(InsertedAfter(bs, i, b))
    ensures CoversWithout(bs, InsertedAfter(bs, i, b), b)
    ensures TotalLen(InsertedAfter(bs, i, b)) == TotalLen(bs) + b.len
  {
    CanonicalOrdered(bs);
    hide Canonical, Ordered, CoversWithout;
    var ys := bs[i + 1..];
    GapBounds(bs, b, i + 1);
    InsertAfterCanonical(bs, i, b);
    InsertAfterCovers(bs, i, b);
    InsertAfterMiddle(bs, i, b, 0);
    ReplaceLen(bs, i, i + 1 + JoinCount(b, ys), JoinPrev(bs[i], JoinNext(b, ys)));
  }

  lemma JoinPrevFacts(p: Block, b: Block, u: int)
    requires p.End() <= b.off
    ensures Covered(JoinPrev(p, b), u) <==> p.Has(u) || b.Has(u)
    ensures TotalLen(JoinPrev(p, b)) == p.len + b.len
  {
    PairFacts(p, b, u);
    CoveredOne(Block(p.off, p.len + b.len), u);
  }

  /**
   Allocating a block and freeing it again restores the list: any canonical list that covers
   what was left plus the freed block is the list there was before.
   */
  lemma TakeThenInsert(before: seq<Block>, mid: seq<Block>, after: seq<Block>, b: Block)
    requires Canonical(before) && Canonical(mid) && Canonical(after)
    requires CoversWithout(mid, before, b) && CoversWithout(mid, after, b)
    ensures after == before && TotalLen(after) == TotalLen(before)
  {
    forall u ensures Covered(after, u) <==> Covered(before, u) {
      assert b.Has(u) || (Covered(mid, u) <==> Covered(after, u));
      assert b.Has(u) || (Covered(mid, u) <==> Covered(before, u));
    }
    CanonicalUnique(before, after);
  }
}
