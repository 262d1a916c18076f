/**
 The SLOB allocator proper: three lists of partially free pages, slob_alloc and slob_free, and
 the two byte counters behind sys_get_slob_amt_claimed and sys_get_slob_amt_free.

 The invariant `SlobHeap.Valid` holds after every sequence of Alloc, matching Free and Store.
 */
module SlobHeaps {
  import opened Collections
  import opened SlobFreeList
  import opened SlobPages

  const SLOB_BREAK1: nat := 256
  const SLOB_BREAK2: nat := 1024

  /** Which of the lists small, medium and large serves a request of this size. */
  function SizeClass(size: nat): nat {
    if size < SLOB_BREAK1 then 0 else if size < SLOB_BREAK2 then 1 else 2
  }

  /** An allocated block: its page and its first unit, mapped to the size it was asked for. */
  type Live = map<(SlobPage, nat), nat>

  ghost function LiveBlock(live: Live, p: SlobPage, o: nat): Block
    requires (p, o) in live
  {
    Block(o, SlobUnits(live[(p, o)]))
  }

  ghost predicate LiveAt(live: Live, p: SlobPage, u: int) {
    exists o :: (p, o) in live && LiveBlock(live, p, o).Has(u)
  }

  ghost predicate LiveDisjoint(live: Live, p: SlobPage, bs: seq<Block>) {
    && (forall o :: (p, o) in live ==> live[(p, o)] > 0 && LiveBlock(live, p, o).End() <= PAGE_UNITS)
    && (forall o, u :: (p, o) in live && LiveBlock(live, p, o).Has(u) ==> !Covered(bs, u))
    && (forall o, o' :: (p, o) in live && (p, o') in live && o < o' ==> LiveBlock(live, p, o).End() <= o')
  }

  /** The live blocks of page p and its free list bs partition the page's units. */
  ghost predicate Partitioned(live: Live, p: SlobPage, bs: seq<Block>) {
    && LiveDisjoint(live, p, bs)
    && (forall u :: 0 <= u < PAGE_UNITS ==> Covered(bs, u) || LiveAt(live, p, u))
  }

  lemma PartitionAlloc(live: Live, p: SlobPage, bs: seq<Block>, bs': seq<Block>, o: nat, size: nat)
    requires Partitioned(live, p, bs) && size > 0 && o + SlobUnits(size) <= PAGE_UNITS
    requires CoversWithout(bs', bs, Block(o, SlobUnits(size)))
    ensures (p, o) !in live && Partitioned(live[(p, o) := size], p, bs')
  {
    var b := Block(o, SlobUnits(size));
    var live' := live[(p, o) := size];
    assert b.Has(o);
    assert (p, o) in live ==> LiveBlock(live, p, o).Has(o);
    forall q | (p, q) in live ensures LiveBlock(live, p, q).End() <= o || b.End() <= q {
      assert LiveBlock(live, p, q).Has(q);
      assert b.Has(q) || !b.Has(q);
      assert LiveBlock(live, p, q).Has(o) || !LiveBlock(live, p, q).Has(o);
    }
    forall u | 0 <= u < PAGE_UNITS ensures Covered(bs', u) || LiveAt(live', p, u) {
      if b.Has(u) {
        assert LiveBlock(live', p, o).Has(u);
      } else if !Covered(bs, u) {
        var q :| (p, q) in live && LiveBlock(live, p, q).Has(u);
        assert LiveBlock(live', p, q).Has(u);
      }
    }
    assert LiveDisjoint(live', p, bs') by {
      forall q, u | (p, q) in live' && LiveBlock(live', p, q).Has(u) ensures !Covered(bs', u) {
        if q != o {
          assert LiveBlock(live, p, q).Has(u);
        }
      }
    }
  }

  lemma PartitionFree(live: Live, p: SlobPage, bs: seq<Block>, bs': seq<Block>, o: nat)
    requires Partitioned(live, p, bs) && (p, o) in live
    requires CoversWithout(bs, bs', LiveBlock(live, p, o))
    ensures Partitioned(live - {(p, o)}, p, bs')
  {
    var b, live' := LiveBlock(live, p, o), live - {(p, o)};
    forall u | 0 <= u < PAGE_UNITS ensures Covered(bs', u) || LiveAt(live', p, u) {
      if !b.Has(u) && !Covered(bs, u) {
        var q :| (p, q) in live && LiveBlock(live, p, q).Has(u);
        assert LiveBlock(live', p, q).Has(u);
      }
    }
    assert LiveDisjoint(live', p, bs') by {
      forall q, u | (p, q) in live' && LiveBlock(live', p, q).Has(u) ensures !Covered(bs', u) {
        assert LiveBlock(live, p, q).Has(u);
        assert !Covered(bs, u);
        assert !b.Has(u);
      }
    }
  }

  /** A page's partition depends only on its own live blocks. */
  lemma PartitionFrame(live: Live, live': Live, p: SlobPage, bs: seq<Block>)
    requires Partitioned(live, p, bs)
    requires forall o: nat :: (p, o) in live <==> (p, o) in live'
    requires forall o: nat :: (p, o) in live ==> live[(p, o)] == live'[(p, o)]
    ensures Partitioned(live', p, bs)
  {}

  /** slob_free gives a page back exactly when the freed block was its last live block. */
  lemma LastLiveBlock(live: Live, p: SlobPage, bs: seq<Block>, o: nat)
    requires Partitioned(live, p, bs) && Canonical(bs) && (p, o) in live
    ensures TotalLen(bs) + LiveBlock(live, p, o).len == PAGE_UNITS <==> forall q :: (p, q) in live ==> q == o
  {
    var b := LiveBlock(live, p, o);
    FullPage(bs, b);
    if TotalLen(bs) + b.len == PAGE_UNITS {
      forall q | (p, q) in live ensures q == o {
        assert LiveBlock(live, p, q).Has(q);
        assert Covered(bs, q) || b.Has(q);
      }
    }
  }

  // ---------------------------------------------------------------- live bytes

  ghost function SumSizes(live: Live): nat {
    if live == map[] then 0
    else var k :| k in live; live[k] + SumSizes(live - {k})
  }

  lemma {:induction false} SumSizesRemove(live: Live, k: (SlobPage, nat))
    requires k in live
    ensures SumSizes(live) == live[k] + SumSizes(live - {k})
    decreases |live|
  {
    var j :| j in live && SumSizes(live) == live[j] + SumSizes(live - {j});
    if j != k {
      SumSizesRemove(live - {j}, k);
      SumSizesRemove(live - {k}, j);
      assert live - {j} - {k} == live - {k} - {j};
    }
  }

  lemma SumSizesAdd(live: Live, k: (SlobPage, nat), size: nat)
    requires k !in live
    ensures SumSizes(live[k := size]) == SumSizes(live) + size
  {
    SumSizesRemove(live[k := size], k);
    assert live[k := size] - {k} == live;
  }

  // ---------------------------------------------------------------- the page lists

  type Lists = ls: seq<seq<SlobPage>> | |ls| == 3 witness [[], [], []]

  ghost function OnLists(ls: Lists): multiset<SlobPage> {
    multiset(ls[0]) + multiset(ls[1]) + multiset(ls[2])
  }

  /** list_del of the i-th page of a list. */
  function RemoveAt(list: seq<SlobPage>, i: nat): seq<SlobPage>
    requires i < |list|
  {
    list[..i] + list[i + 1..]
  }

  lemma RemoveAtPages(list: seq<SlobPage>, i: nat)
    requires i < |list|
    ensures multiset(RemoveAt(list, i)) == multiset(list) - multiset{list[i]}
  {
    assert list == list[..i] + [list[i]] + list[i + 1..];
  }

  /** list_move_tail of the list head: the next search starts at the i-th page. */
  function StartAt(list: seq<SlobPage>, i: nat): seq<SlobPage> {
    if 0 < i < |list| then list[i..] + list[..i] else list
  }

  lemma StartAtPages(list: seq<SlobPage>, i: nat)
    ensures multiset(StartAt(list, i)) == multiset(list)
  {
    if 0 < i < |list| {
      assert list == list[..i] + list[i..];
    }
  }

  /** After serving from the i-th page of list c: drop it if it is full, start there next time. */
  function Advanced(ls: Lists, c: nat, i: nat, full: bool): Lists
    requires c < 3 && i < |ls[c]|
  {
    ls[c := StartAt(if full then RemoveAt(ls[c], i) else ls[c], i)]
  }

  /** The search for a request of this size starts at page p. */
  predicate StartsAt(ls: Lists, p: SlobPage, size: nat) {
    ls[SizeClass(size)] != [] && ls[SizeClass(size)][0] == p
  }

  lemma AdvancedStart(ls: Lists, c: nat, i: nat)
    requires c < 3 && i < |ls[c]|
    ensures var l := Advanced(ls, c, i, false)[c]; l != [] && l[0] == ls[c][i]
  {}

  /** set_slob_page_free: at the head of the list of its size class. */
  function Enlisted(ls: Lists, p: SlobPage, size: nat): Lists {
    ls[SizeClass(size) := [p] + ls[SizeClass(size)]]
  }

  lemma AddedPages(ls: Lists, c: nat, p: SlobPage)
    requires c < 3
    ensures OnLists(ls[c := [p] + ls[c]]) == OnLists(ls) + multiset{p}
  {}

  lemma AdvancedPages(ls: Lists, c: nat, i: nat, full: bool)
    requires c < 3 && i < |ls[c]|
    ensures OnLists(Advanced(ls, c, i, full)) == if full then OnLists(ls) - multiset{ls[c][i]} else OnLists(ls)
  {
    hide RemoveAt, StartAt;
    if full {
      RemoveAtPages(ls[c], i);
      StartAtPages(RemoveAt(ls[c], i), i);
      assert ls[c][i] in multiset(ls[c]);
    } else {
      StartAtPages(ls[c], i);
    }
  }

  /** list_del of page p from whichever list it is on. */
  function Unlisted(ls: Lists, p: SlobPage): Lists {
    [Del(ls[0], p), Del(ls[1], p), Del(ls[2], p)]
  }

  lemma UnlistedPages(ls: Lists, p: SlobPage)
    requires OnLists(ls)[p] == 1
    ensures OnLists(Unlisted(ls, p)) == OnLists(ls) - multiset{p}
  {
    hide Del;
    DelMultiset(ls[0], p);
    DelMultiset(ls[1], p);
    DelMultiset(ls[2], p);
    var m0, m1, m2 := multiset(ls[0]), multiset(ls[1]), multiset(ls[2]);
    assert (m0 - multiset{p}) + (m1 - multiset{p}) + (m2 - multiset{p}) == m0 + m1 + m2 - multiset{p};
  }

  /** No block of the page can take the request. */
  ghost predicate NoFit(p: SlobPage, size: nat, align: nat)
    reads p
  {
    forall i :: 0 <= i < |p.blocks| ==> !Fits(p.blocks[i], p.base, SlobUnits(size), align)
  }

  lemma {:induction false} TooFewUnits(bs: seq<Block>, i: nat)
    requires i < |bs|
    ensures bs[i].len <= TotalLen(bs)
  {
    if i > 0 {
      TooFewUnits(bs[1..], i - 1);
    }
  }

  lemma BestInside(bs: seq<Block>, k: int, base: nat, units: nat, align: nat)
    requires IsBestFit(bs, k, base, units, align)
    ensures 0 <= k < |bs|
  {}

  lemma AdvancedFirst(ls: Lists, c: nat, p: SlobPage, full: bool)
    requires c < 3
    ensures Advanced(ls[c := [p] + ls[c]], c, 0, full) == if full then ls else ls[c := [p] + ls[c]]
  {
    assert RemoveAt([p] + ls[c], 0) == ls[c];
    assert ls[c := ls[c]] == ls;
  }

  /** What is left of a page after its first block was taken. */
  lemma RestOfPage(bs: seq<Block>, units: nat)
    requires Canonical(bs) && 0 < units <= PAGE_UNITS && CoversWithout(bs, [Block(0, PAGE_UNITS)], Block(0, units))
    ensures bs == if units < PAGE_UNITS then [Block(units, PAGE_UNITS - units)] else []
  {
    var rest := if units < PAGE_UNITS then [Block(units, PAGE_UNITS - units)] else [];
    forall u ensures Covered(bs, u) <==> Covered(rest, u) {
      CoveredOne(Block(0, PAGE_UNITS), u);
      CoveredOne(Block(units, PAGE_UNITS - units), u);
    }
    hide CoversWithout, Covered;
    CanonicalUnique(bs, rest);
  }

  /** Page p holds one block, of the given size, and is listed in the class of that size if anything is left of it. */
  ghost predicate FirstOnPage(before: Lists, after: Lists, p: SlobPage, size: nat)
    reads p
  {
    var units := SlobUnits(size);
    if units < PAGE_UNITS then p.blocks == [Block(units, PAGE_UNITS - units)] && after == Enlisted(before, p, size)
    else p.blocks == [] && after == before
  }

  lemma FirstStarts(before: Lists, after: Lists, p: SlobPage, size: nat)
    requires FirstOnPage(before, after, p, size)
    ensures p.blocks != [] ==> StartsAt(after, p, size)
  {}

  class SlobHeap {
    var lists: Lists        // free_slob_small, free_slob_medium, free_slob_large
    var memUsed: int
    var memClaimed: int
    ghost var pages: set<SlobPage>  // every slob page held
    ghost var live: Live            // every allocated block
    ghost var freshBytes: nat       // bytes of all allocations ever served from a fresh page

    ghost function FreePages(): set<SlobPage>
      reads this`pages, pages
    {
      set p | p in pages && p.slobFree
    }

    ghost function Mems(): set<array<SlobIdx>>
      reads this`pages
    {
      set p | p in pages :: p.mem
    }

    ghost predicate PagesValid()
      reads this`pages, this`live, pages, Mems()
    {
      && (forall p :: p in pages ==> p.Valid() && Partitioned(live, p, p.blocks))
      && (forall p, q :: p in pages && q in pages && p != q ==> p.mem != q.mem)
    }

    ghost predicate Valid()
      reads this, pages, Mems()
    {
      && PagesValid()
      && OnLists(lists) == multiset(FreePages())
      && (forall k :: k in live ==> k.0 in pages)
      && memClaimed == PAGE_SIZE * |pages|
      && memUsed == SumSizes(live) - freshBytes
    }

    constructor ()
      ensures Valid() && pages == {} && live == map[] && freshBytes == 0
    {
      lists := [[], [], []];
      memUsed, memClaimed := 0, 0;
      pages, live, freshBytes := {}, map[], 0;
    }

    /** slob_page_alloc on a page of ours, with the bookkeeping of the live blocks. */
    method TakeFrom(p: SlobPage, size: nat, align: nat) returns (b: Option<nat>)
      requires PagesValid() && p in pages && p.slobFree && size > 0 && ValidAlign(align)
      modifies this`live, p, p.mem
      ensures PagesValid() && FreePages() == if p.slobFree then old(FreePages()) else old(FreePages()) - {p}
      ensures b.None? ==> old(NoFit(p, size, align)) && live == old(live) && p.blocks == old(p.blocks) && p.slobFree
      ensures b.Some? ==>
        && (p, b.value) !in old(live) && live == old(live)[(p, b.value) := size]
        && SumSizes(live) == SumSizes(old(live)) + size
        && AlignedTo(p.base + SLOB_UNIT * b.value, align)
        && CoversWithout(p.blocks, old(p.blocks), Block(b.value, SlobUnits(size)))
        && (old(p.blocks) == [Block(0, PAGE_UNITS)] ==> b.value == AlignDelta(p.base, 0, align))
    {
      hide SlobPage.Linked, Canonical, Partitioned, IsBestFit, Fits, AlignDelta, AlignUp, AlignedTo, Take, CoversWithout, SumSizes;
      ghost var bs, k := p.blocks, 0;
      b, k := p.PageAlloc(size, align);
      if b.Some? {
        BestInside(bs, k, p.base, SlobUnits(size), align);
        PartitionAlloc(live, p, bs, p.blocks, b.value, size);
        SumSizesAdd(live, (p, b.value), size);
        live := live[(p, b.value) := size];
      }
      forall q | q in pages && q != p ensures q.Valid() && Partitioned(live, q, q.blocks) {
        PartitionFrame(old(live), live, q, q.blocks);
      }
    }

    /**
     Serving a request from the i-th page of list c.  The caller says whether the page is fresh:
     mem_used is only increased when it is not.
     */
    method Serve(c: nat, i: nat, size: nat, align: nat, isFresh: bool) returns (b: Option<nat>)
      requires Valid() && c < 3 && i < |lists[c]| && size > 0 && ValidAlign(align)
      modifies this`lists, this`live, this`memUsed, this`freshBytes, lists[c][i], lists[c][i].mem
      ensures Valid()
      ensures b.None? ==>
        && old(NoFit(lists[c][i], size, align)) && lists == old(lists) && live == old(live) && memUsed == old(memUsed)
        && freshBytes == old(freshBytes) && lists[c][i].blocks == old(lists[c][i].blocks)
      ensures b.Some? ==>
        var p := old(lists[c][i]);
        && (p, b.value) !in old(live) && live == old(live)[(p, b.value) := size]
        && lists == Advanced(old(lists), c, i, !p.slobFree)
        && freshBytes == old(freshBytes) + (if isFresh then size else 0)
        && AlignedTo(p.base + SLOB_UNIT * b.value, align)
        && CoversWithout(p.blocks, old(lists[c][i].blocks), Block(b.value, SlobUnits(size)))
        && (old(lists[c][i].blocks) == [Block(0, PAGE_UNITS)] ==> b.value == AlignDelta(p.base, 0, align))
    {
      hide PagesValid, FreePages, SumSizes, OnLists, AlignedTo, NoFit, Advanced, CoversWithout, AlignDelta;
      var p := lists[c][i];
      ListedPage(c, i);
      b := TakeFrom(p, size, align);
      assert (this as object) !in pages && (this as object) !in Mems();
      if b.Some? {
        if isFresh {
          freshBytes := freshBytes + size;
        } else {
          memUsed := memUsed + size;
        }
        AdvancedPages(lists, c, i, !p.slobFree);
        lists := Advanced(lists, c, i, !p.slobFree);
      }
    }

    lemma ListedPage(c: nat, i: nat)
      requires OnLists(lists) == multiset(FreePages()) && c < 3 && i < |lists[c]|
      ensures lists[c][i] in FreePages() && lists[c][i] in pages && lists[c][i].slobFree
    {
      assert lists[c][i] in multiset(lists[c]);
      assert lists[c][i] in OnLists(lists);
    }

    lemma FewUnits(p: SlobPage, size: nat, align: nat)
      requires PagesValid() && p in pages && p.units < SlobUnits(size)
      ensures NoFit(p, size, align)
    {
      forall i | 0 <= i < |p.blocks| ensures !Fits(p.blocks[i], p.base, SlobUnits(size), align) {
        TooFewUnits(p.blocks, i);
      }
    }

    /** The search of slob_alloc over the partially free pages of size class c. */
    method SearchPages(c: nat, size: nat, align: nat) returns (r: Option<(SlobPage, nat)>, ghost at: nat)
      requires Valid() && c < 3 && size > 0 && ValidAlign(align)
      modifies this`lists, this`live, this`memUsed, this`freshBytes, pages, Mems()
      ensures Valid()
      ensures at <= |old(lists[c])| && forall i :: 0 <= i < at ==> old(NoFit(lists[c][i], size, align))
      ensures freshBytes == old(freshBytes)
      ensures r.None? ==> at == |old(lists[c])| && live == old(live) && lists == old(lists)
      ensures r.Some? ==>
        && at < |old(lists[c])| && r.value.0 == old(lists[c])[at] && r.value.0 in pages
        && r.value !in old(live) && live == old(live)[r.value := size]
        && lists == Advanced(old(lists), c, at, !r.value.0.slobFree)
        && AlignedTo(r.value.0.base + SLOB_UNIT * r.value.1, align)
    {
      hide PagesValid, SumSizes, OnLists, AlignedTo, Fits, Advanced, CoversWithout, AlignDelta;
      var i := 0;
      while i < |lists[c]|
        invariant 0 <= i <= |lists[c]|
        invariant Valid() && lists == old(lists) && live == old(live)
        invariant memUsed == old(memUsed) && freshBytes == old(freshBytes)
        invariant forall p :: p in pages ==> p.blocks == old(p.blocks)
        invariant forall j :: 0 <= j < i ==> old(NoFit(lists[c][j], size, align))
      {
        ListedPage(c, i);
        var p := lists[c][i];
        if p.units >= SlobUnits(size) {
          var b := Serve(c, i, size, align, false);
          if b.Some? {
            return Some((p, b.value)), i;
          }
        } else {
          FewUnits(p, size, align);
        }
        i := i + 1;
      }
      return None, i;
    }

    /** Counting a fresh page among our pages. */
    ghost method AdoptPage(p: SlobPage)
      requires PagesValid() && p !in pages && p.mem !in Mems() && forall k :: k in live ==> k.0 != p
      requires p.Valid() && p.slobFree && p.blocks == [Block(0, PAGE_UNITS)]
      modifies this`pages
      ensures PagesValid() && pages == old(pages) + {p} && FreePages() == old(FreePages()) + {p}
    {
      hide SlobPage.Valid, Partitioned;
      FreshPartition(p);
      assert forall q :: q in pages ==> q.mem in Mems();
      pages := pages + {p};
    }

    /** A fresh page joins the heap, at the head of list c. */
    method AddPage(base: nat, c: nat) returns (p: SlobPage)
      requires Valid() && c < 3 && base % PAGE_SIZE == 0
      modifies this`lists, this`pages, this`memClaimed
      ensures Valid() && fresh(p) && fresh(p.mem) && pages == old(pages) + {p} && p.base == base
      ensures p.blocks == [Block(0, PAGE_UNITS)] && p.slobFree && lists == old(lists)[c := [p] + old(lists)[c]]
    {
      hide SlobPage.Valid, Partitioned, FreePages, SumSizes, OnLists;
      p := new SlobPage(base);
      NotListed(p);
      AdoptPage(p);
      assert (this as object) !in pages && (this as object) !in Mems();
      AddedPages(lists, c, p);
      lists := lists[c := [p] + lists[c]];
      memClaimed := memClaimed + PAGE_SIZE;
    }

    lemma NotListed(p: SlobPage)
      requires p !in pages
      ensures p !in FreePages()
    {}

    lemma FreshPartition(p: SlobPage)
      requires forall k :: k in live ==> k.0 != p
      ensures Partitioned(live, p, [Block(0, PAGE_UNITS)])
    {
      forall u | 0 <= u < PAGE_UNITS ensures Covered([Block(0, PAGE_UNITS)], u) {
        CoveredOne(Block(0, PAGE_UNITS), u);
      }
    }

    /** A fresh page always serves: BUG_ON(!b) cannot fire. */
    lemma FreshPageFits(p: SlobPage, size: nat, align: nat)
      requires p.base % PAGE_SIZE == 0 && p.blocks == [Block(0, PAGE_UNITS)]
      requires size <= PAGE_SIZE && ValidAlign(align) && align <= PAGE_SIZE
      ensures !NoFit(p, size, align)
    {
      PageStartAligned(p.base, align);
      assert Fits(p.blocks[0], p.base, SlobUnits(size), align);
    }

    /** The part of slob_alloc that grows the heap by a page and serves from it. */
    method AllocFresh(size: nat, align: nat, base: nat) returns (r: (SlobPage, nat))
      requires Valid() && 0 < size <= PAGE_SIZE && ValidAlign(align) && align <= PAGE_SIZE && base % PAGE_SIZE == 0
      modifies this
      ensures Valid() && fresh(r.0) && fresh(r.0.mem) && pages == old(pages) + {r.0}
      ensures r !in old(live) && live == old(live)[r := size] && freshBytes == old(freshBytes) + size
      ensures AlignedTo(r.0.base + SLOB_UNIT * r.1, align)
      ensures FirstOnPage(old(lists), lists, r.0, size)
    {
      hide PagesValid, SumSizes, OnLists, AlignedTo, NoFit, CoversWithout, SlobPage.Linked, Advanced;
      var p := AddPage(base, SizeClass(size));
      FreshPageFits(p, size, align);
      PageStartAligned(p.base, align);
      var b := Serve(SizeClass(size), 0, size, align, true);
      OurPage(p);
      AdvancedFirst(old(lists), SizeClass(size), p, !p.slobFree);
      RestOfPage(p.blocks, SlobUnits(size));
      r := (p, b.value);
    }

    lemma OurPage(p: SlobPage)
      requires PagesValid() && p in pages
      ensures Canonical(p.blocks) && (p.slobFree <==> p.blocks != [])
    {}

    /**
     slob_alloc.  `newPage` is what the page allocator would answer, should it be asked: the
     address of a page, or nothing.  A block comes from the first listed page with a fitting
     block, or else from a fresh page; only the latter is missing from mem_used.
     */
    method Alloc(size: nat, align: nat, newPage: Option<nat>) returns (r: Option<(SlobPage, nat)>, ghost at: nat)
      requires Valid() && 0 < size <= PAGE_SIZE && ValidAlign(align) && align <= PAGE_SIZE
      requires newPage.Some? ==> newPage.value % PAGE_SIZE == 0
      modifies this, pages, Mems()
      ensures Valid()
      ensures var list := old(lists)[SizeClass(size)];
              && at <= |list| && (forall i :: 0 <= i < at ==> old(NoFit(list[i], size, align)))
              && (at < |list| ==>
                    && r.Some? && r.value.0 == list[at] && pages == old(pages) && freshBytes == old(freshBytes)
                    && lists == Advanced(old(lists), SizeClass(size), at, !r.value.0.slobFree))
              && (at == |list| ==> (r.Some? <==> newPage.Some?))
              && (at == |list| && r.Some? ==>
                    fresh(r.value.0) && fresh(r.value.0.mem) && pages == old(pages) + {r.value.0} && freshBytes == old(freshBytes) + size
                    && FirstOnPage(old(lists), lists, r.value.0, size))
      ensures r.Some? ==> r.value !in old(live) && live == old(live)[r.value := size]
      ensures r.Some? ==> AlignedTo(r.value.0.base + SLOB_UNIT * r.value.1, align)
      ensures r.Some? && r.value.0.slobFree ==> StartsAt(lists, r.value.0, size)
      ensures r.None? ==> live == old(live) && pages == old(pages) && lists == old(lists) && freshBytes == old(freshBytes)
    {
      hide PagesValid, SumSizes, OnLists, AlignedTo, NoFit, ValidAlign, FreePages, FirstOnPage, Advanced;
      r, at := SearchPages(SizeClass(size), size, align);
      if r.Some? || newPage.None? {
        if r.Some? {
          AdvancedStart(old(lists), SizeClass(size), at);
        }
        return;
      }
      var b := AllocFresh(size, align, newPage.value);
      FirstStarts(old(lists), lists, b.0, size);
      OurPage(b.0);
      r := Some(b);
    }

    /** Forgetting a page and its only live block. */
    ghost method ForgetPage(p: SlobPage, o: nat)
      requires PagesValid() && p in pages && (p, o) in live && forall k :: k in live && k.0 == p ==> k == (p, o)
      modifies this`pages, this`live
      ensures PagesValid() && pages == old(pages) - {p} && live == old(live) - {(p, o)}
      ensures SumSizes(live) == SumSizes(old(live)) - old(live)[(p, o)] && FreePages() == old(FreePages()) - {p}
      ensures forall k :: k in live ==> k.0 != p
    {
      hide SlobPage.Valid, Partitioned, SumSizes;
      SumSizesRemove(live, (p, o));
      live := live - {(p, o)};
      pages := pages - {p};
      forall q | q in pages ensures q.Valid() && Partitioned(live, q, q.blocks) {
        PartitionFrame(old(live), live, q, q.blocks);
      }
    }

    /** The page of the last live block goes back to the page allocator. */
    method ReleasePage(p: SlobPage, o: nat, size: nat)
      requires Valid() && (p, o) in live && live[(p, o)] == size && forall k :: k in live && k.0 == p ==> k == (p, o)
      modifies this
      ensures Valid() && pages == old(pages) - {p} && live == old(live) - {(p, o)} && freshBytes == old(freshBytes)
    {
      hide PagesValid, FreePages, SumSizes, OnLists, Unlisted;
      assert (this as object) !in pages && (this as object) !in Mems();
      ListedIffFree(p);
      memUsed := memUsed - size;
      memClaimed := memClaimed - PAGE_SIZE;
      ForgetPage(p, o);
      assert (this as object) !in pages && (this as object) !in Mems();
      if p.slobFree {
        UnlistedPages(lists, p);
        lists := Unlisted(lists, p);
      }
    }

    lemma ListedIffFree(p: SlobPage)
      requires p in pages
      ensures p in FreePages() <==> p.slobFree
    {}

    /**
     slob_free of a block of this heap (or of no block) with the size it was allocated with.
     The page goes back to the page allocator exactly when this was its last live block.
     */
    method Free(block: Option<(SlobPage, nat)>, size: nat)
      requires Valid() && (block.Some? ==> block.value in live && live[block.value] == size)
      modifies this, pages, Mems()
      ensures Valid() && freshBytes == old(freshBytes)
      ensures block.None? ==> live == old(live) && pages == old(pages) && lists == old(lists)
      ensures block.Some? ==>
        && live == old(live) - {block.value}
        && pages == if forall k :: k in old(live) && k.0 == block.value.0 ==> k == block.value
                    then old(pages) - {block.value.0} else old(pages)
      ensures block.Some? && block.value.0 in pages ==>
        var p := block.value.0;
        if old(p.slobFree) then lists == old(lists)
        else lists == Enlisted(old(lists), p, size) && p.blocks == [Block(block.value.1, SlobUnits(size))]
    {
      hide PagesValid, FreePages, SumSizes, OnLists;
      if block.None? {
        return;
      }
      var p, o := block.value.0, block.value.1;
      LastOnPage(p, o);
      if p.units + SlobUnits(size) == PAGE_UNITS {
        ReleasePage(p, o, size);
      } else {
        FreeOnPage(p, o, size);
      }
    }

    /** The part of slob_free for a page that keeps another live block. */
    method FreeOnPage(p: SlobPage, o: nat, size: nat)
      requires Valid() && (p, o) in live && live[(p, o)] == size
      modifies this`live, this`memUsed, this`lists, p, p.mem
      ensures Valid() && live == old(live) - {(p, o)}
      ensures if old(p.slobFree) then lists == old(lists)
              else lists == Enlisted(old(lists), p, size) && p.blocks == [Block(o, SlobUnits(size))]
    {
      hide PagesValid, FreePages, SumSizes, OnLists;
      assert (this as object) !in pages && (this as object) !in Mems();
      memUsed := memUsed - size;
      var listed := p.slobFree;
      ListedIffFree(p);
      PutBack(p, o, size);
      if !listed {
        AddedPages(lists, SizeClass(size), p);
        lists := Enlisted(lists, p, size);
      }
    }

    lemma LastOnPage(p: SlobPage, o: nat)
      requires Valid() && (p, o) in live
      ensures p.units == TotalLen(p.blocks)
      ensures p.units + LiveBlock(live, p, o).len == PAGE_UNITS <==> forall k :: k in live && k.0 == p ==> k == (p, o)
    {
      LastLiveBlock(live, p, p.blocks, o);
      assert forall k :: k in live && k.0 == p ==> k == (p, k.1);
    }

    /** A live block goes back on its page's free list. */
    method PutBack(p: SlobPage, o: nat, size: nat)
      requires PagesValid() && p in pages && (p, o) in live && live[(p, o)] == size
      modifies this`live, p, p.mem
      ensures PagesValid() && live == old(live) - {(p, o)} && FreePages() == old(FreePages()) + {p}
      ensures SumSizes(live) == SumSizes(old(live)) - size
      ensures !old(p.slobFree) ==> p.blocks == [Block(o, SlobUnits(size))]
    {
      hide SlobPage.Linked, Canonical, SumSizes, CoversWithout;
      ghost var bs := p.blocks;
      p.Free(o, SlobUnits(size));
      PartitionFree(live, p, bs, p.blocks, o);
      SumSizesRemove(live, (p, o));
      live := live - {(p, o)};
      forall q | q in pages && q != p ensures q.Valid() && Partitioned(live, q, q.blocks) {
        PartitionFrame(old(live), live, q, q.blocks);
      }
    }

    /** The owner of a live block writes one unit of it. */
    method Store(p: SlobPage, u: nat, v: SlobIdx)
      requires Valid() && p in pages && u < PAGE_UNITS && LiveAt(live, p, u)
      modifies p.mem
      ensures Valid()
    {
      hide SlobPage.Linked, Canonical, SumSizes, OnLists, FreePages;
      LiveNotFree(p, u);
      hide Partitioned, LiveAt;
      p.Store(u, v);
    }

    lemma LiveNotFree(p: SlobPage, u: nat)
      requires PagesValid() && p in pages && LiveAt(live, p, u)
      ensures !Covered(p.blocks, u)
    {
      hide SlobPage.Valid, Canonical;
    }
  }

  lemma SumSizesOne(k: (SlobPage, nat), size: nat)
    ensures SumSizes(map[k := size]) == size
  {
    SumSizesAdd(map[], k, size);
    assert map[][k := size] == map[k := size];
  }

  /** The drift of mem_used at its simplest: it misses the first block there is, and goes below zero when that is freed. */
  method DriftFromTheStart(size: nat, align: nat, base: nat) returns (h: SlobHeap, usedWhileLive: int, usedAtEnd: int)
    requires 0 < size <= PAGE_SIZE && ValidAlign(align) && align <= PAGE_SIZE && base % PAGE_SIZE == 0
    ensures usedWhileLive == 0 && usedAtEnd == 0 - size
    ensures fresh(h) && h.Valid() && h.live == map[] && h.pages == {} && h.memClaimed == 0 && h.memUsed == usedAtEnd
  {
    hide SlobHeap.PagesValid, OnLists;
    h := new SlobHeap();
    assert h.lists[SizeClass(size)] == [] by { NoPages(h); }
    var r, at := h.Alloc(size, align, Some(base));
    assert h.live == map[r.value := size];
    SumSizesOne(r.value, size);
    usedWhileLive := h.memUsed;
    h.Free(r, size);
    usedAtEnd := h.memUsed;
  }

  lemma NoPages(h: SlobHeap)
    requires h.Valid() && h.pages == {}
    ensures forall c :: 0 <= c < 3 ==> h.lists[c] == []
  {
    assert OnLists(h.lists) == multiset{};
    forall c | 0 <= c < 3 ensures h.lists[c] == [] {
      assert multiset(h.lists[c]) <= OnLists(h.lists);
      assert |multiset(h.lists[c])| == |h.lists[c]|;
    }
  }

  // ---------------------------------------------------------------- freed room is found again

  /** Without alignment a block takes whatever is not larger. */
  lemma SmallerFits(p: SlobPage, b: Block, size: nat)
    requires p.blocks == [b] && SlobUnits(size) <= b.len
    ensures !NoFit(p, size, 0)
  {
    assert Fits(p.blocks[0], p.base, SlobUnits(size), 0);
  }

  lemma UnitsLe(size: nat, size': nat)
    requires size <= size'
    ensures SlobUnits(size) <= SlobUnits(size')
  {}

  /**
   A block of a full page that keeps another live block is freed: the next request of its size class
   that is not larger takes no fresh page.
   */
  method FreeThenAlloc(h: SlobHeap, block: (SlobPage, nat), other: (SlobPage, nat), size: nat, size': nat, newPage: Option<nat>)
    returns (r: (SlobPage, nat))
    requires h.Valid() && block in h.live && h.live[block] == size
    requires !block.0.slobFree && other in h.live && other.0 == block.0 && other != block
    requires 0 < size' <= size <= PAGE_SIZE && SizeClass(size') == SizeClass(size)
    requires newPage.Some? ==> newPage.value % PAGE_SIZE == 0
    modifies h, h.pages, h.Mems()
    ensures h.Valid() && h.live == (old(h.live) - {block})[r := size']
    ensures h.pages == old(h.pages) && h.memClaimed == old(h.memClaimed) && h.freshBytes == old(h.freshBytes)
  {
    hide SlobHeap.PagesValid, SumSizes, OnLists, NoFit, Partitioned, SlobHeap.FreePages;
    h.Free(Some(block), size);
    assert other in old(h.live);
    assert block.0 in h.pages;
    UnitsLe(size', size);
    SmallerFits(block.0, Block(block.1, SlobUnits(size)), size');
    ghost var list := h.lists[SizeClass(size)];
    assert list[0] == block.0;
    var b, at := h.Alloc(size', 0, newPage);
    assert at < |list|;
    r := b.value;
  }

  /** A request has taken a fresh page and left room on it: the next of its size class that fits there takes no other. */
  method AllocTwice(h: SlobHeap, size: nat, align: nat, size': nat, newPage: Option<nat>, newPage': Option<nat>)
    returns (r: Option<(SlobPage, nat)>, r': Option<(SlobPage, nat)>)
    requires h.Valid() && 0 < size <= PAGE_SIZE && ValidAlign(align) && align <= PAGE_SIZE
    requires 0 < size' <= PAGE_SIZE && SizeClass(size') == SizeClass(size) && SlobUnits(size) + SlobUnits(size') <= PAGE_UNITS
    requires newPage.Some? ==> newPage.value % PAGE_SIZE == 0
    requires newPage'.Some? ==> newPage'.value % PAGE_SIZE == 0
    modifies h, h.pages, h.Mems()
    ensures h.Valid()
    ensures r.Some? && r.value.0 !in old(h.pages) ==>
      && r'.Some? && h.live == old(h.live)[r.value := size][r'.value := size']
      && h.pages == old(h.pages) + {r.value.0} && h.freshBytes == old(h.freshBytes) + size
  {
    hide SlobHeap.PagesValid, SumSizes, OnLists, NoFit, Partitioned, SlobHeap.FreePages;
    ghost var at, at', list := 0, 0, h.lists[SizeClass(size)];
    OnOurPages(h);
    r, at := h.Alloc(size, align, newPage);
    if r.Some? && at == |list| {
      SmallerFits(r.value.0, Block(SlobUnits(size), PAGE_UNITS - SlobUnits(size)), size');
      assert h.lists[SizeClass(size)][0] == r.value.0;
    }
    r', at' := h.Alloc(size', 0, newPage');
  }

  /** The next request of the same size class that fits on the page that served the last one is served there. */
  method AllocNearby(h: SlobHeap, p: SlobPage, size: nat, align: nat, newPage: Option<nat>)
    returns (r: Option<(SlobPage, nat)>)
    requires h.Valid() && StartsAt(h.lists, p, size) && !NoFit(p, size, align)
    requires 0 < size <= PAGE_SIZE && ValidAlign(align) && align <= PAGE_SIZE && (newPage.Some? ==> newPage.value % PAGE_SIZE == 0)
    modifies h, h.pages, h.Mems()
    ensures h.Valid() && r.Some? && r.value.0 == p && h.pages == old(h.pages)
  {
    hide SlobHeap.PagesValid, SumSizes, OnLists, NoFit, Partitioned, SlobHeap.FreePages, ValidAlign, Advanced;
    ghost var at, list := 0, h.lists[SizeClass(size)];
    assert list[0] == p;
    r, at := h.Alloc(size, align, newPage);
  }

  lemma OnOurPages(h: SlobHeap)
    requires h.Valid()
    ensures forall c, i :: 0 <= c < 3 && 0 <= i < |h.lists[c]| ==> h.lists[c][i] in h.pages
  {
    forall c, i | 0 <= c < 3 && 0 <= i < |h.lists[c]| ensures h.lists[c][i] in h.pages {
      h.ListedPage(c, i);
    }
  }
}
