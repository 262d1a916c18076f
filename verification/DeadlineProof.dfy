/**
 What every operation of the deadline scheduler keeps: the two indexes of a direction hold the
 same requests, the fifo is in the order of expiry, at most one batch is under way, and nr_sorted
 counts what is queued.  And how long reads can keep a queued write waiting.
 */
module DeadlineProof {
  import opened Collections
  import opened DeadlineSpec

  ghost predicate AllIn(info: map<Id, Info>, xs: seq<Id>, d: Dir) {
    forall x :: x in xs ==> x in info && info[x].dir == d
  }

  ghost predicate ByPos(info: map<Id, Info>, xs: seq<Id>) {
    forall i, j :: 0 <= i < j < |xs| && xs[i] in info && xs[j] in info ==> info[xs[i]].pos < info[xs[j]].pos
  }

  ghost predicate ByExpiry(info: map<Id, Info>, xs: seq<Id>) {
    forall i, j :: 0 <= i < j < |xs| && xs[i] in info && xs[j] in info ==> info[xs[i]].expire <= info[xs[j]].expire
  }

  /** Both indexes of a direction, except that the requests in `out` are on the fifo only. */
  ghost predicate SideOk(info: map<Id, Info>, side: Side, d: Dir, out: set<Id>) {
    && NoDup(side.sort) && NoDup(side.fifo)
    && AllIn(info, side.sort, d) && AllIn(info, side.fifo, d)
    && ByPos(info, side.sort) && ByExpiry(info, side.fifo)
    && (forall x :: x in side.fifo <==> x in side.sort || x in out)
    && (forall x :: x in out ==> x !in side.sort)
    && (side.next.Some? ==> side.next.value in side.fifo)
  }

  // ---------------------------------------------------------------- sequences

  /** A sequence without its k-th element. */
  function Cut(xs: seq<Id>, k: int): seq<Id>
    requires 0 <= k < |xs|
  {
    xs[..k] + xs[k + 1..]
  }

  lemma {:induction false} DelIs(xs: seq<Id>, x: Id) returns (k: int)
    requires x in xs
    ensures 0 <= k < |xs| && xs[k] == x && Del(xs, x) == Cut(xs, k)
    decreases |xs|
  {
    if xs[0] == x {
      k := 0;
      assert Cut(xs, 0) == xs[1..];
    } else {
      assert x in xs[1..];
      k := DelIs(xs[1..], x);
      k := k + 1;
      assert Cut(xs, k) == [xs[0]] + Cut(xs[1..], k - 1);
    }
  }

  lemma {:induction false} DelNone(xs: seq<Id>, x: Id)
    requires x !in xs
    ensures Del(xs, x) == xs
  {
    if xs != [] {
      DelNone(xs[1..], x);
    }
  }

  /** Taking a request out of a list keeps it free of duplicates and in order. */
  lemma CutKeeps(info: map<Id, Info>, xs: seq<Id>, k: int)
    requires 0 <= k < |xs| && NoDup(xs)
    ensures NoDup(Cut(xs, k)) && (forall y :: y in Cut(xs, k) <==> y in xs && y != xs[k])
    ensures ByPos(info, xs) ==> ByPos(info, Cut(xs, k))
    ensures ByExpiry(info, xs) ==> ByExpiry(info, Cut(xs, k))
  {}

  lemma DelKeeps(info: map<Id, Info>, xs: seq<Id>, x: Id)
    requires NoDup(xs)
    ensures NoDup(Del(xs, x)) && (forall y :: y in Del(xs, x) <==> y in xs && y != x)
    ensures |Del(xs, x)| == |xs| - (if x in xs then 1 else 0)
    ensures ByPos(info, xs) ==> ByPos(info, Del(xs, x))
    ensures ByExpiry(info, xs) ==> ByExpiry(info, Del(xs, x))
  {
    if x in xs {
      var k := DelIs(xs, x);
      CutKeeps(info, xs, k);
    } else {
      DelNone(xs, x);
    }
  }

  lemma {:induction false} LatterIn(xs: seq<Id>, x: Id)
    requires NoDup(xs)
    ensures Latter(xs, x).Some? ==> Latter(xs, x).value in xs && Latter(xs, x).value != x
  {
    if xs != [] && xs[0] != x {
      LatterIn(xs[1..], x);
    } else if |xs| > 1 {
      assert xs[1] in xs;
    }
  }

  lemma {:induction false} NoAlias(info: map<Id, Info>, sort: seq<Id>, pos: nat, i: nat)
    requires Alias(info, sort, pos).None? && i < |sort| && sort[i] in info
    ensures info[sort[i]].pos != pos
  {
    if i > 0 {
      NoAlias(info, sort[1..], pos, i - 1);
    }
  }

  lemma Unaliased(info: map<Id, Info>, sort: seq<Id>, pos: nat)
    requires forall y :: y in sort ==> y in info && info[y].pos != pos
    ensures Alias(info, sort, pos).None?
  {}

  lemma {:induction false} InsertAt(info: map<Id, Info>, sort: seq<Id>, x: Id, k: nat)
    requires x in info && k <= |sort| && forall i :: 0 <= i < |sort| ==> sort[i] in info
    requires forall i :: 0 <= i < k ==> info[sort[i]].pos < info[x].pos
    requires forall i :: k <= i < |sort| ==> info[x].pos < info[sort[i]].pos
    ensures InsertByPos(info, sort, x) == sort[..k] + [x] + sort[k..]
  {
    if k > 0 {
      InsertAt(info, sort[1..], x, k - 1);
      assert [sort[0]] + (sort[1..][..k - 1] + [x] + sort[1..][k - 1..]) == sort[..k] + [x] + sort[k..];
    } else {
      assert sort[..0] + [x] + sort[0..] == [x] + sort;
    }
  }

  /** Where a request goes in the sorted index: behind all smaller sectors, before all larger. */
  lemma InsertIs(info: map<Id, Info>, sort: seq<Id>, x: Id) returns (k: int)
    requires x in info && ByPos(info, sort) && forall y :: y in sort ==> y in info && info[y].pos != info[x].pos
    ensures 0 <= k <= |sort| && InsertByPos(info, sort, x) == sort[..k] + [x] + sort[k..]
    ensures forall i :: 0 <= i < k ==> info[sort[i]].pos < info[x].pos
    ensures forall i :: k <= i < |sort| ==> info[x].pos < info[sort[i]].pos
  {
    assert forall i :: 0 <= i < |sort| ==> sort[i] in sort;
    k := 0;
    while k < |sort| && info[sort[k]].pos < info[x].pos
      invariant 0 <= k <= |sort| && forall i :: 0 <= i < k ==> info[sort[i]].pos < info[x].pos
    {
      k := k + 1;
    }
    InsertAt(info, sort, x, k);
  }

  function Splice(xs: seq<Id>, k: int, x: Id): seq<Id>
    requires 0 <= k <= |xs|
  {
    xs[..k] + [x] + xs[k..]
  }

  lemma SpliceMember(xs: seq<Id>, k: int, x: Id, y: Id)
    requires 0 <= k <= |xs|
    ensures y in Splice(xs, k, x) <==> y in xs || y == x
  {}

  lemma SpliceByPos(info: map<Id, Info>, xs: seq<Id>, k: int, x: Id)
    requires 0 <= k <= |xs| && x in info && ByPos(info, xs) && forall y :: y in xs ==> y in info
    requires forall i :: 0 <= i < k ==> info[xs[i]].pos < info[x].pos
    requires forall i :: k <= i < |xs| ==> info[x].pos < info[xs[i]].pos
    ensures ByPos(info, Splice(xs, k, x)) && NoDup(Splice(xs, k, x))
  {}

  lemma InsertKeeps(info: map<Id, Info>, sort: seq<Id>, x: Id)
    requires x in info && ByPos(info, sort) && NoDup(sort)
    requires forall y :: y in sort ==> y in info && info[y].pos != info[x].pos
    ensures var ys := InsertByPos(info, sort, x);
            && NoDup(ys) && ByPos(info, ys) && |ys| == |sort| + 1 && (forall y :: y in ys <==> y in sort || y == x)
  {
    var k := InsertIs(info, sort, x);
    SpliceByPos(info, sort, k, x);
    forall y ensures y in Splice(sort, k, x) <==> y in sort || y == x {
      SpliceMember(sort, k, x, y);
    }
    hide NoDup, ByPos, InsertByPos;
  }

  // ---------------------------------------------------------------- one direction

  lemma RemoveSide(info: map<Id, Info>, side: Side, d: Dir, out: set<Id>, x: Id)
    requires SideOk(info, side, d, out) && x in side.sort
    ensures SideOk(info, Remove(side, x), d, out)
    ensures |Remove(side, x).sort| == |side.sort| - 1
    ensures forall y :: y in Remove(side, x).sort <==> y in side.sort && y != x
    ensures forall y :: y in Remove(side, x).fifo <==> y in side.fifo && y != x
  {
    hide NoDup, ByPos, ByExpiry, Del, Latter;
    DelKeeps(info, side.sort, x);
    DelKeeps(info, side.fifo, x);
    LatterIn(side.sort, x);
  }

  /** The part of a request's description a list depends on. */
  ghost predicate SameFor(info: map<Id, Info>, info': map<Id, Info>, side: Side) {
    && (forall x :: x in side.fifo && x in info ==> x in info' && info'[x].dir == info[x].dir && info'[x].expire == info[x].expire)
    && (forall x :: x in side.sort && x in info ==> x in info' && info'[x].dir == info[x].dir && info'[x].pos == info[x].pos)
  }

  lemma SideInfo(info: map<Id, Info>, info': map<Id, Info>, side: Side, d: Dir, out: set<Id>)
    requires SideOk(info, side, d, out) && SameFor(info, info', side)
    ensures SideOk(info', side, d, out)
  {}

  lemma SetNext(info: map<Id, Info>, side: Side, d: Dir, out: set<Id>, next: Option<Id>)
    requires SideOk(info, side, d, out) && (next.Some? ==> next.value in side.sort)
    ensures SideOk(info, side.(next := next), d, out)
  {}

  // ---------------------------------------------------------------- the whole scheduler

  function OutOf(info: map<Id, Info>, out: set<Id>, d: Dir): set<Id> {
    set x | x in out && x in info && info[x].dir == d
  }

  /** `out` is on a fifo only, and nr_sorted is ahead of the sorted indexes by `extra`. */
  ghost predicate Core(s: Deadline, out: set<Id>, extra: int) {
    && SideOk(s.info, s.read, Read, OutOf(s.info, out, Read)) && SideOk(s.info, s.write, Write, OutOf(s.info, out, Write))
    && !(s.read.next.Some? && s.write.next.Some?)
    && s.nrSorted == |s.read.sort| + |s.write.sort| + extra
    && NoDup(s.dispatched)
    && (forall x :: x in s.dispatched ==> x in s.info && x !in s.read.fifo && x !in s.write.fifo)
  }

  /** No request on a fifo expires later than one that came in now would. */
  ghost predicate Timely(s: Deadline, cfg: Config, now: nat) {
    && (forall x :: x in s.read.fifo && x in s.info ==> s.info[x].expire <= now + cfg.readExpire)
    && (forall x :: x in s.write.fifo && x in s.info ==> s.info[x].expire <= now + cfg.writeExpire)
  }

  ghost predicate Inv(s: Deadline, cfg: Config, now: nat) {
    Core(s, {}, 0) && Timely(s, cfg, now)
  }

  /** The direction of a request that moves to the dispatch list. */
  lemma MoveSide(info: map<Id, Info>, side: Side, d: Dir, out: set<Id>, x: Id)
    requires SideOk(info, side, d, out) && x in side.sort
    ensures var side' := Remove(side.(next := Latter(side.sort, x)), x);
            && SideOk(info, side', d, out) && |side'.sort| == |side.sort| - 1
            && (forall y :: y in side'.sort <==> y in side.sort && y != x)
            && (forall y :: y in side'.fifo <==> y in side.fifo && y != x)
            && x in side.fifo
  {
    hide NoDup, ByPos, ByExpiry, Del, Latter;
    LatterIn(side.sort, x);
    SetNext(info, side, d, out, Latter(side.sort, x));
    RemoveSide(info, side.(next := Latter(side.sort, x)), d, out, x);
  }

  lemma MoveCore(s: Deadline, x: Id, out: set<Id>, extra: int)
    requires Core(s, out, extra) && x in s.info && x in s.Get(s.info[x].dir).sort
    ensures Core(Move(s, x), out, extra)
    ensures forall d: Dir, y :: y in Move(s, x).Get(d).sort <==> y in s.Get(d).sort && y != x
    ensures forall d: Dir, y :: y in Move(s, x).Get(d).fifo <==> y in s.Get(d).fifo && y != x
  {
    hide SideOk, Del, Latter, OutOf, NoDup, Remove;
    var d := s.info[x].dir;
    OneSide(s, x, out, extra);
    SetNext(s.info, s.read, Read, OutOf(s.info, out, Read), None);
    SetNext(s.info, s.write, Write, OutOf(s.info, out, Write), None);
    MoveSide(s.info, s.Get(d).(next := None), d, OutOf(s.info, out, d), x);
    AppendNoDup(s.dispatched, x);
  }

  lemma AppendNoDup(xs: seq<Id>, x: Id)
    requires NoDup(xs) && x !in xs
    ensures NoDup(xs + [x])
  {}

  /** A queued request is on the lists of its own direction only. */
  lemma OneSide(s: Deadline, x: Id, out: set<Id>, extra: int)
    requires Core(s, out, extra) && x in s.info
    ensures s.info[x].dir == Read ==> x !in s.write.sort && x !in s.write.fifo
    ensures s.info[x].dir == Write ==> x !in s.read.sort && x !in s.read.fifo
  {}

  // ---------------------------------------------------------------- adding and repositioning

  /** After the request in the way was dispatched, no queued one starts at the same sector. */
  lemma ClearAliasCore(s: Deadline, x: Id, out: set<Id>, extra: int)
    requires Core(s, out, extra) && x in s.info && x !in s.Get(s.info[x].dir).sort
    ensures var s' := ClearAlias(s, x);
            && Core(s', out, extra)
            && (forall d: Dir, y :: y in s'.Get(d).sort ==> y in s.Get(d).sort)
            && (forall d: Dir, y :: y in s'.Get(d).fifo ==> y in s.Get(d).fifo)
            && (forall d: Dir :: x in s.Get(d).fifo ==> x in s'.Get(d).fifo)
            && (forall y :: y in s'.Get(s.info[x].dir).sort ==> y in s.info && s.info[y].pos != s.info[x].pos)
  {
    var d, pos := s.info[x].dir, s.info[x].pos;
    var sort := s.Get(d).sort;
    match Alias(s.info, sort, pos)
    case None =>
      forall y | y in sort ensures y in s.info && s.info[y].pos != pos {
        var i :| 0 <= i < |sort| && sort[i] == y;
        NoAlias(s.info, sort, pos, i);
      }
    case Some(a) =>
      assert s.info[a].dir == d;
      forall y | y in sort && y != a ensures y in s.info && s.info[y].pos != pos {
        OtherPos(s.info, sort, a, y);
      }
      hide SideOk, Alias, Move;
      MoveCore(s, a, out, extra);
  }

  lemma OtherPos(info: map<Id, Info>, sort: seq<Id>, a: Id, y: Id)
    requires ByPos(info, sort) && a in sort && y in sort && a != y && a in info && y in info
    ensures info[a].pos != info[y].pos
  {}

  /** Putting a request into the index of its direction that is (or will be) on the fifo. */
  lemma InsertSide(info: map<Id, Info>, side: Side, d: Dir, x: Id, fifo: seq<Id>)
    requires x in info && info[x].dir == d && x !in side.sort
    requires (SideOk(info, side, d, {x}) && fifo == side.fifo) || (SideOk(info, side, d, {}) && fifo == side.fifo + [x])
    requires NoDup(fifo) && ByExpiry(info, fifo)
    requires forall y :: y in side.sort ==> info[y].pos != info[x].pos
    ensures SideOk(info, side.(sort := InsertByPos(info, side.sort, x), fifo := fifo), d, {})
    ensures |InsertByPos(info, side.sort, x)| == |side.sort| + 1
  {
    hide NoDup, ByPos, ByExpiry, InsertByPos;
    InsertKeeps(info, side.sort, x);
  }

  lemma InsertCore(s: Deadline, x: Id, fifo: seq<Id>, out: set<Id>)
    requires Core(s, out, 1) && x in s.info && x !in s.dispatched && (out == {} || out == {x})
    requires var side := s.Get(s.info[x].dir);
             && x !in side.sort && NoDup(fifo) && ByExpiry(s.info, fifo)
             && (forall y :: y in side.sort ==> s.info[y].pos != s.info[x].pos)
             && (if out == {} then x !in side.fifo && fifo == side.fifo + [x] else fifo == side.fifo)
    ensures var side := s.Get(s.info[x].dir);
            Core(s.Set(s.info[x].dir, side.(sort := InsertByPos(s.info, side.sort, x), fifo := fifo)), {}, 0)
  {
    hide SideOk, NoDup, ByExpiry, InsertByPos;
    var d := s.info[x].dir;
    assert OutOf(s.info, {}, Read) == {} && OutOf(s.info, {}, Write) == {};
    assert OutOf(s.info, out, d) == out && OutOf(s.info, out, if d == Read then Write else Read) == {};
    InsertSide(s.info, s.Get(d), d, x, fifo);
  }

  lemma AppendExpiry(info: map<Id, Info>, fifo: seq<Id>, x: Id)
    requires ByExpiry(info, fifo) && x in info && forall y :: y in fifo && y in info ==> info[y].expire <= info[x].expire
    ensures ByExpiry(info, fifo + [x])
  {}

  lemma FreshInfo(s: Deadline, cfg: Config, now: nat, x: Id, rq: Info)
    requires Inv(s, cfg, now) && x !in s.info
    ensures var s1 := s.(nrSorted := s.nrSorted + 1, info := s.info[x := rq]);
            && Core(s1, {}, 1) && Timely(s1, cfg, now)
            && x !in s.dispatched && (forall d: Dir :: x !in s.Get(d).sort && x !in s.Get(d).fifo)
  {
    var info := s.info[x := rq];
    SideInfo(s.info, info, s.read, Read, {});
    SideInfo(s.info, info, s.write, Write, {});
    hide SideOk, NoDup;
  }

  /** What a new request finds once the one in its way is gone. */
  lemma RoomFor(s: Deadline, cfg: Config, now: nat, x: Id)
    requires Core(s, {}, 1) && Timely(s, cfg, now) && x in s.info && x !in s.dispatched
    requires s.info[x].expire == now + cfg.Expire(s.info[x].dir)
    requires forall d: Dir :: x !in s.Get(d).sort && x !in s.Get(d).fifo
    ensures var s' := ClearAlias(s, x);
            && Core(s', {}, 1) && Timely(s', cfg, now) && s'.info == s.info && x !in s'.dispatched
            && (forall d: Dir :: x !in s'.Get(d).sort && x !in s'.Get(d).fifo)
            && (forall y :: y in s'.Get(s.info[x].dir).sort ==> y in s.info && s.info[y].pos != s.info[x].pos)
  {
    hide Core, ClearAlias;
    ClearAliasCore(s, x, {}, 1);
    ClearAliasDispatched(s, x);
    hide Deadline.Get;
    assert forall y :: y in ClearAlias(s, x).Get(Read).fifo ==> y in s.Get(Read).fifo;
    assert forall y :: y in ClearAlias(s, x).Get(Write).fifo ==> y in s.Get(Write).fifo;
    GetIs(s);
    GetIs(ClearAlias(s, x));
  }

  lemma GetIs(s: Deadline)
    ensures s.Get(Read) == s.read && s.Get(Write) == s.write
  {}

  lemma JoinFifo(s: Deadline, cfg: Config, now: nat, x: Id)
    requires Core(s, {}, 1) && Timely(s, cfg, now) && x in s.info && x !in s.dispatched
    requires s.info[x].expire == now + cfg.Expire(s.info[x].dir)
    requires var side := s.Get(s.info[x].dir); x !in side.sort && x !in side.fifo
    requires forall y :: y in s.Get(s.info[x].dir).sort ==> y in s.info && s.info[y].pos != s.info[x].pos
    ensures var side := s.Get(s.info[x].dir);
            Inv(s.Set(s.info[x].dir, side.(sort := InsertByPos(s.info, side.sort, x), fifo := side.fifo + [x])), cfg, now)
  {
    hide Core, NoDup, ByExpiry, InsertByPos;
    var fifo := s.Get(s.info[x].dir).fifo;
    FifoFacts(s, s.info[x].dir);
    AppendNoDup(fifo, x);
    AppendExpiry(s.info, fifo, x);
    InsertCore(s, x, fifo + [x], {});
  }

  /** deadline_add_request keeps everything in order, whatever was in the way. */
  lemma AddInv(s: Deadline, cfg: Config, now: nat, x: Id, d: Dir, pos: nat, sectors: nat)
    requires Inv(s, cfg, now) && x !in s.info
    ensures Inv(Add(s, cfg, x, d, pos, sectors, now), cfg, now)
  {
    hide Core, Timely, ClearAlias, InsertByPos;
    var rq := Info(d, pos, sectors, now + cfg.Expire(d));
    FreshInfo(s, cfg, now, x, rq);
    var s1 := s.(nrSorted := s.nrSorted + 1, info := s.info[x := rq]);
    assert forall e: Dir :: s1.Get(e) == s.Get(e);
    RoomFor(s1, cfg, now, x);
    JoinFifo(ClearAlias(s1, x), cfg, now, x);
  }

  lemma FifoFacts(s: Deadline, d: Dir)
    requires Core(s, {}, 1)
    ensures NoDup(s.Get(d).fifo) && ByExpiry(s.info, s.Get(d).fifo)
  {}

  lemma ClearAliasDispatched(s: Deadline, x: Id)
    requires x in s.info && x !in s.Get(s.info[x].dir).sort
    ensures ClearAlias(s, x).info == s.info
    ensures x !in s.dispatched ==> x !in ClearAlias(s, x).dispatched
  {}

  /** A request whose sector is about to change: on the fifo, but off the index. */
  lemma LiftOut(s: Deadline, cfg: Config, now: nat, x: Id, rq: Info)
    requires Inv(s, cfg, now) && x in s.info && x in s.Get(s.info[x].dir).sort
    requires rq.dir == s.info[x].dir && rq.expire == s.info[x].expire
    ensures var s1 := s.(info := s.info[x := rq]);
            var s2 := s1.Set(rq.dir, s1.Get(rq.dir).(sort := Del(s1.Get(rq.dir).sort, x)));
            && Core(s2, {x}, 1) && Timely(s2, cfg, now)
            && x !in s2.Get(rq.dir).sort && x in s2.Get(rq.dir).fifo && x !in s2.dispatched
  {
    var d, e, info := rq.dir, (if rq.dir == Read then Write else Read), s.info[x := rq];
    var side := s.Get(d).(sort := Del(s.Get(d).sort, x));
    OneSide(s, x, {}, 0);
    assert OutOf(s.info, {}, Read) == {} && OutOf(s.info, {}, Write) == {};
    LiftSide(s.info, s.Get(d), d, x);
    assert OutOf(info, {x}, d) == {x} && OutOf(info, {x}, e) == {};
    SideInfo(s.info, info, side, d, {x});
    SideInfo(s.info, info, s.Get(e), e, {});
    hide SideOk, NoDup, Del, OutOf;
  }

  lemma LiftSide(info: map<Id, Info>, side: Side, d: Dir, x: Id)
    requires SideOk(info, side, d, {}) && x in side.sort
    ensures var side' := side.(sort := Del(side.sort, x));
            && SideOk(info, side', d, {x}) && x !in side'.sort && x in side'.fifo && |side'.sort| == |side.sort| - 1
  {
    hide NoDup, ByPos, ByExpiry, Del;
    DelKeeps(info, side.sort, x);
  }

  /** deadline_merged_request repositions the request and keeps everything in order. */
  lemma FrontMergeInv(s: Deadline, cfg: Config, now: nat, x: Id, pos: nat, sectors: nat)
    requires Inv(s, cfg, now) && x in s.info && x in s.Get(s.info[x].dir).sort
    ensures Inv(FrontMerge(s, x, pos, sectors), cfg, now)
  {
    hide Core, Timely, ClearAlias, InsertByPos, Del;
    var rq := s.info[x].(pos := pos, sectors := sectors);
    LiftOut(s, cfg, now, x, rq);
    var s1 := s.(info := s.info[x := rq]);
    var s2 := s1.Set(rq.dir, s1.Get(rq.dir).(sort := Del(s1.Get(rq.dir).sort, x)));
    PutBack(s2, cfg, now, x);
  }

  lemma PutBack(s: Deadline, cfg: Config, now: nat, x: Id)
    requires Core(s, {x}, 1) && Timely(s, cfg, now) && x in s.info && x !in s.dispatched
    requires x !in s.Get(s.info[x].dir).sort && x in s.Get(s.info[x].dir).fifo
    ensures Inv(AddToSort(s, x), cfg, now)
  {
    hide Core, ClearAlias, InsertByPos;
    var d, s' := s.info[x].dir, ClearAlias(s, x);
    ClearAliasCore(s, x, {x}, 1);
    ClearAliasDispatched(s, x);
    assert forall e: Dir, y :: y in s'.Get(e).fifo ==> y in s.Get(e).fifo;
    LiftedFacts(s', d, x);
    InsertCore(s', x, s'.Get(d).fifo, {x});
    assert s'.Get(d).(sort := InsertByPos(s'.info, s'.Get(d).sort, x), fifo := s'.Get(d).fifo)
        == s'.Get(d).(sort := InsertByPos(s'.info, s'.Get(d).sort, x));
    TimelySubset(s, s', cfg, now);
  }

  lemma LiftedFacts(s: Deadline, d: Dir, x: Id)
    requires Core(s, {x}, 1)
    ensures NoDup(s.Get(d).fifo) && ByExpiry(s.info, s.Get(d).fifo)
  {}

  lemma TimelySubset(s: Deadline, s': Deadline, cfg: Config, now: nat)
    requires Timely(s, cfg, now) && s'.info == s.info && forall d: Dir, y :: y in s'.Get(d).fifo ==> y in s.Get(d).fifo
    ensures Timely(s', cfg, now)
  {
    assert forall y :: y in s'.Get(Read).fifo ==> y in s.Get(Read).fifo;
    assert forall y :: y in s'.Get(Write).fifo ==> y in s.Get(Write).fifo;
  }

  // ---------------------------------------------------------------- merging two requests

  lemma {:induction false} InsertBehindIs(xs: seq<Id>, x: Id, y: Id, k: nat)
    requires k < |xs| && xs[k] == y && NoDup(xs) && x != y
    ensures Del(InsertBehind(xs, x, y), y) == xs[k := x]
  {
    if k == 0 {
      assert ([y, x] + xs[1..])[1..] == xs[0 := x];
    } else {
      InsertBehindIs(xs[1..], x, y, k - 1);
      assert xs[0] != y;
      assert ([xs[0]] + InsertBehind(xs[1..], x, y))[1..] == InsertBehind(xs[1..], x, y);
    }
  }

  /** A request put in the place of another, with that one's expiry. */
  lemma Replace(info: map<Id, Info>, zs: seq<Id>, k: nat, x: Id)
    requires NoDup(zs) && ByExpiry(info, zs) && k < |zs| && x !in zs && x in info && zs[k] in info
    ensures NoDup(zs[k := x]) && ByExpiry(info[x := info[x].(expire := info[zs[k]].expire)], zs[k := x])
    ensures forall z :: z in zs[k := x] <==> z == x || (z in zs && z != zs[k])
  {
    var ws, info' := zs[k := x], info[x := info[x].(expire := info[zs[k]].expire)];
    forall i | 0 <= i < |ws| ensures ws[i] == if i == k then x else zs[i] {}
    forall z | z == x || (z in zs && z != zs[k]) ensures z in ws {
      if z == x {
        assert ws[k] == x;
      } else {
        var i :| 0 <= i < |zs| && zs[i] == z;
        assert ws[i] == z;
      }
    }
  }

  /** In the fifo the merged request takes over the place and the expiry of the one that goes. */
  lemma MergeFifo(info: map<Id, Info>, fifo: seq<Id>, x: Id, y: Id) returns (k: nat)
    requires NoDup(fifo) && ByExpiry(info, fifo) && x in fifo && y in fifo && x != y && x in info && y in info
    ensures var fifo' := Del(MoveBehind(fifo, x, y), y);
            && NoDup(fifo') && ByExpiry(info[x := info[x].(expire := info[y].expire)], fifo')
            && (forall z :: z in fifo' <==> z in fifo && z != y)
            && k < |Del(fifo, x)| && Del(fifo, x)[k] == y && fifo' == Del(fifo, x)[k := x]
  {
    hide NoDup, ByExpiry, Del, InsertBehind;
    var zs: seq<Id> := Del(fifo, x);
    DelKeeps(info, fifo, x);
    k :| 0 <= k < |zs| && zs[k] == y;
    InsertBehindIs(zs, x, y, k);
    Replace(info, zs, k, x);
  }

  /** y is merged into x, which has more time left: x takes the place of y. */
  lemma MergeEarlier(info: map<Id, Info>, side: Side, d: Dir, x: Id, y: Id)
    requires SideOk(info, side, d, {}) && x in side.sort && y in side.sort && x != y && x in info && y in info
    ensures var side' := Remove(side.(fifo := MoveBehind(side.fifo, x, y)), y);
            && SideOk(info[x := info[x].(expire := info[y].expire)], side', d, {}) && |side'.sort| == |side.sort| - 1
            && (forall z :: z in side'.fifo <==> z in side.fifo && z != y)
  {
    hide NoDup, ByPos, ByExpiry, Del, Latter, MoveBehind;
    var k := MergeFifo(info, side.fifo, x, y);
    DelKeeps(info, side.sort, y);
    LatterIn(side.sort, y);
    SamePos(info, info[x := info[x].(expire := info[y].expire)], Del(side.sort, y));
  }

  lemma SamePos(info: map<Id, Info>, info': map<Id, Info>, sort: seq<Id>)
    requires ByPos(info, sort) && info.Keys == info'.Keys && forall z :: z in info ==> info'[z].pos == info[z].pos
    ensures ByPos(info', sort)
  {}

  lemma SidePart(s: Deadline, d: Dir)
    requires Core(s, {}, 0)
    ensures SideOk(s.info, s.Get(d), d, {})
  {}

  lemma MergeSide(s: Deadline, x: Id, y: Id)
    requires Core(s, {}, 0) && x in s.info && y in s.info && x != y
    requires var d := s.info[x].dir; x in s.Get(d).sort && y in s.Get(d).sort
    ensures var d, s' := s.info[x].dir, MergeRequests(s, x, y);
            && SideOk(s'.info, s'.Get(d), d, {}) && |s'.Get(d).sort| == |s.Get(d).sort| - 1
            && (forall z :: z in s'.Get(d).fifo <==> z in s.Get(d).fifo && z != y)
  {
    hide Core, SideOk, Remove, MoveBehind;
    var d, s' := s.info[x].dir, MergeRequests(s, x, y);
    var side := s.Get(d);
    SidePart(s, d);
    if s.info[y].expire < s.info[x].expire {
      MergeEarlier(s.info, side, d, x, y);
      SideInfo(s.info[x := s.info[x].(expire := s.info[y].expire)], s'.info, s'.Get(d), d, {});
    } else {
      RemoveSide(s.info, side, d, {}, y);
      SideInfo(s.info, s'.info, s'.Get(d), d, {});
    }
  }

  /** deadline_merged_requests keeps everything in order. */
  lemma MergeRequestsInv(s: Deadline, cfg: Config, now: nat, x: Id, y: Id)
    requires Inv(s, cfg, now) && x in s.info && y in s.info && x != y
    requires var d := s.info[x].dir; x in s.Get(d).sort && y in s.Get(d).sort
    ensures Inv(MergeRequests(s, x, y), cfg, now)
  {
    hide NoDup, Remove, MoveBehind, SideOk;
    var d, e := s.info[x].dir, if s.info[x].dir == Read then Write else Read;
    var s' := MergeRequests(s, x, y);
    assert OutOf(s.info, {}, Read) == {} && OutOf(s.info, {}, Write) == {};
    assert OutOf(s'.info, {}, Read) == {} && OutOf(s'.info, {}, Write) == {};
    OneSide(s, x, {}, 0);
    hide OutOf;
    MergeSide(s, x, y);
    SideInfo(s.info, s'.info, s.Get(e), e, {});
    MergeNext(s, x, y);
  }

  lemma MergeNext(s: Deadline, x: Id, y: Id)
    requires Core(s, {}, 0) && x in s.info && y in s.info
    ensures var s' := MergeRequests(s, x, y); !(s'.read.next.Some? && s'.write.next.Some?)
  {}

  // ---------------------------------------------------------------- dispatching

  /** The request to dispatch is queued, and there is one exactly if anything is queued. */
  lemma SelectedQueued(s: Deadline, cfg: Config, now: nat)
    requires Core(s, {}, 0)
    ensures forall d: Dir :: s.Get(d).fifo != [] ==> s.Get(d).fifo[0] in s.info
    ensures var x := Selected(s, cfg, now);
            && (x.None? <==> s.read.fifo == [] && s.write.fifo == [])
            && (x.Some? ==> x.value in s.info && x.value in s.Get(s.info[x.value].dir).sort)
  {
    hide NoDup, ByPos, ByExpiry;
    assert s.read.fifo != [] ==> s.read.fifo[0] in s.read.fifo;
    assert s.write.fifo != [] ==> s.write.fifo[0] in s.write.fifo;
  }

  /** The counters deadline_dispatch_requests sets before it moves a request. */
  function Counted(s: Deadline, cfg: Config): Deadline {
    match Choose(s, cfg)
    case Batch(_) => s.(batching := s.batching + 1)
    case NewBatch(d) => s.(batching := 1, starved := Starved(s, d))
    case Nothing => s
  }

  /** deadline_dispatch_requests moves the selected request and keeps everything in order. */
  lemma DispatchInv(s: Deadline, cfg: Config, now: nat)
    requires Inv(s, cfg, now)
    ensures forall d: Dir :: s.Get(d).fifo != [] ==> s.Get(d).fifo[0] in s.info
    ensures Inv(Dispatch(s, cfg, now), cfg, now)
  {
    hide SideOk, NoDup, Move;
    SelectedQueued(s, cfg, now);
    var x := Selected(s, cfg, now);
    if x.Some? {
      var s1 := Counted(s, cfg);
      assert Core(s1, {}, 0);
      MoveInv(s1, cfg, now, x.value);
    }
  }

  lemma MoveInv(s: Deadline, cfg: Config, now: nat, x: Id)
    requires Inv(s, cfg, now) && x in s.info && x in s.Get(s.info[x].dir).sort
    ensures Inv(Move(s, x), cfg, now)
  {
    hide Core, Move;
    MoveCore(s, x, {}, 0);
    assert forall d: Dir, y :: y in Move(s, x).Get(d).fifo ==> y in s.Get(d).fifo;
    TimelySubset(s, Move(s, x), cfg, now);
  }

  /** Looking at the head of a fifo is as good as looking at all of it. */
  lemma CheckFifoSeesAll(s: Deadline, cfg: Config, now: nat, d: Dir)
    requires Inv(s, cfg, now) && s.Get(d).fifo != []
    ensures s.Get(d).fifo[0] in s.info
    ensures CheckFifo(s, d, now) <==> exists x :: x in s.Get(d).fifo && x in s.info && now > s.info[x].expire
  {}

  /** A new batch in a direction where some request has expired starts with one that expires first of all. */
  lemma ExpiredFirst(s: Deadline, cfg: Config, now: nat, d: Dir, late: Id)
    requires Inv(s, cfg, now) && Choose(s, cfg) == NewBatch(d)
    requires late in s.Get(d).fifo && late in s.info && now > s.info[late].expire
    ensures forall e: Dir :: s.Get(e).fifo != [] ==> s.Get(e).fifo[0] in s.info
    ensures var x := Selected(s, cfg, now);
            && x.Some? && x.value in s.Get(d).fifo
            && forall y :: y in s.Get(d).fifo ==> y in s.info && x.value in s.info && s.info[x.value].expire <= s.info[y].expire
  {
    SelectedQueued(s, cfg, now);
    CheckFifoSeesAll(s, cfg, now, d);
    var fifo := s.Get(d).fifo;
    forall y | y in fifo ensures y in s.info && s.info[fifo[0]].expire <= s.info[y].expire {
      var i :| 0 <= i < |fifo| && fifo[i] == y;
    }
  }
}
