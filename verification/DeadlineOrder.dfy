/**
 Which request the deadline scheduler sends next.  A batch goes up the sectors of one direction,
 from each request to the nearest one above it; a batch that cannot go on starts again at the
 request that expires first.
 */
module DeadlineOrder {
  import opened Collections
  import opened DeadlineSpec
  import opened DeadlineProof
  import opened DeadlineRuns

  /** y is queued in direction d. */
  predicate QueuedIn(s: Deadline, d: Dir, y: Id) {
    s.Queued(y) && y in s.info && s.info[y].dir == d
  }

  /** A request of x's direction is queued at a higher sector than x. */
  ghost predicate SomeAbove(s: Deadline, x: Id)
    requires x in s.info
  {
    exists y :: QueuedIn(s, s.info[x].dir, y) && s.info[y].pos > s.info[x].pos
  }

  /** z is the nearest of them. */
  ghost predicate NextAbove(s: Deadline, x: Id, z: Id)
    requires x in s.info
  {
    && QueuedIn(s, s.info[x].dir, z) && s.info[z].pos > s.info[x].pos
    && forall y :: QueuedIn(s, s.info[x].dir, y) ==> !(s.info[x].pos < s.info[y].pos < s.info[z].pos)
  }

  /** z expires first of all queued requests of its direction. */
  ghost predicate FirstToExpire(s: Deadline, z: Id)
    requires z in s.info
  {
    QueuedIn(s, s.info[z].dir, z) && forall y :: QueuedIn(s, s.info[z].dir, y) ==> s.info[z].expire <= s.info[y].expire
  }

  ghost predicate NoneExpired(s: Deadline, d: Dir, now: nat) {
    forall y :: QueuedIn(s, d, y) ==> now <= s.info[y].expire
  }

  lemma {:induction false} LatterAt(xs: seq<Id>, k: nat)
    requires k < |xs| && NoDup(xs)
    ensures Latter(xs, xs[k]) == if k + 1 < |xs| then Some(xs[k + 1]) else None
  {
    if k > 0 {
      LatterAt(xs[1..], k - 1);
    }
  }

  /** Both indexes of a direction hold what is queued in it. */
  lemma QueuedIs(s: Deadline, d: Dir)
    requires Core(s, {}, 0)
    ensures forall y :: QueuedIn(s, d, y) <==> y in s.Get(d).sort
    ensures forall y :: QueuedIn(s, d, y) <==> y in s.Get(d).fifo
  {
    hide NoDup, ByPos, ByExpiry;
  }

  /** A dispatch leaves the nearest request above the one it sends as the one to go on with. */
  lemma NextAfterMove(s: Deadline, x: Id)
    requires Core(s, {}, 0) && x in s.info && x in s.Get(s.info[x].dir).sort
    ensures var s', d := Move(s, x), s.info[x].dir;
            && s'.Get(if d == Read then Write else Read).next.None?
            && (s'.Get(d).next.Some? ==> NextAbove(s', x, s'.Get(d).next.value))
            && (s'.Get(d).next.None? ==> !SomeAbove(s', x))
  {
    var s', d := Move(s, x), s.info[x].dir;
    var sort := s.Get(d).sort;
    assert NoDup(sort) && ByPos(s.info, sort) && AllIn(s.info, sort, d);
    LatterAbove(s.info, sort, x);
    MoveCore(s, x, {}, 0);
    QueuedIs(s', d);
    hide Core, Del, Latter, QueuedIn, NoDup, ByPos, AllIn;
    assert s'.Get(d).next == Latter(sort, x);
  }

  /** In a sorted index the latter request is the nearest above. */
  lemma LatterAbove(info: map<Id, Info>, sort: seq<Id>, x: Id)
    requires NoDup(sort) && ByPos(info, sort) && x in sort && forall y :: y in sort ==> y in info
    ensures var z := Latter(sort, x);
            && (z.Some? ==> z.value in sort && z.value != x && info[z.value].pos > info[x].pos)
            && (forall y :: y in sort && info[y].pos > info[x].pos ==> z.Some? && info[y].pos >= info[z.value].pos)
  {
    var k :| 0 <= k < |sort| && sort[k] == x;
    LatterAt(sort, k);
    hide Latter;
    forall y | y in sort && info[y].pos > info[x].pos
      ensures k + 1 < |sort| && info[y].pos >= info[sort[k + 1]].pos
    {
      var i :| 0 <= i < |sort| && sort[i] == y;
    }
  }

  // ---------------------------------------------------------------- one dispatch after another

  /** The scheduler after a dispatch. */
  ghost function After(s: Deadline, cfg: Config, now: nat): (s': Deadline)
    requires Inv(s, cfg, now)
    ensures Inv(s', cfg, now)
  {
    DispatchInv(s, cfg, now);
    Dispatch(s, cfg, now)
  }

  /** A dispatch of x, as seen from outside. */
  ghost predicate Sends(s: Deadline, s': Deadline, x: Id) {
    s'.dispatched == s.dispatched + [x] && s'.info == s.info && x in s.info
  }

  lemma InvLater(s: Deadline, cfg: Config, now: nat, later: nat)
    requires Inv(s, cfg, now) && now <= later
    ensures Inv(s, cfg, later)
  {
    hide Core;
  }

  /** A dispatch sends the selected request, if anything is queued. */
  lemma DispatchSends(s: Deadline, cfg: Config, now: nat)
    requires Inv(s, cfg, now)
    ensures forall d: Dir :: s.Get(d).fifo != [] ==> s.Get(d).fifo[0] in s.info
    ensures var s', x := After(s, cfg, now), Selected(s, cfg, now);
            && (x.Some? ==> Sends(s, s', x.value) && s' == Move(Counted(s, cfg), x.value) && x.value in s.Get(s.info[x.value].dir).sort)
            && (x.None? ==> s' == s)
  {
    SelectedQueued(s, cfg, now);
    hide Core, Remove, Latter;
  }

  lemma SentIs(s: Deadline, cfg: Config, now: nat, z: Id)
    requires Inv(s, cfg, now) && Sends(s, After(s, cfg, now), z)
    ensures forall d: Dir :: s.Get(d).fifo != [] ==> s.Get(d).fifo[0] in s.info
    ensures Selected(s, cfg, now) == Some(z)
  {
    DispatchSends(s, cfg, now);
    hide Inv, After, Move, Selected;
    assert |After(s, cfg, now).dispatched| == |s.dispatched| + 1;
    var y := Selected(s, cfg, now).value;
    assert (s.dispatched + [z])[|s.dispatched|] == (s.dispatched + [y])[|s.dispatched|];
  }

  /** What the dispatch of x leaves for the next one. */
  lemma AfterSending(s: Deadline, cfg: Config, now: nat, x: Id)
    requires Inv(s, cfg, now) && Sends(s, After(s, cfg, now), x)
    ensures var s', d := After(s, cfg, now), s.info[x].dir;
            && s'.Get(if d == Read then Write else Read).next.None?
            && (s'.Get(d).next.Some? <==> SomeAbove(s', x))
            && (s'.Get(d).next.Some? ==> NextAbove(s', x, s'.Get(d).next.value))
  {
    hide Move, NextAbove;
    DispatchSends(s, cfg, now);
    SentIs(s, cfg, now, x);
    var s1 := Counted(s, cfg);
    hide After, Selected;
    assert Core(s1, {}, 0) by { hide SideOk; }
    NextAfterMove(s1, x);
    AboveIsSome(After(s, cfg, now), x);
  }

  lemma AboveIsSome(s: Deadline, x: Id)
    requires x in s.info
    ensures forall z :: NextAbove(s, x, z) ==> SomeAbove(s, x)
  {}

  /** The head of a fifo expires first. */
  lemma OldestFirst(s: Deadline, cfg: Config, now: nat, d: Dir)
    requires Inv(s, cfg, now) && s.Get(d).fifo != []
    ensures var z := s.Get(d).fifo[0]; z in s.info && s.info[z].dir == d && FirstToExpire(s, z)
    ensures CheckFifo(s, d, now) <==> !NoneExpired(s, d, now)
  {
    QueuedIs(s, d);
    CheckFifoSeesAll(s, cfg, now, d);
    var fifo := s.Get(d).fifo;
    assert ByExpiry(s.info, fifo) && AllIn(s.info, fifo, d);
    hide Core, QueuedIn;
    forall y | y in fifo ensures s.info[fifo[0]].expire <= s.info[y].expire {
      var i :| 0 <= i < |fifo| && fifo[i] == y;
    }
  }

  /**
   A batch goes on: after x, while the batch is not used up and something is queued above x in its
   direction, the next request sent is the nearest above x, whatever has expired meanwhile.
   */
  lemma BatchGoesOn(s: Deadline, cfg: Config, now: nat, x: Id, later: nat)
    requires Inv(s, cfg, now) && now <= later && Sends(s, After(s, cfg, now), x)
    requires After(s, cfg, now).batching < cfg.fifoBatch && SomeAbove(After(s, cfg, now), x)
    ensures var s1 := After(s, cfg, now);
            Inv(s1, cfg, later) && exists z :: NextAbove(s1, x, z) && Sends(s1, After(s1, cfg, later), z)
  {
    var s1 := After(s, cfg, now);
    AfterSending(s, cfg, now, x);
    InvLater(s1, cfg, now, later);
    DispatchSends(s1, cfg, later);
    hide Inv, After, NextAbove, SomeAbove;
    var z := s1.Get(s.info[x].dir).next.value;
    assert Selected(s1, cfg, later) == Some(z);
  }

  /**
   Which request is sent after x, in every case: the nearest above x if the direction stays and the
   batch goes on or nothing has expired, and otherwise the one that expires first in its direction.
   */
  lemma SentAfter(s: Deadline, cfg: Config, now: nat, x: Id, later: nat, z: Id)
    requires Inv(s, cfg, now) && now <= later && Sends(s, After(s, cfg, now), x)
    requires Inv(After(s, cfg, now), cfg, later) && Sends(After(s, cfg, now), After(After(s, cfg, now), cfg, later), z)
    ensures var s1, d := After(s, cfg, now), s.info[x].dir;
            if s.info[z].dir == d && SomeAbove(s1, x) && (s1.batching < cfg.fifoBatch || NoneExpired(s1, d, later))
            then NextAbove(s1, x, z)
            else FirstToExpire(s1, z)
  {
    var s1, d := After(s, cfg, now), s.info[x].dir;
    AfterSending(s, cfg, now, x);
    SentIs(s1, cfg, later, z);
    hide After, NextAbove, SomeAbove, FirstToExpire, NoneExpired, Core;
    NextDir(s1, d);
    ChosenIs(s1, cfg, later, d, z);
  }

  /** What is chosen while only direction d has a request to go on with. */
  lemma ChosenIs(s: Deadline, cfg: Config, now: nat, d: Dir, z: Id)
    requires Inv(s, cfg, now) && s.Get(if d == Read then Write else Read).next.None?
    requires forall e: Dir :: s.Get(e).fifo != [] ==> s.Get(e).fifo[0] in s.info
    requires Selected(s, cfg, now) == Some(z)
    requires s.Get(d).next.Some? ==> s.Get(d).next.value in s.info && s.info[s.Get(d).next.value].dir == d
    ensures z in s.info
    ensures if s.info[z].dir == d && s.Get(d).next.Some? && (s.batching < cfg.fifoBatch || NoneExpired(s, d, now))
            then s.Get(d).next == Some(z)
            else FirstToExpire(s, z)
  {
    match Choose(s, cfg)
    case Batch(_) =>
    case NewBatch(e) =>
      assert s.Get(e).fifo != [];
      OldestFirst(s, cfg, now, e);
      hide FirstToExpire, NoneExpired, Inv;
    case Nothing =>
  }

  lemma NextDir(s: Deadline, d: Dir)
    requires Core(s, {}, 0)
    ensures s.Get(d).next.Some? ==> s.Get(d).next.value in s.info && s.info[s.Get(d).next.value].dir == d
  {}

  // ---------------------------------------------------------------- merging

  /** The merged request covers both and expires at the earlier of the two times; the other is gone, nothing else changes. */
  lemma Merged(s: Deadline, cfg: Config, now: nat, x: Id, y: Id)
    requires Inv(s, cfg, now) && x in s.info && y in s.info && x != y
    requires QueuedIn(s, s.info[x].dir, x) && QueuedIn(s, s.info[x].dir, y)
    ensures var s', a, b := MergeRequests(s, x, y), s.info[x], s.info[y];
            && s'.info == s.info[x := Info(a.dir, a.pos, a.sectors + b.sectors, if b.expire < a.expire then b.expire else a.expire)]
            && (forall z :: s'.Queued(z) <==> s.Queued(z) && z != y)
            && s'.dispatched == s.dispatched
  {
    hide Timely, SideOk, MergeRequests, QueuedIn;
    MergedQueued(s, x, y);
    MergedInfo(s, x, y);
  }

  lemma MergedInfo(s: Deadline, x: Id, y: Id)
    requires x in s.info && y in s.info
    ensures var s', a, b := MergeRequests(s, x, y), s.info[x], s.info[y];
            && s'.info == s.info[x := Info(a.dir, a.pos, a.sectors + b.sectors, if b.expire < a.expire then b.expire else a.expire)]
            && s'.dispatched == s.dispatched
  {
    hide Remove, MoveBehind;
  }

  lemma MergedQueued(s: Deadline, x: Id, y: Id)
    requires Core(s, {}, 0) && x in s.info && y in s.info && QueuedIn(s, s.info[x].dir, y)
    ensures forall z :: MergeRequests(s, x, y).Queued(z) <==> s.Queued(z) && z != y
  {
    var d := s.info[x].dir;
    OneSide(s, y, {}, 0);
    assert NoDup(s.Get(d).sort);
    DelKeeps(s.info, s.Get(d).sort, y);
    hide Core, Del, MoveBehind, Latter, NoDup, ByPos, ByExpiry;
  }

  /** A batch that was to go on with the request that is merged away goes on with the nearest above that; any other goes on as it was. */
  lemma MergeGoesOn(s: Deadline, cfg: Config, now: nat, x: Id, y: Id, w: Id)
    requires Inv(s, cfg, now) && x in s.info && y in s.info && x != y
    requires QueuedIn(s, s.info[x].dir, x) && QueuedIn(s, s.info[x].dir, y) && Choose(s, cfg) == Batch(w)
    ensures var s' := MergeRequests(s, x, y);
            && (w != y ==> Choose(s', cfg) == Batch(w))
            && (w == y ==> y in s'.info && match Choose(s', cfg)
                                           case Batch(z) => NextAbove(s', y, z)
                                           case _ => !SomeAbove(s', y))
  {
    hide SideOk, Timely, MergeRequests, Latter, QueuedIn, NextAbove, SomeAbove;
    MergedNext(s, x, y, w);
    MergedInfo(s, x, y);
    if w == y {
      MergedAbove(s, x, y);
    }
  }

  lemma MergedAbove(s: Deadline, x: Id, y: Id)
    requires Core(s, {}, 0) && x in s.info && y in s.info && x != y
    requires QueuedIn(s, s.info[x].dir, x) && QueuedIn(s, s.info[x].dir, y)
    ensures var s', z := MergeRequests(s, x, y), Latter(s.Get(s.info[x].dir).sort, y);
            && y in s'.info && (z.Some? ==> NextAbove(s', y, z.value)) && (z.None? ==> !SomeAbove(s', y))
  {
    var d := s.info[x].dir;
    hide Core, MergeRequests, Latter, NoDup, ByPos, QueuedIn;
    MergedInfo(s, x, y);
    MergedIn(s, x, y);
    SortOk(s, d);
    QueuedIs(s, d);
    LatterAbove(s.info, s.Get(d).sort, y);
  }

  lemma MergedIn(s: Deadline, x: Id, y: Id)
    requires Core(s, {}, 0) && x in s.info && y in s.info && QueuedIn(s, s.info[x].dir, y)
    ensures var d := s.info[x].dir;
            forall z :: QueuedIn(MergeRequests(s, x, y), d, z) <==> z in s.Get(d).sort && z != y
  {
    MergedQueued(s, x, y);
    MergedInfo(s, x, y);
    QueuedIs(s, s.info[x].dir);
    hide Core, MergeRequests;
  }

  lemma SortOk(s: Deadline, d: Dir)
    requires Core(s, {}, 0)
    ensures NoDup(s.Get(d).sort) && ByPos(s.info, s.Get(d).sort) && forall y :: y in s.Get(d).sort ==> y in s.info
  {}

  lemma MergedNext(s: Deadline, x: Id, y: Id, w: Id)
    requires Core(s, {}, 0) && x in s.info && y in s.info && QueuedIn(s, s.info[x].dir, y)
    requires var rq := if s.write.next.Some? then s.write.next else s.read.next; rq == Some(w)
    ensures var s', d := MergeRequests(s, x, y), s.info[x].dir;
            var rq := if s'.write.next.Some? then s'.write.next else s'.read.next;
            && rq == (if w == y then Latter(s.Get(d).sort, y) else Some(w)) && s'.batching == s.batching
  {
    NextDir(s, Read);
    NextDir(s, Write);
    hide SideOk, Latter, Del, MoveBehind;
  }

  // ---------------------------------------------------------------- whose turn it is

  /** starved counts the read batches that were begun while a write was queued, since the last write batch began. */
  lemma StarvedCounts(s: Deadline, cfg: Config, now: nat, x: Id)
    requires Inv(s, cfg, now) && Sends(s, After(s, cfg, now), x)
    ensures var n, n', writes := s.starved, After(s, cfg, now).starved, s.write.fifo != [];
            if Choose(s, cfg).Batch? then n' == n
            else if s.info[x].dir == Write then n' == 0 else n' == if writes then n + 1 else n
  {
    SentIs(s, cfg, now, x);
    DispatchSends(s, cfg, now);
    NewBatchDir(s, cfg, now);
    hide Inv, After, Move;
  }

  /** With both waiting, a new batch is one of writes exactly when writes have been passed over writes_starved times. */
  lemma TurnIff(s: Deadline, cfg: Config, now: nat, x: Id)
    requires Inv(s, cfg, now) && Sends(s, After(s, cfg, now), x)
    requires !Choose(s, cfg).Batch? && s.read.fifo != [] && s.write.fifo != []
    ensures s.info[x].dir == Write <==> s.starved >= cfg.writesStarved
  {
    SentIs(s, cfg, now, x);
    NewBatchDir(s, cfg, now);
    hide Inv, After;
  }

  lemma NewBatchDir(s: Deadline, cfg: Config, now: nat)
    requires Inv(s, cfg, now)
    ensures forall e: Dir :: s.Get(e).fifo != [] ==> s.Get(e).fifo[0] in s.info
    ensures match Choose(s, cfg)
            case NewBatch(d) => s.Get(d).fifo != [] && var x := Selected(s, cfg, now); x.Some? && x.value in s.info && s.info[x.value].dir == d
            case _ => true
  {
    DispatchSends(s, cfg, now);
    match Choose(s, cfg)
    case NewBatch(d) =>
      assert s.Get(d).fifo != [];
      OldestFirst(s, cfg, now, d);
      NextDir(s, d);
    case _ =>
  }

  // ---------------------------------------------------------------- what stays known about a request

  /**
   What an action changes about a request: a new one expires a fixed time from now; only a merge
   changes that, to the earlier of two; its direction never changes.
   */
  lemma InfoAfter(t: System, cfg: Config, a: Action, y: Id)
    requires Ok(t, cfg)
    ensures var info, info' := t.s.info, Step(t, cfg, a).s.info;
            && (y in info ==>
                  && y in info' && info'[y].dir == info[y].dir
                  && (info'[y].expire == info[y].expire
                      || (Enabled(t, a) && a.Merge? && a.x == y && info'[y].expire == info[a.y].expire < info[y].expire)))
            && (y !in info && y in info' ==> a.AddRq? && a.x == y && info'[y] == Info(a.d, a.pos, a.sectors, t.now + cfg.Expire(a.d)))
  {
    hide Inv, AddToSort, MergeRequests, Dispatch;
    if Enabled(t, a) {
      match a
      case AddRq(x, d, pos, sectors) =>
        var rq := Info(d, pos, sectors, t.now + cfg.Expire(d));
        SortInfo(t.s.(nrSorted := t.s.nrSorted + 1, info := t.s.info[x := rq]), x);
      case Reposition(x, pos, sectors) =>
        var d := t.s.info[x].dir;
        var s1 := t.s.(info := t.s.info[x := t.s.info[x].(pos := pos, sectors := sectors)]);
        SortInfo(s1.Set(d, s1.Get(d).(sort := Del(s1.Get(d).sort, x))), x);
      case Merge(x, y) => MergedInfo(t.s, x, y);
      case DispatchRq => DispatchSends(t.s, cfg, t.now);
      case _ =>
    }
  }

  lemma SortInfo(s: Deadline, x: Id)
    requires x in s.info
    ensures AddToSort(s, x).info == s.info
  {
    hide Alias, Move, InsertByPos;
  }

  /** The elevator's end sector and boundary are those of the last request dispatched. */
  ghost predicate LastSent(s: Deadline) {
    s.dispatched != [] ==>
      var x := s.dispatched[|s.dispatched| - 1];
      x in s.info && s.boundary == Some(x) && s.endSector == s.lastSector == s.info[x].pos + s.info[x].sectors
  }

  lemma MoveLast(s: Deadline, x: Id)
    requires x in s.info
    ensures LastSent(Move(s, x))
  {
    hide Remove, Latter;
  }

  /** A request that is on the dispatch list is not changed any more. */
  lemma SentUnchanged(s: Deadline, cfg: Config, now: nat, x: Id, y: Id)
    requires Inv(s, cfg, now) && x in s.dispatched && InSort(s, y)
    ensures x != y
  {
    hide NoDup, ByPos, ByExpiry;
  }

  lemma SortKeepsLast(s: Deadline, x: Id)
    requires LastSent(s) && x in s.info
    ensures LastSent(AddToSort(s, x))
  {
    hide Move, InsertByPos, LastSent;
    var a := Alias(s.info, s.Get(s.info[x].dir).sort, s.info[x].pos);
    if a.Some? {
      MoveLast(s, a.value);
    }
    var s1 := ClearAlias(s, x);
    SetKeepsLast(s1, s.info[x].dir, s1.Get(s.info[x].dir).(sort := InsertByPos(s1.info, s1.Get(s.info[x].dir).sort, x)));
  }

  lemma SetKeepsLast(s: Deadline, d: Dir, side: Side)
    requires LastSent(s)
    ensures LastSent(s.Set(d, side))
  {}

  lemma InfoKeepsLast(s: Deadline, y: Id, rq: Info)
    requires LastSent(s) && y !in s.dispatched
    ensures LastSent(s.(info := s.info[y := rq])) && LastSent(s.(info := s.info[y := rq], nrSorted := s.nrSorted + 1))
    ensures LastSent(s.(info := s.info[y := rq], nrSorted := s.nrSorted - 1))
  {}

  lemma AddKeepsLast(s: Deadline, cfg: Config, x: Id, d: Dir, pos: nat, sectors: nat, now: nat)
    requires LastSent(s) && x !in s.dispatched
    ensures LastSent(Add(s, cfg, x, d, pos, sectors, now))
  {
    hide LastSent, AddToSort;
    var rq := Info(d, pos, sectors, now + cfg.Expire(d));
    InfoKeepsLast(s, x, rq);
    var s1 := s.(nrSorted := s.nrSorted + 1, info := s.info[x := rq]);
    SortKeepsLast(s1, x);
    var s2 := AddToSort(s1, x);
    SetKeepsLast(s2, d, s2.Get(d).(fifo := s2.Get(d).fifo + [x]));
  }

  lemma FrontMergeKeepsLast(s: Deadline, x: Id, pos: nat, sectors: nat)
    requires LastSent(s) && x !in s.dispatched && x in s.info
    ensures LastSent(FrontMerge(s, x, pos, sectors))
  {
    hide LastSent, AddToSort, Del;
    var d, rq := s.info[x].dir, s.info[x].(pos := pos, sectors := sectors);
    InfoKeepsLast(s, x, rq);
    var s1 := s.(info := s.info[x := rq]);
    var side := s1.Get(d).(sort := Del(s1.Get(d).sort, x));
    SetKeepsLast(s1, d, side);
    SortKeepsLast(s1.Set(d, side), x);
  }

  lemma MergeKeepsLast(s: Deadline, x: Id, y: Id)
    requires LastSent(s) && x !in s.dispatched && x in s.info && y in s.info
    ensures LastSent(MergeRequests(s, x, y))
  {
    MergedInfo(s, x, y);
    MergedTail(s, x, y);
    hide MergeRequests;
  }

  lemma DispatchKeepsLast(s: Deadline, cfg: Config, now: nat)
    requires Inv(s, cfg, now) && LastSent(s)
    ensures LastSent(After(s, cfg, now))
  {
    DispatchSends(s, cfg, now);
    hide Inv, Move, Selected, LastSent, After, Counted;
    var x := Selected(s, cfg, now);
    if x.Some? {
      assert x.value in Counted(s, cfg).info by { CountedInfo(s, cfg); }
      MoveLast(Counted(s, cfg), x.value);
    }
  }

  lemma CountedInfo(s: Deadline, cfg: Config)
    ensures Counted(s, cfg).info == s.info
  {}

  lemma StepKeepsLast(t: System, cfg: Config, a: Action)
    requires Ok(t, cfg) && LastSent(t.s)
    ensures LastSent(Step(t, cfg, a).s)
  {
    hide Inv, Add, FrontMerge, MergeRequests, Dispatch, LastSent;
    if Enabled(t, a) {
      NotSent(t, cfg, a);
      match a
      case AddRq(x, d, pos, sectors) => AddKeepsLast(t.s, cfg, x, d, pos, sectors, t.now);
      case Grow(x, sectors) => InfoKeepsLast(t.s, x, t.s.info[x].(sectors := sectors));
      case Reposition(x, pos, sectors) => FrontMergeKeepsLast(t.s, x, pos, sectors);
      case Merge(x, y) => MergeKeepsLast(t.s, x, y);
      case DispatchRq => DispatchKeepsLast(t.s, cfg, t.now);
      case Wait(_) =>
    }
  }

  lemma MergedTail(s: Deadline, x: Id, y: Id)
    requires x in s.info && y in s.info
    ensures var s' := MergeRequests(s, x, y);
            s'.boundary == s.boundary && s'.endSector == s.endSector && s'.lastSector == s.lastSector
  {
    hide Remove, MoveBehind;
  }

  lemma NotSent(t: System, cfg: Config, a: Action)
    requires Ok(t, cfg) && Enabled(t, a)
    ensures match a
            case AddRq(x, _, _, _) => x !in t.s.dispatched
            case Grow(x, _) => x !in t.s.dispatched
            case Reposition(x, _, _) => x !in t.s.dispatched
            case Merge(x, _) => x !in t.s.dispatched
            case _ => true
  {
    if a.Grow? || a.Reposition? || a.Merge? {
      if a.x in t.s.dispatched {
        SentUnchanged(t.s, cfg, t.now, a.x, a.x);
      }
    }
    hide NoDup, SideOk;
  }

  /** So after every run the dispatch list's end is known. */
  lemma {:induction false} RunKeepsLast(t: System, cfg: Config, acts: seq<Action>)
    requires Ok(t, cfg) && LastSent(t.s)
    ensures LastSent(Run(t, cfg, acts).s)
    decreases |acts|
  {
    hide Ok, Step, LastSent;
    if acts != [] {
      StepOk(t, cfg, acts[0]);
      StepKeepsLast(t, cfg, acts[0]);
      RunKeepsLast(Step(t, cfg, acts[0]), cfg, acts[1..]);
    }
  }
}
