/**
 What enqueueing and dequeueing keep, for any depth of groups: bitmaps match the queues, the
 recorded highest priority is the true minimum, counts are exact, every entry is filed under its
 current priority, and a group is queued only when it may run; which groups may run and are not
 queued is known after every action.  Hence picking a task walks down without hitting a BUG_ON and
 finds a task of the highest priority among all that may run.
 */
module RtPrioProof {
  import opened Collections
  import opened RtPrioSpec

  ghost function Total(qs: Queues): nat {
    if qs == [] then 0 else |qs[0]| + Total(qs[1..])
  }

  ghost function CountIn(xs: seq<Entity>, b: set<Entity>): nat {
    if xs == [] then 0 else (if xs[0] in b then 1 else 0) + CountIn(xs[1..], b)
  }

  /** How many queued entities are in b. */
  ghost function Weight(qs: Queues, b: set<Entity>): nat {
    if qs == [] then 0 else CountIn(qs[0], b) + Weight(qs[1..], b)
  }

  /** The bitmap, the count and the highest priority agree with the queues. */
  ghost predicate RqShape(rq: RtRq) {
    && |rq.queue| == MAX_RT_PRIO && |rq.bitmap| == MAX_RT_PRIO
    && (forall p :: 0 <= p < MAX_RT_PRIO ==> (rq.bitmap[p] <==> rq.queue[p] != []))
    && (forall p :: 0 <= p < MAX_RT_PRIO ==> NoDup(rq.queue[p]))
    && rq.nr == Total(rq.queue)
    && IsHighest(rq.queue, rq.highest)
  }

  /** h is the first non-empty queue, or the end of the array. */
  ghost predicate IsHighest(qs: Queues, h: nat) {
    && h <= |qs| && (forall p :: 0 <= p < h ==> qs[p] == []) && (h < |qs| ==> qs[h] != [])
  }

  /** Every entry is queued where it belongs, under its current priority; queued groups are not empty. */
  ghost predicate EntriesOk(s: Sched, g: Gid)
    requires s.Shaped() && g < |s.rqs|
  {
    forall p, e :: 0 <= p < MAX_RT_PRIO && e in s.rqs[g].queue[p] ==>
      s.Known(e) && s.Home(e) == g && s.Prio(e) == p && (e.Group? ==> s.rqs[e.gid].nr > 0)
  }

  ghost function BoostedSet(s: Sched): set<Entity> {
    (set t | t in s.tasks && s.tasks[t].boosted :: Task(t))
    + (set g | 0 < g < |s.rqs| && s.rqs[g].boosted > 0 :: Group(g))
  }

  ghost predicate RqOk(s: Sched, g: Gid)
    requires s.Shaped() && g < |s.rqs|
  {
    RqShape(s.rqs[g]) && EntriesOk(s, g) && s.rqs[g].boosted == Weight(s.rqs[g].queue, BoostedSet(s))
  }

  ghost predicate Local(s: Sched) {
    s.Shaped() && forall g :: 0 <= g < |s.rqs| ==> RqOk(s, g)
  }

  // ---------------------------------------------------------------- one priority array

  lemma {:induction false} CountDel(xs: seq<Entity>, e: Entity, b: set<Entity>)
    requires e in xs
    ensures CountIn(Del(xs, e), b) == CountIn(xs, b) - (if e in b then 1 else 0)
  {
    if xs[0] != e {
      CountDel(xs[1..], e, b);
      var ys := Del(xs[1..], e);
      assert ([xs[0]] + ys)[1..] == ys;
    }
  }

  lemma {:induction false} CountConcat(xs: seq<Entity>, ys: seq<Entity>, b: set<Entity>)
    ensures CountIn(xs + ys, b) == CountIn(xs, b) + CountIn(ys, b)
  {
    if xs == [] {
      assert xs + ys == ys;
    } else {
      CountConcat(xs[1..], ys, b);
      assert (xs + ys)[1..] == xs[1..] + ys;
    }
  }

  lemma {:induction false} DelAllAt(qs: Queues, e: Entity, i: nat)
    requires i < |qs|
    ensures DelAll(qs, e)[i] == Del(qs[i], e)
  {
    if i > 0 {
      DelAllAt(qs[1..], e, i - 1);
    }
  }

  lemma DelAllIs(qs: Queues, e: Entity, p: int)
    requires p < |qs|
    requires forall i :: 0 <= i < |qs| ==> NoDup(qs[i])
    requires forall i :: 0 <= i < |qs| && i != p ==> e !in qs[i]
    ensures p >= 0 ==> DelAll(qs, e) == qs[p := Del(qs[p], e)]
    ensures p < 0 ==> DelAll(qs, e) == qs
  {
    hide NoDup, Del, DelAll;
    forall i | 0 <= i < |qs| ensures DelAll(qs, e)[i] == if i == p then Del(qs[i], e) else qs[i] {
      DelAllAt(qs, e, i);
      DelFacts(qs[i], e);
    }
  }

  lemma {:induction false} TotalUpdate(qs: Queues, p: nat, xs: seq<Entity>)
    requires p < |qs|
    ensures Total(qs[p := xs]) == Total(qs) - |qs[p]| + |xs|
  {
    if p == 0 {
      assert qs[p := xs][1..] == qs[1..];
    } else {
      TotalUpdate(qs[1..], p - 1, xs);
      assert qs[p := xs][1..] == qs[1..][p - 1 := xs];
    }
  }

  lemma {:induction false} WeightUpdate(qs: Queues, p: nat, xs: seq<Entity>, b: set<Entity>)
    requires p < |qs|
    ensures Weight(qs[p := xs], b) == Weight(qs, b) - CountIn(qs[p], b) + CountIn(xs, b)
  {
    if p == 0 {
      assert qs[p := xs][1..] == qs[1..];
    } else {
      WeightUpdate(qs[1..], p - 1, xs, b);
      assert qs[p := xs][1..] == qs[1..][p - 1 := xs];
    }
  }

  lemma {:induction false} TotalZero(qs: Queues, p: nat)
    requires p < |qs|
    ensures Total(qs) >= |qs[p]|
  {
    if p > 0 {
      TotalZero(qs[1..], p - 1);
    }
  }

  lemma {:induction false} CountFrame(xs: seq<Entity>, b: set<Entity>, b': set<Entity>)
    requires forall e :: e in xs ==> (e in b <==> e in b')
    ensures CountIn(xs, b) == CountIn(xs, b')
  {
    if xs != [] {
      assert xs[0] in xs;
      CountFrame(xs[1..], b, b');
    }
  }

  lemma {:induction false} WeightFrame(qs: Queues, b: set<Entity>, b': set<Entity>)
    requires forall p, e :: 0 <= p < |qs| && e in qs[p] ==> (e in b <==> e in b')
    ensures Weight(qs, b) == Weight(qs, b')
  {
    if qs != [] {
      CountFrame(qs[0], b, b');
      forall p, e | 0 <= p < |qs[1..]| && e in qs[1..][p] ensures e in b <==> e in b' {
        assert e in qs[p + 1];
      }
      WeightFrame(qs[1..], b, b');
    }
  }

  /** Removing an entity that is on queue p, and on no other, keeps bitmap, count and highest exact. */
  lemma RqWithoutShape(rq: RtRq, e: Entity, p: nat, boosted: bool)
    requires RqShape(rq) && p < MAX_RT_PRIO && e in rq.queue[p]
    requires forall i :: 0 <= i < MAX_RT_PRIO && i != p ==> e !in rq.queue[i]
    ensures var rq' := RqWithout(rq, e, p, boosted);
            RqShape(rq') && rq'.queue == rq.queue[p := Del(rq.queue[p], e)] && rq.nr > 0
  {
    DelAllIs(rq.queue, e, p);
    DelFacts(rq.queue[p], e);
    TotalUpdate(rq.queue, p, Del(rq.queue[p], e));
    TotalZero(rq.queue, p);
    var rq' := RqWithout(rq, e, p, boosted);
    assert |rq.queue[p]| > 0;
    assert forall i :: 0 <= i < MAX_RT_PRIO ==> (rq'.bitmap[i] <==> rq'.queue[i] != []);
    if rq'.nr == 0 {
      forall i | 0 <= i < MAX_RT_PRIO ensures rq'.queue[i] == [] {
        TotalZero(rq'.queue, i);
      }
    }
  }

  lemma RqWithShape(rq: RtRq, e: Entity, p: nat, boosted: bool, head: bool)
    requires RqShape(rq) && p < MAX_RT_PRIO && e !in rq.queue[p]
    ensures RqShape(RqWith(rq, e, p, boosted, head))
  {
    var xs := if head then [e] + rq.queue[p] else rq.queue[p] + [e];
    TotalUpdate(rq.queue, p, xs);
    assert NoDup(xs);
  }

  // ---------------------------------------------------------------- one run queue of the tree

  /** The entries of rq, should it become run queue g. */
  ghost predicate EntriesFit(s: Sched, g: Gid, rq: RtRq)
    requires s.Shaped() && g < |s.rqs| && |rq.queue| == MAX_RT_PRIO
  {
    forall p, e :: 0 <= p < MAX_RT_PRIO && e in rq.queue[p] ==>
      s.Known(e) && s.Home(e) == g && s.Prio(e) == p && (e.Group? ==> s.rqs[e.gid].nr > 0)
  }

  /** Group g's own entity is on no queue. */
  ghost predicate Detached(s: Sched, g: Gid)
    requires s.Shaped() && g < |s.rqs|
  {
    g > 0 ==> !s.OnRq(Group(g))
  }

  lemma DetachedNowhere(s: Sched, g: Gid, g': Gid, p: nat)
    requires Local(s) && g < |s.rqs| && Detached(s, g) && g' < |s.rqs| && p < MAX_RT_PRIO
    ensures Group(g) !in s.rqs[g'].queue[p]
  {
    assert RqOk(s, g');
  }

  lemma ChangeEntries(s: Sched, g: Gid, rq: RtRq, g': Gid)
    requires Local(s) && g < |s.rqs| && g' < |s.rqs| && Detached(s, g)
    requires RqShape(rq) && EntriesFit(s, g, rq)
    ensures EntriesOk(SetRq(s, g, rq), g')
  {
    var s' := SetRq(s, g, rq);
    assert RqOk(s, g');
    hide RqShape, BoostedSet;
    QueueLengths(rq);
    assert s'.Shaped();
    forall p, e | 0 <= p < MAX_RT_PRIO && e in s'.rqs[g'].queue[p]
      ensures s'.Known(e) && s'.Home(e) == g' && s'.Prio(e) == p && (e.Group? ==> s'.rqs[e.gid].nr > 0)
    {
      if g' == g {
        NotInside(s, g, rq, p);
      } else {
        DetachedNowhere(s, g, g', p);
      }
      assert e != Group(g);
      assert s.Known(e) && s.Home(e) == g' && s.Prio(e) == p;
    }
  }

  lemma ChangeWeight(s: Sched, g: Gid, rq: RtRq, qs: Queues)
    requires s.Shaped() && g < |s.rqs|
    requires forall p :: 0 <= p < |qs| ==> Group(g) !in qs[p]
    ensures Weight(qs, BoostedSet(SetRq(s, g, rq))) == Weight(qs, BoostedSet(s))
  {
    var b, b' := BoostedSet(s), BoostedSet(SetRq(s, g, rq));
    forall e | e != Group(g) ensures e in b <==> e in b' {}
    WeightFrame(qs, b, b');
  }

  /** While a group's entity is off its parent's queues, its run queue may change freely. */
  lemma ChangeRq(s: Sched, g: Gid, rq: RtRq)
    requires Local(s) && g < |s.rqs| && Detached(s, g)
    requires RqShape(rq) && EntriesFit(s, g, rq) && rq.boosted == Weight(rq.queue, BoostedSet(s))
    ensures Local(SetRq(s, g, rq))
  {
    var s' := SetRq(s, g, rq);
    assert s'.Shaped();
    forall g' | 0 <= g' < |s'.rqs| ensures RqOk(s', g') {
      assert RqOk(s, g');
      ChangeEntries(s, g, rq, g');
      hide EntriesOk, RqShape, BoostedSet;
      forall p | 0 <= p < MAX_RT_PRIO ensures Group(g) !in s'.rqs[g'].queue[p] {
        if g' == g {
          NotInside(s, g, rq, p);
        } else {
          DetachedNowhere(s, g, g', p);
        }
      }
      QueueLengths(s'.rqs[g']);
      ChangeWeight(s, g, rq, s'.rqs[g'].queue);
    }
  }

  lemma QueueLengths(rq: RtRq)
    requires RqShape(rq)
    ensures |rq.queue| == MAX_RT_PRIO
  {}

  lemma NotInside(s: Sched, g: Gid, rq: RtRq, p: nat)
    requires s.Shaped() && g < |s.rqs| && |rq.queue| == MAX_RT_PRIO && EntriesFit(s, g, rq) && p < MAX_RT_PRIO
    ensures Group(g) !in rq.queue[p]
  {}

  /** A queued entity is on the queue of its current priority and on no other. */
  lemma QueuedAt(s: Sched, e: Entity)
    requires Local(s) && s.Known(e) && s.OnRq(e)
    ensures var qs := s.rqs[s.Home(e)].queue;
            && s.Prio(e) < MAX_RT_PRIO && e in qs[s.Prio(e)]
            && (forall i :: 0 <= i < MAX_RT_PRIO && i != s.Prio(e) ==> e !in qs[i])
  {
    assert RqOk(s, s.Home(e));
  }

  /** Only e has changed its place. */
  ghost predicate OthersKept(s: Sched, s': Sched, e: Entity)
    requires s.Shaped() && s.Known(e)
  {
    && SameTree(s, s')
    && (forall g :: 0 <= g < |s.rqs| && g != s.Home(e) ==> s'.rqs[g] == s.rqs[g])
    && s'.rqs[s.Home(e)].throttled == s.rqs[s.Home(e)].throttled
    && (forall x :: s.Known(x) && x != e ==> (s'.OnRq(x) <==> s.OnRq(x)))
  }

  lemma ReplacedRq(s: Sched, e: Entity, rq: RtRq)
    requires s.Shaped() && s.Known(e) && |rq.queue| == MAX_RT_PRIO && |rq.bitmap| == MAX_RT_PRIO
    requires rq.throttled == s.rqs[s.Home(e)].throttled
    requires forall i, x :: 0 <= i < MAX_RT_PRIO && x != e ==> (x in rq.queue[i] <==> x in s.rqs[s.Home(e)].queue[i])
    ensures OthersKept(s, SetRq(s, s.Home(e), rq), e)
    ensures SetRq(s, s.Home(e), rq).OnRq(e) <==> Listed(rq.queue, e)
  {
    var g := s.Home(e);
    var s' := SetRq(s, g, rq);
    assert SameTree(s, s');
    forall x | s.Known(x) && x != e ensures s'.OnRq(x) <==> s.OnRq(x) {
      assert s'.Home(x) == s.Home(x);
      if s.Home(x) == g {
        assert Listed(rq.queue, x) <==> Listed(s.rqs[g].queue, x);
      }
    }
  }

  lemma RqWithoutOk(s: Sched, e: Entity)
    requires Local(s) && s.Known(e) && s.OnRq(e)
    ensures var g := s.Home(e);
            var rq' := RqWithout(s.rqs[g], e, s.Prio(e), s.Boosted(e));
            && RqShape(rq') && EntriesFit(s, g, rq') && rq'.boosted == Weight(rq'.queue, BoostedSet(s))
            && (forall i, x :: 0 <= i < MAX_RT_PRIO ==> (x in rq'.queue[i] <==> x in s.rqs[g].queue[i] && x != e))
  {
    var g, p, b := s.Home(e), s.Prio(e), s.Boosted(e);
    var rq, rq' := s.rqs[g], RqWithout(s.rqs[g], e, p, b);
    QueuedAt(s, e);
    assert RqOk(s, g);
    RqWithoutShape(rq, e, p, b);
    DelFacts(rq.queue[p], e);
    hide RqShape, Weight, BoostedSet;
    WeightWithout(s, e, rq, p);
  }

  lemma WeightWithout(s: Sched, e: Entity, rq: RtRq, p: nat)
    requires s.Known(e) && p < |rq.queue| && e in rq.queue[p] && rq.boosted == Weight(rq.queue, BoostedSet(s))
    ensures Weight(rq.queue[p := Del(rq.queue[p], e)], BoostedSet(s)) == if s.Boosted(e) then Dec(rq.boosted) else rq.boosted
  {
    WeightUpdate(rq.queue, p, Del(rq.queue[p], e), BoostedSet(s));
    CountDel(rq.queue[p], e, BoostedSet(s));
    assert e in BoostedSet(s) <==> s.Boosted(e);
  }

  lemma DequeueOneOk(s: Sched, e: Entity)
    requires Local(s) && s.Known(e) && s.OnRq(e) && Detached(s, s.Home(e))
    ensures Local(DequeueOne(s, e)) && OthersKept(s, DequeueOne(s, e), e) && !DequeueOne(s, e).OnRq(e)
  {
    RqWithoutOk(s, e);
    hide RqOk, RqShape, EntriesFit, Weight, OthersKept;
    var rq := RqWithout(s.rqs[s.Home(e)], e, s.Prio(e), s.Boosted(e));
    ChangeRq(s, s.Home(e), rq);
    ReplacedRq(s, e, rq);
  }

  lemma RqWithOk(s: Sched, e: Entity, head: bool)
    requires Local(s) && s.Known(e) && !s.OnRq(e) && !Refused(s, e) && s.Prio(e) < MAX_RT_PRIO
    ensures var g, p := s.Home(e), s.Prio(e);
            var rq' := RqWith(s.rqs[g], e, p, s.Boosted(e), head);
            && RqShape(rq') && EntriesFit(s, g, rq') && rq'.boosted == Weight(rq'.queue, BoostedSet(s))
            && (forall i, x :: 0 <= i < MAX_RT_PRIO ==> (x in rq'.queue[i] <==> x in s.rqs[g].queue[i] || (i == p && x == e)))
  {
    var g, p, b := s.Home(e), s.Prio(e), s.Boosted(e);
    var rq, rq' := s.rqs[g], RqWith(s.rqs[g], e, p, b, head);
    assert RqOk(s, g);
    RqWithShape(rq, e, p, b, head);
    hide RqShape, Weight, BoostedSet;
    WeightWith(s, e, rq, p, head);
  }

  lemma WeightWith(s: Sched, e: Entity, rq: RtRq, p: nat, head: bool)
    requires s.Known(e) && p < |rq.queue| && rq.boosted == Weight(rq.queue, BoostedSet(s))
    ensures var xs := if head then [e] + rq.queue[p] else rq.queue[p] + [e];
            Weight(rq.queue[p := xs], BoostedSet(s)) == if s.Boosted(e) then rq.boosted + 1 else rq.boosted
  {
    var xs := if head then [e] + rq.queue[p] else rq.queue[p] + [e];
    WeightUpdate(rq.queue, p, xs, BoostedSet(s));
    CountConcat([e], rq.queue[p], BoostedSet(s));
    CountConcat(rq.queue[p], [e], BoostedSet(s));
    assert e in BoostedSet(s) <==> s.Boosted(e);
  }

  lemma EnqueueOneOk(s: Sched, e: Entity, head: bool)
    requires Local(s) && s.Known(e) && !s.OnRq(e) && Detached(s, s.Home(e))
    ensures Local(EnqueueOne(s, e, head)) && OthersKept(s, EnqueueOne(s, e, head), e)
    ensures EnqueueOne(s, e, head).OnRq(e) <==> !Refused(s, e)
    ensures !Refused(s, e) ==> s.Prio(e) < MAX_RT_PRIO
  {
    hide RqShape, EntriesFit, Weight;
    if !Refused(s, e) {
      NonEmptyPrio(s, e);
      RqWithOk(s, e, head);
      hide RqOk, OthersKept;
      var rq := RqWith(s.rqs[s.Home(e)], e, s.Prio(e), s.Boosted(e), head);
      ChangeRq(s, s.Home(e), rq);
      ReplacedRq(s, e, rq);
      assert e in rq.queue[s.Prio(e)];
    }
  }

  /** An entity that may be enqueued has a real-time priority: WARN_ON(!rt_prio(prio)) does not fire. */
  lemma NonEmptyPrio(s: Sched, e: Entity)
    requires Local(s) && s.Known(e) && !Refused(s, e)
    ensures s.Prio(e) < MAX_RT_PRIO
  {
    if e.Group? {
      assert RqOk(s, e.gid);
      SomeQueued(s.rqs[e.gid].queue);
    }
  }

  lemma {:induction false} SomeQueued(qs: Queues)
    requires Total(qs) > 0
    ensures exists p :: 0 <= p < |qs| && qs[p] != []
  {
    if qs[0] == [] {
      SomeQueued(qs[1..]);
      var p :| 0 <= p < |qs[1..]| && qs[1..][p] != [];
      assert qs[p + 1] != [];
    }
  }

  // ---------------------------------------------------------------- a path through the tree

  /** Each entity of the path is followed by the entity of the group it is queued on. */
  ghost predicate IsPath(s: Sched, path: seq<Entity>)
    requires s.Shaped()
  {
    && s.AllKnown(path)
    && (forall i :: 0 <= i < |path| - 1 ==> s.Home(path[i]) > 0 && path[i + 1] == Group(s.Home(path[i])))
    && (path != [] ==> s.Home(path[|path| - 1]) == 0)
  }

  lemma {:induction false} PathIsPath(s: Sched, e: Entity)
    requires s.Shaped() && s.Known(e)
    ensures IsPath(s, Path(s, e))
    decreases s.Home(e)
  {
    if s.Home(e) != 0 {
      PathIsPath(s, Group(s.Home(e)));
    }
  }

  lemma {:induction false} PathSame(s: Sched, s': Sched, e: Entity)
    requires s.Shaped() && s.Known(e) && SameTree(s, s')
    ensures Path(s', e) == Path(s, e)
    decreases s.Home(e)
  {
    if s.Home(e) != 0 {
      PathSame(s, s', Group(s.Home(e)));
    }
  }

  predicate MayRun(s: Sched, g: Gid)
    requires g < |s.rqs|
  {
    s.rqs[g].nr > 0 && !s.Throttled(g)
  }

  /**
   Except for the groups on the path, a group is queued only when it may run, and unless it is
   owed its place also whenever it may run.
   */
  ghost predicate Filed(s: Sched, path: seq<Entity>, owed: set<Entity>)
    requires s.Shaped()
  {
    forall g :: 0 < g < |s.rqs| && Group(g) !in path ==>
      && (s.OnRq(Group(g)) ==> MayRun(s, g))
      && (MayRun(s, g) && Group(g) !in owed ==> s.OnRq(Group(g)))
  }

  /** The members of a path. */
  function Among(path: seq<Entity>): set<Entity> {
    set x | x in path
  }

  ghost predicate NoneOnRq(s: Sched, path: seq<Entity>)
    requires s.Shaped() && s.AllKnown(path)
  {
    forall i :: 0 <= i < |path| ==> !s.OnRq(path[i])
  }

  /** Nothing outside the path has moved, and no run queue outside it has changed. */
  ghost predicate OffPathKept(s: Sched, s': Sched, path: seq<Entity>)
    requires s.Shaped()
  {
    && SameTree(s, s')
    && (forall x :: s.Known(x) && x !in path ==> (s'.OnRq(x) <==> s.OnRq(x)))
    && (forall g :: 0 < g < |s.rqs| && Group(g) !in path ==> s'.rqs[g] == s.rqs[g])
    && (forall g :: 0 <= g < |s.rqs| ==> s'.rqs[g].throttled == s.rqs[g].throttled)
  }

  lemma PathTail(s: Sched, path: seq<Entity>)
    requires s.Shaped() && IsPath(s, path) && path != []
    ensures IsPath(s, path[1..])
    ensures s.Home(path[0]) == 0 <==> |path| == 1
    ensures |path| > 1 ==> path[1..][0] == path[1] == Group(s.Home(path[0]))
    ensures s.Home(path[0]) > 0 ==> Group(s.Home(path[0])) in path
    ensures path[0].Group? ==> s.Home(path[0]) != path[0].gid
    ensures forall x :: x in path <==> x == path[0] || x in path[1..]
  {}

  lemma DetachedByTail(s: Sched, path: seq<Entity>, s1: Sched)
    requires s.Shaped() && IsPath(s, path) && path != [] && SameTree(s, s1)
    requires NoneOnRq(s1, path[1..])
    ensures Detached(s1, s1.Home(path[0]))
  {
    PathTail(s, path);
    if |path| > 1 {
      assert !s1.OnRq(path[1..][0]);
    }
  }

  /** Moving the first entity of a path after the rest of the path was changed. */
  lemma StepKept(s: Sched, s1: Sched, s2: Sched, path: seq<Entity>)
    requires s.Shaped() && IsPath(s, path) && path != [] && OffPathKept(s, s1, path[1..])
    requires OthersKept(s1, s2, path[0])
    ensures OffPathKept(s, s2, path)
    ensures NoneOnRq(s1, path[1..]) && !s2.OnRq(path[0]) ==> NoneOnRq(s2, path)
  {
    hide Sched.OnRq;
    PathTail(s, path);
    if NoneOnRq(s1, path[1..]) && !s2.OnRq(path[0]) {
      forall i | 0 <= i < |path| ensures !s2.OnRq(path[i]) {
        if path[i] != path[0] {
          assert path[i] == path[1..][i - 1];
          assert !s1.OnRq(path[i]);
        }
      }
    }
  }

  lemma NotMoved(s: Sched, s1: Sched, path: seq<Entity>)
    requires s.Shaped() && IsPath(s, path) && path != [] && OffPathKept(s, s1, path[1..])
    ensures OthersKept(s1, s1, path[0])
  {}

  /** Taking a path's entries off from the top down leaves every run queue in order. */
  lemma {:induction false} DequeueDownOk(s: Sched, path: seq<Entity>)
    requires Local(s) && IsPath(s, path)
    ensures var s' := DequeueDown(s, path);
            Local(s') && NoneOnRq(s', path) && OffPathKept(s, s', path)
    decreases |path|
  {
    if path != [] {
      PathTail(s, path);
      DequeueDownOk(s, path[1..]);
      var s1 := DequeueDown(s, path[1..]);
      assert s1.Known(path[0]);
      DetachedByTail(s, path, s1);
      hide RqOk, OffPathKept, OthersKept, NoneOnRq, Sched.OnRq, Sched.Shaped, DequeueOne, Detached, IsPath;
      if s1.OnRq(path[0]) {
        DequeueOneOk(s1, path[0]);
        StepKept(s, s1, DequeueOne(s1, path[0]), path);
      } else {
        NotMoved(s, s1, path);
        StepKept(s, s1, s1, path);
      }
    }
  }

  /** The groups further up a path have ever smaller numbers. */
  lemma {:induction false} PathDescends(s: Sched, path: seq<Entity>, i: nat)
    requires s.Shaped() && IsPath(s, path) && 0 < i < |path|
    ensures path[i].Group? && path[i].gid <= s.Home(path[0]) && path[i] != path[0]
    decreases i
  {
    assert path[i - 1 + 1] == Group(s.Home(path[i - 1]));
    if i > 1 {
      PathDescends(s, path, i - 1);
    }
  }

  lemma PathFirstOnce(s: Sched, path: seq<Entity>)
    requires s.Shaped() && IsPath(s, path) && path != []
    ensures path[0] !in path[1..]
  {
    if path[0] in path[1..] {
      var i :| 0 <= i < |path[1..]| && path[1..][i] == path[0];
      PathDescends(s, path, i + 1);
    }
  }

  lemma UpStepPath(s: Sched, s1: Sched, path: seq<Entity>)
    requires s.Shaped() && IsPath(s, path) && path != [] && NoneOnRq(s, path) && OthersKept(s, s1, path[0])
    ensures IsPath(s1, path[1..]) && NoneOnRq(s1, path[1..])
  {
    PathTail(s, path);
    PathFirstOnce(s, path);
    hide Sched.OnRq;
    assert IsPath(s1, path[1..]);
    forall i | 0 <= i < |path[1..]| ensures !s1.OnRq(path[1..][i]) {
      assert path[1..][i] == path[i + 1];
      assert path[1..][i] in path[1..];
    }
  }

  /** After the first entity of a path was enqueued, or left out for good reason, only the rest is pending. */
  lemma UpStepFiled(s: Sched, s1: Sched, path: seq<Entity>, owed: set<Entity>)
    requires s.Shaped() && IsPath(s, path) && path != [] && Filed(s, path, owed)
    requires OthersKept(s, s1, path[0])
    requires path[0].Group? ==> (s1.OnRq(path[0]) <==> !Refused(s, path[0]))
    ensures Filed(s1, path[1..], owed)
  {
    PathTail(s, path);
    hide Sched.OnRq, IsPath;
    forall g | 0 < g < |s1.rqs| && Group(g) !in path[1..]
      ensures s1.OnRq(Group(g)) ==> MayRun(s1, g)
      ensures MayRun(s1, g) && Group(g) !in owed ==> s1.OnRq(Group(g))
    {
      assert g != s.Home(path[0]);
      assert s1.rqs[g] == s.rqs[g];
    }
  }

  /** Composing a step on the first entity with what happens to the rest of the path. */
  lemma UpKept(s: Sched, s1: Sched, s2: Sched, path: seq<Entity>)
    requires s.Shaped() && IsPath(s, path) && path != [] && OthersKept(s, s1, path[0]) && OffPathKept(s1, s2, path[1..])
    ensures OffPathKept(s, s2, path) && (s2.OnRq(path[0]) <==> s1.OnRq(path[0]))
  {
    PathTail(s, path);
    PathFirstOnce(s, path);
    hide Sched.OnRq;
  }

  /** Putting a path back from the bottom up files every group of it where it belongs. */
  lemma {:induction false} EnqueueUpOk(s: Sched, path: seq<Entity>, head: bool, owed: set<Entity>)
    requires Local(s) && IsPath(s, path) && NoneOnRq(s, path) && Filed(s, path, owed)
    ensures var s' := EnqueueUp(s, path, head);
            && Local(s') && Filed(s', [], owed) && OffPathKept(s, s', path)
            && (path != [] ==> (s'.OnRq(path[0]) <==> !Refused(s, path[0])))
    decreases |path|
  {
    if path != [] {
      var s1 := EnqueueOne(s, path[0], head);
      DetachedByTail(s, path, s);
      EnqueueOneOk(s, path[0], head);
      UpStepPath(s, s1, path);
      UpStepFiled(s, s1, path, owed);
      EnqueueUpOk(s1, path[1..], head, owed);
      hide RqOk, OffPathKept, OthersKept, NoneOnRq, Filed, Sched.OnRq, EnqueueOne, IsPath;
      UpKept(s, s1, EnqueueUp(s1, path[1..], head), path);
    }
  }

  lemma {:induction false} RequeueUpOk(s: Sched, path: seq<Entity>, owed: set<Entity>)
    requires Local(s) && IsPath(s, path) && NoneOnRq(s, path) && Filed(s, path, owed)
    ensures var s' := RequeueUp(s, path);
            && Local(s') && Filed(s', [], owed) && OffPathKept(s, s', path)
            && (path != [] && path[0].Task? ==> !s'.OnRq(path[0]))
    decreases |path|
  {
    if path != [] {
      var e := path[0];
      DetachedByTail(s, path, s);
      var s1 := if e.Group? && s.rqs[e.gid].nr > 0 then EnqueueOne(s, e, false) else s;
      EnqueueOneOk(s, e, false);
      UpStepPath(s, s1, path);
      UpStepFiled(s, s1, path, owed);
      RequeueUpOk(s1, path[1..], owed);
      hide RqOk, OffPathKept, OthersKept, NoneOnRq, Filed, Sched.OnRq, EnqueueOne, IsPath;
      UpKept(s, s1, RequeueUp(s1, path[1..]), path);
    }
  }

  // ---------------------------------------------------------------- operations

  /** The groups that may run and are not queued: they are owed a place. */
  ghost function Owed(s: Sched): set<Entity>
    requires s.Shaped()
  {
    set g | 0 < g < |s.rqs| && MayRun(s, g) && !s.OnRq(Group(g)) :: Group(g)
  }

  /** What holds between operations: every run queue is in order, and only groups that may run are queued. */
  ghost predicate Sound(s: Sched) {
    Local(s) && forall g :: 0 < g < |s.rqs| && s.OnRq(Group(g)) ==> MayRun(s, g)
  }

  /** And every group that may run is queued. */
  ghost predicate Inv(s: Sched) {
    Sound(s) && Owed(s) == {}
  }

  lemma SoundFiled(s: Sched)
    requires Sound(s)
    ensures Filed(s, [], Owed(s))
  {
    hide RqOk, Sched.OnRq;
  }

  /** All groups off the path are as they were, those on the path are queued exactly if they may run. */
  lemma PathSettled(s: Sched, s': Sched, path: seq<Entity>)
    requires s.Shaped() && Local(s') && OffPathKept(s, s', path) && Filed(s', [], Owed(s) - Among(path))
    ensures Sound(s') && Owed(s') == Owed(s) - Among(path)
  {
    hide RqOk, Sched.OnRq;
    forall x ensures x in Owed(s') <==> x in Owed(s) - Among(path) {
      if x.Group? && 0 < x.gid < |s.rqs| && x !in path {
        assert s'.rqs[x.gid] == s.rqs[x.gid];
      }
    }
  }

  lemma FiledWithout(s: Sched, s': Sched, path: seq<Entity>, except: seq<Entity>, owed: set<Entity>)
    requires s.Shaped() && Filed(s, except, owed) && OffPathKept(s, s', path) && forall x :: x in except ==> x in path
    ensures Filed(s', path, owed - Among(path))
  {}

  lemma PathKept(s: Sched, s1: Sched, path: seq<Entity>)
    requires s.Shaped() && IsPath(s, path) && SameTree(s, s1)
    ensures IsPath(s1, path)
  {}

  /** dequeue_rt_stack: every entry of the path is off, everything else is as it was. */
  lemma StackOff(s: Sched, e: Entity, except: seq<Entity>, owed: set<Entity>)
    requires Local(s) && s.Known(e) && Filed(s, except, owed) && (except == [] || except == [e])
    ensures var path := Path(s, e);
            var s1 := DequeueDown(s, path);
            && Local(s1) && IsPath(s1, path) && NoneOnRq(s1, path) && Filed(s1, path, owed - Among(path)) && OffPathKept(s, s1, path)
  {
    hide RqOk, IsPath, Filed, NoneOnRq, Sched.OnRq, OffPathKept, DequeueDown;
    var path := Path(s, e);
    PathIsPath(s, e);
    DequeueDownOk(s, path);
    FiledWithout(s, DequeueDown(s, path), path, except, owed);
    PathKept(s, DequeueDown(s, path), path);
  }

  lemma KeptTrans(s: Sched, s1: Sched, s2: Sched, path: seq<Entity>)
    requires s.Shaped() && OffPathKept(s, s1, path) && OffPathKept(s1, s2, path)
    ensures OffPathKept(s, s2, path)
  {}

  /** enqueue_rt_entity: afterwards every run queue is in order, and a task is queued. */
  lemma EnqueueOk(s: Sched, e: Entity, head: bool, except: seq<Entity>)
    requires Local(s) && s.Known(e) && Filed(s, except, Owed(s)) && (except == [] || except == [e])
    ensures var s' := Enqueue(s, e, head);
            && Sound(s') && Owed(s') == Owed(s) - Among(Path(s, e))
            && OffPathKept(s, s', Path(s, e)) && (e.Task? ==> s'.OnRq(e))
  {
    hide RqOk, IsPath, Filed, NoneOnRq, Sched.OnRq, OffPathKept, DequeueDown, EnqueueUp, Path, Owed;
    var path := Path(s, e);
    StackOff(s, e, except, Owed(s));
    var s1 := DequeueDown(s, path);
    EnqueueUpOk(s1, path, head, Owed(s) - Among(path));
    KeptTrans(s, s1, EnqueueUp(s1, path, head), path);
    PathSettled(s, EnqueueUp(s1, path, head), path);
  }

  /** dequeue_rt_entity: afterwards every run queue is in order, and a task is not queued. */
  lemma DequeueOk(s: Sched, e: Entity, except: seq<Entity>)
    requires Local(s) && s.Known(e) && Filed(s, except, Owed(s)) && (except == [] || except == [e])
    ensures var s' := Dequeue(s, e);
            && Sound(s') && Owed(s') == Owed(s) - Among(Path(s, e))
            && OffPathKept(s, s', Path(s, e)) && (e.Task? ==> !s'.OnRq(e))
  {
    hide RqOk, IsPath, Filed, NoneOnRq, Sched.OnRq, OffPathKept, DequeueDown, RequeueUp, Path, Owed;
    var path := Path(s, e);
    StackOff(s, e, except, Owed(s));
    var s1 := DequeueDown(s, path);
    RequeueUpOk(s1, path, Owed(s) - Among(path));
    KeptTrans(s, s1, RequeueUp(s1, path), path);
    PathSettled(s, RequeueUp(s1, path), path);
  }

  /** The throttled flag is no part of what a run queue's order depends on. */
  lemma FlagLocal(s: Sched, g: Gid, on: bool)
    requires Local(s) && g < |s.rqs|
    ensures Local(SetThrottled(s, g, on)) && SameTree(s, SetThrottled(s, g, on))
    ensures forall x :: s.Known(x) ==> (SetThrottled(s, g, on).OnRq(x) <==> s.OnRq(x))
  {
    var s' := SetThrottled(s, g, on);
    assert BoostedSet(s') == BoostedSet(s);
    forall g' | 0 <= g' < |s'.rqs| ensures RqOk(s', g') {
      assert RqOk(s, g');
      hide BoostedSet, Weight, Total, IsHighest, EntriesOk;
      FlagEntries(s, g, on, g');
    }
  }

  lemma FlagEntries(s: Sched, g: Gid, on: bool, g': Gid)
    requires s.Shaped() && g < |s.rqs| && g' < |s.rqs| && EntriesOk(s, g')
    ensures SetThrottled(s, g, on).Shaped() && EntriesOk(SetThrottled(s, g, on), g')
  {}

  /** The flag of a group concerns that group alone. */
  lemma FlagOwes(s: Sched, g: Gid, on: bool)
    requires Sound(s) && g < |s.rqs|
    ensures var s1 := SetThrottled(s, g, on);
            && Local(s1) && SameTree(s, s1) && Filed(s1, [Group(g)], Owed(s1)) && Owed(s1) - {Group(g)} == Owed(s) - {Group(g)}
            && (g > 0 ==> (s1.OnRq(Group(g)) <==> s.OnRq(Group(g))) && Path(s1, Group(g)) == Path(s, Group(g)))
  {
    FlagLocal(s, g, on);
    var s1 := SetThrottled(s, g, on);
    hide RqOk, Sched.OnRq, Path;
    if g > 0 {
      PathSame(s, s1, Group(g));
    }
    forall x | x != Group(g) ensures x in Owed(s1) <==> x in Owed(s) {}
  }

  /** Without a change to a queue, only the group whose flag has changed can gain or lose its claim. */
  lemma FlagOnly(s: Sched, g: Gid, on: bool)
    requires Sound(s) && g < |s.rqs|
    requires var s1 := SetThrottled(s, g, on); s1.Shaped() && (g > 0 && s1.OnRq(Group(g)) ==> MayRun(s1, g))
    ensures Sound(SetThrottled(s, g, on))
  {
    FlagOwes(s, g, on);
    hide RqOk, Sched.OnRq, Path;
  }

  /** Once the flag is set, a group without boosted tasks has no claim, and its ancestors get theirs if it was queued. */
  lemma ThrottleOk(s: Sched, g: Gid)
    requires Sound(s) && g < |s.rqs|
    ensures Sound(Throttle(s, g)) && Owed(Throttle(s, g)) == OwedAfter(s, ThrottleGroup(g))
  {
    var s1 := SetThrottled(s, g, true);
    FlagOwes(s, g, true);
    hide RqOk, Sched.OnRq, Dequeue, Filed, Path;
    if g > 0 && s1.Throttled(g) && s1.OnRq(Group(g)) {
      DequeueOk(s1, Group(g), [Group(g)]);
      LessPath(Owed(s), Owed(s1), Path(s, Group(g)));
    } else {
      FlagOnly(s, g, true);
      assert s1.rqs[g].nr == s.rqs[g].nr;
    }
  }

  /** A group that gets its place: so do the groups above it. */
  lemma EnqueueGroupOk(s: Sched, g: Gid, on: bool)
    requires Sound(s) && g < |s.rqs| && !SetThrottled(s, g, on).Throttled(g)
    ensures var s1 := SetThrottled(s, g, on); s1.Shaped() && Sound(EnqueueGroup(s1, g))
    ensures Owed(EnqueueGroup(SetThrottled(s, g, on), g)) ==
              if g > 0 && s.rqs[g].nr > 0 && !s.OnRq(Group(g)) then Owed(s) - Among(Path(s, Group(g))) else Owed(s)
  {
    var s1 := SetThrottled(s, g, on);
    FlagOwes(s, g, on);
    hide RqOk, Sched.OnRq, Enqueue, Filed, Path;
    if g > 0 && s.rqs[g].nr > 0 && !s.OnRq(Group(g)) {
      EnqueueOk(s1, Group(g), false, [Group(g)]);
      hide Owed, Sound;
      LessPath(Owed(s), Owed(s1), Path(s, Group(g)));
    } else {
      FlagOnly(s, g, on);
      NoClaim(s, g, on);
    }
  }

  lemma LessPath(a: set<Entity>, b: set<Entity>, path: seq<Entity>)
    requires path != [] && a - {path[0]} == b - {path[0]}
    ensures a - Among(path) == b - Among(path)
  {
    forall x ensures x in a - Among(path) <==> x in b - Among(path) {
      assert x != path[0] ==> (x in a - {path[0]} <==> x in b - {path[0]});
    }
  }

  /** The flag does not matter to a group that is queued or has nothing to run. */
  lemma NoClaim(s: Sched, g: Gid, on: bool)
    requires Sound(s) && g < |s.rqs| && (g == 0 || s.rqs[g].nr == 0 || s.OnRq(Group(g)))
    ensures SetThrottled(s, g, on).Shaped() && Owed(SetThrottled(s, g, on)) == Owed(s)
  {
    FlagOwes(s, g, on);
    hide RqOk, Sched.OnRq, Filed, Path;
    var s1 := SetThrottled(s, g, on);
    assert Group(g) !in Owed(s) && Group(g) !in Owed(s1);
    assert Owed(s1) == Owed(s1) - {Group(g)} && Owed(s) == Owed(s) - {Group(g)};
  }

  lemma TimerOk(s: Sched, g: Gid, ran: bool, refilled: bool)
    requires Sound(s) && g < |s.rqs|
    ensures Sound(PeriodTimer(s, g, ran, refilled))
    ensures Owed(PeriodTimer(s, g, ran, refilled)) == OwedAfter(s, Timer(g, ran, refilled))
  {
    hide RqOk, Sched.OnRq, EnqueueGroup, Path;
    if TimerEnqueues(s, g, ran, refilled) {
      var on := !ran && s.rqs[g].throttled;
      EnqueueGroupOk(s, g, on);
      assert !ran ==> SetThrottled(s, g, on) == s;
    }
  }

  /** Clearing the flag without enqueueing gives a throttled group with something to run a claim, and changes no other. */
  lemma EnableOk(s: Sched, g: Gid)
    requires Sound(s) && g < |s.rqs|
    ensures Sound(SetThrottled(s, g, false))
    ensures Owed(SetThrottled(s, g, false)) == OwedAfter(s, EnableRuntime(g))
  {
    FlagOwes(s, g, false);
    hide RqOk, Sched.OnRq, Filed, Path;
    FlagOnly(s, g, false);
  }

  /** So it breaks the order exactly if the group was throttled with something to run. */
  lemma EnableOwesIff(s: Sched, g: Gid)
    requires Inv(s) && g < |s.rqs|
    ensures Inv(SetThrottled(s, g, false)) <==> !(g > 0 && s.Throttled(g) && s.rqs[g].nr > 0)
  {
    EnableOk(s, g);
    hide Sound, Owed;
  }

  /** The period timer gives an owed group its place, unless it finds rt_time used and does not clear the flag either. */
  lemma TimerSettlesIff(s: Sched, g: Gid, ran: bool, refilled: bool)
    requires Sound(s) && Group(g) in Owed(s)
    ensures Group(g) in Owed(PeriodTimer(s, g, ran, refilled)) <==> ran && !(s.rqs[g].throttled && refilled)
    ensures Owed(PeriodTimer(s, g, ran, refilled)) <= Owed(s)
  {
    TimerOk(s, g, ran, refilled);
    hide Path, PeriodTimer;
    assert Group(g) in Path(s, Group(g));
  }

  lemma UnqueuedTask(s: Sched, t: nat, g: Gid, p: nat)
    requires Local(s) && g < |s.rqs| && p < MAX_RT_PRIO && (t in s.tasks ==> !s.OnRq(Task(t)))
    ensures Task(t) !in s.rqs[g].queue[p]
  {
    if Task(t) in s.rqs[g].queue[p] {
      QueuedKnown(s, g, p, Task(t));
    }
  }

  lemma QueuedKnown(s: Sched, g: Gid, p: nat, e: Entity)
    requires Local(s) && g < |s.rqs| && p < MAX_RT_PRIO && e in s.rqs[g].queue[p]
    ensures s.Known(e) && s.OnRq(e)
  {
    assert RqOk(s, g);
  }

  lemma SetTaskEntries(s: Sched, t: nat, info: TaskInfo, g: Gid)
    requires s.Shaped() && SetTask(s, t, info).Shaped() && g < |s.rqs| && EntriesOk(s, g)
    requires forall p :: 0 <= p < MAX_RT_PRIO ==> Task(t) !in s.rqs[g].queue[p]
    ensures EntriesOk(SetTask(s, t, info), g)
  {
    var s' := SetTask(s, t, info);
    forall p, e | 0 <= p < MAX_RT_PRIO && e in s'.rqs[g].queue[p]
      ensures s'.Known(e) && s'.Home(e) == g && s'.Prio(e) == p && (e.Group? ==> s'.rqs[e.gid].nr > 0)
    {
      assert e in s.rqs[g].queue[p] && e != Task(t);
      assert s.Known(e) && s.Home(e) == g && s.Prio(e) == p;
    }
  }

  lemma SetTaskRq(s: Sched, t: nat, info: TaskInfo, g: Gid)
    requires Local(s) && Enabled(s, ChangeTask(t, info)) && g < |s.rqs|
    ensures SetTask(s, t, info).Shaped() && RqOk(SetTask(s, t, info), g)
  {
    var s' := SetTask(s, t, info);
    assert s'.Shaped();
    assert RqOk(s, g);
    hide RqShape, Sched.OnRq;
    QueueLengths(s.rqs[g]);
    forall p | 0 <= p < MAX_RT_PRIO ensures Task(t) !in s.rqs[g].queue[p] {
      UnqueuedTask(s, t, g, p);
    }
    SetTaskEntries(s, t, info, g);
    forall e | e != Task(t) ensures e in BoostedSet(s) <==> e in BoostedSet(s') {}
    hide BoostedSet, EntriesOk;
    WeightFrame(s.rqs[g].queue, BoostedSet(s), BoostedSet(s'));
  }

  lemma SetTaskOk(s: Sched, t: nat, info: TaskInfo)
    requires Sound(s) && Enabled(s, ChangeTask(t, info))
    ensures Sound(SetTask(s, t, info)) && Owed(SetTask(s, t, info)) == Owed(s)
  {
    var s' := SetTask(s, t, info);
    forall g | 0 <= g < |s.rqs| ensures s'.Shaped() && RqOk(s', g) {
      SetTaskRq(s, t, info, g);
    }
    hide RqOk;
    assert forall g :: 0 < g < |s.rqs| ==> (s'.OnRq(Group(g)) <==> s.OnRq(Group(g)));
  }

  lemma {:induction false} EmptyTotals(qs: Queues, b: set<Entity>)
    requires forall p :: 0 <= p < |qs| ==> qs[p] == []
    ensures Total(qs) == 0 && Weight(qs, b) == 0
  {
    if qs != [] {
      EmptyTotals(qs[1..], b);
    }
  }

  ghost predicate Tree(parent: seq<Gid>) {
    |parent| > 0 && forall g :: 0 < g < |parent| ==> parent[g] < g
  }

  lemma EmptyRqShape()
    ensures RqShape(EmptyRq())
  {
    EmptyTotals(EmptyRq().queue, {});
  }

  lemma InitRqOk(parent: seq<Gid>, g: Gid)
    requires Tree(parent) && g < |parent|
    ensures InitSched(parent).Shaped() && RqOk(InitSched(parent), g)
  {
    var s := InitSched(parent);
    EmptyRqShape();
    EmptyTotals(EmptyRq().queue, BoostedSet(s));
    hide RqShape, BoostedSet;
    assert s.rqs[g] == EmptyRq();
  }

  lemma InitOk(parent: seq<Gid>)
    requires Tree(parent)
    ensures Inv(InitSched(parent))
  {
    hide RqOk;
    var s := InitSched(parent);
    forall g | 0 <= g < |s.rqs| ensures s.Shaped() && RqOk(s, g) {
      InitRqOk(parent, g);
    }
    InitNothing(parent);
  }

  lemma InitNothing(parent: seq<Gid>)
    requires Tree(parent)
    ensures var s := InitSched(parent);
            s.Shaped() && forall g :: 0 < g < |s.rqs| ==> !s.OnRq(Group(g)) && !MayRun(s, g)
  {}

  /** Whether do_sched_rt_period_timer calls sched_rt_rq_enqueue. */
  predicate TimerEnqueues(s: Sched, g: Gid, ran: bool, refilled: bool)
    requires g < |s.rqs|
  {
    if ran then s.rqs[g].throttled && refilled else s.rqs[g].nr > 0 && !s.Throttled(g)
  }

  /** Which groups are owed a place after an action. */
  ghost function OwedAfter(s: Sched, a: Action): set<Entity>
    requires s.Shaped()
  {
    if !Enabled(s, a) then Owed(s)
    else
      match a
      case EnqueueTask(t, _) => Owed(s) - Among(Path(s, Task(t)))
      case DequeueTask(t) => Owed(s) - Among(Path(s, Task(t)))
      case ChangeTask(_, _) => Owed(s)
      case ThrottleGroup(g) =>
        if g == 0 || s.rqs[g].boosted > 0 then Owed(s)
        else if s.OnRq(Group(g)) then Owed(s) - Among(Path(s, Group(g)))
        else Owed(s) - {Group(g)}
      case Timer(g, ran, refilled) =>
        if g > 0 && TimerEnqueues(s, g, ran, refilled) && s.rqs[g].nr > 0 && !s.OnRq(Group(g))
        then Owed(s) - Among(Path(s, Group(g)))
        else Owed(s)
      case EnableRuntime(g) =>
        if g > 0 && s.Throttled(g) && s.rqs[g].nr > 0 then Owed(s) + {Group(g)} else Owed(s)
  }

  /** Every action keeps the order, and the groups owed a place change by exactly this much. */
  lemma ApplyOk(s: Sched, a: Action)
    requires Sound(s)
    ensures Sound(Apply(s, a)) && Owed(Apply(s, a)) == OwedAfter(s, a)
  {
    SoundFiled(s);
    hide Enqueue, Dequeue, Throttle, PeriodTimer, SetTask, RqOk, Filed, Owed, Path;
    if Enabled(s, a) {
      match a
      case EnqueueTask(t, head) => EnqueueOk(s, Task(t), head, []);
      case DequeueTask(t) => DequeueOk(s, Task(t), []);
      case ChangeTask(t, info) => SetTaskOk(s, t, info);
      case ThrottleGroup(g) => ThrottleOk(s, g);
      case Timer(g, ran, refilled) => TimerOk(s, g, ran, refilled);
      case EnableRuntime(g) => EnableOk(s, g);
    }
  }

  /** The scheduler after a run of actions; an action that is not possible is ignored. */
  ghost function Run(s: Sched, run: seq<Action>): (r: Sched)
    requires Sound(s)
    ensures Sound(r)
    decreases |run|
  {
    if run == [] then s else ApplyOk(s, run[0]); Run(Apply(s, run[0]), run[1..])
  }

  /** A group comes to be owed a place only by __enable_runtime. */
  lemma {:induction false} OwedByEnable(s: Sched, run: seq<Action>, g: Gid)
    requires Sound(s) && Group(g) in Owed(Run(s, run))
    ensures Group(g) in Owed(s) || EnableRuntime(g) in run
    decreases |run|
  {
    hide Apply, RqOk, Owed, Path;
    if run != [] {
      ApplyOk(s, run[0]);
      OwedByEnable(Apply(s, run[0]), run[1..], g);
    }
  }

  /** While no CPU is brought online, nobody is owed anything. */
  lemma NobodyOwed(s: Sched, run: seq<Action>)
    requires Inv(s) && forall i :: 0 <= i < |run| ==> !run[i].EnableRuntime?
    ensures Inv(Run(s, run))
  {
    hide RqOk, Run;
    forall e | e in Owed(Run(s, run)) ensures false {
      OwedByEnable(s, run, e.gid);
    }
  }

  // ---------------------------------------------------------------- picking the next task

  /** The entity is queued, and so is every group above it. */
  ghost predicate Reachable(s: Sched, e: Entity)
    requires s.Shaped() && s.Known(e)
    decreases s.Home(e)
  {
    s.OnRq(e) && (s.Home(e) == 0 || Reachable(s, Group(s.Home(e))))
  }

  ghost predicate NoThrottledAbove(s: Sched, e: Entity)
    requires s.Shaped() && s.Known(e)
    decreases s.Home(e)
  {
    s.Home(e) == 0 || (!s.Throttled(s.Home(e)) && NoThrottledAbove(s, Group(s.Home(e))))
  }

  lemma QueuedHome(s: Sched, e: Entity)
    requires Local(s) && s.Known(e) && s.OnRq(e)
    ensures s.rqs[s.Home(e)].nr > 0 && s.rqs[s.Home(e)].highest <= s.Prio(e)
  {
    QueuedAt(s, e);
    assert RqOk(s, s.Home(e));
    TotalZero(s.rqs[s.Home(e)].queue, s.Prio(e));
  }

  ghost predicate NoneOwedAbove(s: Sched, e: Entity)
    requires s.Shaped() && s.Known(e)
    decreases s.Home(e)
  {
    s.Home(e) == 0 || (Group(s.Home(e)) !in Owed(s) && NoneOwedAbove(s, Group(s.Home(e))))
  }

  /** A queued entity can be reached exactly when no group above it is throttled or owed its place. */
  lemma {:induction false} ReachableIff(s: Sched, e: Entity)
    requires Sound(s) && s.Known(e) && s.OnRq(e)
    ensures Reachable(s, e) <==> NoThrottledAbove(s, e) && NoneOwedAbove(s, e)
    decreases s.Home(e)
  {
    if s.Home(e) != 0 {
      QueuedHome(s, e);
      var up := Group(s.Home(e));
      assert s.OnRq(up) <==> MayRun(s, s.Home(e)) && up !in Owed(s);
      hide RqOk, Sched.OnRq, Owed;
      assert Reachable(s, e) <==> s.OnRq(up) && Reachable(s, up);
      assert NoThrottledAbove(s, e) <==> !s.Throttled(s.Home(e)) && NoThrottledAbove(s, up);
      assert NoneOwedAbove(s, e) <==> up !in Owed(s) && NoneOwedAbove(s, up);
      if s.OnRq(up) {
        ReachableIff(s, up);
      }
    }
  }

  lemma {:induction false} RootBound(s: Sched, e: Entity)
    requires Local(s) && s.Known(e) && Reachable(s, e)
    ensures s.rqs[0].nr > 0 && s.rqs[0].highest <= s.Prio(e)
    decreases s.Home(e)
  {
    hide RqOk;
    QueuedHome(s, e);
    if s.Home(e) != 0 {
      RootBound(s, Group(s.Home(e)));
    }
  }

  /** Walking down from a non-empty run queue meets no BUG_ON and ends at a task of its highest priority. */
  lemma {:induction false} PickOk(s: Sched, g: Gid)
    requires Local(s) && g < |s.rqs| && s.rqs[g].nr > 0
    ensures var e := PickFrom(s, g);
            && e.Task? && s.Known(e) && s.OnRq(e) && s.Prio(e) == s.rqs[g].highest
            && (g == 0 || Reachable(s, Group(g)) ==> Reachable(s, e))
    decreases |s.rqs| - g
  {
    assert RqOk(s, g);
    var rq := s.rqs[g];
    SomeQueued(rq.queue);
    var idx := FirstBit(rq.bitmap);
    assert idx == rq.highest && idx < MAX_RT_PRIO && rq.queue[idx] != [];
    var next := rq.queue[idx][0];
    assert next in rq.queue[idx];
    hide RqOk;
    if next.Group? {
      PickOk(s, next.gid);
    }
  }

  /** A queued task that may run: no group above it is throttled, or owed its place. */
  ghost predicate Runnable(s: Sched, x: Entity)
    requires s.Shaped()
  {
    s.Known(x) && x.Task? && s.OnRq(x) && NoThrottledAbove(s, x) && NoneOwedAbove(s, x)
  }

  /** _pick_next_task_rt returns a task that may run, of the best priority among all that may. */
  lemma PickNextTask(s: Sched)
    requires Sound(s) && s.rqs[0].nr > 0
    ensures var e := PickFrom(s, 0);
            Runnable(s, e) && forall x :: Runnable(s, x) ==> s.Prio(e) <= s.Prio(x)
  {
    hide RqOk, Owed;
    var e := PickFrom(s, 0);
    PickOk(s, 0);
    ReachableIff(s, e);
    forall x | Runnable(s, x) ensures s.Prio(e) <= s.Prio(x) {
      ReachableIff(s, x);
      RootBound(s, x);
    }
  }

  /** The root run queue is empty exactly when no queued task may run. */
  lemma IdleIff(s: Sched)
    requires Sound(s)
    ensures s.rqs[0].nr > 0 <==> exists x :: Runnable(s, x)
  {
    hide RqOk, Owed;
    if s.rqs[0].nr > 0 {
      PickNextTask(s);
      assert Runnable(s, PickFrom(s, 0));
    }
    if x :| Runnable(s, x) {
      ReachableIff(s, x);
      RootBound(s, x);
    }
  }

  // ---------------------------------------------------------------- order within a priority

  ghost predicate NoneHome(s: Sched, path: seq<Entity>, g: Gid)
    requires s.Shaped() && s.AllKnown(path)
  {
    forall i :: 0 <= i < |path| ==> s.Home(path[i]) != g
  }

  lemma {:induction false} EnqueueUpRq(s: Sched, path: seq<Entity>, head: bool, g: Gid)
    requires s.Shaped() && s.AllKnown(path) && NoneHome(s, path, g) && g < |s.rqs|
    ensures EnqueueUp(s, path, head).rqs[g] == s.rqs[g]
    decreases |path|
  {
    if path != [] {
      EnqueueUpRq(EnqueueOne(s, path[0], head), path[1..], head, g);
    }
  }

  lemma {:induction false} RequeueUpRq(s: Sched, path: seq<Entity>, g: Gid)
    requires s.Shaped() && s.AllKnown(path) && NoneHome(s, path, g) && g < |s.rqs|
    ensures RequeueUp(s, path).rqs[g] == s.rqs[g]
    decreases |path|
  {
    if path != [] {
      var e := path[0];
      RequeueUpRq(if e.Group? && s.rqs[e.gid].nr > 0 then EnqueueOne(s, e, false) else s, path[1..], g);
    }
  }

  lemma {:induction false} DequeueDownRq(s: Sched, path: seq<Entity>, g: Gid)
    requires s.Shaped() && s.AllKnown(path) && NoneHome(s, path, g) && g < |s.rqs|
    ensures DequeueDown(s, path).rqs[g] == s.rqs[g]
    decreases |path|
  {
    if path != [] {
      DequeueDownRq(s, path[1..], g);
    }
  }

  lemma PathHomes(s: Sched, path: seq<Entity>)
    requires s.Shaped() && IsPath(s, path) && path != []
    ensures NoneHome(s, path[1..], s.Home(path[0]))
  {
    forall i | 0 <= i < |path[1..]| ensures s.Home(path[1..][i]) != s.Home(path[0]) {
      PathDescends(s, path, i + 1);
    }
  }

  /** The run queue a task is put on or taken off, before the groups above it are dealt with. */
  lemma BottomOff(s: Sched, t: nat)
    requires s.Shaped() && t in s.tasks
    ensures var e := Task(t);
            var s1 := DequeueDown(s, Path(s, e));
            && s1.rqs[s.Home(e)].queue == if s.OnRq(e) then DelAll(s.rqs[s.Home(e)].queue, e) else s.rqs[s.Home(e)].queue
  {
    var e := Task(t);
    var path := Path(s, e);
    PathIsPath(s, e);
    PathHomes(s, path);
    DequeueDownRq(s, path[1..], s.Home(e));
    var s0 := DequeueDown(s, path[1..]);
    assert s0.OnRq(e) <==> s.OnRq(e);
  }

  lemma BottomPath(s: Sched, t: nat)
    requires s.Shaped() && t in s.tasks
    ensures var path := Path(s, Task(t));
            var s1 := DequeueDown(s, path);
            s1.AllKnown(path) && NoneHome(s1, path[1..], s1.Home(Task(t))) && s1.Home(Task(t)) == s.Home(Task(t))
  {
    var path := Path(s, Task(t));
    PathIsPath(s, Task(t));
    PathKept(s, DequeueDown(s, path), path);
    hide IsPath, DequeueDown;
    PathHomes(DequeueDown(s, path), path);
  }

  lemma DelAllQueued(s: Sched, e: Entity)
    requires Local(s) && s.Known(e) && s.OnRq(e)
    ensures var qs := s.rqs[s.Home(e)].queue;
            s.Prio(e) < MAX_RT_PRIO && DelAll(qs, e) == qs[s.Prio(e) := Del(qs[s.Prio(e)], e)]
  {
    QueuedAt(s, e);
    assert RqOk(s, s.Home(e));
    DelAllIs(s.rqs[s.Home(e)].queue, e, s.Prio(e));
  }

  /** A woken task goes to the head or the tail of the queue of its priority; the others keep their order. */
  lemma EnqueueOrder(s: Sched, t: nat, head: bool)
    requires Sound(s) && t in s.tasks && !s.OnRq(Task(t))
    ensures var e, g, p := Task(t), s.tasks[t].group, s.tasks[t].prio;
            var q := s.rqs[g].queue[p];
            Enqueue(s, e, head).rqs[g].queue == s.rqs[g].queue[p := if head then [e] + q else q + [e]]
  {
    hide RqOk, Filed, DequeueDown, Path, NoneHome;
    var e := Task(t);
    var path := Path(s, e);
    BottomOff(s, t);
    BottomPath(s, t);
    var s1 := DequeueDown(s, path);
    var s2 := EnqueueOne(s1, e, head);
    assert NoneHome(s2, path[1..], s.Home(e)) by { SameHomes(s1, s2, path[1..], s.Home(e)); }
    EnqueueUpRq(s2, path[1..], head, s.Home(e));
  }

  lemma SameHomes(s: Sched, s': Sched, path: seq<Entity>, g: Gid)
    requires s.Shaped() && SameTree(s, s') && s.AllKnown(path) && NoneHome(s, path, g)
    ensures NoneHome(s', path, g)
  {}

  /** A task that goes to sleep leaves its queue; the others keep their order. */
  lemma DequeueOrder(s: Sched, t: nat)
    requires Sound(s) && t in s.tasks && s.OnRq(Task(t))
    ensures var e, g, p := Task(t), s.tasks[t].group, s.tasks[t].prio;
            Dequeue(s, e).rqs[g].queue == s.rqs[g].queue[p := Del(s.rqs[g].queue[p], e)]
  {
    hide RqOk, Filed, DequeueDown, Path, NoneHome, Sched.OnRq;
    var e := Task(t);
    var path := Path(s, e);
    BottomOff(s, t);
    DelAllQueued(s, e);
    BottomPath(s, t);
    RequeueUpRq(DequeueDown(s, path), path[1..], s.Home(e));
  }

  // ---------------------------------------------------------------- a group left without its place

  lemma {:induction false} NoWeight(qs: Queues)
    ensures Weight(qs, {}) == 0
  {
    if qs != [] {
      NoCount(qs[0]);
      NoWeight(qs[1..]);
    }
  }

  lemma {:induction false} NoCount(xs: seq<Entity>)
    ensures CountIn(xs, {}) == 0
  {
    if xs != [] {
      NoCount(xs[1..]);
    }
  }

  /** Without a boosted task no group counts one. */
  lemma {:induction false} NoBoost(s: Sched, g: Gid)
    requires Local(s) && g < |s.rqs| && forall t :: t in s.tasks ==> !s.tasks[t].boosted
    ensures s.rqs[g].boosted == 0
    decreases |s.rqs| - g
  {
    assert RqOk(s, g);
    var qs := s.rqs[g].queue;
    hide RqOk, RqShape, Weight;
    forall p, e | 0 <= p < |qs| && e in qs[p] ensures e !in BoostedSet(s) {
      if e.Group? {
        NoBoost(s, e.gid);
      }
    }
    WeightFrame(qs, BoostedSet(s), {});
    NoWeight(qs);
  }

  /** Taking a group off its parent's queue does not touch its own run queue. */
  lemma ThrottleInside(s: Sched, g: Gid)
    requires s.Shaped() && g < |s.rqs|
    ensures |Throttle(s, g).rqs| == |s.rqs| && Throttle(s, g).rqs[g] == s.rqs[g].(throttled := true)
  {
    var s1 := SetThrottled(s, g, true);
    if g > 0 && s1.Throttled(g) && s1.OnRq(Group(g)) {
      var path := Path(s1, Group(g));
      PathAbove(s1, g);
      hide Path, DequeueDown, RequeueUp, NoneHome, Sched.OnRq;
      DequeueDownRq(s1, path, g);
      SameHomes(s1, DequeueDown(s1, path), path, g);
      RequeueUpRq(DequeueDown(s1, path), path, g);
    }
  }

  lemma PathAbove(s: Sched, g: Gid)
    requires s.Shaped() && 0 < g < |s.rqs|
    ensures NoneHome(s, Path(s, Group(g)), g)
  {
    var path := Path(s, Group(g));
    PathIsPath(s, Group(g));
    forall i | 0 <= i < |path| ensures s.Home(path[i]) != g {
      if i > 0 {
        PathDescends(s, path, i);
      }
    }
  }

  /** Throttle a group that has something to run, none of it boosted, then bring its CPU online: it has lost its place. */
  lemma EnableLosesPlace(s: Sched, g: Gid)
    requires Inv(s) && 0 < g < |s.rqs| && s.rqs[g].nr > 0 && s.rqs[g].boosted == 0
    ensures Run(s, [ThrottleGroup(g)]) == Throttle(s, g) && Inv(Throttle(s, g))
    ensures Owed(Run(s, [ThrottleGroup(g), EnableRuntime(g)])) == {Group(g)}
  {
    ThrottleInside(s, g);
    RunTwo(s, ThrottleGroup(g), EnableRuntime(g));
    hide RqOk, Owed, Path, Throttle, Sched.OnRq, Run;
    var s1 := Throttle(s, g);
    assert Apply(s, ThrottleGroup(g)) == s1;
    ApplyOk(s, ThrottleGroup(g));
    ApplyOk(s1, EnableRuntime(g));
  }

  lemma RunTwo(s: Sched, a: Action, b: Action)
    requires Sound(s)
    ensures Run(s, [a]) == Apply(s, a) && Run(s, [a, b]) == Run(Apply(s, a), [b])
    ensures Sound(Apply(s, a)) && Run(s, [a, b]) == Apply(Apply(s, a), b)
  {
    ApplyOk(s, a);
    hide RqOk, Apply;
    var s1 := Apply(s, a);
    assert [a, b][1..] == [b] && [a][1..] == [] && [b][1..] == [];
    assert Run(s1, [b]) == Run(Apply(s1, b), []) by { ApplyOk(s1, b); }
  }

  /** A task of the group wakes up, the group is throttled, its CPU is brought online. */
  lemma WakeAndLosePlace(s: Sched, t: nat)
    requires Inv(s) && t in s.tasks && s.tasks[t].group > 0 && forall x :: x in s.tasks ==> !s.tasks[x].boosted
    ensures var g := s.tasks[t].group;
            Owed(Run(s, [EnqueueTask(t, false)] + [ThrottleGroup(g), EnableRuntime(g)])) == {Group(g)}
  {
    ApplyOk(s, EnqueueTask(t, false));
    TaskQueued(s, t);
    var g, s1 := s.tasks[t].group, Enqueue(s, Task(t), false);
    hide RqOk, Owed, Path, Enqueue, Throttle, Sched.OnRq;
    assert Apply(s, EnqueueTask(t, false)) == s1;
    EnableLosesPlace(s1, g);
    RunFirst(s, EnqueueTask(t, false), [ThrottleGroup(g), EnableRuntime(g)]);
  }

  lemma RunFirst(s: Sched, a: Action, run: seq<Action>)
    requires Sound(s)
    ensures Sound(Apply(s, a)) && Run(s, [a] + run) == Run(Apply(s, a), run)
  {
    ApplyOk(s, a);
    hide RqOk, Apply;
    assert ([a] + run)[1..] == run;
  }

  /** One task in one group is enough to get there. */
  lemma EnableLosesPlaceReached()
    ensures var run := [ChangeTask(0, TaskInfo(1, 0, false))] + ([EnqueueTask(0, false)] + [ThrottleGroup(1), EnableRuntime(1)]);
            Inv(InitSched([0, 0])) && Owed(Run(InitSched([0, 0]), run)) == {Group(1)}
  {
    var s, a := InitSched([0, 0]), ChangeTask(0, TaskInfo(1, 0, false));
    InitOk([0, 0]);
    assert Enabled(s, a);
    ApplyOk(s, a);
    var s1 := Apply(s, a);
    assert s1.tasks == map[0 := TaskInfo(1, 0, false)];
    hide RqOk, Owed, Path, Sched.OnRq, Run, Apply, InitSched;
    WakeAndLosePlace(s1, 0);
    RunFirst(s, a, [EnqueueTask(0, false)] + [ThrottleGroup(1), EnableRuntime(1)]);
  }

  lemma TaskQueued(s: Sched, t: nat)
    requires Sound(s) && t in s.tasks && forall x :: x in s.tasks ==> !s.tasks[x].boosted
    ensures var s', g := Enqueue(s, Task(t), false), s.tasks[t].group;
            g < |s'.rqs| == |s.rqs| && s'.rqs[g].nr > 0 && s'.rqs[g].boosted == 0
  {
    SoundFiled(s);
    EnqueueOk(s, Task(t), false, []);
    hide RqOk, Filed, Owed, Path, Enqueue;
    var s' := Enqueue(s, Task(t), false);
    QueuedHome(s', Task(t));
    NoBoost(s', s.tasks[t].group);
  }
}
