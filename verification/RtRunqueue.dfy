/**
 The real-time run queues of one CPU as the program has them: enqueueing and dequeueing walk
 the chain of parents and update lists, bitmaps and counters in place.  Every method is proved
 to do what the functions of RtPrioSpec do.
 */
module RtRunqueues {
  import opened Collections
  import opened RtPrioSpec
  import opened RtPrioProof

  class RtRunqueue {
    const parent: seq<Gid>
    var rqs: seq<RtRq>
    var tasks: map<nat, TaskInfo>

    ghost function Model(): Sched
      reads this
    {
      Sched(rqs, parent, tasks)
    }

    constructor (parent: seq<Gid>)
      requires Tree(parent)
      ensures Model() == InitSched(parent) && Inv(Model())
    {
      this.parent := parent;
      rqs := seq(|parent|, _ => EmptyRq());
      tasks := map[];
      new;
      InitOk(parent);
    }

    /** sched_find_first_bit. */
    method FindFirstBit(bitmap: seq<bool>) returns (i: nat)
      ensures i == FirstBit(bitmap)
    {
      i := 0;
      while i < |bitmap| && !bitmap[i]
        invariant 0 <= i <= |bitmap|
        invariant forall j :: 0 <= j < i ==> !bitmap[j]
      {
        i := i + 1;
      }
    }

    /** rt_rq_of_se. */
    function Home(e: Entity): Gid
      requires Model().Shaped() && Model().Known(e)
      reads this
    {
      if e.Task? then tasks[e.id].group else parent[e.gid]
    }

    /** The parent entity, for the step of for_each_sched_rt_entity. */
    function ParentOf(e: Entity): Option<Entity>
      requires Model().Shaped() && Model().Known(e)
      reads this
    {
      if Home(e) == 0 then None else Some(Group(Home(e)))
    }

    /** __dequeue_rt_entity. */
    method DequeueEntityOne(e: Entity)
      requires Model().Shaped() && Model().Known(e)
      modifies this`rqs
      ensures Model() == DequeueOne(old(Model()), e)
    {
      var g := Home(e);
      var rq := rqs[g];
      var prio := if e.Task? then tasks[e.id].prio else rqs[e.gid].highest;
      var boosted := if e.Task? then tasks[e.id].boosted else rqs[e.gid].boosted > 0;
      rq := rq.(queue := DelAll(rq.queue, e));
      if prio < MAX_RT_PRIO && rq.queue[prio] == [] {
        rq := rq.(bitmap := rq.bitmap[prio := false]);
      }
      rq := rq.(nr := Dec(rq.nr));
      if rq.nr > 0 {
        if prio == rq.highest {
          var first := FindFirstBit(rq.bitmap);
          rq := rq.(highest := first);
        }
      } else {
        rq := rq.(highest := MAX_RT_PRIO);
      }
      if boosted {
        rq := rq.(boosted := Dec(rq.boosted));
      }
      rqs := rqs[g := rq];
    }

    /** __enqueue_rt_entity. */
    method EnqueueEntityOne(e: Entity, head: bool)
      requires Model().Shaped() && Model().Known(e)
      modifies this`rqs
      ensures Model() == EnqueueOne(old(Model()), e, head)
    {
      if e.Group? && ((rqs[e.gid].throttled && rqs[e.gid].boosted == 0) || rqs[e.gid].nr == 0) {
        return;
      }
      var g := Home(e);
      var rq := rqs[g];
      var prio := if e.Task? then tasks[e.id].prio else rqs[e.gid].highest;
      var boosted := if e.Task? then tasks[e.id].boosted else rqs[e.gid].boosted > 0;
      if prio >= MAX_RT_PRIO {
        return;
      }
      rq := rq.(queue := rq.queue[prio := if head then [e] + rq.queue[prio] else rq.queue[prio] + [e]]);
      rq := rq.(bitmap := rq.bitmap[prio := true], nr := rq.nr + 1);
      if prio < rq.highest {
        rq := rq.(highest := prio);
      }
      if boosted {
        rq := rq.(boosted := rq.boosted + 1);
      }
      rqs := rqs[g := rq];
    }

    /** The walk up of dequeue_rt_stack, which records the way back. */
    method WayUp(e: Entity) returns (back: seq<Entity>)
      requires Model().Shaped() && Model().Known(e)
      ensures back == Path(Model(), e)
    {
      ghost var s, path := Model(), Path(Model(), e);
      PathIsPath(s, e);
      back := [];
      var cur := Some(e);
      while cur.Some?
        invariant |back| <= |path| && back == path[..|back|]
        invariant cur == if |back| < |path| then Some(path[|back|]) else None
        decreases |path| - |back|
      {
        back := back + [cur.value];
        assert s.Known(cur.value) && s.Home(cur.value) == Home(cur.value);
        cur := ParentOf(cur.value);
      }
    }

    /** dequeue_rt_stack: the entries of the way back are removed from the top down. */
    method DequeueStack(e: Entity)
      requires Model().Shaped() && Model().Known(e)
      modifies this`rqs
      ensures Model() == DequeueDown(old(Model()), Path(old(Model()), e))
    {
      ghost var s := Model();
      var path := WayUp(e);
      hide Path, Listed, DequeueOne;
      var i := |path|;
      while i > 0
        invariant 0 <= i <= |path|
        invariant Model() == DequeueDown(s, path[i..])
        decreases i
      {
        i := i - 1;
        assert path[i..][0] == path[i] && path[i..][1..] == path[i + 1..];
        if Listed(rqs[Home(path[i])].queue, path[i]) {
          DequeueEntityOne(path[i]);
        }
      }
    }

    lemma NextOnPath(s: Sched, path: seq<Entity>, i: nat)
      requires s.Shaped() && IsPath(s, path) && i < |path|
      ensures s.Known(path[i]) && path[i..][0] == path[i] && path[i..][1..] == path[i + 1..]
      ensures s.Home(path[i]) == 0 <==> i + 1 == |path|
      ensures i + 1 < |path| ==> path[i + 1] == Group(s.Home(path[i]))
    {}

    /** The enqueue loop of enqueue_rt_entity. */
    method EnqueueChain(e: Entity, head: bool)
      requires Model().Shaped() && Model().Known(e)
      modifies this`rqs
      ensures Model() == EnqueueUp(old(Model()), Path(old(Model()), e), head)
    {
      ghost var s, path := Model(), Path(Model(), e);
      PathIsPath(s, e);
      hide IsPath, EnqueueOne, Path, Listed;
      var cur := Some(e);
      ghost var i := 0;
      while cur.Some?
        invariant SameTree(s, Model()) && 0 <= i <= |path|
        invariant cur == if i < |path| then Some(path[i]) else None
        invariant EnqueueUp(Model(), path[i..], head) == EnqueueUp(s, path, head)
        decreases |path| - i
      {
        NextOnPath(s, path, i);
        OneSameTree(Model(), path[i], head);
        EnqueueEntityOne(cur.value, head);
        cur := ParentOf(cur.value);
        i := i + 1;
      }
    }

    lemma OneSameTree(s: Sched, e: Entity, head: bool)
      requires s.Shaped() && s.Known(e)
      ensures SameTree(s, EnqueueOne(s, e, head))
    {}

    /** The body of the re-enqueue loop: a group that still has something running goes back. */
    method RequeueOne(x: Entity)
      requires Model().Shaped() && Model().Known(x)
      modifies this`rqs
      ensures var s := old(Model()); Model() == if x.Group? && s.rqs[x.gid].nr > 0 then EnqueueOne(s, x, false) else s
    {
      if x.Group? && rqs[x.gid].nr > 0 {
        EnqueueEntityOne(x, false);
      }
    }

    /** The re-enqueue loop of dequeue_rt_entity. */
    method RequeueChain(e: Entity)
      requires Model().Shaped() && Model().Known(e)
      modifies this`rqs
      ensures Model() == RequeueUp(old(Model()), Path(old(Model()), e))
    {
      ghost var s, path := Model(), Path(Model(), e);
      PathIsPath(s, e);
      hide IsPath, EnqueueOne, RequeueUp, Path, Sched.Shaped;
      var cur := Some(e);
      ghost var i := 0;
      assert path[0..] == path;
      while cur.Some?
        invariant SameTree(s, Model()) && 0 <= i <= |path|
        invariant cur == if i < |path| then Some(path[i]) else None
        invariant RequeueUp(Model(), path[i..]) == RequeueUp(s, path)
        decreases |path| - i
      {
        NextOnPath(s, path, i);
        RequeueStep(s, Model(), path[i..]);
        RequeueOne(cur.value);
        cur := ParentOf(cur.value);
        i := i + 1;
      }
      assert path[i..] == [];
      RequeueStep(s, Model(), []);
    }

    lemma RequeueStep(s0: Sched, s: Sched, path: seq<Entity>)
      requires s0.Shaped() && SameTree(s0, s) && s.AllKnown(path)
      ensures path == [] ==> RequeueUp(s, path) == s
      ensures path != [] ==>
                var e := path[0];
                var s1 := if e.Group? && s.rqs[e.gid].nr > 0 then EnqueueOne(s, e, false) else s;
                SameTree(s0, s1) && s1.AllKnown(path[1..]) && RequeueUp(s, path) == RequeueUp(s1, path[1..])
    {
      if path != [] {
        OneSameTree(s, path[0], false);
      }
    }

    /** enqueue_rt_entity. */
    method EnqueueEntity(e: Entity, head: bool)
      requires Sound(Model()) && Model().Known(e)
      modifies this`rqs
      ensures Model() == Enqueue(old(Model()), e, head) && Sound(Model())
      ensures Owed(Model()) == Owed(old(Model())) - Among(Path(old(Model()), e))
    {
      SoundFiled(Model());
      hide RqOk, Filed, DequeueDown, EnqueueUp, Path, Owed;
      EnqueueOk(Model(), e, head, []);
      PathSame(Model(), DequeueDown(Model(), Path(Model(), e)), e);
      DequeueStack(e);
      EnqueueChain(e, head);
    }

    /** dequeue_rt_entity. */
    method DequeueEntity(e: Entity)
      requires Sound(Model()) && Model().Known(e)
      modifies this`rqs
      ensures Model() == Dequeue(old(Model()), e) && Sound(Model())
      ensures Owed(Model()) == Owed(old(Model())) - Among(Path(old(Model()), e))
    {
      SoundFiled(Model());
      hide RqOk, Filed, DequeueDown, RequeueUp, Path, Owed;
      DequeueOk(Model(), e, []);
      PathSame(Model(), DequeueDown(Model(), Path(Model(), e)), e);
      DequeueStack(e);
      RequeueChain(e);
    }

    /** The part of __enable_runtime that concerns a run queue's throttling. */
    method ClearThrottled(g: Gid)
      requires Sound(Model()) && g < |rqs|
      modifies this`rqs
      ensures Model() == SetThrottled(old(Model()), g, false) && Sound(Model())
      ensures Owed(Model()) == OwedAfter(old(Model()), EnableRuntime(g))
    {
      EnableOk(Model(), g);
      hide Sound, Owed;
      rqs := rqs[g := rqs[g].(throttled := false)];
    }

    /** _pick_next_task_rt: the BUG_ONs are assertions. */
    method PickNextTask() returns (t: Option<nat>)
      requires Sound(Model())
      ensures t.None? <==> rqs[0].nr == 0 || Model().Throttled(0)
      ensures t.Some? ==>
        && Runnable(Model(), Task(t.value))
        && (forall x :: Runnable(Model(), Task(x)) ==> tasks[t.value].prio <= tasks[x].prio)
    {
      if rqs[0].nr == 0 || (rqs[0].throttled && rqs[0].boosted == 0) {
        return None;
      }
      BestTask(Model());
      var g := 0;
      while true
        invariant 0 <= g < |rqs| && rqs[g].nr > 0
        invariant PickFrom(Model(), g) == PickFrom(Model(), 0)
        decreases |rqs| - g
      {
        hide RqOk;
        NonEmptyRq(Model(), g);
        var idx := FindFirstBit(rqs[g].bitmap);
        assert idx < MAX_RT_PRIO && rqs[g].queue[idx] != []; // BUG_ON
        var next := rqs[g].queue[idx][0];
        if next.Task? {
          return Some(next.id);
        }
        g := next.gid;
      }
    }

    lemma BestTask(s: Sched)
      requires Sound(s) && s.rqs[0].nr > 0
      ensures var e := PickFrom(s, 0);
              && Runnable(s, e)
              && (forall x :: Runnable(s, Task(x)) ==> s.tasks[e.id].prio <= s.tasks[x].prio)
    {
      hide RqOk, Owed;
      RtPrioProof.PickNextTask(s);
    }

    lemma NonEmptyRq(s: Sched, g: Gid)
      requires Local(s) && g < |s.rqs| && s.rqs[g].nr > 0
      ensures var idx := FirstBit(s.rqs[g].bitmap);
              && idx < MAX_RT_PRIO && s.rqs[g].queue[idx] != []
              && (s.rqs[g].queue[idx][0].Group? ==>
                    g < s.rqs[g].queue[idx][0].gid < |s.rqs| && s.rqs[s.rqs[g].queue[idx][0].gid].nr > 0)
    {
      assert RqOk(s, g);
      SomeQueued(s.rqs[g].queue);
      assert s.rqs[g].queue[s.rqs[g].highest][0] in s.rqs[g].queue[s.rqs[g].highest];
    }
  }
}
