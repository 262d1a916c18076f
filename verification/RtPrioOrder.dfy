/**
 Where enqueueing and dequeueing put the groups above a task: each is filed anew, under the highest
 priority now found inside it, at the head or the tail of that queue, and all others keep their order.
 */
module RtPrioOrder {
  import opened Collections
  import opened RtPrioSpec
  import opened RtPrioProof

  /** No entity of a path is queued inside the group the path starts with. */
  lemma HomesAbove(s: Sched, path: seq<Entity>)
    requires s.Shaped() && IsPath(s, path) && path != [] && path[0].Group?
    ensures NoneHome(s, path, path[0].gid)
  {
    forall i | 0 <= i < |path| ensures s.Home(path[i]) != path[0].gid {
      if i > 0 {
        PathDescends(s, path, i);
      }
    }
  }

  /** Run queues of different entities of a path are different. */
  lemma OtherHome(s: Sched, path: seq<Entity>, j: nat)
    requires s.Shaped() && IsPath(s, path) && 0 < j < |path|
    ensures s.Home(path[j]) != s.Home(path[0])
  {
    PathHomes(s, path);
    assert path[1..][j - 1] == path[j];
  }

  lemma {:induction false} DelAbsent(xs: seq<Entity>, e: Entity)
    requires e !in xs
    ensures Del(xs, e) == xs
  {
    if xs != [] {
      DelAbsent(xs[1..], e);
    }
  }

  lemma DelAllAbsent(qs: Queues, e: Entity)
    requires !Listed(qs, e)
    ensures DelAll(qs, e) == qs
  {
    forall i | 0 <= i < |qs| ensures DelAll(qs, e)[i] == qs[i] {
      DelAllAt(qs, e, i);
      DelAbsent(qs[i], e);
    }
  }

  /** Taking a path off takes each of its entities off its own run queue. */
  lemma {:induction false} DequeueDownAt(s: Sched, path: seq<Entity>, j: nat)
    requires s.Shaped() && IsPath(s, path) && j < |path|
    ensures var h := s.Home(path[j]);
            DequeueDown(s, path).rqs[h].queue == DelAll(s.rqs[h].queue, path[j])
    decreases |path|
  {
    var s1, h := DequeueDown(s, path[1..]), s.Home(path[j]);
    PathTail(s, path);
    if j == 0 {
      PathHomes(s, path);
      DequeueDownRq(s, path[1..], h);
      if !s1.OnRq(path[0]) {
        DelAllAbsent(s.rqs[h].queue, path[0]);
      }
    } else {
      OtherHome(s, path, j);
      DequeueDownAt(s, path[1..], j - 1);
    }
  }

  /** The queues with e in its place, unless e is refused. */
  ghost function Filing(qs: Queues, s: Sched, e: Entity, head: bool): Queues
    requires s.Known(e) && |qs| == MAX_RT_PRIO
  {
    var p := s.Prio(e);
    if Refused(s, e) || p >= MAX_RT_PRIO then qs
    else qs[p := if head then [e] + qs[p] else qs[p] + [e]]
  }

  /** What an entity is filed under depends only on its own run queue. */
  lemma SameFiling(qs: Queues, s: Sched, s': Sched, e: Entity, head: bool)
    requires s.Known(e) && |qs| == MAX_RT_PRIO && s'.tasks == s.tasks && |s'.rqs| == |s.rqs|
    requires e.Group? ==> s'.rqs[e.gid] == s.rqs[e.gid]
    ensures Filing(qs, s', e, head) == Filing(qs, s, e, head)
  {}

  lemma EnqueueOneRq(s: Sched, e: Entity, head: bool)
    requires s.Shaped() && s.Known(e)
    ensures var s1 := EnqueueOne(s, e, head);
            && SameTree(s, s1) && s1.rqs[s.Home(e)].queue == Filing(s.rqs[s.Home(e)].queue, s, e, head)
            && (forall g :: 0 <= g < |s.rqs| && g != s.Home(e) ==> s1.rqs[g] == s.rqs[g])
  {}

  /** After a change to the run queue of its first entity, the rest of a path is as it was. */
  lemma RestOfPath(s: Sched, s1: Sched, path: seq<Entity>, j: nat)
    requires s.Shaped() && IsPath(s, path) && 0 < j < |path| && SameTree(s, s1)
    requires forall g :: 0 <= g < |s.rqs| && g != s.Home(path[0]) ==> s1.rqs[g] == s.rqs[g]
    ensures IsPath(s1, path[1..]) && path[1..][j - 1] == path[j] && s1.Known(path[j]) && s.Known(path[j])
    ensures s1.Home(path[j]) == s.Home(path[j]) && s1.rqs[s.Home(path[j])] == s.rqs[s.Home(path[j])]
  {
    PathTail(s, path);
    OtherHome(s, path, j);
    PathKept(s, s1, path[1..]);
  }

  /** Putting a path back files each of its entities once, as it is in the end. */
  lemma {:induction false} EnqueueUpAt(s: Sched, path: seq<Entity>, head: bool, j: nat)
    requires s.Shaped() && IsPath(s, path) && j < |path|
    ensures var s', h := EnqueueUp(s, path, head), s.Home(path[j]);
            s'.rqs[h].queue == Filing(s.rqs[h].queue, s', path[j], head)
    decreases |path|
  {
    if j == 0 {
      FirstFiled(s, path, head);
    } else {
      var s1 := EnqueueOne(s, path[0], head);
      EnqueueOneRq(s, path[0], head);
      hide EnqueueOne, Filing, IsPath;
      RestOfPath(s, s1, path, j);
      EnqueueUpAt(s1, path[1..], head, j - 1);
    }
  }

  lemma FirstFiled(s: Sched, path: seq<Entity>, head: bool)
    requires s.Shaped() && IsPath(s, path) && path != []
    ensures var s', h := EnqueueUp(s, path, head), s.Home(path[0]);
            s'.rqs[h].queue == Filing(s.rqs[h].queue, s', path[0], head)
  {
    var e, h := path[0], s.Home(path[0]);
    var s1, s' := EnqueueOne(s, e, head), EnqueueUp(s, path, head);
    EnqueueOneRq(s, e, head);
    PathHomes(s, path);
    if e.Group? {
      HomesAbove(s, path);
      EnqueueUpRq(s, path, head, e.gid);
    }
    SameHomes(s, s1, path[1..], h);
    hide EnqueueOne, NoneHome, IsPath;
    EnqueueUpRq(s1, path[1..], head, h);
    SameFiling(s.rqs[h].queue, s, s', e, head);
  }

  /**
   enqueue_rt_entity: every group above the task, and the task, is filed where it belongs now, at the
   head or the tail; the other entries of each run queue keep their order.
   */
  lemma EnqueuePathOrder(s: Sched, e: Entity, head: bool, j: nat)
    requires s.Shaped() && s.Known(e) && j < |Path(s, e)|
    ensures var s', x := Enqueue(s, e, head), Path(s, e)[j];
            var h := s.Home(x);
            s'.rqs[h].queue == Filing(DelAll(s.rqs[h].queue, x), s', x, head)
  {
    var path := Path(s, e);
    PathIsPath(s, e);
    DequeueDownAt(s, path, j);
    var s1 := DequeueDown(s, path);
    PathKept(s, s1, path);
    hide DequeueDown, EnqueueUp, Filing, Path, IsPath;
    EnqueueUpAt(s1, path, head, j);
  }

  /** Putting back what still has something to run files each group once, at the tail. */
  lemma {:induction false} RequeueUpAt(s: Sched, path: seq<Entity>, j: nat)
    requires s.Shaped() && IsPath(s, path) && j < |path|
    ensures var s', x, h := RequeueUp(s, path), path[j], s.Home(path[j]);
            s'.rqs[h].queue == if x.Group? then Filing(s.rqs[h].queue, s', x, false) else s.rqs[h].queue
    decreases |path|
  {
    if j == 0 {
      FirstRequeued(s, path);
    } else {
      var e := path[0];
      var s1 := if e.Group? && s.rqs[e.gid].nr > 0 then EnqueueOne(s, e, false) else s;
      EnqueueOneRq(s, e, false);
      hide EnqueueOne, Filing, IsPath;
      RestOfPath(s, s1, path, j);
      RequeueUpAt(s1, path[1..], j - 1);
    }
  }

  lemma FirstRequeued(s: Sched, path: seq<Entity>)
    requires s.Shaped() && IsPath(s, path) && path != []
    ensures var s', x, h := RequeueUp(s, path), path[0], s.Home(path[0]);
            s'.rqs[h].queue == if x.Group? then Filing(s.rqs[h].queue, s', x, false) else s.rqs[h].queue
  {
    var e, h := path[0], s.Home(path[0]);
    var s1 := if e.Group? && s.rqs[e.gid].nr > 0 then EnqueueOne(s, e, false) else s;
    var s' := RequeueUp(s, path);
    EnqueueOneRq(s, e, false);
    PathHomes(s, path);
    if e.Group? {
      HomesAbove(s, path);
      RequeueUpRq(s, path, e.gid);
    }
    SameHomes(s, s1, path[1..], h);
    hide EnqueueOne, NoneHome, IsPath;
    RequeueUpRq(s1, path[1..], h);
    SameFiling(s.rqs[h].queue, s, s', e, false);
  }

  /** dequeue_rt_entity: the task leaves, every group above it is filed where it belongs now, at the tail. */
  lemma DequeuePathOrder(s: Sched, e: Entity, j: nat)
    requires s.Shaped() && s.Known(e) && j < |Path(s, e)|
    ensures var s', x := Dequeue(s, e), Path(s, e)[j];
            var h := s.Home(x);
            var others := DelAll(s.rqs[h].queue, x);
            s'.rqs[h].queue == if x.Group? then Filing(others, s', x, false) else others
  {
    var path := Path(s, e);
    PathIsPath(s, e);
    DequeueDownAt(s, path, j);
    var s1 := DequeueDown(s, path);
    PathKept(s, s1, path);
    hide DequeueDown, RequeueUp, Filing, Path, IsPath;
    RequeueUpAt(s1, path, j);
  }
}
