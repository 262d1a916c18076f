/**
 The priority arrays of the real-time scheduling class, nested through task groups.

 A run queue is an array of FIFO queues, one per priority, with a bitmap of the non-empty ones.
 Its entries are tasks and groups; a group is filed under the highest priority found inside it,
 so its place in its parent's queues depends on what happens below.  Groups are numbered in the
 order of their creation: group 0 is the root and a parent has a smaller number than its child.
 */
module RtPrioSpec {
  import opened Collections

  const MAX_RT_PRIO: nat := 100

  type Gid = nat
  datatype Entity = Task(id: nat) | Group(gid: Gid)

  type Queues = seq<seq<Entity>>

  datatype RtRq = RtRq(
    queue: Queues,        // active.queue
    bitmap: seq<bool>,    // active.bitmap
    nr: nat,              // rt_nr_running
    highest: nat,         // highest_prio.curr
    boosted: nat,         // rt_nr_boosted
    throttled: bool       // rt_throttled
  )

  datatype TaskInfo = TaskInfo(group: Gid, prio: nat, boosted: bool)

  datatype Sched = Sched(rqs: seq<RtRq>, parent: seq<Gid>, tasks: map<nat, TaskInfo>) {
    /** The hierarchy is a tree of groups, and every task has a real-time priority. */
    ghost predicate Shaped() {
      && |rqs| > 0 && |parent| == |rqs|
      && (forall g :: 0 < g < |parent| ==> parent[g] < g)
      && (forall g :: 0 <= g < |rqs| ==> |rqs[g].queue| == MAX_RT_PRIO && |rqs[g].bitmap| == MAX_RT_PRIO)
      && (forall t :: t in tasks ==> tasks[t].group < |rqs| && tasks[t].prio < MAX_RT_PRIO)
    }

    ghost predicate AllKnown(path: seq<Entity>) {
      forall i :: 0 <= i < |path| ==> Known(path[i])
    }

    predicate Known(e: Entity) {
      match e
      case Task(t) => t in tasks
      case Group(g) => 0 < g < |rqs|
    }

    /** rt_rq_of_se: the run queue the entity is queued on. */
    function Home(e: Entity): Gid
      requires Shaped() && Known(e)
      ensures Home(e) < |rqs| && (e.Group? ==> Home(e) < e.gid)
    {
      match e
      case Task(t) => tasks[t].group
      case Group(g) => parent[g]
    }

    /** rt_se_prio. */
    function Prio(e: Entity): nat
      requires Known(e)
    {
      match e
      case Task(t) => tasks[t].prio
      case Group(g) => rqs[g].highest
    }

    /** rt_se_boosted. */
    predicate Boosted(e: Entity)
      requires Known(e)
    {
      match e
      case Task(t) => tasks[t].boosted
      case Group(g) => rqs[g].boosted > 0
    }

    /** rt_rq_throttled. */
    predicate Throttled(g: Gid)
      requires g < |rqs|
    {
      rqs[g].throttled && rqs[g].boosted == 0
    }

    /** on_rt_rq. */
    predicate OnRq(e: Entity)
      requires Shaped() && Known(e)
    {
      Listed(rqs[Home(e)].queue, e)
    }
  }

  predicate Listed(qs: Queues, e: Entity) {
    exists p :: 0 <= p < |qs| && e in qs[p]
  }

  /** list_del_init: off whichever queue of the array it is on. */
  function DelAll(qs: Queues, e: Entity): (r: Queues)
    ensures |r| == |qs|
  {
    if qs == [] then [] else [Del(qs[0], e)] + DelAll(qs[1..], e)
  }

  /** sched_find_first_bit; the delimiter bit at MAX_RT_PRIO is always set. */
  function FirstBit(bitmap: seq<bool>): (i: nat)
    ensures i <= |bitmap|
    ensures forall j :: 0 <= j < i ==> !bitmap[j]
    ensures i < |bitmap| ==> bitmap[i]
  {
    if bitmap == [] || bitmap[0] then 0 else 1 + FirstBit(bitmap[1..])
  }

  function Min(a: nat, b: nat): nat {
    if a < b then a else b
  }

  function Dec(n: nat): nat {
    if n == 0 then 0 else n - 1
  }

  /** __dequeue_rt_entity on the entity's run queue: list, bitmap, counts and highest priority. */
  function RqWithout(rq: RtRq, e: Entity, prio: nat, boosted: bool): RtRq
    requires |rq.queue| == MAX_RT_PRIO && |rq.bitmap| == MAX_RT_PRIO
  {
    var queue := DelAll(rq.queue, e);
    var bitmap := if prio < MAX_RT_PRIO && queue[prio] == [] then rq.bitmap[prio := false] else rq.bitmap;
    var nr := Dec(rq.nr);
    var highest := if nr == 0 then MAX_RT_PRIO else if prio == rq.highest then FirstBit(bitmap) else rq.highest;
    RtRq(queue, bitmap, nr, highest, if boosted then Dec(rq.boosted) else rq.boosted, rq.throttled)
  }

  /** __enqueue_rt_entity on the entity's run queue. */
  function RqWith(rq: RtRq, e: Entity, prio: nat, boosted: bool, head: bool): RtRq
    requires |rq.queue| == MAX_RT_PRIO && |rq.bitmap| == MAX_RT_PRIO && prio < MAX_RT_PRIO
  {
    var q := if head then [e] + rq.queue[prio] else rq.queue[prio] + [e];
    RtRq(rq.queue[prio := q], rq.bitmap[prio := true], rq.nr + 1, Min(prio, rq.highest),
         if boosted then rq.boosted + 1 else rq.boosted, rq.throttled)
  }

  /** A group is not enqueued while it is throttled or empty. */
  predicate Refused(s: Sched, e: Entity)
    requires s.Known(e)
  {
    e.Group? && (s.Throttled(e.gid) || s.rqs[e.gid].nr == 0)
  }

  function SetRq(s: Sched, g: Gid, rq: RtRq): Sched
    requires g < |s.rqs|
  {
    s.(rqs := s.rqs[g := rq])
  }

  /** __dequeue_rt_entity. */
  function DequeueOne(s: Sched, e: Entity): Sched
    requires s.Shaped() && s.Known(e)
  {
    SetRq(s, s.Home(e), RqWithout(s.rqs[s.Home(e)], e, s.Prio(e), s.Boosted(e)))
  }

  /** __enqueue_rt_entity. */
  function EnqueueOne(s: Sched, e: Entity, head: bool): Sched
    requires s.Shaped() && s.Known(e)
  {
    if Refused(s, e) || s.Prio(e) >= MAX_RT_PRIO then s // WARN_ON(!rt_prio(prio))
    else SetRq(s, s.Home(e), RqWith(s.rqs[s.Home(e)], e, s.Prio(e), s.Boosted(e), head))
  }

  /** The entity and its ancestors, from the bottom up: for_each_sched_rt_entity. */
  function Path(s: Sched, e: Entity): (path: seq<Entity>)
    requires s.Shaped() && s.Known(e)
    ensures path != [] && path[0] == e
    ensures s.AllKnown(path)
    decreases s.Home(e)
  {
    if s.Home(e) == 0 then [e] else [e] + Path(s, Group(s.Home(e)))
  }

  /** dequeue_rt_stack: the entries of a path are removed from the top down. */
  function DequeueDown(s: Sched, path: seq<Entity>): (s': Sched)
    requires s.Shaped() && s.AllKnown(path)
    ensures SameTree(s, s')
    decreases |path|
  {
    if path == [] then s
    else
      var s1 := DequeueDown(s, path[1..]);
      if s1.OnRq(path[0]) then DequeueOne(s1, path[0]) else s1
  }

  /** The enqueue loop of enqueue_rt_entity, from the bottom up. */
  function EnqueueUp(s: Sched, path: seq<Entity>, head: bool): (s': Sched)
    requires s.Shaped() && s.AllKnown(path)
    ensures SameTree(s, s')
    decreases |path|
  {
    if path == [] then s else EnqueueUp(EnqueueOne(s, path[0], head), path[1..], head)
  }

  /** The re-enqueue loop of dequeue_rt_entity: only groups that still have something running. */
  function RequeueUp(s: Sched, path: seq<Entity>): (s': Sched)
    requires s.Shaped() && s.AllKnown(path)
    ensures SameTree(s, s')
    decreases |path|
  {
    if path == [] then s
    else
      var e := path[0];
      var s1 := if e.Group? && s.rqs[e.gid].nr > 0 then EnqueueOne(s, e, false) else s;
      RequeueUp(s1, path[1..])
  }

  ghost predicate SameTree(s: Sched, s': Sched) {
    s'.Shaped() && s'.parent == s.parent && s'.tasks == s.tasks && |s'.rqs| == |s.rqs|
  }

  /** enqueue_rt_entity. */
  function Enqueue(s: Sched, e: Entity, head: bool): Sched
    requires s.Shaped() && s.Known(e)
  {
    EnqueueUp(DequeueDown(s, Path(s, e)), Path(s, e), head)
  }

  /** dequeue_rt_entity. */
  function Dequeue(s: Sched, e: Entity): Sched
    requires s.Shaped() && s.Known(e)
  {
    RequeueUp(DequeueDown(s, Path(s, e)), Path(s, e))
  }

  function SetThrottled(s: Sched, g: Gid, on: bool): Sched
    requires g < |s.rqs|
  {
    SetRq(s, g, s.rqs[g].(throttled := on))
  }

  /** sched_rt_runtime_exceeded from the point where the group has used up its runtime. */
  function Throttle(s: Sched, g: Gid): Sched
    requires s.Shaped() && g < |s.rqs|
  {
    var s1 := SetThrottled(s, g, true);
    if g > 0 && s1.Throttled(g) && s1.OnRq(Group(g)) then Dequeue(s1, Group(g)) else s1
  }

  /** sched_rt_rq_enqueue. */
  function EnqueueGroup(s: Sched, g: Gid): Sched
    requires s.Shaped() && g < |s.rqs|
  {
    if g > 0 && s.rqs[g].nr > 0 && !s.OnRq(Group(g)) then Enqueue(s, Group(g), false) else s
  }

  /**
   do_sched_rt_period_timer for one run queue: `ran` if its rt_time is not 0, `refilled` if rt_time
   is then below its runtime.
   */
  function PeriodTimer(s: Sched, g: Gid, ran: bool, refilled: bool): Sched
    requires s.Shaped() && g < |s.rqs|
  {
    if ran then
      if s.rqs[g].throttled && refilled then EnqueueGroup(SetThrottled(s, g, false), g) else s
    else if s.rqs[g].nr > 0 && !s.Throttled(g) then EnqueueGroup(s, g)
    else s
  }

  /** A task is created, changes its priority or moves to another group, while it is not queued. */
  function SetTask(s: Sched, t: nat, info: TaskInfo): Sched {
    s.(tasks := s.tasks[t := info])
  }

  function EmptyRq(): RtRq {
    RtRq(seq(MAX_RT_PRIO, _ => []), seq(MAX_RT_PRIO, _ => false), 0, MAX_RT_PRIO, 0, false)
  }

  /** The scheduler with all groups of the given tree and no tasks. */
  function InitSched(parent: seq<Gid>): Sched {
    Sched(seq(|parent|, _ => EmptyRq()), parent, map[])
  }

  datatype Action =
    | EnqueueTask(t: nat, head: bool)
    | DequeueTask(t: nat)
    | ChangeTask(t: nat, info: TaskInfo)
    | ThrottleGroup(g: Gid)
    | Timer(g: Gid, ran: bool, refilled: bool)
    | EnableRuntime(g: Gid)   // __enable_runtime clears rt_throttled, and does no more

  predicate Enabled(s: Sched, a: Action)
    requires s.Shaped()
  {
    match a
    case EnqueueTask(t, _) => t in s.tasks
    case DequeueTask(t) => t in s.tasks
    case ChangeTask(t, info) =>
      (t in s.tasks ==> !s.OnRq(Task(t))) && info.group < |s.rqs| && info.prio < MAX_RT_PRIO
    case ThrottleGroup(g) => g < |s.rqs|
    case Timer(g, _, _) => g < |s.rqs|
    case EnableRuntime(g) => g < |s.rqs|
  }

  function Apply(s: Sched, a: Action): Sched
    requires s.Shaped()
  {
    if !Enabled(s, a) then s
    else
      match a
      case EnqueueTask(t, head) => Enqueue(s, Task(t), head)
      case DequeueTask(t) => Dequeue(s, Task(t))
      case ChangeTask(t, info) => SetTask(s, t, info)
      case ThrottleGroup(g) => Throttle(s, g)
      case Timer(g, ran, refilled) => PeriodTimer(s, g, ran, refilled)
      case EnableRuntime(g) => SetThrottled(s, g, false)
  }

  /** _pick_next_task_rt, from the run queue of group g down to a task. */
  function PickFrom(s: Sched, g: Gid): Entity
    requires s.Shaped() && g < |s.rqs|
    decreases |s.rqs| - g
  {
    var idx := FirstBit(s.rqs[g].bitmap);
    if idx >= MAX_RT_PRIO || s.rqs[g].queue[idx] == [] then Group(g) // BUG_ON
    else
      var next := s.rqs[g].queue[idx][0];
      if next.Group? && g < next.gid < |s.rqs| then PickFrom(s, next.gid) else next
  }
}
