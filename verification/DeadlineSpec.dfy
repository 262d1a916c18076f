/**
 The deadline I/O scheduler: every queued request is on a sector-sorted index and on a fifo, one
 of each per direction, and moves to the dispatch list in batches.

 A sorted index is the sequence of its requests in ascending sector order.  Requests are named
 by an identity; what merging can change about them is kept in `info`.
 */
module DeadlineSpec {
  import opened Collections

  datatype Dir = Read | Write

  type Id = nat

  datatype Info = Info(dir: Dir, pos: nat, sectors: nat, expire: nat)

  datatype Config = Config(fifoBatch: nat, writesStarved: nat, readExpire: nat, writeExpire: nat) {
    function Expire(d: Dir): nat {
      if d == Read then readExpire else writeExpire
    }
  }

  /** One direction: sort_list, fifo_list and next_rq. */
  datatype Side = Side(sort: seq<Id>, fifo: seq<Id>, next: Option<Id>)

  datatype Deadline = Deadline(
    info: map<Id, Info>,
    read: Side,
    write: Side,
    batching: nat,
    starved: nat,
    lastSector: nat,
    nrSorted: int,             // q->nr_sorted
    dispatched: seq<Id>,       // what was added to q->queue_head, in order
    endSector: nat,            // q->end_sector
    boundary: Option<Id>       // q->boundary_rq
  ) {
    function Get(d: Dir): Side {
      if d == Read then read else write
    }
    function Set(d: Dir, side: Side): Deadline {
      if d == Read then this.(read := side) else this.(write := side)
    }
    predicate Queued(x: Id) {
      x in read.sort || x in write.sort
    }
  }

  function Init(): Deadline {
    var none := Side([], [], None);
    Deadline(map[], none, none, 0, 0, 0, 0, [], 0, None)
  }

  /** deadline_latter_request: the next request in sector order. */
  function Latter(xs: seq<Id>, x: Id): Option<Id> {
    if xs == [] then None
    else if xs[0] == x then (if |xs| > 1 then Some(xs[1]) else None)
    else Latter(xs[1..], x)
  }

  /** The request elv_rb_add would run into: one with the same sector. */
  function Alias(info: map<Id, Info>, sort: seq<Id>, pos: nat): (a: Option<Id>)
    ensures a.Some? ==> a.value in sort && a.value in info && info[a.value].pos == pos
  {
    if sort == [] then None
    else if sort[0] in info && info[sort[0]].pos == pos then Some(sort[0])
    else Alias(info, sort[1..], pos)
  }

  /** elv_rb_add without an alias: the place among the sectors. */
  function InsertByPos(info: map<Id, Info>, sort: seq<Id>, x: Id): seq<Id>
    requires x in info
  {
    if sort == [] || (sort[0] in info && info[x].pos < info[sort[0]].pos) then [x] + sort
    else [sort[0]] + InsertByPos(info, sort[1..], x)
  }

  /** deadline_remove_request: off the fifo and the index, with next_rq kept in the index. */
  function Remove(side: Side, x: Id): Side {
    Side(Del(side.sort, x), Del(side.fifo, x), if side.next == Some(x) then Latter(side.sort, x) else side.next)
  }

  /** deadline_move_request: to the tail of the dispatch list. */
  function Move(s: Deadline, x: Id): (s': Deadline)
    requires x in s.info
    ensures s'.info == s.info && s'.batching == s.batching && s'.starved == s.starved
  {
    var d := s.info[x].dir;
    var s1 := s.(read := s.read.(next := None), write := s.write.(next := None));
    var s2 := s1.Set(d, Remove(s1.Get(d).(next := Latter(s1.Get(d).sort, x)), x));
    var end := s.info[x].pos + s.info[x].sectors;
    s2.(lastSector := end, nrSorted := s.nrSorted - 1, dispatched := s.dispatched + [x], endSector := end, boundary := Some(x))
  }

  /** The loop of deadline_add_rq_rb: the request in the way, if any, is dispatched. */
  function ClearAlias(s: Deadline, x: Id): Deadline
    requires x in s.info
  {
    match Alias(s.info, s.Get(s.info[x].dir).sort, s.info[x].pos)
    case None => s
    case Some(a) => Move(s, a)
  }

  /** deadline_add_rq_rb. */
  function AddToSort(s: Deadline, x: Id): Deadline
    requires x in s.info
  {
    var d, s1 := s.info[x].dir, ClearAlias(s, x);
    s1.Set(d, s1.Get(d).(sort := InsertByPos(s1.info, s1.Get(d).sort, x)))
  }

  /** deadline_add_request, after the nr_sorted++ of __elv_add_request. */
  function Add(s: Deadline, cfg: Config, x: Id, d: Dir, pos: nat, sectors: nat, now: nat): Deadline {
    var expire := now + cfg.Expire(d);
    var s1 := s.(nrSorted := s.nrSorted + 1, info := s.info[x := Info(d, pos, sectors, expire)]);
    var s2 := AddToSort(s1, x);
    s2.Set(d, s2.Get(d).(fifo := s2.Get(d).fifo + [x]))
  }

  /** deadline_merged_request for a front merge: the request now starts at an earlier sector. */
  function FrontMerge(s: Deadline, x: Id, pos: nat, sectors: nat): Deadline
    requires x in s.info
  {
    var d := s.info[x].dir;
    var s1 := s.(info := s.info[x := s.info[x].(pos := pos, sectors := sectors)]);
    AddToSort(s1.Set(d, s1.Get(d).(sort := Del(s1.Get(d).sort, x))), x)
  }

  /** list_move of x to just behind y. */
  function MoveBehind(xs: seq<Id>, x: Id, y: Id): seq<Id> {
    InsertBehind(Del(xs, x), x, y)
  }

  function InsertBehind(xs: seq<Id>, x: Id, y: Id): seq<Id> {
    if xs == [] then [x] else if xs[0] == y then [y, x] + xs[1..] else [xs[0]] + InsertBehind(xs[1..], x, y)
  }

  /** deadline_merged_requests and the nr_sorted-- of elv_merge_requests: y is merged into x. */
  function MergeRequests(s: Deadline, x: Id, y: Id): Deadline
    requires x in s.info && y in s.info
  {
    var d := s.info[x].dir;
    var grown := s.info[x].(sectors := s.info[x].sectors + s.info[y].sectors);
    var earlier := s.info[y].expire < s.info[x].expire;
    var info := s.info[x := if earlier then grown.(expire := s.info[y].expire) else grown];
    var side := if earlier then s.Get(d).(fifo := MoveBehind(s.Get(d).fifo, x, y)) else s.Get(d);
    s.(info := info, nrSorted := s.nrSorted - 1).Set(d, Remove(side, y))
  }

  /** deadline_check_fifo: the head of the fifo has expired. */
  predicate CheckFifo(s: Deadline, d: Dir, now: nat)
    requires s.Get(d).fifo != [] && s.Get(d).fifo[0] in s.info
  {
    now > s.info[s.Get(d).fifo[0]].expire
  }

  datatype Choice = Batch(x: Id) | NewBatch(d: Dir) | Nothing

  /** The first part of deadline_dispatch_requests: go on with a batch, or pick a direction. */
  function Choose(s: Deadline, cfg: Config): Choice {
    var rq := if s.write.next.Some? then s.write.next else s.read.next;
    if rq.Some? && s.batching < cfg.fifoBatch then Batch(rq.value)
    else if s.read.fifo != [] then
      (if s.write.fifo != [] && s.starved >= cfg.writesStarved then NewBatch(Write) else NewBatch(Read))
    else if s.write.fifo != [] then NewBatch(Write)
    else Nothing
  }

  /** The request a new batch starts with: the oldest if it has expired or there is no next one. */
  function FirstOf(s: Deadline, d: Dir, now: nat): Id
    requires s.Get(d).fifo != [] && s.Get(d).fifo[0] in s.info
  {
    if CheckFifo(s, d, now) || s.Get(d).next.None? then s.Get(d).fifo[0] else s.Get(d).next.value
  }

  function Starved(s: Deadline, d: Dir): nat {
    if d == Write then 0 else if s.write.fifo != [] then s.starved + 1 else s.starved
  }

  /** The request deadline_dispatch_requests moves, if any. */
  function Selected(s: Deadline, cfg: Config, now: nat): Option<Id>
    requires forall d: Dir :: s.Get(d).fifo != [] ==> s.Get(d).fifo[0] in s.info
  {
    match Choose(s, cfg)
    case Batch(x) => Some(x)
    case NewBatch(d) => if s.Get(d).fifo != [] then Some(FirstOf(s, d, now)) else None
    case Nothing => None
  }

  /** deadline_dispatch_requests. */
  function Dispatch(s: Deadline, cfg: Config, now: nat): Deadline
    requires forall d: Dir :: s.Get(d).fifo != [] ==> s.Get(d).fifo[0] in s.info
  {
    match Selected(s, cfg, now)
    case None => s
    case Some(x) =>
      if x !in s.info then s
      else
        match Choose(s, cfg)
        case Batch(_) => Move(s.(batching := s.batching + 1), x)
        case NewBatch(d) => Move(s.(batching := 1, starved := Starved(s, d)), x)
        case Nothing => s
  }
}
