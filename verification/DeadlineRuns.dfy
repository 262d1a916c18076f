/**
 Whole runs of the deadline scheduler: whatever order requests are added, merged and dispatched
 in, nothing is lost and reads hold up queued writes for a bounded number of dispatches only.
 */
module DeadlineRuns {
  import opened Collections
  import opened DeadlineSpec
  import opened DeadlineProof
  import opened Arithmetic

  datatype Action =
    | AddRq(x: Id, d: Dir, pos: nat, sectors: nat)
    | Grow(x: Id, sectors: nat)             // a back merge
    | Reposition(x: Id, pos: nat, sectors: nat)  // a front merge
    | Merge(x: Id, y: Id)
    | DispatchRq
    | Wait(jiffies: nat)

  /** `merged` are the requests that became part of another one. */
  datatype System = System(s: Deadline, now: nat, merged: set<Id>)

  predicate InSort(s: Deadline, x: Id) {
    x in s.info && x in s.Get(s.info[x].dir).sort
  }

  predicate Enabled(t: System, a: Action) {
    match a
    case AddRq(x, _, _, _) => x !in t.s.info
    case Grow(x, _) => InSort(t.s, x)
    case Reposition(x, _, _) => InSort(t.s, x)
    case Merge(x, y) => x != y && InSort(t.s, x) && InSort(t.s, y) && t.s.info[x].dir == t.s.info[y].dir
    case DispatchRq => true
    case Wait(_) => true
  }

  ghost predicate Ok(t: System, cfg: Config) {
    Inv(t.s, cfg, t.now)
  }

  function Grown(s: Deadline, x: Id, sectors: nat): Deadline
    requires x in s.info
  {
    s.(info := s.info[x := s.info[x].(sectors := sectors)])
  }

  lemma HeadsKnown(s: Deadline, cfg: Config, now: nat)
    requires Inv(s, cfg, now)
    ensures forall d: Dir :: s.Get(d).fifo != [] ==> s.Get(d).fifo[0] in s.info
  {}

  /** One action; one that is not possible changes nothing. */
  ghost function Step(t: System, cfg: Config, a: Action): System
    requires Ok(t, cfg)
  {
    if !Enabled(t, a) then t
    else
      match a
      case AddRq(x, d, pos, sectors) => t.(s := Add(t.s, cfg, x, d, pos, sectors, t.now))
      case Grow(x, sectors) => t.(s := Grown(t.s, x, sectors))
      case Reposition(x, pos, sectors) => t.(s := FrontMerge(t.s, x, pos, sectors))
      case Merge(x, y) => t.(s := MergeRequests(t.s, x, y), merged := t.merged + {y})
      case DispatchRq => HeadsKnown(t.s, cfg, t.now); t.(s := Dispatch(t.s, cfg, t.now))
      case Wait(jiffies) => t.(now := t.now + jiffies)
  }

  lemma GrowInv(s: Deadline, cfg: Config, now: nat, x: Id, sectors: nat)
    requires Inv(s, cfg, now) && x in s.info
    ensures Inv(Grown(s, x, sectors), cfg, now)
  {
    var info := Grown(s, x, sectors).info;
    SideInfo(s.info, info, s.read, Read, {});
    SideInfo(s.info, info, s.write, Write, {});
    hide SideOk, NoDup;
  }

  lemma StepOk(t: System, cfg: Config, a: Action)
    requires Ok(t, cfg)
    ensures Ok(Step(t, cfg, a), cfg)
  {
    hide Core, Add, FrontMerge, MergeRequests, Dispatch;
    if Enabled(t, a) {
      match a
      case AddRq(x, d, pos, sectors) => AddInv(t.s, cfg, t.now, x, d, pos, sectors);
      case Grow(x, sectors) => GrowInv(t.s, cfg, t.now, x, sectors);
      case Reposition(x, pos, sectors) => FrontMergeInv(t.s, cfg, t.now, x, pos, sectors);
      case Merge(x, y) => MergeRequestsInv(t.s, cfg, t.now, x, y);
      case DispatchRq => DispatchInv(t.s, cfg, t.now);
      case Wait(_) =>
    }
  }

  /** A run from any state in order. */
  ghost function Run(t: System, cfg: Config, acts: seq<Action>): (t': System)
    requires Ok(t, cfg)
    ensures Ok(t', cfg)
    decreases |acts|
  {
    if acts == [] then t
    else
      StepOk(t, cfg, acts[0]);
      Run(Step(t, cfg, acts[0]), cfg, acts[1..])
  }

  function Start(now: nat): System {
    System(Init(), now, {})
  }

  lemma StartOk(cfg: Config, now: nat)
    ensures Ok(Start(now), cfg)
  {}

  // ---------------------------------------------------------------- nothing is lost

  /** Queued or dispatched. */
  predicate Held(s: Deadline, y: Id) {
    y in s.read.fifo || y in s.write.fifo || y in s.dispatched
  }

  lemma MoveHeld(s: Deadline, x: Id, out: set<Id>, extra: int)
    requires Core(s, out, extra) && InSort(s, x)
    ensures forall y :: Held(Move(s, x), y) <==> Held(s, y)
  {
    var s' := Move(s, x);
    assert s'.dispatched == s.dispatched + [x] by { hide Core, Remove, Latter; }
    assert x in s.Get(s.info[x].dir).fifo by { hide Move, NoDup, ByPos, ByExpiry; }
    MoveCore(s, x, out, extra);
    hide Core, Move;
    assert forall y :: y in s'.Get(Read).fifo <==> y in s.Get(Read).fifo && y != x;
    assert forall y :: y in s'.Get(Write).fifo <==> y in s.Get(Write).fifo && y != x;
  }

  lemma ClearAliasHeld(s: Deadline, x: Id, out: set<Id>, extra: int)
    requires Core(s, out, extra) && x in s.info
    ensures forall y :: Held(ClearAlias(s, x), y) <==> Held(s, y)
  {
    hide NoDup, ByPos, ByExpiry, Move;
    var a := Alias(s.info, s.Get(s.info[x].dir).sort, s.info[x].pos);
    if a.Some? {
      MoveHeld(s, a.value, out, extra);
    }
  }

  lemma AddHeld(s: Deadline, cfg: Config, now: nat, x: Id, d: Dir, pos: nat, sectors: nat)
    requires Inv(s, cfg, now) && x !in s.info
    ensures forall y :: Held(Add(s, cfg, x, d, pos, sectors, now), y) <==> Held(s, y) || y == x
  {
    hide Core, Timely, ClearAlias, InsertByPos;
    var rq := Info(d, pos, sectors, now + cfg.Expire(d));
    FreshInfo(s, cfg, now, x, rq);
    var s1 := s.(nrSorted := s.nrSorted + 1, info := s.info[x := rq]);
    ClearAliasHeld(s1, x, {}, 1);
    assert forall y :: Held(s1, y) <==> Held(s, y);
  }

  lemma FrontMergeHeld(s: Deadline, cfg: Config, now: nat, x: Id, pos: nat, sectors: nat)
    requires Inv(s, cfg, now) && InSort(s, x)
    ensures forall y :: Held(FrontMerge(s, x, pos, sectors), y) <==> Held(s, y)
  {
    hide Core, Timely, ClearAlias, InsertByPos, Del;
    var rq := s.info[x].(pos := pos, sectors := sectors);
    LiftOut(s, cfg, now, x, rq);
    var s1 := s.(info := s.info[x := rq]);
    var s2 := s1.Set(rq.dir, s1.Get(rq.dir).(sort := Del(s1.Get(rq.dir).sort, x)));
    ClearAliasHeld(s2, x, {x}, 1);
    assert forall y :: Held(s2, y) <==> Held(s, y);
  }

  lemma MergeHeld(s: Deadline, x: Id, y: Id)
    requires Core(s, {}, 0) && InSort(s, x) && InSort(s, y) && x != y && s.info[x].dir == s.info[y].dir
    ensures forall z :: Held(MergeRequests(s, x, y), z) <==> Held(s, z) && z != y
    ensures Held(s, y)
  {
    hide NoDup, ByPos, ByExpiry, Remove, MoveBehind;
    OneSide(s, y, {}, 0);
    MergeSide(s, x, y);
  }

  lemma DispatchHeld(s: Deadline, cfg: Config, now: nat)
    requires Inv(s, cfg, now)
    ensures forall d: Dir :: s.Get(d).fifo != [] ==> s.Get(d).fifo[0] in s.info
    ensures forall y :: Held(Dispatch(s, cfg, now), y) <==> Held(s, y)
  {
    hide SideOk, NoDup, Move;
    SelectedQueued(s, cfg, now);
    var x := Selected(s, cfg, now);
    if x.Some? {
      var s1 := Counted(s, cfg);
      assert Core(s1, {}, 0);
      MoveHeld(s1, x.value, {}, 0);
    }
  }

  /** Every request that was added is held or was merged into another, never both. */
  ghost predicate Conserved(t: System) {
    && (forall y :: y in t.s.info <==> Held(t.s, y) || y in t.merged)
    && (forall y :: y in t.merged ==> !Held(t.s, y))
  }

  lemma StepConserves(t: System, cfg: Config, a: Action)
    requires Ok(t, cfg) && Conserved(t)
    ensures Conserved(Step(t, cfg, a))
  {
    hide Core, Timely, Held, Remove, MoveBehind, InsertByPos, Move, Del, Choose;
    if Enabled(t, a) {
      match a
      case AddRq(x, d, pos, sectors) => AddHeld(t.s, cfg, t.now, x, d, pos, sectors);
      case Grow(x, sectors) => assert forall y :: Held(Grown(t.s, x, sectors), y) <==> Held(t.s, y) by { GrowHeld(t.s, x, sectors); }
      case Reposition(x, pos, sectors) => FrontMergeHeld(t.s, cfg, t.now, x, pos, sectors);
      case Merge(x, y) => MergeHeld(t.s, x, y);
      case DispatchRq => DispatchHeld(t.s, cfg, t.now);
      case Wait(_) =>
    }
  }

  lemma GrowHeld(s: Deadline, x: Id, sectors: nat)
    requires x in s.info
    ensures forall y :: Held(Grown(s, x, sectors), y) <==> Held(s, y)
  {}

  predicate Adds(acts: seq<Action>, x: Id) {
    exists i :: 0 <= i < |acts| && acts[i].AddRq? && acts[i].x == x
  }

  lemma StepKnown(t: System, cfg: Config, a: Action, x: Id)
    requires Ok(t, cfg)
    ensures x in Step(t, cfg, a).s.info <==> x in t.s.info || (a.AddRq? && a.x == x)
  {
    hide Core, Timely, InsertByPos, Latter, Del, MoveBehind, Choose, FirstOf;
  }

  lemma {:induction false} RunConserves(t: System, cfg: Config, acts: seq<Action>)
    requires Ok(t, cfg) && Conserved(t)
    ensures Conserved(Run(t, cfg, acts))
    ensures forall x :: x in Run(t, cfg, acts).s.info <==> x in t.s.info || Adds(acts, x)
    decreases |acts|
  {
    hide Ok, Conserved, Step;
    if acts != [] {
      StepOk(t, cfg, acts[0]);
      StepConserves(t, cfg, acts[0]);
      var t', rest := Step(t, cfg, acts[0]), acts[1..];
      RunConserves(t', cfg, rest);
      forall x ensures Adds(acts, x) <==> Adds(rest, x) || (acts[0].AddRq? && acts[0].x == x) {
        if Adds(rest, x) {
          var i :| 0 <= i < |rest| && rest[i].AddRq? && rest[i].x == x;
          assert acts[i + 1] == rest[i];
        }
        if Adds(acts, x) && !(acts[0].AddRq? && acts[0].x == x) {
          var i :| 0 <= i < |acts| && acts[i].AddRq? && acts[i].x == x;
          assert acts[i] == rest[i - 1];
        }
      }
      forall x ensures x in t'.s.info <==> x in t.s.info || (acts[0].AddRq? && acts[0].x == x) {
        StepKnown(t, cfg, acts[0], x);
      }
    }
  }

  /**
   After any sequence of actions: every request ever added is queued, dispatched or merged away,
   exactly one of these, and a queued one is on both lists of its own direction and on no other.
   */
  lemma NothingLost(cfg: Config, now: nat, acts: seq<Action>, x: Id)
    ensures Ok(Start(now), cfg)
    ensures var t := Run(Start(now), cfg, acts);
            && (Adds(acts, x) <==> t.s.Queued(x) || x in t.s.dispatched || x in t.merged)
            && !(t.s.Queued(x) && x in t.s.dispatched)
            && (x in t.merged ==> !t.s.Queued(x) && x !in t.s.dispatched)
            && (forall d: Dir :: x in t.s.Get(d).sort <==> x in t.s.Get(d).fifo)
            && (t.s.Queued(x) ==> x in t.s.info && forall d: Dir :: x in t.s.Get(d).sort <==> d == t.s.info[x].dir)
            && t.s.nrSorted == |t.s.read.sort| + |t.s.write.sort|
  {
    StartOk(cfg, now);
    RunConserves(Start(now), cfg, acts);
    var t := Run(Start(now), cfg, acts);
    SidePart(t.s, Read);
    SidePart(t.s, Write);
    hide NoDup, ByPos, ByExpiry, Adds, Run, OutOf;
  }

  // ---------------------------------------------------------------- starvation of writes

  function Max(a: int, b: int): int {
    if a < b then b else a
  }

  /** How many more dispatches can be reads while a write is queued. */
  function Credit(s: Deadline, cfg: Config): nat {
    Max(0, cfg.fifoBatch - s.batching) + Max(0, cfg.writesStarved - s.starved) * Max(1, cfg.fifoBatch)
  }

  ghost predicate ServesRead(t: System, cfg: Config)
    requires Ok(t, cfg)
  {
    HeadsKnown(t.s, cfg, t.now);
    var x := Selected(t.s, cfg, t.now);
    x.Some? && x.value in t.s.info && t.s.info[x.value].dir == Read
  }

  /** Writes are queued all along the run, and every dispatch in it serves a read. */
  ghost predicate WritesWait(t: System, cfg: Config, acts: seq<Action>)
    requires Ok(t, cfg)
    decreases |acts|
  {
    acts == [] ||
    (StepOk(t, cfg, acts[0]);
     && t.s.write.fifo != []
     && (acts[0].DispatchRq? ==> ServesRead(t, cfg))
     && WritesWait(Step(t, cfg, acts[0]), cfg, acts[1..]))
  }

  function Dispatches(acts: seq<Action>): nat {
    if acts == [] then 0 else (if acts[0].DispatchRq? then 1 else 0) + Dispatches(acts[1..])
  }

  /** A read dispatched past a queued write uses up credit; nothing else gives any back. */
  lemma ReadCosts(t: System, cfg: Config)
    requires Ok(t, cfg) && t.s.write.fifo != [] && ServesRead(t, cfg)
    ensures Credit(Step(t, cfg, DispatchRq).s, cfg) < Credit(t.s, cfg)
  {
    hide NoDup, ByPos, ByExpiry, Move, Credit;
    var s := t.s;
    SelectedQueued(s, cfg, t.now);
    var c := Choose(s, cfg);
    if c.NewBatch? {
      assert s.Get(c.d).fifo[0] in s.Get(c.d).fifo;
      assert c.d == Read;
      CreditSpent(s, s.(batching := 1, starved := s.starved + 1), cfg);
    } else {
      CreditSpent(s, s.(batching := s.batching + 1), cfg);
    }
    assert Step(t, cfg, DispatchRq).s == Move(Counted(s, cfg), Selected(s, cfg, t.now).value);
    CreditSame(Counted(s, cfg), Step(t, cfg, DispatchRq).s, cfg);
  }

  lemma CreditSame(s: Deadline, s': Deadline, cfg: Config)
    requires s.batching == s'.batching && s.starved == s'.starved
    ensures Credit(s, cfg) == Credit(s', cfg)
  {}

  lemma CreditSpent(s: Deadline, s': Deadline, cfg: Config)
    requires || (s.batching < cfg.fifoBatch && s'.batching == s.batching + 1 && s'.starved == s.starved)
             || (s.starved < cfg.writesStarved && s'.batching == 1 && s'.starved == s.starved + 1)
    ensures Credit(s', cfg) < Credit(s, cfg)
  {}

  /** Adding, merging and the dispatch of a request in the way leave the counters alone. */
  lemma OthersFree(t: System, cfg: Config, a: Action)
    requires Ok(t, cfg) && !a.DispatchRq?
    ensures Credit(Step(t, cfg, a).s, cfg) == Credit(t.s, cfg)
  {
    hide Core, Timely, InsertByPos, Latter, Del, MoveBehind, Credit;
    CreditSame(t.s, Step(t, cfg, a).s, cfg);
  }

  lemma {:induction false} ReadsWithin(t: System, cfg: Config, acts: seq<Action>)
    requires Ok(t, cfg) && WritesWait(t, cfg, acts)
    ensures Dispatches(acts) <= Credit(t.s, cfg)
    decreases |acts|
  {
    if acts != [] {
      hide Ok, Step, Credit, ServesRead;
      StepOk(t, cfg, acts[0]);
      ReadsWithin(Step(t, cfg, acts[0]), cfg, acts[1..]);
      if acts[0].DispatchRq? {
        ReadCosts(t, cfg);
      } else {
        OthersFree(t, cfg, acts[0]);
      }
    }
  }

  /** While writes are queued, at most (writes_starved + 1) * max(1, fifo_batch) dispatches in a row serve reads. */
  lemma WriteStarvationBound(t: System, cfg: Config, acts: seq<Action>)
    requires Ok(t, cfg) && WritesWait(t, cfg, acts)
    ensures Dispatches(acts) <= (cfg.writesStarved + 1) * Max(1, cfg.fifoBatch)
  {
    hide Ok, WritesWait, Credit;
    ReadsWithin(t, cfg, acts);
    CreditBound(t.s, cfg);
  }

  lemma CreditBound(s: Deadline, cfg: Config)
    ensures Credit(s, cfg) <= (cfg.writesStarved + 1) * Max(1, cfg.fifoBatch)
  {
    var f := Max(1, cfg.fifoBatch);
    MulLe(f, Max(0, cfg.writesStarved - s.starved), cfg.writesStarved);
  }

  // ---------------------------------------------------------------- draining

  /** A forced dispatch takes one request off the indexes, until there is none. */
  lemma DispatchShrinks(s: Deadline, cfg: Config, now: nat)
    requires Inv(s, cfg, now)
    ensures forall d: Dir :: s.Get(d).fifo != [] ==> s.Get(d).fifo[0] in s.info
    ensures var s', x := Dispatch(s, cfg, now), Selected(s, cfg, now);
            if x.None? then s' == s && s.nrSorted == 0 && s.read == s.read.(sort := [], fifo := []) && s.write == s.write.(sort := [], fifo := [])
            else s'.nrSorted == s.nrSorted - 1 && s'.dispatched == s.dispatched + [x.value] && s.nrSorted > 0
  {
    SelectedQueued(s, cfg, now);
    SidePart(s, Read);
    SidePart(s, Write);
    hide NoDup, ByPos, ByExpiry, OutOf, Latter, Remove, Choose, FirstOf, CheckFifo;
    assert s.read.sort != [] ==> s.read.sort[0] in s.read.sort;
    assert s.write.sort != [] ==> s.write.sort[0] in s.write.sort;
  }
}
