/**
 How long the oldest request of a direction can be passed over once it has expired: for writes
 always a bounded number of dispatches, for reads exactly if writes_starved is not zero.
 */
module DeadlineLate {
  import opened Collections
  import opened DeadlineSpec
  import opened DeadlineProof
  import opened DeadlineRuns

  // ---------------------------------------------------------------- a request whose time is over

  /** x is the oldest request of its direction, and has expired. */
  predicate LateHead(t: System, d: Dir, x: Id) {
    var fifo := t.s.Get(d).fifo;
    fifo != [] && fifo[0] == x && x in t.s.info && t.now > t.s.info[x].expire
  }

  /** x is on the fifo of direction d all along the run, its end included. */
  ghost predicate StaysQueued(t: System, cfg: Config, acts: seq<Action>, d: Dir, x: Id)
    requires Ok(t, cfg)
    decreases |acts|
  {
    x in t.s.Get(d).fifo &&
    (acts == [] || (StepOk(t, cfg, acts[0]); StaysQueued(Step(t, cfg, acts[0]), cfg, acts[1..], d, x)))
  }

  /** How many more dispatches can leave the oldest, expired request of a direction where it is. */
  function Patience(s: Deadline, cfg: Config, d: Dir): nat {
    if d == Write then Credit(s, cfg)
    else Max(0, cfg.fifoBatch - s.batching) + (if s.starved >= cfg.writesStarved then Max(1, cfg.fifoBatch) else 0)
  }

  lemma DelHead(xs: seq<Id>, x: Id)
    requires xs != [] && xs[0] != x
    ensures Del(xs, x) != [] && Del(xs, x)[0] == xs[0]
  {}

  /** y, the oldest of direction d in s, is the oldest in s' too if it is still queued, with the same expiry. */
  ghost predicate KeepsHead(s: Deadline, s': Deadline, d: Dir, y: Id) {
    y in s'.Get(d).fifo ==>
      && s'.Get(d).fifo[0] == y && y in s.info && y in s'.info && s'.info[y].expire == s.info[y].expire
  }

  ghost predicate Head(s: Deadline, d: Dir, y: Id) {
    s.Get(d).fifo != [] && s.Get(d).fifo[0] == y && y in s.info && NoDup(s.Get(d).fifo)
  }

  lemma MoveHead(s: Deadline, x: Id, d: Dir, y: Id)
    requires x in s.info && Head(s, d, y) && (x == y ==> s.info[x].dir == d)
    ensures KeepsHead(s, Move(s, x), d, y) && (x == y ==> y !in Move(s, x).Get(d).fifo)
  {
    hide Latter;
    if x == y {
      DelKeeps(s.info, s.Get(d).fifo, x);
    } else {
      DelHead(s.Get(d).fifo, x);
    }
  }

  lemma AliasDir(s: Deadline, x: Id, out: set<Id>, extra: int)
    requires Core(s, out, extra) && x in s.info
    ensures var a := Alias(s.info, s.Get(s.info[x].dir).sort, s.info[x].pos); a.Some? ==> s.info[a.value].dir == s.info[x].dir
  {
    hide NoDup, ByPos, ByExpiry;
  }

  lemma ClearAliasHead(s: Deadline, x: Id, out: set<Id>, extra: int, d: Dir, y: Id)
    requires Core(s, out, extra) && x in s.info && Head(s, d, y) && s.info[y].dir == d
    ensures KeepsHead(s, ClearAlias(s, x), d, y)
  {
    AliasDir(s, x, out, extra);
    hide Core, Move;
    match Alias(s.info, s.Get(s.info[x].dir).sort, s.info[x].pos)
    case None =>
    case Some(a) => MoveHead(s, a, d, y);
  }

  lemma AddHead(s: Deadline, cfg: Config, now: nat, x: Id, d': Dir, pos: nat, sectors: nat, d: Dir, y: Id)
    requires Inv(s, cfg, now) && x !in s.info && Head(s, d, y) && s.info[y].dir == d
    ensures KeepsHead(s, Add(s, cfg, x, d', pos, sectors, now), d, y)
  {
    hide Core, Timely, ClearAlias, InsertByPos, NoDup;
    var rq := Info(d', pos, sectors, now + cfg.Expire(d'));
    FreshInfo(s, cfg, now, x, rq);
    var s1 := s.(nrSorted := s.nrSorted + 1, info := s.info[x := rq]);
    assert s1.Get(d) == s.Get(d);
    ClearAliasHead(s1, x, {}, 1, d, y);
  }

  lemma FrontMergeHead(s: Deadline, cfg: Config, now: nat, x: Id, pos: nat, sectors: nat, d: Dir, y: Id)
    requires Inv(s, cfg, now) && InSort(s, x) && Head(s, d, y) && s.info[y].dir == d
    ensures KeepsHead(s, FrontMerge(s, x, pos, sectors), d, y)
  {
    hide Core, Timely, ClearAlias, InsertByPos, Del, NoDup;
    var rq := s.info[x].(pos := pos, sectors := sectors);
    LiftOut(s, cfg, now, x, rq);
    var s1 := s.(info := s.info[x := rq]);
    var s2 := s1.Set(rq.dir, s1.Get(rq.dir).(sort := Del(s1.Get(rq.dir).sort, x)));
    assert s2.Get(d).fifo == s.Get(d).fifo;
    ClearAliasHead(s2, x, {x}, 1, d, y);
  }

  /** Merging moves a request forward to the place of the one that goes, but never past the head. */
  lemma MergeHead(s: Deadline, x: Id, z: Id, d: Dir, y: Id)
    requires Core(s, {}, 0) && InSort(s, x) && InSort(s, z) && x != z && s.info[x].dir == s.info[z].dir
    requires Head(s, d, y) && s.info[y].dir == d
    ensures KeepsHead(s, MergeRequests(s, x, z), d, y)
  {
    var fifo := s.Get(d).fifo;
    HeadLeast(s, d, z);
    hide Core, NoDup, Latter;
    if z == y {
      MergeGone(s, x, z);
    } else if s.info[x].dir == d {
      DelHead(fifo, z);
      if s.info[z].expire < s.info[x].expire {
        assert x != y;
        DelHead(fifo, x);
        DelHead(MoveBehind(fifo, x, z), z);
      }
    }
  }

  lemma HeadLeast(s: Deadline, d: Dir, z: Id)
    requires Core(s, {}, 0) && s.Get(d).fifo != [] && InSort(s, z)
    ensures s.info[z].dir == d ==> s.Get(d).fifo[0] in s.info && s.info[s.Get(d).fifo[0]].expire <= s.info[z].expire
  {
    SidePart(s, Read);
    SidePart(s, Write);
    hide NoDup, ByPos, OutOf;
    if s.info[z].dir == d {
      var i :| 0 <= i < |s.Get(d).fifo| && s.Get(d).fifo[i] == z;
      assert s.Get(d).fifo[0] in s.Get(d).fifo;
    }
  }

  lemma MergeGone(s: Deadline, x: Id, z: Id)
    requires Core(s, {}, 0) && InSort(s, x) && InSort(s, z) && x != z && s.info[x].dir == s.info[z].dir
    ensures z !in MergeRequests(s, x, z).Get(s.info[z].dir).fifo
  {
    hide Core, Remove, MoveBehind;
    MergeSide(s, x, z);
  }

  lemma DispatchHead(s: Deadline, cfg: Config, now: nat, d: Dir, y: Id)
    requires Inv(s, cfg, now) && Head(s, d, y) && s.info[y].dir == d
    ensures forall e: Dir :: s.Get(e).fifo != [] ==> s.Get(e).fifo[0] in s.info
    ensures KeepsHead(s, Dispatch(s, cfg, now), d, y)
    ensures Selected(s, cfg, now) == Some(y) ==> y !in Dispatch(s, cfg, now).Get(d).fifo
  {
    hide Core, Move, NoDup;
    SelectedQueued(s, cfg, now);
    var x := Selected(s, cfg, now);
    if x.Some? {
      assert Counted(s, cfg).Get(d) == s.Get(d);
      MoveHead(Counted(s, cfg), x.value, d, y);
    }
  }

  lemma HeadIs(t: System, cfg: Config, d: Dir, y: Id)
    requires Ok(t, cfg) && LateHead(t, d, y)
    ensures Head(t.s, d, y) && t.s.info[y].dir == d
  {
    hide ByPos, ByExpiry;
    assert t.s.Get(d).fifo[0] in t.s.Get(d).fifo;
  }

  /** While it is queued, the oldest request stays the oldest, and late. */
  lemma StaysLate(t: System, cfg: Config, a: Action, d: Dir, y: Id)
    requires Ok(t, cfg) && LateHead(t, d, y) && y in Step(t, cfg, a).s.Get(d).fifo
    ensures LateHead(Step(t, cfg, a), d, y)
  {
    HeadIs(t, cfg, d, y);
    hide Core, Timely, Add, FrontMerge, MergeRequests, Dispatch, NoDup;
    if Enabled(t, a) {
      match a
      case AddRq(x, d', pos, sectors) => AddHead(t.s, cfg, t.now, x, d', pos, sectors, d, y);
      case Grow(x, sectors) =>
      case Reposition(x, pos, sectors) => FrontMergeHead(t.s, cfg, t.now, x, pos, sectors, d, y);
      case Merge(x, z) => MergeHead(t.s, x, z, d, y);
      case DispatchRq => DispatchHead(t.s, cfg, t.now, d, y);
      case Wait(_) =>
    }
  }

  lemma PatienceSame(s: Deadline, s': Deadline, cfg: Config, d: Dir)
    requires s.batching == s'.batching && s.starved == s'.starved
    ensures Patience(s, cfg, d) == Patience(s', cfg, d)
  {}

  lemma PatienceSpent(s: Deadline, s': Deadline, cfg: Config, d: Dir)
    requires || (s.batching < cfg.fifoBatch && s'.batching == s.batching + 1 && s'.starved == s.starved)
             || (d == Write && s.starved < cfg.writesStarved && s'.batching == 1 && s'.starved == s.starved + 1)
             || (d == Read && s.starved >= cfg.writesStarved > 0 && s'.batching == 1 && s'.starved == 0)
    ensures Patience(s', cfg, d) < Patience(s, cfg, d)
  {
    if d == Write {
      hide Credit;
      CreditSpent(s, s', cfg);
    }
  }

  /** A dispatch that leaves an expired oldest request behind, of whichever direction, uses up patience. */
  lemma LateCosts(t: System, cfg: Config, d: Dir, y: Id)
    requires Ok(t, cfg) && LateHead(t, d, y) && y in Step(t, cfg, DispatchRq).s.Get(d).fifo
    requires d == Read ==> cfg.writesStarved > 0
    ensures Patience(Step(t, cfg, DispatchRq).s, cfg, d) < Patience(t.s, cfg, d)
  {
    HeadIs(t, cfg, d, y);
    hide Core, NoDup, Move, Patience;
    var s := t.s;
    SelectedQueued(s, cfg, t.now);
    DispatchHead(s, cfg, t.now, d, y);
    PatienceSpent(s, Counted(s, cfg), cfg, d);
    assert Step(t, cfg, DispatchRq).s == Move(Counted(s, cfg), Selected(s, cfg, t.now).value);
    PatienceSame(Counted(s, cfg), Step(t, cfg, DispatchRq).s, cfg, d);
  }

  lemma OthersPatient(t: System, cfg: Config, a: Action, d: Dir)
    requires Ok(t, cfg) && !a.DispatchRq?
    ensures Patience(Step(t, cfg, a).s, cfg, d) == Patience(t.s, cfg, d)
  {
    hide Core, Timely, InsertByPos, Latter, Del, MoveBehind, Patience;
    PatienceSame(t.s, Step(t, cfg, a).s, cfg, d);
  }

  lemma {:induction false} LateWithin(t: System, cfg: Config, acts: seq<Action>, d: Dir, y: Id)
    requires Ok(t, cfg) && LateHead(t, d, y) && StaysQueued(t, cfg, acts, d, y) && (d == Read ==> cfg.writesStarved > 0)
    ensures Dispatches(acts) <= Patience(t.s, cfg, d)
    decreases |acts|
  {
    if acts != [] {
      hide Ok, Step, Patience, LateHead;
      StepOk(t, cfg, acts[0]);
      var t' := Step(t, cfg, acts[0]);
      assert y in t'.s.Get(d).fifo;
      StaysLate(t, cfg, acts[0], d, y);
      LateWithin(t', cfg, acts[1..], d, y);
      if acts[0].DispatchRq? {
        LateCosts(t, cfg, d, y);
      } else {
        OthersPatient(t, cfg, acts[0], d);
      }
    }
  }

  /**
   The oldest request of a direction, once expired, is passed over by a bounded number of
   dispatches, reads and writes together, whatever else happens in between.
   */
  lemma ExpiredServed(t: System, cfg: Config, acts: seq<Action>, d: Dir, y: Id)
    requires Ok(t, cfg) && LateHead(t, d, y) && StaysQueued(t, cfg, acts, d, y) && (d == Read ==> cfg.writesStarved > 0)
    ensures Dispatches(acts) <= (if d == Write then cfg.writesStarved + 1 else 2) * Max(1, cfg.fifoBatch)
  {
    hide Ok, LateHead, StaysQueued, Credit;
    LateWithin(t, cfg, acts, d, y);
    CreditBound(t.s, cfg);
  }

  // ---------------------------------------------------------------- writes_starved of zero

  function Repeat(n: nat): (acts: seq<Action>)
    ensures |acts| == n && Dispatches(acts) == n
  {
    if n == 0 then [] else [DispatchRq] + Repeat(n - 1)
  }

  /** No read batch goes on. */
  predicate NoReadBatch(s: Deadline, cfg: Config) {
    s.read.next.None? || s.batching >= cfg.fifoBatch
  }

  /** With writes_starved 0, a dispatch passes over all reads for one of the queued writes. */
  lemma WritesFirst(t: System, cfg: Config)
    requires Ok(t, cfg) && cfg.writesStarved == 0 && t.s.read.fifo != [] && t.s.write.fifo != [] && NoReadBatch(t.s, cfg)
    ensures var s' := Step(t, cfg, DispatchRq).s;
            && s'.read.fifo == t.s.read.fifo && NoReadBatch(s', cfg) && |s'.write.fifo| == |t.s.write.fifo| - 1
  {
    var s := t.s;
    SelectedQueued(s, cfg, t.now);
    SidePart(s, Write);
    var x := Selected(s, cfg, t.now).value;
    assert x in s.write.fifo && s.info[x].dir == Write by {
      hide NoDup, ByPos, ByExpiry, OutOf;
      assert s.write.fifo[0] in s.write.fifo;
    }
    DelKeeps(s.info, s.write.fifo, x);
    hide Core, NoDup, Latter, Del, OutOf;
    assert Step(t, cfg, DispatchRq).s == Move(Counted(s, cfg), x);
  }

  lemma {:induction false} PassedOver(t: System, cfg: Config, n: nat, y: Id)
    requires Ok(t, cfg) && cfg.writesStarved == 0 && y in t.s.read.fifo && n <= |t.s.write.fifo| && NoReadBatch(t.s, cfg)
    ensures StaysQueued(t, cfg, Repeat(n), Read, y)
    decreases n
  {
    hide Ok, Step, NoReadBatch;
    if n > 0 {
      StepOk(t, cfg, DispatchRq);
      WritesFirst(t, cfg);
      PassedOver(Step(t, cfg, DispatchRq), cfg, n - 1, y);
      assert Repeat(n)[0] == DispatchRq && Repeat(n)[1..] == Repeat(n - 1);
    }
  }

  // ---------------------------------------------------------------- a crowd of writes

  /** The scheduler after a run from its start. */
  ghost function Reached(cfg: Config, acts: seq<Action>): (t: System)
    ensures Ok(t, cfg)
  {
    StartOk(cfg, 0);
    Run(Start(0), cfg, acts)
  }

  lemma {:induction false} RunAppend(t: System, cfg: Config, acts: seq<Action>, a: Action)
    requires Ok(t, cfg)
    ensures Run(t, cfg, acts + [a]) == Step(Run(t, cfg, acts), cfg, a)
    decreases |acts|
  {
    hide Ok, Step;
    if acts == [] {
      StepOk(t, cfg, a);
      assert [a][1..] == [];
    } else {
      StepOk(t, cfg, acts[0]);
      RunAppend(Step(t, cfg, acts[0]), cfg, acts[1..], a);
      assert (acts + [a])[1..] == acts[1..] + [a];
    }
  }

  function Ids(n: nat): seq<Id> {
    if n == 0 then [] else Ids(n - 1) + [n - 1]
  }

  /** n writes at sectors 0 to n - 1, queued at time 0. */
  function Crowd(n: nat, expire: nat): (s: Deadline)
    ensures s.nrSorted == n && s.write.sort == s.write.fifo == Ids(n) && s.read == Side([], [], None)
    ensures s.write.next.None? && s.dispatched == [] && s.batching == s.starved == 0
  {
    if n == 0 then Init()
    else
      var s := Crowd(n - 1, expire);
      s.(info := s.info[n - 1 := Info(Write, n - 1, 1, expire)], write := Side(Ids(n), Ids(n), None), nrSorted := n)
  }

  lemma {:induction false} CrowdIs(n: nat, expire: nat)
    ensures |Ids(n)| == n && forall i :: 0 <= i < n ==> Ids(n)[i] == i
    ensures forall x: Id :: x in Crowd(n, expire).info <==> x < n
    ensures forall x: Id :: x < n ==> Crowd(n, expire).info[x] == Info(Write, x, 1, expire)
  {
    if n > 0 {
      CrowdIs(n - 1, expire);
    }
  }

  /** One more write behind all others. */
  lemma CrowdGrows(n: nat, cfg: Config)
    ensures Add(Crowd(n, cfg.writeExpire), cfg, n, Write, n, 1, 0) == Crowd(n + 1, cfg.writeExpire)
  {
    var s, rq := Crowd(n, cfg.writeExpire), Info(Write, n, 1, cfg.writeExpire);
    CrowdIs(n, cfg.writeExpire);
    var info := s.info[n := rq];
    assert forall i :: 0 <= i < |Ids(n)| ==> info[Ids(n)[i]].pos == i;
    Unaliased(info, Ids(n), n);
    InsertAt(info, Ids(n), n, n);
    assert Ids(n)[..n] + [n] + Ids(n)[n..] == Ids(n + 1);
  }

  function CrowdRun(n: nat): seq<Action> {
    if n == 0 then [] else CrowdRun(n - 1) + [AddRq(n - 1, Write, n - 1, 1)]
  }

  lemma {:induction false} CrowdReached(cfg: Config, n: nat)
    ensures Reached(cfg, CrowdRun(n)) == System(Crowd(n, cfg.writeExpire), 0, {})
  {
    StartOk(cfg, 0);
    if n > 0 {
      CrowdReached(cfg, n - 1);
      hide Ok, Add;
      RunAppend(Start(0), cfg, CrowdRun(n - 1), AddRq(n - 1, Write, n - 1, 1));
      CrowdIs(n - 1, cfg.writeExpire);
      CrowdGrows(n - 1, cfg);
    }
  }

  /** A read comes to n writes, and waits until it has expired. */
  function CrowdedRead(cfg: Config, n: nat): seq<Action> {
    CrowdRun(n) + [AddRq(n, Read, 0, 1)] + [Wait(cfg.readExpire + 1)]
  }

  lemma CrowdedReached(cfg: Config, n: nat)
    ensures var t := Reached(cfg, CrowdedRead(cfg, n));
            LateHead(t, Read, n) && n in t.s.read.fifo && |t.s.write.fifo| == n && NoReadBatch(t.s, cfg)
  {
    hide Ok, Run, Add;
    StartOk(cfg, 0);
    CrowdReached(cfg, n);
    RunAppend(Start(0), cfg, CrowdRun(n), AddRq(n, Read, 0, 1));
    RunAppend(Start(0), cfg, CrowdRun(n) + [AddRq(n, Read, 0, 1)], Wait(cfg.readExpire + 1));
    CrowdIs(n, cfg.writeExpire);
    ReadJoins(cfg, n);
  }

  lemma ReadJoins(cfg: Config, n: nat)
    ensures var s := Add(Crowd(n, cfg.writeExpire), cfg, n, Read, 0, 1, 0);
            && s.read.fifo == [n] && s.read.next.None? && s.write.fifo == Ids(n)
            && n in s.info && s.info[n].expire == cfg.readExpire
  {
    hide Crowd, Ids;
  }

  /** In no run is an expired read at the head of its fifo passed over by more than b dispatches. */
  ghost predicate ReadsServedWithin(cfg: Config, b: nat) {
    forall before, acts, y ::
      LateHead(Reached(cfg, before), Read, y) && StaysQueued(Reached(cfg, before), cfg, acts, Read, y) ==> Dispatches(acts) <= b
  }

  /** There is a bound for reads exactly if writes_starved is not zero. */
  lemma ReadsServedIff(cfg: Config)
    ensures (exists b :: ReadsServedWithin(cfg, b)) <==> cfg.writesStarved > 0
  {
    hide Ok, LateHead, StaysQueued, Reached, NoReadBatch;
    if cfg.writesStarved > 0 {
      forall before, acts, y | LateHead(Reached(cfg, before), Read, y) && StaysQueued(Reached(cfg, before), cfg, acts, Read, y)
        ensures Dispatches(acts) <= 2 * Max(1, cfg.fifoBatch)
      {
        ExpiredServed(Reached(cfg, before), cfg, acts, Read, y);
      }
      assert ReadsServedWithin(cfg, 2 * Max(1, cfg.fifoBatch));
    } else {
      forall b: nat ensures !ReadsServedWithin(cfg, b) {
        CrowdedReached(cfg, b + 1);
        PassedOver(Reached(cfg, CrowdedRead(cfg, b + 1)), cfg, b + 1, b + 1);
        assert Dispatches(Repeat(b + 1)) > b;
      }
    }
  }
}
