/** The deadline scheduler as it works in place. */
module DeadlineQueues {
  import opened Collections
  import opened DeadlineSpec
  import opened DeadlineProof
  import opened DeadlineRuns

  class DeadlineQueue {
    const cfg: Config
    var info: map<Id, Info>
    var read: Side
    var write: Side
    var batching: nat
    var starved: nat
    var lastSector: nat
    var nrSorted: int
    var dispatched: seq<Id>
    var endSector: nat
    var boundary: Option<Id>

    function Model(): Deadline
      reads this
    {
      Deadline(info, read, write, batching, starved, lastSector, nrSorted, dispatched, endSector, boundary)
    }

    constructor (cfg: Config)
      ensures this.cfg == cfg && Model() == Init() && forall now: nat :: Inv(Model(), cfg, now)
    {
      this.cfg := cfg;
      info, nrSorted, dispatched := map[], 0, [];
      read, write := Side([], [], None), Side([], [], None);
      batching, starved, lastSector, endSector, boundary := 0, 0, 0, 0, None;
    }

    function Lists(d: Dir): (side: Side)
      reads this
      ensures side == Model().Get(d)
    {
      if d == Read then read else write
    }

    method SetSide(d: Dir, side: Side)
      modifies this`read, this`write
      ensures Model() == old(Model()).Set(d, side)
    {
      if d == Read {
        read := side;
      } else {
        write := side;
      }
    }

    /** elv_rb_add: links x into the index of its direction, or finds the request at the same sector. */
    method RbAdd(x: Id) returns (alias: Option<Id>)
      requires x in info && ByPos(info, Model().Get(info[x].dir).sort)
      requires forall y :: y in Model().Get(info[x].dir).sort ==> y in info
      modifies this`read, this`write
      ensures var d, s := info[x].dir, old(Model());
              && alias == Alias(s.info, s.Get(d).sort, s.info[x].pos)
              && Model() == if alias.Some? then s else s.Set(d, s.Get(d).(sort := InsertByPos(s.info, s.Get(d).sort, x)))
    {
      var d := info[x].dir;
      var sort := Lists(d).sort;
      var lo, hi := 0, |sort|;
      while lo < hi
        invariant 0 <= lo <= hi <= |sort|
        invariant forall i :: 0 <= i < lo ==> info[sort[i]].pos < info[x].pos
        invariant forall i :: hi <= i < |sort| ==> info[x].pos < info[sort[i]].pos
      {
        var mid := (lo + hi) / 2;
        assert sort[mid] in sort;
        if info[x].pos < info[sort[mid]].pos {
          hi := mid;
        } else if info[x].pos > info[sort[mid]].pos {
          lo := mid + 1;
        } else {
          AliasIs(info, sort, info[x].pos, mid);
          return Some(sort[mid]);
        }
      }
      InsertAt(info, sort, x, lo);
      NoAliasAt(info, sort, x, lo);
      SetSide(d, Lists(d).(sort := sort[..lo] + [x] + sort[lo..]));
      alias := None;
    }

    /** deadline_remove_request. */
    method RemoveRequest(x: Id)
      requires x in info
      modifies this`read, this`write
      ensures Model() == old(Model()).Set(info[x].dir, Remove(old(Model()).Get(info[x].dir), x))
    {
      var d := info[x].dir;
      SetSide(d, Lists(d).(fifo := Del(Lists(d).fifo, x)));
      if Lists(d).next == Some(x) {
        SetSide(d, Lists(d).(next := Latter(Lists(d).sort, x)));
      }
      SetSide(d, Lists(d).(sort := Del(Lists(d).sort, x)));
    }

    /** deadline_move_request, with elv_dispatch_add_tail. */
    method MoveRequest(x: Id)
      requires x in info
      modifies this
      ensures Model() == Move(old(Model()), x)
    {
      var d := info[x].dir;
      read := read.(next := None);
      write := write.(next := None);
      SetSide(d, Lists(d).(next := Latter(Lists(d).sort, x)));
      lastSector := info[x].pos + info[x].sectors;
      RemoveRequest(x);
      nrSorted := nrSorted - 1;
      endSector := info[x].pos + info[x].sectors;
      boundary := Some(x);
      dispatched := dispatched + [x];
    }

    /** deadline_add_rq_rb: the loop goes round at most once more after a request in the way. */
    method AddRqRb(x: Id, ghost out: set<Id>)
      requires Core(Model(), out, 1) && x in info && x !in Lists(info[x].dir).sort
      modifies this
      ensures Model() == AddToSort(old(Model()), x)
    {
      SortFacts(Model(), out, info[x].dir);
      var alias := RbAdd(x);
      while alias.Some?
        invariant alias.Some? ==> Model() == old(Model()) && alias == Alias(info, Lists(info[x].dir).sort, info[x].pos)
        invariant alias.None? ==> Model() == AddToSort(old(Model()), x)
        invariant x in info
        decreases alias.Some?
      {
        hide Core;
        AliasQueued(Model(), x, out);
        ClearAliasCore(Model(), x, out, 1);
        MoveRequest(alias.value);
        SortFacts(Model(), out, info[x].dir);
        Unaliased(info, Lists(info[x].dir).sort, info[x].pos);
        alias := RbAdd(x);
      }
    }

    /** deadline_add_request, after the nr_sorted++ of its caller. */
    method AddRequest(x: Id, d: Dir, pos: nat, sectors: nat, now: nat)
      requires Inv(Model(), cfg, now) && x !in info
      modifies this
      ensures Model() == Add(old(Model()), cfg, x, d, pos, sectors, now) && Inv(Model(), cfg, now)
    {
      hide Core, Timely, ClearAlias, InsertByPos;
      var rq := Info(d, pos, sectors, now + cfg.Expire(d));
      FreshInfo(Model(), cfg, now, x, rq);
      AddInv(Model(), cfg, now, x, d, pos, sectors);
      nrSorted := nrSorted + 1;
      info := info[x := rq];
      assert Lists(d) == old(Model()).Get(d);
      AddRqRb(x, {});
      SetSide(d, Lists(d).(fifo := Lists(d).fifo + [x]));
    }

    /** deadline_merged_request for a front merge. */
    method MergedRequest(x: Id, pos: nat, sectors: nat, now: nat)
      requires Inv(Model(), cfg, now) && InSort(Model(), x)
      modifies this
      ensures Model() == FrontMerge(old(Model()), x, pos, sectors) && Inv(Model(), cfg, now)
    {
      var d := info[x].dir;
      var rq := info[x].(pos := pos, sectors := sectors);
      LiftOut(Model(), cfg, now, x, rq);
      FrontMergeInv(Model(), cfg, now, x, pos, sectors);
      hide Core, Timely, ClearAlias, InsertByPos, Del;
      info := info[x := rq];
      SetSide(d, Lists(d).(sort := Del(Lists(d).sort, x)));
      AddRqRb(x, {x});
    }

    /** deadline_merged_requests and the nr_sorted-- of elv_merge_requests. */
    method MergedRequests(x: Id, y: Id, now: nat)
      requires Inv(Model(), cfg, now) && InSort(Model(), x) && InSort(Model(), y) && x != y && info[x].dir == info[y].dir
      modifies this
      ensures Model() == MergeRequests(old(Model()), x, y) && Inv(Model(), cfg, now)
    {
      hide Core, Timely, MoveBehind, Remove;
      MergeRequestsInv(Model(), cfg, now, x, y);
      var d, rq := info[x].dir, info[x].(sectors := info[x].sectors + info[y].sectors);
      if info[y].expire < info[x].expire {
        SetSide(d, Lists(d).(fifo := MoveBehind(Lists(d).fifo, x, y)));
        rq := rq.(expire := info[y].expire);
      }
      info := info[x := rq];
      RemoveRequest(y);
      nrSorted := nrSorted - 1;
    }

    /** The part of deadline_dispatch_requests that decides: go on with the batch or start one. */
    method SelectRequest(now: nat) returns (rq: Option<Id>)
      requires Inv(Model(), cfg, now)
      modifies this`batching, this`starved
      ensures Model() == Counted(old(Model()), cfg)
      ensures forall d: Dir :: old(Model()).Get(d).fifo != [] ==> old(Model()).Get(d).fifo[0] in info
      ensures rq == Selected(old(Model()), cfg, now)
    {
      hide Core, Timely;
      SelectedQueued(Model(), cfg, now);
      BothIndexes(Model());
      var anyReads, anyWrites := read.fifo != [], write.fifo != [];
      rq := if write.next.Some? then write.next else read.next;
      if !(rq.Some? && batching < cfg.fifoBatch) {
        var d: Dir;
        if anyReads {
          assert read.sort != [];
          if anyWrites && starved >= cfg.writesStarved {
            starved, d := 0, Write;
          } else {
            starved, d := if anyWrites then starved + 1 else starved, Read;
          }
        } else if anyWrites {
          assert write.sort != [];
          starved, d := 0, Write;
        } else {
          return None;
        }
        if now > info[Lists(d).fifo[0]].expire || Lists(d).next.None? {
          rq := Some(Lists(d).fifo[0]);
        } else {
          rq := Lists(d).next;
        }
        batching := 0;
      }
      batching := batching + 1;
    }

    /** deadline_dispatch_requests: the request it moved, if there was one. */
    method DispatchRequests(now: nat) returns (sent: Option<Id>)
      requires Inv(Model(), cfg, now)
      modifies this
      ensures forall d: Dir :: old(Model()).Get(d).fifo != [] ==> old(Model()).Get(d).fifo[0] in old(info)
      ensures Model() == Dispatch(old(Model()), cfg, now) && Inv(Model(), cfg, now)
      ensures sent == Selected(old(Model()), cfg, now)
    {
      hide Core, Timely, Move, FirstOf;
      SelectedQueued(Model(), cfg, now);
      DispatchInv(Model(), cfg, now);
      sent := SelectRequest(now);
      if sent.Some? {
        MoveRequest(sent.value);
      }
    }

    /** elv_drain_elevator: all that was queued is dispatched, once each, and nothing is left. */
    method Drain(now: nat)
      requires Inv(Model(), cfg, now)
      modifies this
      ensures Inv(Model(), cfg, now) && nrSorted == 0
      ensures read.sort == [] && read.fifo == [] && write.sort == [] && write.fifo == []
      ensures old(dispatched) <= dispatched && NoDup(dispatched)
      ensures forall x :: x in dispatched <==> old(Held(Model(), x))
    {
      hide Core, Timely, Held, Dispatch, Selected;
      assert forall x :: Held(Model(), x) <==> old(Held(Model(), x));
      DispatchShrinks(Model(), cfg, now);
      DispatchHeld(Model(), cfg, now);
      var sent := DispatchRequests(now);
      while sent.Some?
        invariant Inv(Model(), cfg, now) && old(dispatched) <= dispatched
        invariant forall x :: Held(Model(), x) <==> old(Held(Model(), x))
        invariant sent.None? ==> nrSorted == 0 && read.sort == [] && read.fifo == [] && write.sort == [] && write.fifo == []
        decreases sent.Some?, nrSorted
      {
        DispatchShrinks(Model(), cfg, now);
        DispatchHeld(Model(), cfg, now);
        sent := DispatchRequests(now);
      }
      DrainedHeld(Model());
    }
  }

  lemma DrainedHeld(s: Deadline)
    requires Core(s, {}, 0) && s.read.fifo == [] && s.write.fifo == []
    ensures NoDup(s.dispatched) && forall x :: x in s.dispatched <==> Held(s, x)
  {}

  /** The indexes are empty together. */
  lemma BothIndexes(s: Deadline)
    requires Core(s, {}, 0)
    ensures s.read.fifo == [] <==> s.read.sort == []
    ensures s.write.fifo == [] <==> s.write.sort == []
  {
    SidePart(s, Read);
    SidePart(s, Write);
    hide NoDup, ByPos, ByExpiry, OutOf;
    assert s.read.fifo != [] ==> s.read.fifo[0] in s.read.fifo;
    assert s.read.sort != [] ==> s.read.sort[0] in s.read.sort;
    assert s.write.fifo != [] ==> s.write.fifo[0] in s.write.fifo;
    assert s.write.sort != [] ==> s.write.sort[0] in s.write.sort;
  }

  lemma {:induction false} AliasIs(info: map<Id, Info>, sort: seq<Id>, pos: nat, k: nat)
    requires k < |sort| && sort[k] in info && info[sort[k]].pos == pos && ByPos(info, sort)
    ensures Alias(info, sort, pos) == Some(sort[k])
  {
    if k > 0 {
      AliasIs(info, sort[1..], pos, k - 1);
    }
  }

  lemma NoAliasAt(info: map<Id, Info>, sort: seq<Id>, x: Id, k: nat)
    requires x in info && k <= |sort| && forall i :: 0 <= i < |sort| ==> sort[i] in info
    requires forall i :: 0 <= i < k ==> info[sort[i]].pos < info[x].pos
    requires forall i :: k <= i < |sort| ==> info[x].pos < info[sort[i]].pos
    ensures Alias(info, sort, info[x].pos).None?
  {}

  lemma SortFacts(s: Deadline, out: set<Id>, d: Dir)
    requires Core(s, out, 1)
    ensures ByPos(s.info, s.Get(d).sort) && forall y :: y in s.Get(d).sort ==> y in s.info
  {}

  lemma AliasQueued(s: Deadline, x: Id, out: set<Id>)
    requires Core(s, out, 1) && x in s.info
    ensures var a := Alias(s.info, s.Get(s.info[x].dir).sort, s.info[x].pos); a.Some? ==> a.value in s.info
  {}
}
