/**
 The FLUSH/FUA sequencer as the program has it: a queue whose lists, indices and masks are
 updated in place.  Every method is proved to do what the state machine of FlushSpec does, so
 all that is proved about its runs holds of sequences of calls; the BUG_ONs are assertions.
 */
module FlushQueues {
  import opened Collections
  import opened FlushSpec
  import opened FlushProof

  /** What the program keeps of a sequenced request: flush.seq, and the state of its bio. */
  datatype Active = Active(done: Mask, io: Io)

  /** What is remembered of it for the sake of the proofs. */
  datatype Stamp = Stamp(want: Mask, insertedAt: nat, dataAt: nat)

  ghost function Joined(active: map<Rq, Active>, stamps: map<Rq, Stamp>): (reqs: map<Rq, Req>)
    ensures reqs.Keys == active.Keys
  {
    map r | r in active ::
      var st := if r in stamps then stamps[r] else Stamp(Mask(false, false, false), 0, 0);
      Req(st.want, active[r].done, active[r].io, st.insertedAt, st.dataAt)
  }

  lemma JoinedKeep(active: map<Rq, Active>, stamps: map<Rq, Stamp>, r: Rq, a: Active)
    requires r in active
    ensures Joined(active[r := a], stamps) == Joined(active, stamps)[r := Joined(active, stamps)[r].(done := a.done, io := a.io)]
  {}

  lemma JoinedSet(active: map<Rq, Active>, stamps: map<Rq, Stamp>, r: Rq, a: Active, st: Stamp)
    ensures Joined(active[r := a], stamps[r := st]) == Joined(active, stamps)[r := Req(st.want, a.done, a.io, st.insertedAt, st.dataAt)]
  {}

  lemma JoinedAt(active: map<Rq, Active>, stamps: map<Rq, Stamp>, r: Rq)
    requires r in active
    ensures Joined(active, stamps)[r].done == active[r].done && Joined(active, stamps)[r].io == active[r].io
  {}

  lemma JoinedRemove(active: map<Rq, Active>, stamps: map<Rq, Stamp>, r: Rq)
    ensures Joined(active - {r}, stamps) == Joined(active, stamps) - {r}
  {}

  class FlushQueue {
    var active: map<Rq, Active>
    var list0: seq<Rq>          // flush_queue[0]
    var list1: seq<Rq>          // flush_queue[1]
    var pending: bool           // flush_pending_idx
    var running: bool           // flush_running_idx
    var inFlight: seq<Rq>       // flush_data_in_flight
    var head: seq<Item>         // queue_head
    var pendingSince: nat
    ghost var stamps: map<Rq, Stamp>
    ghost var device: set<Item>
    ghost var issuedAt: nat
    ghost var trace: seq<Event>
    ghost var finished: map<Rq, Io>

    ghost function Model(): Queue
      reads this
    {
      Queue(Joined(active, stamps), list0, list1, pending, running, inFlight, head, device, pendingSince, issuedAt, trace, finished)
    }

    function List(idx: bool): seq<Rq>
      reads this
    {
      if idx then list1 else list0
    }

    constructor ()
      ensures Model() == Init() && Inv(Model())
    {
      active, list0, list1, inFlight, head := map[], [], [], [], [];
      pending, running, pendingSince := false, false, 0;
      stamps, device, issuedAt, trace, finished := map[], {}, 0, [], map[];
    }

    /** blk_kick_flush; true if a flush was issued. */
    method KickFlush(now: nat) returns (issued: bool)
      modifies this
      ensures Model() == Kick(old(Model()), now)
      ensures issued <==> |head| > |old(head)|
      ensures |head| >= |old(head)|
    {
      if pending != running || List(pending) == [] {
        return false;
      }
      if inFlight != [] && now < pendingSince + FLUSH_PENDING_TIMEOUT {
        return false;
      }
      issuedAt, trace := |trace|, trace + [Issued];
      pending := !pending;
      head := head + [FlushItem];
      return true;
    }

    /** list_del of a request from whichever list it is on. */
    method Delist(r: Rq)
      modifies this`list0, this`list1, this`inFlight
      ensures list0 == Del(old(list0), r) && list1 == Del(old(list1), r) && inFlight == Del(old(inFlight), r)
    {
      list0, list1, inFlight := Del(list0, r), Del(list1, r), Del(inFlight, r);
    }

    /** list_add_tail to the list that collects requests for the next flush. */
    method AddPending(r: Rq)
      modifies this`list0, this`list1
      ensures Model() == old(Model()).SetList(pending, old(Model()).List(pending) + [r])
    {
      if pending {
        list1 := list1 + [r];
      } else {
        list0 := list0 + [r];
      }
    }

    /** REQ_FSEQ_DATA: to the head of the dispatch queue. */
    method QueueData(r: Rq)
      modifies this`inFlight, this`head, this`trace
      ensures Model() == old(Model()).(inFlight := old(inFlight) + [r], head := [DataItem(r)] + old(head)).Log(DataQueued(r))
    {
      inFlight := inFlight + [r];
      head := [DataItem(r)] + head;
      trace := trace + [DataQueued(r)];
    }

    /** REQ_FSEQ_DONE: the request is restored and ended. */
    method EndRequest(r: Rq, ok: bool)
      requires r in active
      modifies this`active, this`finished, this`trace
      ensures var q, io := old(Model()), EndRestored(old(active[r].io), ok);
              Model() == q.(reqs := q.reqs - {r}, finished := q.finished[r := io]).Log(Ended(r, io.uptodate))
    {
      hide EndRestored, Joined;
      ghost var io := EndRestored(active[r].io, ok);
      JoinedRemove(active, stamps, r);
      active := active - {r};
      finished, trace := finished[r := io], trace + [Ended(r, io.uptodate)];
    }

    /** The switch of blk_flush_complete_seq; true if data was added to the dispatch queue. */
    method Dispatch(r: Rq, ok: bool, now: nat) returns (queued: bool)
      requires r in active && DataItem(r) !in head
      modifies this
      ensures Model() == Advance(old(Model()), r, ok, now)
      ensures queued <==> |head| > |old(head)|
      ensures |head| >= |old(head)|
    {
      hide Del, EndRestored, Joined;
      JoinedAt(active, stamps, r);
      queued := false;
      var wasEmpty := List(pending) == [];
      Delist(r);
      match if ok then CurSeq(active[r].done) else Done {
        case PreFlush | PostFlush =>
          if wasEmpty {
            pendingSince := now;
          }
          AddPending(r);
        case Data =>
          QueueData(r);
          queued := true;
        case Done =>
          EndRequest(r, ok);
      }
    }

    /** blk_flush_complete_seq; true if requests were added to the dispatch queue. */
    method CompleteSeq(r: Rq, m: Mask, ok: bool, now: nat) returns (queued: bool)
      requires r in active
      requires active[r].done.Disjoint(m) // BUG_ON(rq->flush.seq & seq)
      requires DataItem(r) !in head     // BUG_ON(!list_empty(&rq->queuelist))
      modifies this
      ensures Model() == FlushSpec.CompleteSeq(old(Model()), r, m, ok, now)
      ensures queued <==> |head| > |old(head)|
      ensures |head| >= |old(head)|
    {
      hide Advance, Kick, Joined;
      JoinedAt(active, stamps, r);
      JoinedKeep(active, stamps, r, active[r].(done := active[r].done.Union(m)));
      active := active[r := active[r].(done := active[r].done.Union(m))];
      var data := Dispatch(r, ok, now);
      var issued := KickFlush(now);
      queued := issued || data;
    }

    /**
     flush_end_io; true if the queue has to be run because requests were added to it.  A kick
     during the walk can make the walked list the pending one again.
     */
    method FlushEndIo(ok: bool, now: nat) returns (queued: bool)
      requires Inv(Model()) && FlushItem in device
      modifies this
      ensures Model() == FlushEnd(old(Model()), ok, now) && Inv(Model())
      ensures queued <==> |head| > |old(head)|
    {
      hide Inv, Core, FlushSpec.CompleteSeq;
      FlushEndInv(Model(), ok, now);
      FlushEndWalking(Model(), ok);
      assert pending != running; // BUG_ON
      var idx := running;
      running := !running;
      device, trace := device - {FlushItem}, trace + [FlushDone(ok)];
      queued := false;
      var rest := List(idx);
      while rest != []
        invariant Core(Model()) && Walking(Model(), idx, rest, ok)
        invariant Walk(Model(), rest, ok, now) == FlushEnd(old(Model()), ok, now)
        invariant |head| >= |old(head)| && (queued <==> |head| > |old(head)|)
        decreases |rest|
      {
        BatchRequest(Model(), idx, rest, ok);
        WalkStep(Model(), idx, rest, ok, now);
        var r := rest[0];
        var step := CurSeq(active[r].done);
        assert step == PreFlush || step == PostFlush; // BUG_ON
        rest := rest[1..];
        var added := CompleteSeq(r, StepMask(step), ok, now);
        queued := queued || added;
      }
    }

    /** The driver completes nbytes of a sequenced request's data; flush_data_end_io at the end. */
    method FlushDataEndIo(r: Rq, nbytes: nat, ok: bool, now: nat) returns (queued: bool)
      requires Inv(Model()) && r in active && DataItem(r) in device
      modifies this
      ensures Model() == DataEnd(old(Model()), r, nbytes, ok, now) && Inv(Model())
      ensures queued <==> |head| > |old(head)|
    {
      hide Inv, FlushSpec.CompleteSeq, UpdateRequest, Joined;
      JoinedAt(active, stamps, r);
      DataEndInv(Model(), r, nbytes, ok, now);
      DataRequest(Model(), r);
      var (io, more) := UpdateRequest(active[r].io, ok, nbytes);
      if more {
        JoinedKeep(active, stamps, r, active[r].(io := io));
        active := active[r := active[r].(io := io)];
        return false;
      }
      ghost var req := Joined(active, stamps)[r];
      ghost var stamp := Stamp(req.want, req.insertedAt, |trace|);
      JoinedSet(active, stamps, r, active[r].(io := AccountDone(io)), stamp);
      active := active[r := active[r].(io := AccountDone(io))];
      stamps := stamps[r := stamp];
      device, trace := device - {DataItem(r)}, trace + [DataDone(r, ok)];
      queued := CompleteSeq(r, StepMask(Data), ok, now);
    }

    lemma DataRequest(q: Queue, r: Rq)
      requires Inv(q) && r in q.reqs && DataItem(r) in q.device
      ensures DataItem(r) !in q.head && CurSeq(q.reqs[r].done) == Data
    {}

    /** blk_insert_flush of a request that is not known yet; FUA requests carry data. */
    method InsertFlush(queueFua: bool, r: Rq, flush: bool, fua: bool, sectors: nat, now: nat)
      requires Inv(Model()) && Fresh(Model(), r) && (fua ==> sectors > 0)
      modifies this
      ensures Model() == Insert(old(Model()), r, Policy(queueFua, flush, fua, sectors), sectors, now) && Inv(Model())
    {
      hide Inv, FlushSpec.CompleteSeq, Joined;
      var want := Policy(queueFua, flush, fua, sectors);
      InsertInv(Model(), r, want, sectors, now);
      NewRequest(Model(), r);
      if want.data && !want.pre && !want.post {
        head := head + [PlainItem(r)];
        return;
      }
      var io := Io(true, 512 * sectors, 512 * sectors, true, true, [], 0);
      JoinedSet(active, stamps, r, Active(Mask(false, false, false), io), Stamp(want, |trace|, |trace|));
      active := active[r := Active(Mask(false, false, false), io)];
      stamps := stamps[r := Stamp(want, |trace|, |trace|)];
      trace := trace + [Inserted(r, want)];
      var queued := CompleteSeq(r, want.Complement(), true, now);
    }

    lemma NewRequest(q: Queue, r: Rq)
      requires Inv(q) && r !in q.reqs
      ensures DataItem(r) !in q.head
    {}

    /** The driver takes the first request off the dispatch queue. */
    method FetchRequest() returns (item: Item)
      requires Inv(Model()) && head != []
      modifies this
      ensures Model() == Start(old(Model())) && Inv(Model())
      ensures item == old(head)[0]
    {
      StartInv(Model());
      hide Inv;
      item := head[0];
      head, device := head[1..], device + {head[0]};
    }
  }
}
