/**
 What every run of the FLUSH/FUA sequencer keeps: durability, at most one flush in flight,
 placement of every request on exactly one list, progress, and single completion of every bio.
 */
module FlushProof {
  import opened Collections
  import opened FlushSpec

  // ---------------------------------------------------------------- durability of a trace

  /** A flush issued at i and completed without error at k. */
  ghost predicate FlushPair(tr: seq<Event>, i: int, k: int) {
    && 0 <= i < k < |tr| && tr[i] == Issued && tr[k] == FlushDone(true)
    && (forall m :: i < m < k ==> !tr[m].FlushDone?)
  }

  /** A device flush was issued after lo and had completed before hi. */
  ghost predicate Flushed(tr: seq<Event>, lo: int, hi: int) {
    exists i, k :: lo < i && k < hi && FlushPair(tr, i, k)
  }

  ghost predicate InsertedAt(tr: seq<Event>, h: int, r: Rq, want: Mask) {
    0 <= h < |tr| && tr[h] == Inserted(r, want)
  }

  ghost predicate DataDoneAt(tr: seq<Event>, h: int, r: Rq) {
    0 <= h < |tr| && tr[h] == DataDone(r, true)
  }

  /** The data of r, dispatched at j, was dispatched after every flush it had to wait for. */
  ghost predicate DataDurable(tr: seq<Event>, j: int, r: Rq) {
    exists h, want :: h < j && InsertedAt(tr, h, r, want) && want.data && (want.pre ==> Flushed(tr, h, j))
  }

  /** The bio of r, finished without error at j, was finished after all the request asked for. */
  ghost predicate EndDurable(tr: seq<Event>, j: int, r: Rq) {
    exists h, want ::
      && h < j && InsertedAt(tr, h, r, want)
      && (want.pre ==> Flushed(tr, h, j))
      && (want.data ==> exists d :: h < d < j && DataDoneAt(tr, d, r) && (want.post ==> Flushed(tr, d, j)))
  }

  ghost predicate Durable(tr: seq<Event>) {
    forall j :: 0 <= j < |tr| ==>
      && (tr[j].DataQueued? ==> DataDurable(tr, j, tr[j].rq))
      && (tr[j].Ended? && tr[j].ok ==> EndDurable(tr, j, tr[j].rq))
  }

  lemma FlushPairLog(tr: seq<Event>, e: Event, i: int, k: int)
    requires FlushPair(tr, i, k)
    ensures FlushPair(tr + [e], i, k)
  {}

  lemma FlushedLog(tr: seq<Event>, e: Event, lo: int, hi: int, hi': int)
    requires Flushed(tr, lo, hi) && hi <= hi'
    ensures Flushed(tr + [e], lo, hi')
  {
    var i, k :| lo < i && k < hi && FlushPair(tr, i, k);
    FlushPairLog(tr, e, i, k);
  }

  lemma DurableLog(tr: seq<Event>, e: Event)
    requires Durable(tr)
    requires e.DataQueued? ==> DataDurable(tr + [e], |tr|, e.rq)
    requires e.Ended? && e.ok ==> EndDurable(tr + [e], |tr|, e.rq)
    ensures Durable(tr + [e])
  {
    var tr' := tr + [e];
    forall j | 0 <= j < |tr'|
      ensures tr'[j].DataQueued? ==> DataDurable(tr', j, tr'[j].rq)
      ensures tr'[j].Ended? && tr'[j].ok ==> EndDurable(tr', j, tr'[j].rq)
    {
      if j < |tr| {
        assert tr'[j] == tr[j];
        if tr[j].DataQueued? {
          DataDurableLog(tr, e, j, tr[j].rq);
        }
        if tr[j].Ended? && tr[j].ok {
          EndDurableLog(tr, e, j, tr[j].rq);
        }
      }
    }
  }

  lemma DataDurableLog(tr: seq<Event>, e: Event, j: int, r: Rq)
    requires DataDurable(tr, j, r)
    ensures DataDurable(tr + [e], j, r)
  {
    var h, want :| h < j && InsertedAt(tr, h, r, want) && want.data && (want.pre ==> Flushed(tr, h, j));
    assert InsertedAt(tr + [e], h, r, want);
    if want.pre {
      FlushedLog(tr, e, h, j, j);
    }
  }

  lemma EndDurableLog(tr: seq<Event>, e: Event, j: int, r: Rq)
    requires EndDurable(tr, j, r)
    ensures EndDurable(tr + [e], j, r)
  {
    var h, want :|
      && h < j && InsertedAt(tr, h, r, want)
      && (want.pre ==> Flushed(tr, h, j))
      && (want.data ==> exists d :: h < d < j && DataDoneAt(tr, d, r) && (want.post ==> Flushed(tr, d, j)));
    assert InsertedAt(tr + [e], h, r, want);
    if want.pre {
      FlushedLog(tr, e, h, j, j);
    }
    if want.data {
      var d :| h < d < j && DataDoneAt(tr, d, r) && (want.post ==> Flushed(tr, d, j));
      assert DataDoneAt(tr + [e], d, r);
      if want.post {
        FlushedLog(tr, e, d, j, j);
      }
    }
  }

  // ---------------------------------------------------------------- the invariant

  /** The history of one request in the middle of its sequence, and its completion state. */
  ghost predicate ReqOk(tr: seq<Event>, r: Rq, req: Req) {
    && InsertedAt(tr, req.insertedAt, r, req.want)
    && (req.want.post ==> req.want.data)
    && (!req.want.pre ==> req.done.pre) && (!req.want.data ==> req.done.data) && (!req.want.post ==> req.done.post)
    && (req.want.data && req.done.data ==> req.done.pre) && (req.want.post && req.done.post ==> req.done.pre && req.done.data)
    && (req.want.pre && req.done.pre ==> Flushed(tr, req.insertedAt, |tr|))
    && (req.want.data && req.done.data ==> req.insertedAt < req.dataAt && DataDoneAt(tr, req.dataAt, r))
    && IoOk(req)
  }

  /** Nothing was finished or accounted yet, and the bio is complete exactly once the data is. */
  ghost predicate IoOk(req: Req) {
    && req.io.flushSeq && req.io.ends == [] && req.io.accounted == 0 && req.io.left == req.io.dataLen
    && (CurSeq(req.done) == PreFlush || CurSeq(req.done) == Data ==> req.io.attached)
    && (!req.io.attached ==> req.io.left == 0)
  }

  ghost predicate Placed(q: Queue) {
    && NoDup(q.list0) && NoDup(q.list1) && NoDup(q.inFlight)
    && (forall r :: r in q.reqs <==> r in q.list0 || r in q.list1 || r in q.inFlight)
    && (forall r :: r in q.list0 ==> r !in q.list1 && r !in q.inFlight)
    && (forall r :: r in q.list1 ==> r !in q.inFlight)
  }

  /** The list a request is on agrees with its lowest unfinished step. */
  ghost predicate Staged(q: Queue) {
    && (forall r :: r in q.reqs && (r in q.list0 || r in q.list1) ==>
          CurSeq(q.reqs[r].done) == PreFlush || CurSeq(q.reqs[r].done) == PostFlush)
    && (forall r :: r in q.reqs && r in q.inFlight ==> CurSeq(q.reqs[r].done) == Data)
  }

  /** The dispatch queue and the device hold the flush in flight and the data in flight, once each. */
  ghost predicate Dispatched(q: Queue) {
    && NoDup(q.head) && (forall x :: x in q.head ==> x !in q.device)
    && (FlushItem in q.head || FlushItem in q.device <==> q.pending != q.running)
    && (forall r :: DataItem(r) in q.head || DataItem(r) in q.device <==> r in q.inFlight)
  }

  /** The flush in flight was issued after every request of the running batch began to wait. */
  ghost predicate BatchOk(q: Queue) {
    q.pending != q.running ==>
      && q.List(q.running) != []
      && q.issuedAt < |q.trace| && q.trace[q.issuedAt] == Issued
      && (forall m :: q.issuedAt < m < |q.trace| ==> !q.trace[m].FlushDone?)
      && (forall r :: r in q.List(q.running) && r in q.reqs ==> WaitsSince(q.reqs[r]) < q.issuedAt)
  }

  ghost predicate Finished(q: Queue) {
    && (forall r :: r in q.finished ==>
          r !in q.reqs && |q.finished[r].ends| == 1 && q.finished[r].accounted == 1)
    && (forall j :: 0 <= j < |q.trace| && q.trace[j].Ended? ==>
          q.trace[j].rq in q.finished && q.finished[q.trace[j].rq].ends == [q.trace[j].ok])
    && (forall j, k :: 0 <= j < k < |q.trace| && q.trace[j].Ended? && q.trace[k].Ended? ==> q.trace[j].rq != q.trace[k].rq)
  }

  /** A request is inserted at most once, and is never forgotten. */
  ghost predicate Identified(q: Queue) {
    && (forall j :: 0 <= j < |q.trace| && q.trace[j].Inserted? ==> q.trace[j].rq in q.reqs || q.trace[j].rq in q.finished)
    && (forall j, k :: 0 <= j < k < |q.trace| && q.trace[j].Inserted? && q.trace[k].Inserted? ==>
          q.trace[j].rq != q.trace[k].rq)
  }

  /** `batch` is what is left of a batch whose flush completed, still on list `idx`. */
  ghost predicate Walking(q: Queue, idx: bool, batch: seq<Rq>, ok: bool) {
    && q.running != idx && q.List(idx) == batch
    && (ok ==> forall r :: r in batch && r in q.reqs ==> Flushed(q.trace, WaitsSince(q.reqs[r]), |q.trace|))
  }

  ghost predicate Core(q: Queue) {
    && Placed(q) && Staged(q) && Dispatched(q) && BatchOk(q) && Finished(q) && Durable(q.trace)
    && (forall r :: r in q.reqs ==> ReqOk(q.trace, r, q.reqs[r]))
  }

  /** No request waits for a flush that nothing will issue. */
  ghost predicate NoStall(q: Queue) {
    q.List(q.pending) != [] ==> q.pending != q.running || q.inFlight != []
  }

  ghost predicate Inv(q: Queue) {
    Core(q) && NoStall(q) && (q.pending == q.running ==> q.List(!q.pending) == [])
  }

  // ---------------------------------------------------------------- taking a request out

  /** The queue without request r, whose data (if it was in flight) the driver has given back. */
  function Remove(q: Queue, r: Rq): Queue {
    Unlist(q, r).(reqs := q.reqs - {r}, device := q.device - {DataItem(r)})
  }

  lemma RemovePlaced(q: Queue, r: Rq)
    requires Placed(q) && Staged(q)
    ensures Placed(Remove(q, r)) && Staged(Remove(q, r))
    ensures forall x :: x in Remove(q, r).inFlight <==> x in q.inFlight && x != r
  {
    DelFacts(q.list0, r);
    DelFacts(q.list1, r);
    DelFacts(q.inFlight, r);
  }

  lemma RemoveCore(q: Queue, r: Rq)
    requires Core(q) && DataItem(r) !in q.head
    requires q.pending != q.running ==> r !in q.List(q.running)
    ensures Core(Remove(q, r))
    ensures forall idx :: r !in q.List(idx) ==> Remove(q, r).List(idx) == q.List(idx)
  {
    RemovePlaced(q, r);
    DelFacts(q.list0, r);
    DelFacts(q.list1, r);
    assert Dispatched(Remove(q, r)) by {
      assert forall x :: x in Remove(q, r).device <==> x in q.device && x != DataItem(r);
    }
  }

  // ---------------------------------------------------------------- putting it where it goes next

  lemma ReqOkLog(tr: seq<Event>, e: Event, r: Rq, req: Req)
    requires ReqOk(tr, r, req)
    ensures ReqOk(tr + [e], r, req)
  {
    if req.want.pre && req.done.pre {
      FlushedLog(tr, e, req.insertedAt, |tr|, |tr| + 1);
    }
  }

  lemma ReqsOkLog(q: Queue, e: Event)
    requires forall r :: r in q.reqs ==> ReqOk(q.trace, r, q.reqs[r])
    ensures forall r :: r in q.reqs ==> ReqOk(q.trace + [e], r, q.reqs[r])
  {
    forall r | r in q.reqs ensures ReqOk(q.trace + [e], r, q.reqs[r]) {
      ReqOkLog(q.trace, e, r, q.reqs[r]);
    }
  }

  function AddWaiting(q: Queue, r: Rq, req: Req, since: nat): Queue {
    q.SetList(q.pending, q.List(q.pending) + [r]).(reqs := q.reqs[r := req], pendingSince := since)
  }

  lemma AddWaitingPlaced(q: Queue, r: Rq, req: Req, since: nat)
    requires Placed(q) && Staged(q) && r !in q.reqs
    requires CurSeq(req.done) == PreFlush || CurSeq(req.done) == PostFlush
    ensures Placed(AddWaiting(q, r, req, since)) && Staged(AddWaiting(q, r, req, since))
  {}

  lemma AddDataPlaced(q: Queue, r: Rq, req: Req)
    requires Placed(q) && Staged(q) && Dispatched(q) && r !in q.reqs && CurSeq(req.done) == Data
    ensures var q' := AddData(q, r, req);
            Placed(q') && Staged(q') && Dispatched(q')
  {
    var q' := AddData(q, r, req);
    assert Placed(q') && Staged(q');
    assert DataItem(r) !in q.head && DataItem(r) !in q.device;
  }

  lemma AddWaitingCore(q: Queue, r: Rq, req: Req, since: nat)
    requires Core(q) && r !in q.reqs && r !in q.finished && ReqOk(q.trace, r, req)
    requires CurSeq(req.done) == PreFlush || CurSeq(req.done) == PostFlush
    ensures Core(AddWaiting(q, r, req, since))
  {
    hide ReqOk, Durable, Placed, Staged, BatchOk;
    AddWaitingPlaced(q, r, req, since);
    AddWaitingBatch(q, r, req, since);
  }

  lemma AddWaitingBatch(q: Queue, r: Rq, req: Req, since: nat)
    requires Placed(q) && BatchOk(q) && r !in q.reqs
    ensures BatchOk(AddWaiting(q, r, req, since))
  {}

  function AddData(q: Queue, r: Rq, req: Req): Queue {
    q.(reqs := q.reqs[r := req], inFlight := q.inFlight + [r], head := [DataItem(r)] + q.head).Log(DataQueued(r))
  }

  lemma AddDataCore(q: Queue, r: Rq, req: Req)
    requires Core(q) && r !in q.reqs && r !in q.finished && ReqOk(q.trace, r, req) && CurSeq(req.done) == Data
    ensures Core(AddData(q, r, req))
  {
    hide ReqOk, Durable, Placed, Staged, Dispatched, DataDurable;
    var e, tr := DataQueued(r), q.trace;
    DataAllowed(tr, r, req);
    DurableLog(tr, e);
    ReqsOkLog(q, e);
    ReqOkLog(tr, e, r, req);
    AddDataPlaced(q, r, req);
  }

  /** A request that got as far as DATA may have its data dispatched. */
  lemma DataAllowed(tr: seq<Event>, r: Rq, req: Req)
    requires ReqOk(tr, r, req) && CurSeq(req.done) == Data
    ensures DataDurable(tr + [DataQueued(r)], |tr|, r)
  {
    var e := DataQueued(r);
    assert InsertedAt(tr + [e], req.insertedAt, r, req.want);
    if req.want.pre {
      FlushedLog(tr, e, req.insertedAt, |tr|, |tr|);
    }
  }

  function AddFinished(q: Queue, r: Rq, io: Io): Queue {
    q.(finished := q.finished[r := io]).Log(Ended(r, io.uptodate))
  }

  lemma AddFinishedCore(q: Queue, r: Rq, io: Io)
    requires Core(q) && r !in q.reqs && r !in q.finished && io.ends == [io.uptodate] && io.accounted == 1
    requires io.uptodate ==> EndDurable(q.trace + [Ended(r, true)], |q.trace|, r)
    ensures Core(AddFinished(q, r, io))
  {
    hide ReqOk, Durable, EndDurable, Finished;
    var e, q' := Ended(r, io.uptodate), AddFinished(q, r, io);
    DurableLog(q.trace, e);
    ReqsOkLog(q, e);
    AddFinishedOnce(q, r, io);
    assert Placed(q') && Staged(q') && Dispatched(q') && BatchOk(q');
  }

  lemma AddFinishedOnce(q: Queue, r: Rq, io: Io)
    requires Finished(q) && r !in q.reqs && r !in q.finished && io.ends == [io.uptodate] && io.accounted == 1
    ensures Finished(AddFinished(q, r, io))
  {}

  /** All steps of the sequence are behind the request, and so is everything it asked for. */
  lemma AllStepsDone(tr: seq<Event>, r: Rq, req: Req)
    requires ReqOk(tr, r, req) && CurSeq(req.done) == Done
    requires req.want.post ==> Flushed(tr, req.dataAt, |tr|)
    ensures EndDurable(tr + [Ended(r, true)], |tr|, r)
  {
    var e := Ended(r, true);
    assert InsertedAt(tr + [e], req.insertedAt, r, req.want);
    if req.want.pre {
      FlushedLog(tr, e, req.insertedAt, |tr|, |tr|);
    }
    if req.want.data {
      assert DataDoneAt(tr + [e], req.dataAt, r);
      if req.want.post {
        FlushedLog(tr, e, req.dataAt, |tr|, |tr|);
      }
    }
  }

  /** Ending the restored request finishes the bio once and accounts it once, error or not. */
  lemma EndRestoredOnce(io: Io, ok: bool)
    requires io.flushSeq && io.ends == [] && io.accounted == 0 && io.left == io.dataLen
    ensures var io' := EndRestored(io, ok);
            && io'.ends == [io.uptodate && ok] && io'.uptodate == (io.uptodate && ok) && io'.accounted == 1
            && !io'.attached && io'.left == 0
  {}

  // ---------------------------------------------------------------- issuing a flush

  lemma WaitsBefore(tr: seq<Event>, r: Rq, req: Req)
    requires ReqOk(tr, r, req) && (CurSeq(req.done) == PreFlush || CurSeq(req.done) == PostFlush)
    ensures WaitsSince(req) < |tr|
  {}

  lemma KickCore(q: Queue, now: nat)
    requires Core(q)
    ensures Core(Kick(q, now)) && NoStall(Kick(q, now))
  {
    if Kick(q, now) != q {
      DurableLog(q.trace, Issued);
      ReqsOkLog(q, Issued);
      KickPlaces(q, now);
      KickBatch(q, now);
      hide ReqOk, Durable, Placed, Staged, Dispatched, BatchOk, Finished;
    }
  }

  /** Issuing a flush moves no request. */
  lemma KickPlaces(q: Queue, now: nat)
    requires Placed(q) && Staged(q) && Dispatched(q) && Finished(q)
    ensures var q' := Kick(q, now); Placed(q') && Staged(q') && Dispatched(q') && Finished(q')
  {}

  /** Every request of the new batch was waiting before the flush was issued. */
  lemma KickBatch(q: Queue, now: nat)
    requires Core(q) && Kick(q, now) != q
    ensures BatchOk(Kick(q, now))
  {
    forall r | r in q.reqs && r in q.List(q.pending) ensures WaitsSince(q.reqs[r]) < |q.trace| {
      WaitsBefore(q.trace, r, q.reqs[r]);
    }
    hide ReqOk, Durable, Dispatched, Finished;
  }

  // ---------------------------------------------------------------- one request moves on

  function WithReq(q: Queue, r: Rq, req: Req): Queue {
    q.(reqs := q.reqs[r := req])
  }

  /** Advance is: take the request out, put it where its next step is. */
  lemma AdvanceIs(q: Queue, r: Rq, req: Req, ok: bool, now: nat)
    requires DataItem(r) !in q.device
    ensures var q' := Advance(WithReq(q, r, req), r, ok, now);
            match if ok then CurSeq(req.done) else Done
            case Data => q' == AddData(Remove(q, r), r, req)
            case Done => q' == AddFinished(Remove(q, r), r, EndRestored(req.io, ok))
            case PreFlush => q' == AddWaiting(Remove(q, r), r, req, q'.pendingSince)
            case PostFlush => q' == AddWaiting(Remove(q, r), r, req, q'.pendingSince)
  {
    hide EndRestored, Del;
    assert q.device - {DataItem(r)} == q.device;
    assert q.reqs[r := req] - {r} == q.reqs - {r};
    assert (q.reqs - {r})[r := req] == q.reqs[r := req];
  }

  lemma AdvanceCore(q: Queue, r: Rq, req: Req, ok: bool, now: nat)
    requires Core(Remove(q, r)) && r !in q.finished && DataItem(r) !in q.device
    requires ok ==> ReqOk(q.trace, r, req)
    requires ok && CurSeq(req.done) == Done && req.want.post ==> Flushed(q.trace, req.dataAt, |q.trace|)
    requires req.io.flushSeq && req.io.ends == [] && req.io.accounted == 0 && req.io.left == req.io.dataLen
    ensures Core(Advance(WithReq(q, r, req), r, ok, now))
  {
    hide Core, ReqOk, EndRestored, Flushed, EndDurable, Advance, AddData, AddWaiting, AddFinished;
    AdvanceIs(q, r, req, ok, now);
    var q0, q' := Remove(q, r), Advance(WithReq(q, r, req), r, ok, now);
    match if ok then CurSeq(req.done) else Done
    case Data => AddDataCore(q0, r, req);
    case PreFlush => AddWaitingCore(q0, r, req, q'.pendingSince);
    case PostFlush => AddWaitingCore(q0, r, req, q'.pendingSince);
    case Done =>
      EndRestoredOnce(req.io, ok);
      if ok {
        AllStepsDone(q.trace, r, req);
      }
      AddFinishedCore(q0, r, EndRestored(req.io, ok));
  }

  /** Completing part of a sequence keeps the invariant, and afterwards nothing is stalled. */
  lemma CompleteSeqCore(q: Queue, r: Rq, m: Mask, ok: bool, now: nat)
    requires Core(Remove(q, r)) && r in q.reqs && r !in q.finished && DataItem(r) !in q.device
    requires var req := Complete(q.reqs[r], m);
             && (ok ==> ReqOk(q.trace, r, req))
             && (ok && CurSeq(req.done) == Done && req.want.post ==> Flushed(q.trace, req.dataAt, |q.trace|))
             && req.io.flushSeq && req.io.ends == [] && req.io.accounted == 0 && req.io.left == req.io.dataLen
    ensures Core(CompleteSeq(q, r, m, ok, now)) && NoStall(CompleteSeq(q, r, m, ok, now))
  {
    hide Core, ReqOk, Flushed, Advance, Kick, NoStall;
    var req := Complete(q.reqs[r], m);
    AdvanceCore(q, r, req, ok, now);
    KickCore(Advance(WithReq(q, r, req), r, ok, now), now);
  }

  // ---------------------------------------------------------------- flush completion

  /** A request of the completed batch: what it was doing, and what its next step is. */
  lemma BatchRequest(q: Queue, idx: bool, batch: seq<Rq>, ok: bool)
    requires Core(q) && Walking(q, idx, batch, ok) && batch != []
    ensures var r := batch[0];
            && r in q.reqs && r !in q.finished && r !in q.List(!idx) && r !in q.inFlight
            && DataItem(r) !in q.head && DataItem(r) !in q.device
            && (CurSeq(q.reqs[r].done) == PreFlush || CurSeq(q.reqs[r].done) == PostFlush)
            && IoOk(q.reqs[r]) && ReqOk(q.trace, r, q.reqs[r])
  {}

  /** The flush having completed without error, the request's step is over and it has no flush to wait for next. */
  lemma BatchRequestFlushed(tr: seq<Event>, r: Rq, req: Req)
    requires ReqOk(tr, r, req) && (CurSeq(req.done) == PreFlush || CurSeq(req.done) == PostFlush)
    requires Flushed(tr, WaitsSince(req), |tr|)
    ensures var req' := Complete(req, StepMask(CurSeq(req.done)));
            && ReqOk(tr, r, req')
            && (CurSeq(req'.done) == Data || CurSeq(req'.done) == Done)
            && (CurSeq(req'.done) == Done && req'.want.post ==> Flushed(tr, req'.dataAt, |tr|))
  {}

  /** Neither advancing a request to DATA or DONE nor a kick adds to a list; both only log. */
  lemma CompleteSeqLists(q: Queue, r: Rq, m: Mask, ok: bool, now: nat)
    requires r in q.reqs && DataItem(r) !in q.device
    requires var step := CurSeq(Complete(q.reqs[r], m).done); ok ==> step == Data || step == Done
    ensures var q' := CompleteSeq(q, r, m, ok, now);
            && q'.running == q.running && (forall idx :: q'.List(idx) == Del(q.List(idx), r))
            && (forall x :: x in q'.reqs && x != r ==> x in q.reqs && q'.reqs[x] == q.reqs[x])
            && q.trace <= q'.trace
  {
    hide EndRestored, Del;
  }

  lemma {:induction false} FlushedLonger(tr: seq<Event>, tr': seq<Event>, lo: int)
    requires Flushed(tr, lo, |tr|) && tr <= tr'
    ensures Flushed(tr', lo, |tr'|)
    decreases |tr'|
  {
    if |tr'| == |tr| {
      assert tr' == tr;
    } else {
      var n := |tr'| - 1;
      FlushedLonger(tr, tr'[..n], lo);
      assert tr' == tr'[..n] + [tr'[n]];
      FlushedLog(tr'[..n], tr'[n], lo, n, n + 1);
    }
  }

  lemma WalkStep(q: Queue, idx: bool, batch: seq<Rq>, ok: bool, now: nat)
    requires Core(q) && Walking(q, idx, batch, ok) && batch != []
    ensures batch[0] in q.reqs
    ensures var q' := CompleteSeq(q, batch[0], StepMask(CurSeq(q.reqs[batch[0]].done)), ok, now);
            Core(q') && NoStall(q') && Walking(q', idx, batch[1..], ok)
  {
    BatchRequest(q, idx, batch, ok);
    var r := batch[0];
    var m := StepMask(CurSeq(q.reqs[r].done));
    var q' := CompleteSeq(q, r, m, ok, now);
    assert batch[0] in batch;
    hide Core, ReqOk, Flushed, CompleteSeq, NoStall;
    RemoveCore(q, r);
    if ok {
      BatchRequestFlushed(q.trace, r, q.reqs[r]);
    }
    CompleteSeqCore(q, r, m, ok, now);
    CompleteSeqLists(q, r, m, ok, now);
    if ok {
      forall x | x in batch[1..] && x in q'.reqs ensures Flushed(q'.trace, WaitsSince(q'.reqs[x]), |q'.trace|) {
        if x != r {
          FlushedLonger(q.trace, q'.trace, WaitsSince(q.reqs[x]));
        }
      }
    }
  }

  /** Walking a batch to its end, with any kicks on the way, ends in a good state. */
  lemma {:induction false} WalkInv(q: Queue, idx: bool, batch: seq<Rq>, ok: bool, now: nat)
    requires Core(q) && Walking(q, idx, batch, ok) && (batch == [] ==> NoStall(q))
    ensures Inv(Walk(q, batch, ok, now))
    decreases |batch|
  {
    if batch == [] {
    } else {
      WalkStep(q, idx, batch, ok, now);
      hide Core, Walking, NoStall, CompleteSeq;
      WalkInv(CompleteSeq(q, batch[0], StepMask(CurSeq(q.reqs[batch[0]].done)), ok, now), idx, batch[1..], ok, now);
    }
  }

  /** The state in which flush_end_io begins its walk. */
  lemma FlushEndWalking(q: Queue, ok: bool)
    requires Inv(q) && FlushItem in q.device
    ensures q.pending != q.running && q.List(q.running) != []
    ensures var q1 := q.(running := !q.running, device := q.device - {FlushItem}).Log(FlushDone(ok));
            Core(q1) && Walking(q1, q.running, q.List(q.running), ok)
  {
    hide ReqOk, Durable, Flushed;
    var e := FlushDone(ok);
    var q1 := q.(running := !q.running, device := q.device - {FlushItem}).Log(e);
    DurableLog(q.trace, e);
    ReqsOkLog(q, e);
    BatchFlushed(q, ok);
    assert Placed(q1) && Staged(q1) && Finished(q1);
    assert Dispatched(q1);
  }

  /** The flush that completes was issued after every request of its batch began to wait. */
  lemma BatchFlushed(q: Queue, ok: bool)
    requires BatchOk(q) && q.pending != q.running
    ensures var tr := q.trace + [FlushDone(ok)];
            ok ==> forall r :: r in q.List(q.running) && r in q.reqs ==> Flushed(tr, WaitsSince(q.reqs[r]), |tr|)
  {
    var tr := q.trace + [FlushDone(ok)];
    if ok {
      forall r | r in q.List(q.running) && r in q.reqs ensures Flushed(tr, WaitsSince(q.reqs[r]), |tr|) {
        assert FlushPair(tr, q.issuedAt, |q.trace|);
      }
    }
  }

  lemma FlushEndInv(q: Queue, ok: bool, now: nat)
    requires Inv(q) && FlushItem in q.device
    ensures Inv(FlushEnd(q, ok, now))
  {
    hide Core, Walk;
    FlushEndWalking(q, ok);
    var q1 := q.(running := !q.running, device := q.device - {FlushItem}).Log(FlushDone(ok));
    WalkInv(q1, q.running, q.List(q.running), ok, now);
  }

  // ---------------------------------------------------------------- data completion and insertion

  lemma LogCore(q: Queue, e: Event)
    requires Core(q) && (e.Inserted? || e.DataDone?)
    ensures Core(q.Log(e))
  {
    hide ReqOk, Durable;
    DurableLog(q.trace, e);
    ReqsOkLog(q, e);
  }

  /** Completing part of one request's sequence leaves the idle list alone. */
  lemma CompleteSeqIdle(q: Queue, r: Rq, m: Mask, ok: bool, now: nat)
    requires r in q.reqs && (q.pending == q.running ==> q.List(!q.pending) == [])
    ensures var q' := CompleteSeq(q, r, m, ok, now);
            q'.pending == q'.running ==> q'.List(!q'.pending) == []
  {
    hide EndRestored;
  }

  lemma PartialIo(io: Io, ok: bool, nbytes: nat)
    requires io.flushSeq && io.ends == [] && io.accounted == 0 && io.left == io.dataLen && io.attached
    ensures var (io', more) := UpdateRequest(io, ok, nbytes);
            && io'.flushSeq && io'.ends == [] && io'.accounted == 0 && io'.left == io'.dataLen
            && (more <==> io'.attached) && (!io'.attached ==> io'.left == 0)
  {}

  lemma DataEndInv(q: Queue, r: Rq, nbytes: nat, ok: bool, now: nat)
    requires Inv(q) && r in q.reqs && DataItem(r) in q.device
    ensures Inv(DataEnd(q, r, nbytes, ok, now))
  {
    var (io, more) := UpdateRequest(q.reqs[r].io, ok, nbytes);
    assert r in q.inFlight && DataItem(r) !in q.head && IoOk(q.reqs[r]);
    PartialIo(q.reqs[r].io, ok, nbytes);
    if more {
      DataPartInv(q, r, io);
    } else {
      DataAllInv(q, r, io, ok, now);
    }
  }

  lemma InFlightRequest(q: Queue, r: Rq)
    requires Core(q) && r in q.inFlight
    ensures r in q.reqs && r !in q.finished && CurSeq(q.reqs[r].done) == Data && ReqOk(q.trace, r, q.reqs[r])
    ensures r !in q.list0 && r !in q.list1
  {}

  lemma FreshRequest(q: Queue, r: Rq, req: Req, e: Event)
    requires Core(q) && r !in q.reqs
    ensures r !in q.inFlight && DataItem(r) !in q.device
    ensures Remove(q.(reqs := q.reqs[r := req]).Log(e), r) == q.Log(e)
  {
    DelFacts(q.list0, r);
    DelFacts(q.list1, r);
    DelFacts(q.inFlight, r);
    hide Del, NoDup, Staged, BatchOk, Finished, Durable, ReqOk;
    assert q.reqs[r := req] - {r} == q.reqs;
    assert q.device - {DataItem(r)} == q.device;
  }

  lemma DataPartInv(q: Queue, r: Rq, io: Io)
    requires Inv(q) && r in q.reqs && IoOk(q.reqs[r].(io := io))
    ensures Inv(q.(reqs := q.reqs[r := q.reqs[r].(io := io)]))
  {
    hide Durable, ReqOk, IoOk, Placed, Dispatched, Finished;
    var q' := q.(reqs := q.reqs[r := q.reqs[r].(io := io)]);
    OtherIo(q.trace, r, q.reqs[r], io);
    SameDispatch(q, q');
  }

  lemma OtherIo(tr: seq<Event>, r: Rq, req: Req, io: Io)
    requires ReqOk(tr, r, req) && IoOk(req.(io := io))
    ensures ReqOk(tr, r, req.(io := io))
  {}

  lemma SameDispatch(q: Queue, q': Queue)
    requires q' == q.(reqs := q'.reqs) && q'.reqs.Keys == q.reqs.Keys
    ensures Placed(q) ==> Placed(q')
    ensures Dispatched(q) ==> Dispatched(q')
    ensures Finished(q) ==> Finished(q')
  {}

  lemma DataAllInv(q: Queue, r: Rq, io: Io, ok: bool, now: nat)
    requires Inv(q) && r in q.reqs && r in q.inFlight && DataItem(r) in q.device && DataItem(r) !in q.head
    requires io.flushSeq && io.ends == [] && io.accounted == 0 && io.left == io.dataLen == 0 && !io.attached
    ensures var req := q.reqs[r].(io := AccountDone(io), dataAt := |q.trace|);
            var q1 := q.(reqs := q.reqs[r := req], device := q.device - {DataItem(r)}).Log(DataDone(r, ok));
            Inv(CompleteSeq(q1, r, StepMask(Data), ok, now))
  {
    var req, e := q.reqs[r].(io := AccountDone(io), dataAt := |q.trace|), DataDone(r, ok);
    var q1 := q.(reqs := q.reqs[r := req], device := q.device - {DataItem(r)}).Log(e);
    hide Core, ReqOk, Flushed, CompleteSeq, Remove, NoStall;
    InFlightRequest(q, r);
    if ok {
      DataDoneReq(q.trace, r, q.reqs[r], io);
    }
    RemoveCore(q, r);
    LogCore(Remove(q, r), e);
    RemoveTwice(q, r, req, e);
    CompleteSeqCore(q1, r, StepMask(Data), ok, now);
    CompleteSeqIdle(q1, r, StepMask(Data), ok, now);
  }

  lemma RemoveTwice(q: Queue, r: Rq, req: Req, e: Event)
    ensures Remove(q.(reqs := q.reqs[r := req], device := q.device - {DataItem(r)}).Log(e), r) == Remove(q, r).Log(e)
    ensures Remove(q, r).finished == q.finished
  {}

  lemma DataDoneReq(tr: seq<Event>, r: Rq, req: Req, io: Io)
    requires ReqOk(tr, r, req) && CurSeq(req.done) == Data
    requires io.flushSeq && io.ends == [] && io.accounted == 0 && io.left == io.dataLen == 0 && !io.attached
    ensures var req' := Complete(req.(io := io, dataAt := |tr|), StepMask(Data));
            ReqOk(tr + [DataDone(r, true)], r, req') && (CurSeq(req'.done) == Done ==> !req'.want.post)
  {
    if req.want.pre {
      FlushedLog(tr, DataDone(r, true), req.insertedAt, |tr|, |tr| + 1);
    }
  }

  lemma InsertInv(q: Queue, r: Rq, want: Mask, sectors: nat, now: nat)
    requires Inv(q) && Fresh(q, r) && (want.post ==> want.data) && (want.data <==> sectors > 0)
    ensures Inv(Insert(q, r, want, sectors, now))
  {
    if want.data && !want.pre && !want.post {
      PlainInv(q, r);
    } else {
      var e, req := Inserted(r, want), NewReq(want, sectors, |q.trace|);
      var q1 := q.(reqs := q.reqs[r := req]).Log(e);
      assert ReqOk(q1.trace, r, Complete(req, want.Complement()));
      hide Core, ReqOk, Flushed, CompleteSeq, Del, Remove;
      FreshRequest(q, r, req, e);
      LogCore(q, e);
      CompleteSeqCore(q1, r, want.Complement(), true, now);
      CompleteSeqIdle(q1, r, want.Complement(), true, now);
    }
  }

  lemma PlainInv(q: Queue, r: Rq)
    requires Inv(q) && PlainItem(r) !in q.head && PlainItem(r) !in q.device
    ensures Inv(q.(head := q.head + [PlainItem(r)]))
  {
    hide ReqOk, Durable;
  }

  lemma StartInv(q: Queue)
    requires Inv(q) && q.head != []
    ensures Inv(Start(q))
  {
    hide ReqOk, Durable;
    assert q.head == [q.head[0]] + q.head[1..];
  }

  lemma PlainEndInv(q: Queue, r: Rq)
    requires Inv(q)
    ensures Inv(PlainEnd(q, r))
  {
    hide ReqOk, Durable;
  }

  lemma NextInv(q: Queue, queueFua: bool, a: Action, now: nat)
    requires Inv(q)
    ensures Inv(Apply(q, queueFua, a, now))
  {
    hide Inv, Insert, Start, FlushEnd, DataEnd, PlainEnd;
    if Enabled(q, a) {
      match a
      case Submit(r, flush, fua, sectors) => InsertInv(q, r, Policy(queueFua, flush, fua, sectors), sectors, now);
      case Fetch => StartInv(q);
      case FlushCompleted(ok) => FlushEndInv(q, ok, now);
      case DataCompleted(r, nbytes, ok) => DataEndInv(q, r, nbytes, ok, now);
      case PlainCompleted(r) => PlainEndInv(q, r);
    }
  }

  lemma {:induction false} RunInv(q: Queue, queueFua: bool, run: seq<(Action, nat)>)
    requires Inv(q)
    ensures Inv(Run(q, queueFua, run))
    decreases |run|
  {
    hide Inv, Apply;
    if run != [] {
      NextInv(q, queueFua, run[0].0, run[0].1);
      RunInv(Apply(q, queueFua, run[0].0, run[0].1), queueFua, run[1..]);
    }
  }

  // ---------------------------------------------------------------- identities

  ghost function Known(q: Queue): set<Rq> {
    q.reqs.Keys + q.finished.Keys
  }

  /** q' knows every request q knows, and no insertion was logged in between. */
  ghost predicate Extends(q: Queue, q': Queue) {
    && Known(q) <= Known(q') && q.trace <= q'.trace
    && (forall j :: |q.trace| <= j < |q'.trace| ==> !q'.trace[j].Inserted?)
  }

  lemma CompleteSeqExtends(q: Queue, r: Rq, m: Mask, ok: bool, now: nat)
    requires r in q.reqs
    ensures Extends(q, CompleteSeq(q, r, m, ok, now))
  {
    hide EndRestored, Del;
  }

  lemma {:induction false} WalkExtends(q: Queue, batch: seq<Rq>, ok: bool, now: nat)
    ensures Extends(q, Walk(q, batch, ok, now))
    decreases |batch|
  {
    if batch == [] || batch[0] !in q.reqs {
    } else {
      var m := StepMask(CurSeq(q.reqs[batch[0]].done));
      CompleteSeqExtends(q, batch[0], m, ok, now);
      WalkExtends(CompleteSeq(q, batch[0], m, ok, now), batch[1..], ok, now);
      hide CompleteSeq;
    }
  }

  lemma ExtendsIdentified(q: Queue, q': Queue)
    requires Identified(q) && Extends(q, q')
    ensures Identified(q')
  {}

  lemma InsertIdentified(q: Queue, r: Rq, want: Mask, sectors: nat, now: nat)
    requires Identified(q) && Fresh(q, r)
    ensures Identified(Insert(q, r, want, sectors, now))
  {
    if !(want.data && !want.pre && !want.post) {
      var q1 := q.(reqs := q.reqs[r := NewReq(want, sectors, |q.trace|)]).Log(Inserted(r, want));
      assert Identified(q1);
      CompleteSeqExtends(q1, r, want.Complement(), true, now);
      hide CompleteSeq, Identified;
      ExtendsIdentified(q1, CompleteSeq(q1, r, want.Complement(), true, now));
    }
  }

  lemma NextIdentified(q: Queue, queueFua: bool, a: Action, now: nat)
    requires Identified(q)
    ensures Identified(Apply(q, queueFua, a, now))
  {
    if Enabled(q, a) {
      match a
      case Submit(r, flush, fua, sectors) =>
        hide Insert, Identified;
        InsertIdentified(q, r, Policy(queueFua, flush, fua, sectors), sectors, now);
      case FlushCompleted(ok) =>
        var q1 := q.(running := !q.running, device := q.device - {FlushItem}).Log(FlushDone(ok));
        assert Identified(q1);
        WalkExtends(q1, q.List(q.running), ok, now);
        hide Walk;
        ExtendsIdentified(q1, Walk(q1, q.List(q.running), ok, now));
      case DataCompleted(r, nbytes, ok) => DataEndIdentified(q, r, nbytes, ok, now);
      case _ =>
    }
  }

  lemma DataEndIdentified(q: Queue, r: Rq, nbytes: nat, ok: bool, now: nat)
    requires Identified(q) && r in q.reqs
    ensures Identified(DataEnd(q, r, nbytes, ok, now))
  {
    var (io, more) := UpdateRequest(q.reqs[r].io, ok, nbytes);
    hide CompleteSeq, UpdateRequest;
    if !more {
      var req := q.reqs[r].(io := AccountDone(io), dataAt := |q.trace|);
      var q1 := q.(reqs := q.reqs[r := req], device := q.device - {DataItem(r)}).Log(DataDone(r, ok));
      assert Identified(q1);
      CompleteSeqExtends(q1, r, StepMask(Data), ok, now);
      ExtendsIdentified(q1, CompleteSeq(q1, r, StepMask(Data), ok, now));
    }
  }

  lemma {:induction false} RunIdentified(q: Queue, queueFua: bool, run: seq<(Action, nat)>)
    requires Identified(q)
    ensures Identified(Run(q, queueFua, run))
    decreases |run|
  {
    hide Identified, Apply;
    if run != [] {
      NextIdentified(q, queueFua, run[0].0, run[0].1);
      RunIdentified(Apply(q, queueFua, run[0].0, run[0].1), queueFua, run[1..]);
    }
  }

  // ---------------------------------------------------------------- what holds in every run

  lemma FromStart(queueFua: bool, run: seq<(Action, nat)>)
    ensures Inv(Run(Init(), queueFua, run))
  {
    RunInv(Init(), queueFua, run);
  }

  lemma StartIdentified(queueFua: bool, run: seq<(Action, nat)>)
    ensures Identified(Run(Init(), queueFua, run))
  {
    RunIdentified(Init(), queueFua, run);
  }

  /**
   In every run, data with a preflush is dispatched only after a flush that was issued after the
   request came in has completed, and a bio is finished without error only after its data is
   done, and, if a postflush was needed, after a flush issued after that.
   */
  lemma FlushDurability(queueFua: bool, run: seq<(Action, nat)>)
    ensures Durable(Run(Init(), queueFua, run).trace)
    ensures Identified(Run(Init(), queueFua, run))
  {
    FromStart(queueFua, run);
    StartIdentified(queueFua, run);
  }

  /** C1: at most one flush is in flight, and exactly when the two indices differ. */
  lemma OneFlushInFlight(queueFua: bool, run: seq<(Action, nat)>)
    ensures var q := Run(Init(), queueFua, run);
            && (q.pending != q.running <==> FlushItem in q.head || FlushItem in q.device)
            && !(FlushItem in q.head && FlushItem in q.device) && NoDup(q.head)
  {
    hide Run, Durable, ReqOk;
    FromStart(queueFua, run);
  }

  /** Every sequenced request is on exactly one list, the one its lowest unfinished step says. */
  lemma EveryRequestPlaced(queueFua: bool, run: seq<(Action, nat)>)
    ensures Placed(Run(Init(), queueFua, run)) && Staged(Run(Init(), queueFua, run))
  {
    hide Run, Durable, ReqOk;
    FromStart(queueFua, run);
  }

  /** While a request waits for a flush, a flush is in flight or some request executes DATA. */
  lemma NeverStalled(queueFua: bool, run: seq<(Action, nat)>)
    ensures var q := Run(Init(), queueFua, run);
            q.list0 != [] || q.list1 != [] ==> q.pending != q.running || q.inFlight != []
  {
    hide Run, Durable, ReqOk;
    FromStart(queueFua, run);
  }

  /** A bio is finished once and accounted once, however its sequence went; never before its end. */
  lemma BioFinishedOnce(queueFua: bool, run: seq<(Action, nat)>, r: Rq)
    ensures var q := Run(Init(), queueFua, run);
            && (r in q.reqs ==> r !in q.finished && q.reqs[r].io.ends == [] && q.reqs[r].io.accounted == 0)
            && (r in q.finished ==> |q.finished[r].ends| == 1 && q.finished[r].accounted == 1)
            && (forall j, k :: 0 <= j < k < |q.trace| && q.trace[j].Ended? && q.trace[k].Ended? ==> q.trace[j].rq != q.trace[k].rq)
  {
    hide Run, Durable;
    FromStart(queueFua, run);
    var q := Run(Init(), queueFua, run);
    assert r in q.reqs ==> ReqOk(q.trace, r, q.reqs[r]);
  }

  lemma FirstIn<T>(xs: seq<T>)
    ensures xs == [] || exists x :: x in xs
  {
    if xs != [] {
      assert xs[0] in xs;
    }
  }

  /** When the dispatch queue and the device are idle, every request ever inserted is finished. */
  lemma NothingLeftBehind(queueFua: bool, run: seq<(Action, nat)>, r: Rq)
    requires var q := Run(Init(), queueFua, run); q.head == [] && q.device == {}
    requires exists h, want :: InsertedAt(Run(Init(), queueFua, run).trace, h, r, want)
    ensures r in Run(Init(), queueFua, run).finished
  {
    hide Run, Durable, ReqOk, Finished, BatchOk;
    FromStart(queueFua, run);
    StartIdentified(queueFua, run);
    var q := Run(Init(), queueFua, run);
    assert forall x :: x in q.inFlight ==> DataItem(x) in q.head || DataItem(x) in q.device;
    FirstIn(q.inFlight);
  }
}
