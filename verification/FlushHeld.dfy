/**
 When a flush is held back: over every run, a flush is issued only while no request executes DATA,
 or when some request has waited for it for FLUSH_PENDING_TIMEOUT.

 `at` gives the time of every event of the trace.
 */
module FlushHeld {
  import opened Collections
  import opened FlushSpec
  import opened FlushProof
  import opened FlushRuns

  /** The data of r was dispatched before j and is not done yet. */
  ghost predicate Executing(tr: seq<Event>, r: Rq, j: int) {
    exists d :: 0 <= d < j <= |tr| && tr[d] == DataQueued(r) && forall m :: d < m < j ==> !(tr[m].DataDone? && tr[m].rq == r)
  }

  /** Event h, the arrival of r or the end of its data, is what r has waited for a flush since. */
  ghost predicate WaitingSince(tr: seq<Event>, h: int, r: Rq, j: int) {
    && 0 <= h < j <= |tr| && (tr[h].Inserted? || tr[h].DataDone?) && tr[h].rq == r
    && forall m :: h < m < j ==> !tr[m].Issued?
  }

  /** Should event j issue a flush, it may. */
  ghost predicate MayIssue(tr: seq<Event>, at: seq<nat>, j: int)
    requires 0 <= j < |tr| <= |at|
  {
    || (forall r :: !Executing(tr, r, j))
    || (exists h, r :: WaitingSince(tr, h, r, j) && at[h] + FLUSH_PENDING_TIMEOUT <= at[j])
  }

  ghost predicate AllHeld(tr: seq<Event>, at: seq<nat>) {
    |tr| <= |at| && forall j :: 0 <= j < |tr| && tr[j].Issued? ==> MayIssue(tr, at, j)
  }

  ghost predicate InFlightIs(inFlight: seq<Rq>, tr: seq<Event>) {
    forall r :: r in inFlight <==> Executing(tr, r, |tr|)
  }

  /** The first request of the pending list has waited since flush_pending_since; the list being walked is exempt. */
  ghost predicate FirstSince(q: Queue, at: seq<nat>, walked: Option<bool>) {
    q.List(q.pending) != [] && walked != Some(q.pending) ==>
      var r := q.List(q.pending)[0];
      && r in q.reqs && WaitingSince(q.trace, WaitsSince(q.reqs[r]), r, |q.trace|) && |q.trace| <= |at|
      && at[WaitsSince(q.reqs[r])] == q.pendingSince
  }

  ghost predicate Held(q: Queue, at: seq<nat>, walked: Option<bool>) {
    AllHeld(q.trace, at) && InFlightIs(q.inFlight, q.trace) && FirstSince(q, at, walked)
  }

  /** The events from `from` up to `to` happened now. */
  ghost predicate Stamped(at: seq<nat>, from: nat, to: nat, now: nat) {
    to <= |at| && forall j :: from <= j < to ==> at[j] == now
  }

  // ---------------------------------------------------------------- one more event

  lemma ExecutingLog(tr: seq<Event>, e: Event, r: Rq)
    ensures Executing(tr + [e], r, |tr| + 1) <==>
              e == DataQueued(r) || (Executing(tr, r, |tr|) && !(e.DataDone? && e.rq == r))
  {
    var tr' := tr + [e];
    if e == DataQueued(r) {
      assert tr'[|tr|] == DataQueued(r);
    } else if Executing(tr, r, |tr|) && !(e.DataDone? && e.rq == r) {
      var d :| 0 <= d < |tr| && tr[d] == DataQueued(r) && forall m :: d < m < |tr| ==> !(tr[m].DataDone? && tr[m].rq == r);
      assert tr'[d] == DataQueued(r);
    }
    if Executing(tr', r, |tr| + 1) {
      var d :| 0 <= d < |tr| + 1 && tr'[d] == DataQueued(r) && forall m :: d < m < |tr| + 1 ==> !(tr'[m].DataDone? && tr'[m].rq == r);
      assert d < |tr| ==> tr[d] == DataQueued(r) && !(tr'[|tr|].DataDone? && tr'[|tr|].rq == r);
      assert forall m :: d < m < |tr| ==> tr'[m] == tr[m];
    }
  }

  lemma ExecutingOlder(tr: seq<Event>, e: Event, r: Rq, j: int)
    requires j <= |tr|
    ensures Executing(tr + [e], r, j) <==> Executing(tr, r, j)
  {
    var tr' := tr + [e];
    assert forall m :: 0 <= m < j ==> tr'[m] == tr[m];
    if Executing(tr', r, j) {
      var d :| 0 <= d < j && tr'[d] == DataQueued(r) && forall m :: d < m < j ==> !(tr'[m].DataDone? && tr'[m].rq == r);
      assert tr[d] == DataQueued(r);
    }
    if Executing(tr, r, j) {
      var d :| 0 <= d < j && tr[d] == DataQueued(r) && forall m :: d < m < j ==> !(tr[m].DataDone? && tr[m].rq == r);
      assert tr'[d] == DataQueued(r);
    }
  }

  lemma WaitingLog(tr: seq<Event>, e: Event, h: int, r: Rq, j: int)
    requires WaitingSince(tr, h, r, j)
    ensures WaitingSince(tr + [e], h, r, j)
    ensures j == |tr| && !e.Issued? ==> WaitingSince(tr + [e], h, r, |tr| + 1)
  {}

  lemma MayIssueLog(tr: seq<Event>, e: Event, at: seq<nat>, j: int)
    requires 0 <= j < |tr| < |at| && MayIssue(tr, at, j)
    ensures MayIssue(tr + [e], at, j)
  {
    if forall r :: !Executing(tr, r, j) {
      forall r ensures !Executing(tr + [e], r, j) {
        ExecutingOlder(tr, e, r, j);
      }
    } else {
      var h, r :| WaitingSince(tr, h, r, j) && at[h] + FLUSH_PENDING_TIMEOUT <= at[j];
      WaitingLog(tr, e, h, r, j);
    }
  }

  lemma HeldLog(tr: seq<Event>, e: Event, at: seq<nat>)
    requires AllHeld(tr, at) && |tr| < |at| && (e.Issued? ==> MayIssue(tr + [e], at, |tr|))
    ensures AllHeld(tr + [e], at)
  {
    hide MayIssue;
    var tr' := tr + [e];
    forall j | 0 <= j < |tr'| && tr'[j].Issued? ensures MayIssue(tr', at, j) {
      if j < |tr| {
        MayIssueLog(tr, e, at, j);
      }
    }
  }

  /** An event that concerns neither the data nor the flush. */
  lemma InFlightLog(inFlight: seq<Rq>, tr: seq<Event>, e: Event)
    requires InFlightIs(inFlight, tr) && !e.DataQueued? && !e.DataDone?
    ensures InFlightIs(inFlight, tr + [e])
  {
    forall r ensures r in inFlight <==> Executing(tr + [e], r, |tr + [e]|) {
      ExecutingLog(tr, e, r);
    }
  }

  lemma FirstSinceLog(q: Queue, e: Event, at: seq<nat>, walked: Option<bool>)
    requires FirstSince(q, at, walked) && !e.Issued? && |q.trace| < |at|
    ensures FirstSince(q.Log(e), at, walked)
  {
    hide WaitingSince;
    if q.List(q.pending) != [] && walked != Some(q.pending) {
      var r := q.List(q.pending)[0];
      WaitingLog(q.trace, e, WaitsSince(q.reqs[r]), r, |q.trace|);
      assert |q.Log(e).trace| == |q.trace| + 1;
    }
  }

  // ---------------------------------------------------------------- kicking a flush

  /** While a list is walked it is not the running one; otherwise the list that is not pending is idle. */
  ghost predicate Idle(q: Queue, walked: Option<bool>) {
    if walked.Some? then q.running != walked.value else q.pending == q.running ==> q.List(!q.pending) == []
  }

  lemma KickHeld(q: Queue, at: seq<nat>, now: nat, walked: Option<bool>)
    requires Held(q, at, walked) && Idle(q, walked) && Stamped(at, |q.trace|, |Kick(q, now).trace|, now)
    ensures Held(Kick(q, now), at, walked)
  {
    var q' := Kick(q, now);
    if q' != q {
      var tr := q.trace;
      assert q'.trace == tr + [Issued] && at[|tr|] == now;
      KickAllowed(q, at, now, walked);
      hide MayIssue;
      HeldLog(tr, Issued, at);
      InFlightLog(q.inFlight, tr, Issued);
      assert FirstSince(q', at, walked);
    }
  }

  lemma KickAllowed(q: Queue, at: seq<nat>, now: nat, walked: Option<bool>)
    requires InFlightIs(q.inFlight, q.trace) && FirstSince(q, at, walked) && Idle(q, walked) && Kick(q, now) != q
    requires |q.trace| < |at| && at[|q.trace|] == now
    ensures MayIssue(q.trace + [Issued], at, |q.trace|)
  {
    var tr := q.trace;
    if q.inFlight == [] {
      forall r ensures !Executing(tr + [Issued], r, |tr|) {
        ExecutingOlder(tr, Issued, r, |tr|);
        assert r !in q.inFlight;
      }
    } else {
      var r := q.List(q.pending)[0];
      WaitingLog(tr, Issued, WaitsSince(q.reqs[r]), r, |tr|);
    }
  }

  // ---------------------------------------------------------------- one request moves on

  /** r is off the dispatch queue, and on no list but the one being walked. */
  ghost predicate Loose(q: Queue, r: Rq, walked: Option<bool>) {
    && NoDup(q.list0) && NoDup(q.list1) && NoDup(q.inFlight)
    && (walked != Some(false) ==> r !in q.list0) && (walked != Some(true) ==> r !in q.list1)
  }

  lemma AdvanceHeld(q: Queue, at: seq<nat>, r: Rq, ok: bool, now: nat, walked: Option<bool>)
    requires r in q.reqs && Loose(q, r, walked) && AllHeld(q.trace, at) && FirstSince(q, at, walked)
    requires InFlightIs(Del(q.inFlight, r), q.trace)
    requires var step := CurSeq(q.reqs[r].done);
             ok && (step == PreFlush || step == PostFlush) ==>
               walked.None? && WaitingSince(q.trace, WaitsSince(q.reqs[r]), r, |q.trace|) && at[WaitsSince(q.reqs[r])] == now
    requires |Advance(q, r, ok, now).trace| <= |at|
    ensures Held(Advance(q, r, ok, now), at, walked)
  {
    var q0, step := Unlist(q, r), if ok then CurSeq(q.reqs[r].done) else Done;
    UnlistHeld(q, at, r, walked);
    hide Unlist, EndRestored, Loose, AllHeld, InFlightIs, FirstSince;
    match step
    case Data => DataHeld(q0, at, r, walked);
    case Done => EndHeld(q0, at, r, q.reqs[r].io, ok, walked);
    case PreFlush => WaitHeld(q, at, r, now);
    case PostFlush => WaitHeld(q, at, r, now);
  }

  lemma UnlistHeld(q: Queue, at: seq<nat>, r: Rq, walked: Option<bool>)
    requires Loose(q, r, walked) && AllHeld(q.trace, at) && FirstSince(q, at, walked) && InFlightIs(Del(q.inFlight, r), q.trace)
    ensures var q0 := Unlist(q, r);
            Held(q0, at, walked) && q0.trace == q.trace && q0.reqs == q.reqs && q0.finished == q.finished
    ensures walked != Some(q.pending) ==> r !in q.List(q.pending) && Unlist(q, r).List(q.pending) == q.List(q.pending)
  {
    DelFacts(q.list0, r);
    DelFacts(q.list1, r);
    hide Del, NoDup, AllHeld, InFlightIs, WaitingSince;
  }

  lemma DataHeld(q: Queue, at: seq<nat>, r: Rq, walked: Option<bool>)
    requires Held(q, at, walked) && |q.trace| < |at|
    ensures Held(q.(inFlight := q.inFlight + [r], head := [DataItem(r)] + q.head).Log(DataQueued(r)), at, walked)
  {
    HeldLog(q.trace, DataQueued(r), at);
    FirstSinceLog(q, DataQueued(r), at, walked);
    QueuedInFlight(q.inFlight, q.trace, r);
    hide AllHeld, InFlightIs, WaitingSince;
  }

  lemma EndHeld(q: Queue, at: seq<nat>, r: Rq, io: Io, ok: bool, walked: Option<bool>)
    requires Held(q, at, walked) && |q.trace| < |at| && (walked != Some(q.pending) ==> r !in q.List(q.pending))
    ensures var io' := EndRestored(io, ok);
            Held(q.(reqs := q.reqs - {r}, finished := q.finished[r := io']).Log(Ended(r, io'.uptodate)), at, walked)
  {
    hide EndRestored;
    var e := Ended(r, EndRestored(io, ok).uptodate);
    HeldLog(q.trace, e, at);
    FirstSinceLog(q, e, at, walked);
    InFlightLog(q.inFlight, q.trace, e);
    hide AllHeld, InFlightIs, WaitingSince;
  }

  lemma WaitHeld(q: Queue, at: seq<nat>, r: Rq, now: nat)
    requires r in q.reqs && Held(Unlist(q, r), at, None) && Unlist(q, r).List(q.pending) == q.List(q.pending)
    requires WaitingSince(q.trace, WaitsSince(q.reqs[r]), r, |q.trace|) && |q.trace| <= |at| && at[WaitsSince(q.reqs[r])] == now
    ensures Held(WaitForFlush(q, r, now), at, None)
  {
    hide Del, AllHeld, InFlightIs, WaitingSince;
  }

  lemma QueuedInFlight(inFlight: seq<Rq>, tr: seq<Event>, r: Rq)
    requires InFlightIs(inFlight, tr)
    ensures InFlightIs(inFlight + [r], tr + [DataQueued(r)])
  {
    forall x ensures x in inFlight + [r] <==> Executing(tr + [DataQueued(r)], x, |tr + [DataQueued(r)]|) {
      ExecutingLog(tr, DataQueued(r), x);
    }
  }

  /** The step a request is at, after part of its sequence was completed, lets it wait from now on. */
  ghost predicate WaitsFromNow(q: Queue, at: seq<nat>, r: Rq, req: Req, now: nat) {
    && 0 <= WaitsSince(req) < |at| && WaitingSince(q.trace, WaitsSince(req), r, |q.trace|) && at[WaitsSince(req)] == now
  }

  lemma CompleteSeqHeld(q: Queue, at: seq<nat>, r: Rq, m: Mask, ok: bool, now: nat, walked: Option<bool>)
    requires r in q.reqs && Loose(q, r, walked) && Idle(q, walked) && AllHeld(q.trace, at) && FirstSince(q, at, walked)
    requires InFlightIs(Del(q.inFlight, r), q.trace)
    requires var req := Complete(q.reqs[r], m);
             ok && (CurSeq(req.done) == PreFlush || CurSeq(req.done) == PostFlush) ==> walked.None? && WaitsFromNow(q, at, r, req, now)
    requires Stamped(at, |q.trace|, |CompleteSeq(q, r, m, ok, now).trace|, now)
    ensures Held(CompleteSeq(q, r, m, ok, now), at, walked)
  {
    var q1 := q.(reqs := q.reqs[r := Complete(q.reqs[r], m)]);
    var q2 := Advance(q1, r, ok, now);
    assert FirstSince(q1, at, walked) by { hide WaitingSince, AllHeld, InFlightIs; }
    hide WaitingSince, AllHeld, InFlightIs, FirstSince, Del, EndRestored, NoDup;
    AdvanceTrace(q1, r, ok, now);
    KickTrace(q2, now);
    AdvanceIdle(q1, r, ok, now, walked);
    hide Advance, Kick;
    AdvanceHeld(q1, at, r, ok, now, walked);
    KickHeld(q2, at, now, walked);
  }

  lemma AdvanceTrace(q: Queue, r: Rq, ok: bool, now: nat)
    requires r in q.reqs
    ensures q.trace <= Advance(q, r, ok, now).trace
  {
    hide EndRestored, Del;
  }

  lemma KickTrace(q: Queue, now: nat)
    ensures q.trace <= Kick(q, now).trace
  {}

  lemma AdvanceIdle(q: Queue, r: Rq, ok: bool, now: nat, walked: Option<bool>)
    requires r in q.reqs && Idle(q, walked)
    ensures Idle(Advance(q, r, ok, now), walked)
  {
    hide EndRestored;
  }

  // ---------------------------------------------------------------- the actions

  lemma LooseIn(q: Queue, r: Rq, walked: Option<bool>)
    requires Placed(q) && (walked.Some? ==> r !in q.List(!walked.value) && r !in q.inFlight)
    requires walked.None? ==> r in q.inFlight || r !in q.reqs
    ensures Loose(q, r, walked) && (r !in q.inFlight ==> Del(q.inFlight, r) == q.inFlight)
  {
    DelFacts(q.inFlight, r);
  }

  lemma {:induction false} WalkHeld(q: Queue, at: seq<nat>, idx: bool, batch: seq<Rq>, ok: bool, now: nat)
    requires Core(q) && Walking(q, idx, batch, ok) && Held(q, at, Some(idx))
    requires Stamped(at, |q.trace|, |Walk(q, batch, ok, now).trace|, now)
    ensures Held(Walk(q, batch, ok, now), at, None)
    decreases |batch|
  {
    hide Core, Walking, CompleteSeq, Loose, Held, NoStall, Idle, Extends;
    if batch == [] {
      WalkOver(q, at, idx, ok);
    } else {
      WalkRequest(q, idx, batch, ok);
      WalkStep(q, idx, batch, ok, now);
      var r := batch[0];
      var m := StepMask(CurSeq(q.reqs[r].done));
      var q' := CompleteSeq(q, r, m, ok, now);
      StampedParts(q, at, batch, ok, now);
      HeldParts(q, at, Some(idx));
      CompleteSeqHeld(q, at, r, m, ok, now, Some(idx));
      WalkHeld(q', at, idx, batch[1..], ok, now);
    }
  }

  lemma HeldParts(q: Queue, at: seq<nat>, walked: Option<bool>)
    requires Held(q, at, walked)
    ensures AllHeld(q.trace, at) && InFlightIs(q.inFlight, q.trace) && FirstSince(q, at, walked)
  {}

  /** At the end of the walk the list is empty. */
  lemma WalkOver(q: Queue, at: seq<nat>, idx: bool, ok: bool)
    requires Walking(q, idx, [], ok) && Held(q, at, Some(idx))
    ensures Held(q, at, None)
  {
    hide AllHeld, InFlightIs, WaitingSince, Flushed;
  }

  lemma StampedParts(q: Queue, at: seq<nat>, batch: seq<Rq>, ok: bool, now: nat)
    requires batch != [] && batch[0] in q.reqs && Stamped(at, |q.trace|, |Walk(q, batch, ok, now).trace|, now)
    ensures var q' := CompleteSeq(q, batch[0], StepMask(CurSeq(q.reqs[batch[0]].done)), ok, now);
            && Stamped(at, |q.trace|, |q'.trace|, now)
            && Stamped(at, |q'.trace|, |Walk(q', batch[1..], ok, now).trace|, now)
  {
    var m := StepMask(CurSeq(q.reqs[batch[0]].done));
    hide CompleteSeq;
    CompleteSeqExtends(q, batch[0], m, ok, now);
    WalkExtends(CompleteSeq(q, batch[0], m, ok, now), batch[1..], ok, now);
  }

  lemma WalkRequest(q: Queue, idx: bool, batch: seq<Rq>, ok: bool)
    requires Core(q) && Walking(q, idx, batch, ok) && batch != []
    ensures var r := batch[0];
            && r in q.reqs && Loose(q, r, Some(idx)) && Idle(q, Some(idx)) && Del(q.inFlight, r) == q.inFlight
            && var step := CurSeq(Complete(q.reqs[r], StepMask(CurSeq(q.reqs[r].done))).done);
               ok ==> step == Data || step == Done
  {
    BatchRequest(q, idx, batch, ok);
    LooseIn(q, batch[0], Some(idx));
    if ok {
      assert batch[0] in batch;
      hide Core, ReqOk, Flushed, Loose;
      BatchRequestFlushed(q.trace, batch[0], q.reqs[batch[0]]);
    }
  }

  lemma FlushEndHeld(q: Queue, at: seq<nat>, ok: bool, now: nat)
    requires Inv(q) && FlushItem in q.device && Held(q, at, None) && Stamped(at, |q.trace|, |FlushEnd(q, ok, now).trace|, now)
    ensures Held(FlushEnd(q, ok, now), at, None)
  {
    FlushEndWalking(q, ok);
    hide Inv, Core, Walk, Walking, Held;
    var q1 := q.(running := !q.running, device := q.device - {FlushItem}).Log(FlushDone(ok));
    WalkExtends(q1, q.List(q.running), ok, now);
    FlushDoneHeld(q, at, ok);
    WalkHeld(q1, at, q.running, q.List(q.running), ok, now);
  }

  lemma FlushDoneHeld(q: Queue, at: seq<nat>, ok: bool)
    requires Held(q, at, None) && |q.trace| < |at|
    ensures Held(q.(running := !q.running, device := q.device - {FlushItem}).Log(FlushDone(ok)), at, Some(q.running))
  {
    var e := FlushDone(ok);
    HeldLog(q.trace, e, at);
    InFlightLog(q.inFlight, q.trace, e);
    FirstSinceLog(q, e, at, None);
    hide AllHeld, InFlightIs, WaitingSince;
  }

  lemma DoneInFlight(inFlight: seq<Rq>, tr: seq<Event>, r: Rq, ok: bool)
    requires NoDup(inFlight) && InFlightIs(inFlight, tr)
    ensures InFlightIs(Del(inFlight, r), tr + [DataDone(r, ok)])
  {
    DelFacts(inFlight, r);
    var tr' := tr + [DataDone(r, ok)];
    forall x ensures x in Del(inFlight, r) <==> Executing(tr', x, |tr'|) {
      ExecutingLog(tr, DataDone(r, ok), x);
    }
  }

  lemma DataEndHeld(q: Queue, at: seq<nat>, r: Rq, nbytes: nat, ok: bool, now: nat)
    requires Inv(q) && r in q.reqs && DataItem(r) in q.device && Held(q, at, None)
    requires Stamped(at, |q.trace|, |DataEnd(q, r, nbytes, ok, now).trace|, now)
    ensures Held(DataEnd(q, r, nbytes, ok, now), at, None)
  {
    DataRequest(q, r);
    hide Inv, UpdateRequest, CompleteSeq, AllHeld, InFlightIs, Loose, Idle, WaitingSince;
    var (io, more) := UpdateRequest(q.reqs[r].io, ok, nbytes);
    if more {
      assert FirstSince(q.(reqs := q.reqs[r := q.reqs[r].(io := io)]), at, None);
    } else {
      hide FirstSince;
      var e, req := DataDone(r, ok), q.reqs[r].(io := AccountDone(io), dataAt := |q.trace|);
      var q1 := q.(reqs := q.reqs[r := req], device := q.device - {DataItem(r)}).Log(e);
      CompleteSeqExtends(q1, r, StepMask(Data), ok, now);
      assert |q.trace| < |at| && at[|q.trace|] == now;
      DataDoneHeld(q, at, r, req, ok, now);
      CompleteSeqHeld(q1, at, r, StepMask(Data), ok, now, None);
    }
  }

  lemma DataRequest(q: Queue, r: Rq)
    requires Inv(q) && r in q.reqs && DataItem(r) in q.device
    ensures Loose(q, r, None) && Idle(q, None) && NoDup(q.inFlight) && q.reqs[r].done.pre
  {
    assert r in q.inFlight;
    InFlightRequest(q, r);
    LooseIn(q, r, None);
    hide Durable, ReqOk, Finished, BatchOk, Dispatched;
  }

  lemma DataDoneHeld(q: Queue, at: seq<nat>, r: Rq, req: Req, ok: bool, now: nat)
    requires r in q.reqs && Loose(q, r, None) && Idle(q, None) && Held(q, at, None) && |q.trace| < |at| && at[|q.trace|] == now
    requires NoDup(q.inFlight) && req.done.pre && req.dataAt == |q.trace|
    ensures var q1 := q.(reqs := q.reqs[r := req], device := q.device - {DataItem(r)}).Log(DataDone(r, ok));
            && Loose(q1, r, None) && Idle(q1, None) && AllHeld(q1.trace, at) && FirstSince(q1, at, None)
            && InFlightIs(Del(q1.inFlight, r), q1.trace) && WaitsFromNow(q1, at, r, Complete(req, StepMask(Data)), now)
  {
    var e := DataDone(r, ok);
    HeldLog(q.trace, e, at);
    FirstSinceLog(q, e, at, None);
    DoneInFlight(q.inFlight, q.trace, r, ok);
    hide AllHeld, InFlightIs;
    var q1 := q.(reqs := q.reqs[r := req], device := q.device - {DataItem(r)}).Log(e);
    assert WaitsFromNow(q1, at, r, Complete(req, StepMask(Data)), now);
    hide WaitingSince;
  }

  lemma InsertHeld(q: Queue, at: seq<nat>, r: Rq, want: Mask, sectors: nat, now: nat)
    requires Inv(q) && Fresh(q, r) && Held(q, at, None) && Stamped(at, |q.trace|, |Insert(q, r, want, sectors, now).trace|, now)
    ensures Held(Insert(q, r, want, sectors, now), at, None)
  {
    if !(want.data && !want.pre && !want.post) {
      LooseIn(q, r, None);
      assert Idle(q, None) && r !in q.inFlight;
      hide Inv, CompleteSeq, AllHeld, InFlightIs, Loose;
      var e, req := Inserted(r, want), NewReq(want, sectors, |q.trace|);
      var q1 := q.(reqs := q.reqs[r := req]).Log(e);
      CompleteSeqExtends(q1, r, want.Complement(), true, now);
      InsertedHeld(q, at, r, req, want, now);
      CompleteSeqHeld(q1, at, r, want.Complement(), true, now, None);
    }
  }

  lemma InsertedHeld(q: Queue, at: seq<nat>, r: Rq, req: Req, want: Mask, now: nat)
    requires Loose(q, r, None) && Idle(q, None) && Held(q, at, None) && |q.trace| < |at| && at[|q.trace|] == now
    requires Del(q.inFlight, r) == q.inFlight && req.insertedAt == req.dataAt == |q.trace|
    ensures var q1 := q.(reqs := q.reqs[r := req]).Log(Inserted(r, want));
            && Loose(q1, r, None) && Idle(q1, None) && AllHeld(q1.trace, at) && FirstSince(q1, at, None)
            && InFlightIs(Del(q1.inFlight, r), q1.trace) && WaitsFromNow(q1, at, r, Complete(req, want.Complement()), now)
  {
    var e := Inserted(r, want);
    HeldLog(q.trace, e, at);
    FirstSinceLog(q, e, at, None);
    InFlightLog(q.inFlight, q.trace, e);
    hide AllHeld, InFlightIs;
    var q1 := q.(reqs := q.reqs[r := req]).Log(e);
    assert WaitsFromNow(q1, at, r, Complete(req, want.Complement()), now);
    hide WaitingSince;
  }

  lemma ApplyHeld(q: Queue, queueFua: bool, at: seq<nat>, a: Action, now: nat)
    requires Inv(q) && Held(q, at, None) && Stamped(at, |q.trace|, |Apply(q, queueFua, a, now).trace|, now)
    ensures Held(Apply(q, queueFua, a, now), at, None)
  {
    hide Inv, Insert, FlushEnd, DataEnd, AllHeld, InFlightIs;
    if Enabled(q, a) {
      match a
      case Submit(r, flush, fua, sectors) => InsertHeld(q, at, r, Policy(queueFua, flush, fua, sectors), sectors, now);
      case FlushCompleted(ok) => FlushEndHeld(q, at, ok, now);
      case DataCompleted(r, nbytes, ok) => DataEndHeld(q, at, r, nbytes, ok, now);
      case _ =>
    }
  }

  // ---------------------------------------------------------------- runs

  /** The times of the events a run adds to the trace of q. */
  function Times(q: Queue, queueFua: bool, run: seq<(Action, nat)>): (at: seq<nat>)
    ensures |q.trace| + |at| == |Run(q, queueFua, run).trace|
    decreases |run|
  {
    if run == [] then []
    else
      var q1 := Apply(q, queueFua, run[0].0, run[0].1);
      ApplyGrows(q, queueFua, run[0].0, run[0].1);
      seq(|q1.trace| - |q.trace|, _ => run[0].1) + Times(q1, queueFua, run[1..])
  }

  lemma {:induction false} RunHeld(q: Queue, queueFua: bool, run: seq<(Action, nat)>, before: seq<nat>)
    requires Inv(q) && |before| == |q.trace| && Held(q, before + Times(q, queueFua, run), None)
    ensures Held(Run(q, queueFua, run), before + Times(q, queueFua, run), None)
    decreases |run|
  {
    if run != [] {
      var at, now := before + Times(q, queueFua, run), run[0].1;
      var q1 := Apply(q, queueFua, run[0].0, now);
      ApplyGrows(q, queueFua, run[0].0, now);
      NextInv(q, queueFua, run[0].0, now);
      hide Inv, Apply, AllHeld, InFlightIs, FirstSince;
      var stamps := seq(|q1.trace| - |q.trace|, _ => now);
      assert at == before + stamps + Times(q1, queueFua, run[1..]);
      assert Stamped(at, |q.trace|, |q1.trace|, now);
      ApplyHeld(q, queueFua, at, run[0].0, now);
      RunHeld(q1, queueFua, run[1..], before + stamps);
    }
  }

  /** C2 and C3: over every run a flush is issued only if no data is executing or somebody has waited long enough. */
  lemma FlushHeldBack(queueFua: bool, run: seq<(Action, nat)>, j: nat)
    requires j < |Run(Init(), queueFua, run).trace| && Run(Init(), queueFua, run).trace[j] == Issued
    ensures MayIssue(Run(Init(), queueFua, run).trace, Times(Init(), queueFua, run), j)
  {
    RunHeldAll(queueFua, run);
    hide Run, Times, MayIssue, InFlightIs, FirstSince;
  }

  lemma RunHeldAll(queueFua: bool, run: seq<(Action, nat)>)
    ensures Held(Run(Init(), queueFua, run), Times(Init(), queueFua, run), None)
  {
    hide Held, Run, Times;
    var at := Times(Init(), queueFua, run);
    assert [] + at == at;
    StartHeld(at);
    FromNothing();
    RunHeld(Init(), queueFua, run, []);
  }

  lemma StartHeld(at: seq<nat>)
    ensures Held(Init(), at, None)
  {}

  lemma FromNothing()
    ensures Inv(Init())
  {}

  // ---------------------------------------------------------------- and no longer than that

  /** The action completes part of some sequence, and so tries to issue a flush. */
  ghost predicate Tries(q: Queue, queueFua: bool, a: Action) {
    && Enabled(q, a)
    && match a
       case Submit(_, flush, fua, sectors) => !Plain(queueFua, flush, fua, sectors)
       case FlushCompleted(_) => true
       case DataCompleted(r, nbytes, ok) => !UpdateRequest(q.reqs[r].io, ok, nbytes).1
       case _ => false
  }

  /** If requests wait and no flush is in flight, data is, and it has not been long enough. */
  ghost predicate NotOverdue(q: Queue, now: nat) {
    q.List(q.pending) != [] && q.pending == q.running ==> q.inFlight != [] && now < q.pendingSince + FLUSH_PENDING_TIMEOUT
  }

  lemma CompleteSeqNotOverdue(q: Queue, r: Rq, m: Mask, ok: bool, now: nat)
    requires r in q.reqs
    ensures NotOverdue(CompleteSeq(q, r, m, ok, now), now)
  {
    hide Advance;
  }

  lemma {:induction false} WalkNotOverdue(q: Queue, idx: bool, batch: seq<Rq>, ok: bool, now: nat)
    requires Core(q) && Walking(q, idx, batch, ok) && (batch == [] ==> NotOverdue(q, now))
    ensures NotOverdue(Walk(q, batch, ok, now), now)
    decreases |batch|
  {
    hide Core, Walking, CompleteSeq, NoStall, NotOverdue;
    if batch != [] {
      WalkStep(q, idx, batch, ok, now);
      var m := StepMask(CurSeq(q.reqs[batch[0]].done));
      CompleteSeqNotOverdue(q, batch[0], m, ok, now);
      WalkNotOverdue(CompleteSeq(q, batch[0], m, ok, now), idx, batch[1..], ok, now);
    }
  }

  lemma TriesNotOverdue(q: Queue, queueFua: bool, a: Action, now: nat)
    requires Inv(q) && Tries(q, queueFua, a)
    ensures NotOverdue(Apply(q, queueFua, a, now), now)
  {
    hide CompleteSeq, Walk, NotOverdue, UpdateRequest;
    match a
    case Submit(r, flush, fua, sectors) =>
      var want := Policy(queueFua, flush, fua, sectors);
      var q1 := q.(reqs := q.reqs[r := NewReq(want, sectors, |q.trace|)]).Log(Inserted(r, want));
      CompleteSeqNotOverdue(q1, r, want.Complement(), true, now);
    case FlushCompleted(ok) =>
      FlushEndWalking(q, ok);
      hide Inv, Core, Walking;
      WalkNotOverdue(q.(running := !q.running, device := q.device - {FlushItem}).Log(FlushDone(ok)), q.running, q.List(q.running), ok, now);
    case DataCompleted(r, nbytes, ok) =>
      var io := UpdateRequest(q.reqs[r].io, ok, nbytes).0;
      var req := q.reqs[r].(io := AccountDone(io), dataAt := |q.trace|);
      CompleteSeqNotOverdue(q.(reqs := q.reqs[r := req], device := q.device - {DataItem(r)}).Log(DataDone(r, ok)), r, StepMask(Data), ok, now);
  }

  /**
   A flush is not held back longer: after every completion of a part of a sequence, if requests wait
   and no flush is in flight, the data of some request is executing, and the first of those that wait
   has waited for less than the timeout.
   */
  lemma FlushNotOverdue(queueFua: bool, run: seq<(Action, nat)>, a: Action, now: nat)
    requires Tries(Run(Init(), queueFua, run), queueFua, a)
    ensures var q, at := Run(Init(), queueFua, run + [(a, now)]), Times(Init(), queueFua, run + [(a, now)]);
            (q.list0 != [] || q.list1 != []) && FlushItem !in q.head && FlushItem !in q.device ==>
              && (exists r :: Executing(q.trace, r, |q.trace|))
              && q.List(q.pending) != []
              && var r := q.List(q.pending)[0];
                 && r in q.reqs && WaitingSince(q.trace, WaitsSince(q.reqs[r]), r, |q.trace|)
                 && now < at[WaitsSince(q.reqs[r])] + FLUSH_PENDING_TIMEOUT
  {
    var all := run + [(a, now)];
    var q0, q := Run(Init(), queueFua, run), Run(Init(), queueFua, all);
    FromStart(queueFua, run);
    FromStart(queueFua, all);
    RunLast(Init(), queueFua, run, a, now);
    RunHeldAll(queueFua, all);
    hide Run, Apply, Times;
    TriesNotOverdue(q0, queueFua, a, now);
    hide Tries, AllHeld, WaitingSince, Durable, ReqOk, Finished, BatchOk, Placed, Staged;
    if q.inFlight != [] {
      assert q.inFlight[0] in q.inFlight;
    }
  }

  lemma RunLast(q: Queue, queueFua: bool, run: seq<(Action, nat)>, a: Action, now: nat)
    ensures Run(q, queueFua, run + [(a, now)]) == Apply(Run(q, queueFua, run), queueFua, a, now)
  {
    var all := run + [(a, now)];
    RunSplit(q, queueFua, all, |run|);
    assert all[..|run|] == run && all[|run|..] == [(a, now)];
    hide Apply;
    RunStep(Run(q, queueFua, run), queueFua, [(a, now)]);
    assert [(a, now)][1..] == [];
    RunNone(Apply(Run(q, queueFua, run), queueFua, a, now), queueFua);
  }
}
