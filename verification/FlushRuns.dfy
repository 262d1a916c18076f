/**
 What the flags of a submitted request promise, over every run of the sequencer.

 The steps a request goes through are recorded in the trace as a mask; here they are tied to the
 REQ_FLUSH and REQ_FUA flags and the size it was submitted with.
 */
module FlushRuns {
  import opened Collections
  import opened FlushSpec
  import opened FlushProof

  // ---------------------------------------------------------------- the trace only grows

  lemma ApplyGrows(q: Queue, queueFua: bool, a: Action, now: nat)
    ensures q.trace <= Apply(q, queueFua, a, now).trace
  {
    hide Walk, CompleteSeq, UpdateRequest;
    if Enabled(q, a) {
      match a
      case Submit(r, flush, fua, sectors) =>
        InsertGrows(q, r, Policy(queueFua, flush, fua, sectors), sectors, now);
      case FlushCompleted(ok) =>
        var q1 := q.(running := !q.running, device := q.device - {FlushItem}).Log(FlushDone(ok));
        WalkExtends(q1, q.List(q.running), ok, now);
      case DataCompleted(r, nbytes, ok) =>
        var io := UpdateRequest(q.reqs[r].io, ok, nbytes).0;
        var req := q.reqs[r].(io := AccountDone(io), dataAt := |q.trace|);
        var q1 := q.(reqs := q.reqs[r := req], device := q.device - {DataItem(r)}).Log(DataDone(r, ok));
        CompleteSeqExtends(q1, r, StepMask(Data), ok, now);
      case _ =>
    }
  }

  lemma InsertGrows(q: Queue, r: Rq, want: Mask, sectors: nat, now: nat)
    ensures var q' := Insert(q, r, want, sectors, now);
            && q.trace <= q'.trace
            && (!(want.data && !want.pre && !want.post) ==> InsertedAt(q'.trace, |q.trace|, r, want))
  {
    hide CompleteSeq;
    if !(want.data && !want.pre && !want.post) {
      var q1 := q.(reqs := q.reqs[r := NewReq(want, sectors, |q.trace|)]).Log(Inserted(r, want));
      CompleteSeqExtends(q1, r, want.Complement(), true, now);
    }
  }

  lemma {:induction false} RunGrows(q: Queue, queueFua: bool, run: seq<(Action, nat)>)
    ensures q.trace <= Run(q, queueFua, run).trace
    decreases |run|
  {
    hide Apply;
    if run != [] {
      ApplyGrows(q, queueFua, run[0].0, run[0].1);
      RunGrows(Apply(q, queueFua, run[0].0, run[0].1), queueFua, run[1..]);
    }
  }

  lemma {:induction false} RunSplit(q: Queue, queueFua: bool, run: seq<(Action, nat)>, i: nat)
    requires i <= |run|
    ensures Run(q, queueFua, run) == Run(Run(q, queueFua, run[..i]), queueFua, run[i..])
    decreases i
  {
    hide Apply;
    if i == 0 {
      assert run[..0] == [] && run[0..] == run;
    } else {
      RunSplit(Apply(q, queueFua, run[0].0, run[0].1), queueFua, run[1..], i - 1);
      assert run[..i][1..] == run[1..][..i - 1] && run[i..] == run[1..][i - 1..];
    }
  }

  // ---------------------------------------------------------------- the flags

  /** The state in which step i of a run is taken. */
  function Before(queueFua: bool, run: seq<(Action, nat)>, i: nat): Queue
    requires i < |run|
  {
    Run(Init(), queueFua, run[..i])
  }

  /** Step i submits a new request. */
  ghost predicate SubmitsAt(queueFua: bool, run: seq<(Action, nat)>, i: int, r: Rq, flush: bool, fua: bool, sectors: nat) {
    0 <= i < |run| && run[i].0 == Submit(r, flush, fua, sectors) && Enabled(Before(queueFua, run, i), run[i].0)
  }

  /** A request that only needs its data written goes to the dispatch queue as it is. */
  predicate Plain(queueFua: bool, flush: bool, fua: bool, sectors: nat) {
    sectors > 0 && !flush && (fua ==> queueFua)
  }

  /** The trace of the run from step i on begins with the insertion, for good and once. */
  lemma SubmittedOnce(queueFua: bool, run: seq<(Action, nat)>, i: nat, r: Rq, flush: bool, fua: bool, sectors: nat)
    requires SubmitsAt(queueFua, run, i, r, flush, fua, sectors) && !Plain(queueFua, flush, fua, sectors)
    ensures var tr, h := Run(Init(), queueFua, run).trace, |Before(queueFua, run, i).trace|;
            && InsertedAt(tr, h, r, Policy(queueFua, flush, fua, sectors))
            && (forall k, want :: InsertedAt(tr, k, r, want) ==> k == h)
  {
    var q, want := Before(queueFua, run, i), Policy(queueFua, flush, fua, sectors);
    var q1 := Apply(q, queueFua, run[i].0, run[i].1);
    InsertGrows(q, r, want, sectors, run[i].1);
    hide Insert, Run;
    RunSplit(Init(), queueFua, run, i);
    RunStep(q, queueFua, run[i..]);
    RunGrows(q1, queueFua, run[i..][1..]);
    StartIdentified(queueFua, run);
  }

  lemma RunStep(q: Queue, queueFua: bool, run: seq<(Action, nat)>)
    requires run != []
    ensures Run(q, queueFua, run) == Run(Apply(q, queueFua, run[0].0, run[0].1), queueFua, run[1..])
  {}

  /**
   Durability in terms of the flags.  With REQ_FLUSH neither the data nor the successful end of a
   request comes before a flush issued after its submission has completed without error.  With
   data, its successful end follows the completion of the data; with REQ_FUA on a device without
   FUA, there is a flush in between, issued after the data was done.
   */
  lemma FlagsDurable(queueFua: bool, run: seq<(Action, nat)>, i: nat, r: Rq, flush: bool, fua: bool, sectors: nat, j: nat)
    requires SubmitsAt(queueFua, run, i, r, flush, fua, sectors) && !Plain(queueFua, flush, fua, sectors)
    requires j < |Run(Init(), queueFua, run).trace|
    ensures var tr, at := Run(Init(), queueFua, run).trace, |Before(queueFua, run, i).trace|;
            && (tr[j] == DataQueued(r) ==> at < j && sectors > 0 && (flush ==> Flushed(tr, at, j)))
            && (tr[j] == Ended(r, true) ==>
                  && at < j && (flush ==> Flushed(tr, at, j))
                  && (sectors > 0 ==> exists d :: at < d < j && DataDoneAt(tr, d, r) && (fua && !queueFua ==> Flushed(tr, d, j))))
  {
    hide Run, Flushed;
    FlushDurability(queueFua, run);
    SubmittedOnce(queueFua, run, i, r, flush, fua, sectors);
  }

  /** And no step is waited for that the flags do not ask for. */
  lemma NothingNeedless(queueFua: bool, run: seq<(Action, nat)>, i: nat, r: Rq, flush: bool, fua: bool, sectors: nat)
    requires SubmitsAt(queueFua, run, i, r, flush, fua, sectors) && r in Run(Init(), queueFua, run).reqs
    requires !Plain(queueFua, flush, fua, sectors)
    ensures match CurSeq(Run(Init(), queueFua, run).reqs[r].done)
            case PreFlush => flush
            case Data => sectors > 0
            case PostFlush => fua && !queueFua
            case Done => false
  {
    hide Run, Flushed;
    FromStart(queueFua, run);
    SubmittedOnce(queueFua, run, i, r, flush, fua, sectors);
    var q := Run(Init(), queueFua, run);
    assert ReqOk(q.trace, r, q.reqs[r]);
    hide Durable, Dispatched, Finished, BatchOk;
  }

  /**
   What a submission does at once.  A request is passed on as it is exactly if it is plain; without
   REQ_FLUSH its data is put on the dispatch queue at once, with REQ_FLUSH it is not.
   */
  lemma SubmitOutcome(queueFua: bool, run: seq<(Action, nat)>, i: nat, r: Rq, flush: bool, fua: bool, sectors: nat)
    requires SubmitsAt(queueFua, run, i, r, flush, fua, sectors)
    ensures var q' := Apply(Before(queueFua, run, i), queueFua, run[i].0, run[i].1);
            && (PlainItem(r) in q'.head <==> Plain(queueFua, flush, fua, sectors))
            && (DataItem(r) in q'.head <==> sectors > 0 && !flush && fua && !queueFua)
            && (r in q'.finished <==> sectors == 0 && !flush)
            && (r in q'.List(false) || r in q'.List(true) <==> flush)
  {
    hide Run;
    var q := Before(queueFua, run, i);
    FromStart(queueFua, run[..i]);
    InsertOutcome(q, r, Policy(queueFua, flush, fua, sectors), sectors, run[i].1);
  }

  lemma InsertOutcome(q: Queue, r: Rq, want: Mask, sectors: nat, now: nat)
    requires Inv(q) && Fresh(q, r)
    ensures var q' := Insert(q, r, want, sectors, now);
            && (PlainItem(r) in q'.head <==> want.data && !want.pre && !want.post)
            && (DataItem(r) in q'.head <==> want.data && !want.pre && want.post)
            && (r in q'.finished <==> want == Mask(false, false, false))
            && (r in q'.List(false) || r in q'.List(true) <==> want.pre || (want.post && !want.data))
  {
    hide Inv;
    FreshLists(q, r);
    if !(want.data && !want.pre && !want.post) {
      var req := NewReq(want, sectors, |q.trace|);
      var q1 := q.(reqs := q.reqs[r := Complete(req, want.Complement())]).Log(Inserted(r, want));
      AdvanceOutcome(q1, r, now);
      KickOutcome(Advance(q1, r, true, now), now);
      hide Advance, Kick;
      assert q.reqs[r := req][r := Complete(req, want.Complement())] == q1.reqs;
    }
  }

  lemma FreshLists(q: Queue, r: Rq)
    requires Inv(q) && r !in q.reqs
    ensures Unlist(q, r) == q && r !in q.list0 && r !in q.list1 && DataItem(r) !in q.head
  {
    hide Durable, ReqOk, Finished, BatchOk, Staged;
    assert r !in q.list0 && r !in q.list1 && r !in q.inFlight;
    DelFacts(q.list0, r);
    DelFacts(q.list1, r);
    DelFacts(q.inFlight, r);
  }

  /** Where a request that is on no list goes, by its next step. */
  lemma AdvanceOutcome(q: Queue, r: Rq, now: nat)
    requires r in q.reqs && Unlist(q, r) == q && r !in q.list0 && r !in q.list1
    ensures var q', step := Advance(q, r, true, now), CurSeq(q.reqs[r].done);
            && (forall x :: x in q'.head <==> x in q.head || (x == DataItem(r) && step == Data))
            && (r in q'.finished <==> r in q.finished || step == Done)
            && (r in q'.list0 || r in q'.list1 <==> step == PreFlush || step == PostFlush)
  {
    hide EndRestored, Del;
  }

  /** Over a whole run, too: a request is handed on without a sequence only if it was submitted as a plain one. */
  lemma {:induction false} PlainOnlyIf(queueFua: bool, run: seq<(Action, nat)>, r: Rq)
    requires var q := Run(Init(), queueFua, run); PlainItem(r) in q.head || PlainItem(r) in q.device
    ensures exists i, flush, fua, sectors ::
              SubmitsAt(queueFua, run, i, r, flush, fua, sectors) && Plain(queueFua, flush, fua, sectors)
    decreases |run|
  {
    if run != [] {
      var n := |run| - 1;
      var run0 := run[..n];
      var q, a, now := Run(Init(), queueFua, run0), run[n].0, run[n].1;
      RunSplit(Init(), queueFua, run, n);
      assert run[n..][1..] == [];
      RunStep(q, queueFua, run[n..]);
      hide Run;
      assert Run(Init(), queueFua, run) == Apply(q, queueFua, a, now) by { RunNone(Apply(q, queueFua, a, now), queueFua); }
      if PlainItem(r) in q.head || PlainItem(r) in q.device {
        PlainOnlyIf(queueFua, run0, r);
        var i, flush, fua, sectors :|
          SubmitsAt(queueFua, run0, i, r, flush, fua, sectors) && Plain(queueFua, flush, fua, sectors);
        assert run0[..i] == run[..i];
        assert SubmitsAt(queueFua, run, i, r, flush, fua, sectors);
      } else {
        PlainOrigin(q, queueFua, a, now, r);
        assert SubmitsAt(queueFua, run, n, r, a.flush, a.fua, a.sectors);
      }
    }
  }

  lemma RunNone(q: Queue, queueFua: bool)
    ensures Run(q, queueFua, []) == q
  {}

  /** Only the submission of a plain request puts one on the dispatch queue. */
  lemma PlainOrigin(q: Queue, queueFua: bool, a: Action, now: nat, r: Rq)
    requires PlainItem(r) !in q.head && PlainItem(r) !in q.device
    requires var q' := Apply(q, queueFua, a, now); PlainItem(r) in q'.head || PlainItem(r) in q'.device
    ensures Enabled(q, a) && a.Submit? && a.rq == r && Plain(queueFua, a.flush, a.fua, a.sectors)
  {
    hide CompleteSeq, Walk, UpdateRequest;
    match a
    case Submit(x, flush, fua, sectors) =>
      var want := Policy(queueFua, flush, fua, sectors);
      var q1 := q.(reqs := q.reqs[x := NewReq(want, sectors, |q.trace|)]).Log(Inserted(x, want));
      CompleteSeqPlain(q1, x, want.Complement(), true, now, r);
    case FlushCompleted(ok) =>
      WalkPlain(q.(running := !q.running, device := q.device - {FlushItem}).Log(FlushDone(ok)), q.List(q.running), ok, now, r);
    case DataCompleted(x, nbytes, ok) =>
      if Enabled(q, a) {
        var io := UpdateRequest(q.reqs[x].io, ok, nbytes).0;
        var req := q.reqs[x].(io := AccountDone(io), dataAt := |q.trace|);
        var q1 := q.(reqs := q.reqs[x := req], device := q.device - {DataItem(x)}).Log(DataDone(x, ok));
        CompleteSeqPlain(q1, x, StepMask(Data), ok, now, r);
      }
    case _ =>
  }

  lemma CompleteSeqPlain(q: Queue, x: Rq, m: Mask, ok: bool, now: nat, r: Rq)
    requires x in q.reqs
    ensures var q' := CompleteSeq(q, x, m, ok, now);
            (PlainItem(r) in q'.head <==> PlainItem(r) in q.head) && q'.device == q.device
  {
    hide EndRestored, Del, Kick;
    KickOutcome(Advance(q.(reqs := q.reqs[x := Complete(q.reqs[x], m)]), x, ok, now), now);
  }

  /** A kick changes no list and finishes nothing; it can only put a flush on the dispatch queue. */
  lemma KickOutcome(q: Queue, now: nat)
    ensures var q' := Kick(q, now);
            && q'.list0 == q.list0 && q'.list1 == q.list1 && q'.finished == q.finished && q'.device == q.device
            && (forall x :: x != FlushItem ==> (x in q'.head <==> x in q.head))
  {}

  lemma {:induction false} WalkPlain(q: Queue, batch: seq<Rq>, ok: bool, now: nat, r: Rq)
    ensures var q' := Walk(q, batch, ok, now);
            (PlainItem(r) in q'.head <==> PlainItem(r) in q.head) && q'.device == q.device
    decreases |batch|
  {
    hide CompleteSeq;
    if batch != [] && batch[0] in q.reqs {
      var m := StepMask(CurSeq(q.reqs[batch[0]].done));
      CompleteSeqPlain(q, batch[0], m, ok, now, r);
      WalkPlain(CompleteSeq(q, batch[0], m, ok, now), batch[1..], ok, now, r);
    }
  }

  // ---------------------------------------------------------------- the order of the dispatch queue

  /** h' is h with data put in front of it and flushes or plain requests behind it. */
  ghost predicate Around(h: seq<Item>, h': seq<Item>) {
    exists front, back :: h' == front + h + back && (forall x :: x in front ==> x.DataItem?) && (forall x :: x in back ==> !x.DataItem?)
  }

  lemma AroundStep(h: seq<Item>, front: seq<Item>, back: seq<Item>)
    requires (forall x :: x in front ==> x.DataItem?) && (forall x :: x in back ==> !x.DataItem?)
    ensures Around(h, front + h + back)
  {}

  lemma AroundTrans(a: seq<Item>, b: seq<Item>, c: seq<Item>)
    requires Around(a, b) && Around(b, c)
    ensures Around(a, c)
  {
    var f, g :| b == f + a + g && (forall x :: x in f ==> x.DataItem?) && (forall x :: x in g ==> !x.DataItem?);
    var f', g' :| c == f' + b + g' && (forall x :: x in f' ==> x.DataItem?) && (forall x :: x in g' ==> !x.DataItem?);
    assert c == (f' + f) + a + (g + g');
  }

  lemma CompleteSeqOrder(q: Queue, r: Rq, m: Mask, ok: bool, now: nat)
    requires r in q.reqs
    ensures Around(q.head, CompleteSeq(q, r, m, ok, now).head)
  {
    hide EndRestored, Del;
    var q1 := Advance(q.(reqs := q.reqs[r := Complete(q.reqs[r], m)]), r, ok, now);
    var q2 := Kick(q1, now);
    AroundStep(q.head, [DataItem(r)], []);
    AroundStep(q.head, [], []);
    assert [] + q.head + [] == q.head && [DataItem(r)] + q.head + [] == [DataItem(r)] + q.head;
    AroundStep(q1.head, [], [FlushItem]);
    AroundStep(q1.head, [], []);
    assert [] + q1.head + [] == q1.head && [] + q1.head + [FlushItem] == q1.head + [FlushItem];
    hide Around;
    AroundTrans(q.head, q1.head, q2.head);
  }

  lemma {:induction false} WalkOrder(q: Queue, batch: seq<Rq>, ok: bool, now: nat)
    ensures Around(q.head, Walk(q, batch, ok, now).head)
    decreases |batch|
  {
    if batch == [] || batch[0] !in q.reqs {
      AroundStep(q.head, [], []);
      assert [] + q.head + [] == q.head;
    } else {
      hide CompleteSeq, Around;
      var q1 := CompleteSeq(q, batch[0], StepMask(CurSeq(q.reqs[batch[0]].done)), ok, now);
      CompleteSeqOrder(q, batch[0], StepMask(CurSeq(q.reqs[batch[0]].done)), ok, now);
      WalkOrder(q1, batch[1..], ok, now);
      AroundTrans(q.head, q1.head, Walk(q1, batch[1..], ok, now).head);
    }
  }

  /** What is on the dispatch queue keeps its order: data of a sequence goes in front, flushes and plain requests behind. */
  lemma DispatchOrder(q: Queue, queueFua: bool, a: Action, now: nat)
    requires Enabled(q, a)
    ensures var h := Apply(q, queueFua, a, now).head; if a.Fetch? then q.head == [q.head[0]] + h else Around(q.head, h)
  {
    AroundStep(q.head, [], []);
    assert [] + q.head + [] == q.head;
    hide Walk, CompleteSeq, UpdateRequest, Around;
    match a
    case Submit(r, flush, fua, sectors) =>
      AroundStep(q.head, [], [PlainItem(r)]);
      assert [] + q.head + [PlainItem(r)] == q.head + [PlainItem(r)];
      var want := Policy(queueFua, flush, fua, sectors);
      var q1 := q.(reqs := q.reqs[r := NewReq(want, sectors, |q.trace|)]).Log(Inserted(r, want));
      CompleteSeqOrder(q1, r, want.Complement(), true, now);
    case FlushCompleted(ok) =>
      WalkOrder(q.(running := !q.running, device := q.device - {FlushItem}).Log(FlushDone(ok)), q.List(q.running), ok, now);
    case DataCompleted(r, nbytes, ok) =>
      var io := UpdateRequest(q.reqs[r].io, ok, nbytes).0;
      var req := q.reqs[r].(io := AccountDone(io), dataAt := |q.trace|);
      CompleteSeqOrder(q.(reqs := q.reqs[r := req], device := q.device - {DataItem(r)}).Log(DataDone(r, ok)), r, StepMask(Data), ok, now);
    case _ =>
  }
}
