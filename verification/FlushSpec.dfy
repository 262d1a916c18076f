/**
 The FLUSH/FUA sequencer as a state machine over values.

 A request that needs flushing goes through the steps PREFLUSH, DATA and POSTFLUSH it wants.
 Requests waiting for a flush sit on one of two lists: one collects requests for the next flush,
 the other holds the batch whose flush is in flight.  The queue's lists, indices and sequence
 masks are the program's; `trace`, `issuedAt`, `insertedAt` and `dataAt` are history variables
 that record what happened and when, with the length of the trace as the clock.
 */
module FlushSpec {
  import opened Collections

  type Rq = nat // identity of a request

  /** A set of sequence steps: REQ_FSEQ_PREFLUSH, REQ_FSEQ_DATA, REQ_FSEQ_POSTFLUSH. */
  datatype Mask = Mask(pre: bool, data: bool, post: bool) {
    function Union(m: Mask): Mask {
      Mask(pre || m.pre, data || m.data, post || m.post)
    }
    predicate Disjoint(m: Mask) {
      !(pre && m.pre) && !(data && m.data) && !(post && m.post)
    }
    function Complement(): Mask {
      Mask(!pre, !data, !post)
    }
  }

  datatype Step = PreFlush | Data | PostFlush | Done

  /** blk_flush_cur_seq: the lowest step not yet completed. */
  function CurSeq(done: Mask): Step {
    if !done.pre then PreFlush else if !done.data then Data else if !done.post then PostFlush else Done
  }

  function StepMask(step: Step): Mask {
    Mask(step == PreFlush, step == Data, step == PostFlush)
  }

  /** blk_flush_policy on a queue with a write-back cache (REQ_FLUSH). */
  function Policy(queueFua: bool, flush: bool, fua: bool, sectors: nat): Mask {
    Mask(flush, sectors > 0, !queueFua && fua)
  }

  // ---------------------------------------------------------------- completion of one bio

  /** The completion side of a sequenced request, which has exactly one bio. */
  datatype Io = Io(
    attached: bool,      // rq->bio is not NULL
    left: nat,           // bio->bi_size
    dataLen: nat,        // rq->__data_len
    uptodate: bool,      // BIO_UPTODATE
    flushSeq: bool,      // REQ_FLUSH_SEQ
    ends: seq<bool>,     // calls of bio_endio, true for success
    accounted: nat       // completed I/Os accounted for this request
  )

  /** req_bio_endio: the bio is not finished while it is part of a flush sequence. */
  function BioEndio(io: Io, nbytes: nat, ok: bool): Io {
    var left := if nbytes > io.left then 0 else io.left - nbytes;
    var uptodate := io.uptodate && ok;
    io.(left := left, uptodate := uptodate, ends := if left == 0 && !io.flushSeq then io.ends + [uptodate] else io.ends)
  }

  /** blk_update_request for a request with one bio; true if the request has more data. */
  function UpdateRequest(io: Io, ok: bool, nbytes: nat): (Io, bool) {
    if !io.attached then (io, false)
    else if nbytes >= io.left then (BioEndio(io, io.left, ok).(attached := false, dataLen := 0), false)
    else if nbytes == 0 then (io, true)
    else (BioEndio(io, nbytes, ok).(dataLen := if nbytes > io.dataLen then 0 else io.dataLen - nbytes), true)
  }

  /** blk_finish_request up to the end_io call: blk_account_io_done skips flush sequences. */
  function AccountDone(io: Io): Io {
    io.(accounted := if io.flushSeq then io.accounted else io.accounted + 1)
  }

  /** blk_flush_restore_request followed by __blk_end_request_all. */
  function EndRestored(io: Io, ok: bool): Io {
    var restored := io.(attached := true, flushSeq := false);
    AccountDone(UpdateRequest(restored, ok, restored.dataLen).0)
  }

  // ---------------------------------------------------------------- the queue

  datatype Event =
    | Inserted(rq: Rq, want: Mask)
    | Issued                       // a flush request was put on the dispatch queue
    | FlushDone(ok: bool)
    | DataQueued(rq: Rq)           // the data was put on the dispatch queue
    | DataDone(rq: Rq, ok: bool)
    | Ended(rq: Rq, ok: bool)      // the bio was finished

  datatype Item = FlushItem | DataItem(rq: Rq) | PlainItem(rq: Rq)

  datatype Req = Req(want: Mask, done: Mask, io: Io, insertedAt: nat, dataAt: nat)

  /** When the request began to wait for the flush it needs now. */
  function WaitsSince(req: Req): nat {
    if CurSeq(req.done) == PreFlush then req.insertedAt else req.dataAt
  }

  datatype Queue = Queue(
    reqs: map<Rq, Req>,        // requests in the middle of their sequence
    list0: seq<Rq>,            // flush_queue[0]
    list1: seq<Rq>,            // flush_queue[1]
    pending: bool,             // flush_pending_idx
    running: bool,             // flush_running_idx
    inFlight: seq<Rq>,         // flush_data_in_flight
    head: seq<Item>,           // queue_head
    device: set<Item>,         // what the driver has started
    pendingSince: nat,         // flush_pending_since
    issuedAt: nat,
    trace: seq<Event>,
    finished: map<Rq, Io>      // requests whose sequence is over
  ) {
    function List(idx: bool): seq<Rq> {
      if idx then list1 else list0
    }
    function SetList(idx: bool, rqs: seq<Rq>): Queue {
      if idx then this.(list1 := rqs) else this.(list0 := rqs)
    }
    function Log(e: Event): Queue {
      this.(trace := trace + [e])
    }
  }

  const HZ: nat := 1000
  const FLUSH_PENDING_TIMEOUT: nat := 5 * HZ

  function Init(): Queue {
    Queue(map[], [], [], false, false, [], [], {}, 0, 0, [], map[])
  }

  /** blk_kick_flush. */
  function Kick(q: Queue, now: nat): Queue {
    if q.pending != q.running || q.List(q.pending) == [] then q // C1
    else if q.inFlight != [] && now < q.pendingSince + FLUSH_PENDING_TIMEOUT then q // C2 and C3
    else q.(pending := !q.pending, head := q.head + [FlushItem], issuedAt := |q.trace|).Log(Issued)
  }

  /** list_del of rq->flush.list, from whichever list it is on. */
  function Unlist(q: Queue, r: Rq): Queue {
    q.(list0 := Del(q.list0, r), list1 := Del(q.list1, r), inFlight := Del(q.inFlight, r))
  }

  /** The next step of a request whose mask has been updated: the switch of blk_flush_complete_seq. */
  function Advance(q: Queue, r: Rq, ok: bool, now: nat): Queue
    requires r in q.reqs
  {
    match if ok then CurSeq(q.reqs[r].done) else Done
    case PreFlush => WaitForFlush(q, r, now)
    case PostFlush => WaitForFlush(q, r, now)
    case Data =>
      var q1 := Unlist(q, r);
      q1.(inFlight := q1.inFlight + [r], head := [DataItem(r)] + q1.head).Log(DataQueued(r))
    case Done =>
      var io := EndRestored(q.reqs[r].io, ok);
      Unlist(q, r).(reqs := q.reqs - {r}, finished := q.finished[r := io]).Log(Ended(r, io.uptodate))
  }

  function WaitForFlush(q: Queue, r: Rq, now: nat): Queue {
    var since := if q.List(q.pending) == [] then now else q.pendingSince;
    var q1 := Unlist(q, r);
    q1.SetList(q1.pending, q1.List(q1.pending) + [r]).(pendingSince := since)
  }

  function Complete(req: Req, m: Mask): Req {
    req.(done := req.done.Union(m))
  }

  /** blk_flush_complete_seq. */
  function CompleteSeq(q: Queue, r: Rq, m: Mask, ok: bool, now: nat): Queue
    requires r in q.reqs
  {
    Kick(Advance(q.(reqs := q.reqs[r := Complete(q.reqs[r], m)]), r, ok, now), now)
  }

  /** The walk of flush_end_io over the batch whose flush completed. */
  function Walk(q: Queue, batch: seq<Rq>, ok: bool, now: nat): Queue
    decreases |batch|
  {
    if batch == [] || batch[0] !in q.reqs then q
    else Walk(CompleteSeq(q, batch[0], StepMask(CurSeq(q.reqs[batch[0]].done)), ok, now), batch[1..], ok, now)
  }

  /** flush_end_io. */
  function FlushEnd(q: Queue, ok: bool, now: nat): Queue {
    Walk(q.(running := !q.running, device := q.device - {FlushItem}).Log(FlushDone(ok)), q.List(q.running), ok, now)
  }

  /** The driver completes nbytes of a sequenced request's data; flush_data_end_io when all is done. */
  function DataEnd(q: Queue, r: Rq, nbytes: nat, ok: bool, now: nat): Queue
    requires r in q.reqs
  {
    var (io, more) := UpdateRequest(q.reqs[r].io, ok, nbytes);
    if more then q.(reqs := q.reqs[r := q.reqs[r].(io := io)])
    else
      var req := q.reqs[r].(io := AccountDone(io), dataAt := |q.trace|);
      var q1 := q.(reqs := q.reqs[r := req], device := q.device - {DataItem(r)}).Log(DataDone(r, ok));
      CompleteSeq(q1, r, StepMask(Data), ok, now)
  }

  function NewReq(want: Mask, sectors: nat, at: nat): Req {
    Req(want, Mask(false, false, false), Io(true, 512 * sectors, 512 * sectors, true, true, [], 0), at, at)
  }

  /** blk_insert_flush. */
  function Insert(q: Queue, r: Rq, want: Mask, sectors: nat, now: nat): Queue {
    if want.data && !want.pre && !want.post then q.(head := q.head + [PlainItem(r)])
    else
      var q1 := q.(reqs := q.reqs[r := NewReq(want, sectors, |q.trace|)]).Log(Inserted(r, want));
      CompleteSeq(q1, r, want.Complement(), true, now)
  }

  /** The driver takes the first request off the dispatch queue. */
  function Start(q: Queue): Queue
    requires q.head != []
  {
    q.(head := q.head[1..], device := q.device + {q.head[0]})
  }

  function PlainEnd(q: Queue, r: Rq): Queue {
    q.(device := q.device - {PlainItem(r)})
  }

  // ---------------------------------------------------------------- runs

  /** What can happen to the queue; `fua` devices take FUA writes themselves. */
  datatype Action =
    | Submit(rq: Rq, flush: bool, fua: bool, sectors: nat)
    | Fetch
    | FlushCompleted(ok: bool)
    | DataCompleted(rq: Rq, nbytes: nat, ok: bool)
    | PlainCompleted(rq: Rq)

  predicate Fresh(q: Queue, r: Rq) {
    && r !in q.reqs && r !in q.finished && PlainItem(r) !in q.head && PlainItem(r) !in q.device
  }

  predicate Enabled(q: Queue, a: Action) {
    match a
    case Submit(r, flush, fua, sectors) => Fresh(q, r) && (fua ==> sectors > 0)
    case Fetch => q.head != []
    case FlushCompleted(_) => FlushItem in q.device
    case DataCompleted(r, _, _) => DataItem(r) in q.device && r in q.reqs
    case PlainCompleted(r) => PlainItem(r) in q.device
  }

  function Next(q: Queue, queueFua: bool, a: Action, now: nat): Queue
    requires Enabled(q, a)
  {
    match a
    case Submit(r, flush, fua, sectors) => Insert(q, r, Policy(queueFua, flush, fua, sectors), sectors, now)
    case Fetch => Start(q)
    case FlushCompleted(ok) => FlushEnd(q, ok, now)
    case DataCompleted(r, nbytes, ok) => DataEnd(q, r, nbytes, ok, now)
    case PlainCompleted(r) => PlainEnd(q, r)
  }

  function Apply(q: Queue, queueFua: bool, a: Action, now: nat): Queue {
    if Enabled(q, a) then Next(q, queueFua, a, now) else q
  }

  /** The queue after a run of actions at given times; an action that is not possible is ignored. */
  function Run(q: Queue, queueFua: bool, run: seq<(Action, nat)>): Queue
    decreases |run|
  {
    if run == [] then q else Run(Apply(q, queueFua, run[0].0, run[0].1), queueFua, run[1..])
  }
}
