/** The flush sequencer's view of completion, one bio per request, is that of the general code. */
module FlushBio {
  import F = FlushSpec
  import B = BlkUpdate

  function Log(ends: seq<bool>): seq<B.End> {
    seq(|ends|, i requires 0 <= i < |ends| => B.End(0, ends[i]))
  }

  /** A sequenced request with its one bio, whose data is in vecs. */
  function View(io: F.Io, vecs: seq<B.Vec>): B.Request {
    var bios := if io.attached then [B.Bio(0, 0, io.left, vecs, io.uptodate)] else [];
    B.Request(bios, io.dataLen, 0, false, io.flushSeq, Log(io.ends))
  }

  lemma SingleBio(io: F.Io, vecs: seq<B.Vec>, ok: bool, n: nat)
    requires io.left > 0 ==> vecs != []
    ensures var (io', more), rq := F.UpdateRequest(io, ok, n), B.Update(View(io, vecs), n, ok);
            && more == (rq.bios != []) && rq.dataLen == io'.dataLen && rq.ends == Log(io'.ends)
            && (more ==> rq.bios[0].size == io'.left && rq.bios[0].uptodate == io'.uptodate)
  {
    var rq, e := View(io, vecs), B.End(0, io.uptodate && ok);
    assert Log(io.ends + [io.uptodate && ok]) == Log(io.ends) + [e];
    assert Log(io.ends) + [] == Log(io.ends);
    if io.attached && n >= io.left {
      B.HeadWhole(rq.bios, n, ok);
      assert rq.bios[1..] == [] && [e] + [] == [e];
      B.NothingLeft(n - io.left, ok);
    }
  }
}
