/**
 Completing a request piece by piece: blk_update_request takes a number of bytes off the front of
 the chain of bios, ends the bios that are done and leaves the rest ready for the next piece.
 */
module BlkUpdate {
  datatype Vec = Vec(page: nat, offset: nat, len: nat)

  /** A bio with the vectors it still has to transfer; a dataless one, such as a discard, has none. */
  datatype Bio = Bio(id: nat, sector: nat, size: nat, vecs: seq<Vec>, uptodate: bool)

  /** A call of bio_endio. */
  datatype End = End(id: nat, ok: bool)

  datatype Request = Request(
    bios: seq<Bio>,
    dataLen: nat,
    sector: nat,
    hasSector: bool,     // a file system request or a discard
    flushSeq: bool,      // REQ_FLUSH_SEQ
    ends: seq<End>
  )

  /** The shift by 9 bits that turns bytes into sectors. */
  function Sectors(bytes: nat): nat {
    bytes / 512
  }

  /** A whole number of sectors. */
  predicate Whole(bytes: nat) {
    bytes % 512 == 0
  }

  lemma SectorsAdd(n: nat, m: nat)
    requires Whole(n)
    ensures Sectors(n) + Sectors(m) == Sectors(n + m)
    ensures Whole(n + m) <==> Whole(m)
  {}

  function VecBytes(vecs: seq<Vec>): nat {
    if vecs == [] then 0 else vecs[0].len + VecBytes(vecs[1..])
  }

  function Total(bios: seq<Bio>): nat {
    if bios == [] then 0 else bios[0].size + Total(bios[1..])
  }

  predicate BioOk(b: Bio) {
    && (b.vecs != [] ==> VecBytes(b.vecs) == b.size)
    && (forall i :: 0 <= i < |b.vecs| ==> b.vecs[i].len > 0)
  }

  predicate ChainOk(bios: seq<Bio>) {
    forall i :: 0 <= i < |bios| ==> BioOk(bios[i])
  }

  /** Every bio is a whole number of sectors. */
  predicate Sectored(bios: seq<Bio>) {
    forall i :: 0 <= i < |bios| ==> Whole(bios[i].size)
  }

  predicate Valid(rq: Request) {
    ChainOk(rq.bios) && rq.dataLen == Total(rq.bios)
  }

  // ---------------------------------------------------------------- what one completion does

  function DropVecs(vecs: seq<Vec>, n: nat): seq<Vec> {
    if vecs == [] then []
    else if n >= vecs[0].len then DropVecs(vecs[1..], n - vecs[0].len)
    else [vecs[0].(offset := vecs[0].offset + n, len := vecs[0].len - n)] + vecs[1..]
  }

  /** A bio that is partly done. */
  function Advance(b: Bio, n: nat, ok: bool): Bio
    requires n < b.size
  {
    b.(size := b.size - n, sector := b.sector + Sectors(n), vecs := DropVecs(b.vecs, n), uptodate := b.uptodate && ok)
  }

  /** The chain that is left after n bytes. */
  function Rest(bios: seq<Bio>, n: nat, ok: bool): seq<Bio> {
    if bios == [] then []
    else if n >= bios[0].size then
      (if n == bios[0].size then bios[1..] else Rest(bios[1..], n - bios[0].size, ok))
    else if n == 0 || bios[0].vecs == [] then bios
    else [Advance(bios[0], n, ok)] + bios[1..]
  }

  /** The bios that n bytes finish. */
  function Ended(bios: seq<Bio>, n: nat, ok: bool): seq<End> {
    if bios == [] || n < bios[0].size then []
    else [End(bios[0].id, bios[0].uptodate && ok)] + (if n == bios[0].size then [] else Ended(bios[1..], n - bios[0].size, ok))
  }

  /** total_bytes: how many of the n bytes are used. */
  function Used(bios: seq<Bio>, n: nat): nat {
    if bios == [] then 0
    else if n >= bios[0].size then bios[0].size + (if n == bios[0].size then 0 else Used(bios[1..], n - bios[0].size))
    else if bios[0].vecs == [] then 0
    else n
  }

  /** blk_update_request. */
  function Update(rq: Request, n: nat, ok: bool): Request {
    var bios := Rest(rq.bios, n, ok);
    var used := Used(rq.bios, n);
    var rq' := rq.(bios := bios, ends := if rq.flushSeq then rq.ends else rq.ends + Ended(rq.bios, n, ok));
    if rq.bios == [] then rq
    else if bios == [] then rq'.(dataLen := 0)
    else rq'.(dataLen := if used <= rq.dataLen then rq.dataLen - used else 0,
              sector := if rq.hasSector then rq.sector + Sectors(used) else rq.sector)
  }

  // ---------------------------------------------------------------- vectors

  lemma {:induction false} DropVecsBytes(vecs: seq<Vec>, n: nat)
    requires n < VecBytes(vecs) && forall i :: 0 <= i < |vecs| ==> vecs[i].len > 0
    ensures DropVecs(vecs, n) != [] && VecBytes(DropVecs(vecs, n)) == VecBytes(vecs) - n
    ensures forall i :: 0 <= i < |DropVecs(vecs, n)| ==> DropVecs(vecs, n)[i].len > 0
  {
    if n >= vecs[0].len {
      DropVecsBytes(vecs[1..], n - vecs[0].len);
    } else {
      var v := vecs[0].(offset := vecs[0].offset + n, len := vecs[0].len - n);
      assert ([v] + vecs[1..])[1..] == vecs[1..];
    }
  }

  lemma {:induction false} DropVecsTwice(vecs: seq<Vec>, n1: nat, n2: nat)
    ensures DropVecs(DropVecs(vecs, n1), n2) == DropVecs(vecs, n1 + n2)
  {
    if vecs != [] {
      if n1 >= vecs[0].len {
        DropVecsTwice(vecs[1..], n1 - vecs[0].len, n2);
      } else {
        var v := vecs[0].(offset := vecs[0].offset + n1, len := vecs[0].len - n1);
        assert ([v] + vecs[1..])[1..] == vecs[1..];
      }
    }
  }

  lemma AdvanceOk(b: Bio, n: nat, ok: bool)
    requires BioOk(b) && n < b.size && b.vecs != []
    ensures BioOk(Advance(b, n, ok)) && Advance(b, n, ok).vecs != []
  {
    DropVecsBytes(b.vecs, n);
  }

  lemma AdvanceTwice(b: Bio, n1: nat, n2: nat, ok: bool)
    requires n1 + n2 < b.size && Whole(n1)
    ensures Advance(Advance(b, n1, ok), n2, ok) == Advance(b, n1 + n2, ok)
  {
    DropVecsTwice(b.vecs, n1, n2);
    SectorsAdd(n1, n2);
    hide Sectors;
  }

  // ---------------------------------------------------------------- the chain

  /** Nothing is lost or ended twice: what is used and what is left make up the chain. */
  lemma {:induction false} Conserved(bios: seq<Bio>, n: nat, ok: bool)
    requires ChainOk(bios)
    ensures Used(bios, n) + Total(Rest(bios, n, ok)) == Total(bios) && Used(bios, n) <= n
    ensures EndIds(Ended(bios, n, ok)) + Ids(Rest(bios, n, ok)) == Ids(bios)
  {
    if bios != [] {
      if n > bios[0].size {
        Conserved(bios[1..], n - bios[0].size, ok);
        assert Ids(bios) == [bios[0].id] + Ids(bios[1..]);
      } else if 0 < n < bios[0].size && bios[0].vecs != [] {
        assert ([Advance(bios[0], n, ok)] + bios[1..])[1..] == bios[1..];
      }
    }
  }

  function Ids(bios: seq<Bio>): seq<nat> {
    if bios == [] then [] else [bios[0].id] + Ids(bios[1..])
  }

  function EndIds(ends: seq<End>): seq<nat> {
    if ends == [] then [] else [ends[0].id] + EndIds(ends[1..])
  }

  lemma {:induction false} RestOk(bios: seq<Bio>, n: nat, ok: bool)
    requires ChainOk(bios)
    ensures ChainOk(Rest(bios, n, ok))
  {
    if bios != [] {
      if n > bios[0].size {
        RestOk(bios[1..], n - bios[0].size, ok);
      } else if 0 < n < bios[0].size && bios[0].vecs != [] {
        AdvanceOk(bios[0], n, ok);
      }
    }
  }

  /** n bytes end in the middle of a bio without vectors. */
  predicate StopsInDataless(bios: seq<Bio>, n: nat) {
    bios != [] && (if n >= bios[0].size then StopsInDataless(bios[1..], n - bios[0].size) else n > 0 && bios[0].vecs == [])
  }

  /** The first piece ends inside the first bio. */
  lemma HeadTwice(bios: seq<Bio>, n1: nat, n2: nat, ok: bool)
    requires ChainOk(bios) && bios != [] && 0 < n1 < bios[0].size && Whole(n1) && bios[0].vecs != [] && n2 > 0
    ensures Rest(Rest(bios, n1, ok), n2, ok) == Rest(bios, n1 + n2, ok)
    ensures Ended(Rest(bios, n1, ok), n2, ok) == Ended(bios, n1 + n2, ok)
    ensures n1 + Used(Rest(bios, n1, ok), n2) == Used(bios, n1 + n2)
  {
    hide DropVecs, VecBytes, Sectors, Whole;
    var b, tail := Advance(bios[0], n1, ok), bios[1..];
    assert ([b] + tail)[1..] == tail;
    AdvanceOk(bios[0], n1, ok);
    if n1 + n2 < bios[0].size {
      AdvanceTwice(bios[0], n1, n2, ok);
    }
  }

  lemma {:induction false} RestTwice(bios: seq<Bio>, n1: nat, n2: nat, ok: bool)
    requires ChainOk(bios) && Sectored(bios) && Whole(n1) && n2 > 0 && !StopsInDataless(bios, n1)
    ensures Rest(Rest(bios, n1, ok), n2, ok) == Rest(bios, n1 + n2, ok)
    ensures Ended(bios, n1, ok) + Ended(Rest(bios, n1, ok), n2, ok) == Ended(bios, n1 + n2, ok)
    ensures Used(bios, n1) + Used(Rest(bios, n1, ok), n2) == Used(bios, n1 + n2)
  {
    hide Whole, BioOk, Rest, Ended, Used;
    NothingLeft(n1, ok);
    NothingLeft(n2, ok);
    NothingLeft(n1 + n2, ok);
    if bios != [] {
      if n1 >= bios[0].size {
        HeadWhole(bios, n1, ok);
        HeadWhole(bios, n1 + n2, ok);
        if n1 > bios[0].size {
          SectorsAdd(bios[0].size, n1 - bios[0].size);
          RestTwice(bios[1..], n1 - bios[0].size, n2, ok);
        }
      } else {
        HeadPart(bios, n1, ok);
        if n1 > 0 {
          HeadTwice(bios, n1, n2, ok);
        }
      }
    }
  }

  /** Bytes that do not reach the end of the first bio. */
  lemma HeadPart(bios: seq<Bio>, n: nat, ok: bool)
    requires bios != [] && n < bios[0].size && (n == 0 || bios[0].vecs != [])
    ensures Ended(bios, n, ok) == [] && Used(bios, n) == n
    ensures n == 0 ==> Rest(bios, n, ok) == bios
  {}

  /** The bios that are finished are the first ones, each ended with success only if nothing of it has failed. */
  lemma {:induction false} EndedAre(bios: seq<Bio>, n: nat, ok: bool)
    ensures var ended := Ended(bios, n, ok);
            |ended| <= |bios| && forall i :: 0 <= i < |ended| ==> ended[i] == End(bios[i].id, bios[i].uptodate && ok)
  {
    if bios != [] && n > bios[0].size {
      EndedAre(bios[1..], n - bios[0].size, ok);
      var rest := Ended(bios[1..], n - bios[0].size, ok);
      forall i | 1 <= i < |rest| + 1 ensures rest[i - 1] == End(bios[i].id, bios[i].uptodate && ok) {
        assert bios[1..][i - 1] == bios[i];
      }
    }
  }

  /** Of the others, the first may be done in part, and remembers a failure; the rest are as they were. */
  lemma {:induction false} LeftAre(bios: seq<Bio>, n: nat, ok: bool)
    ensures var k, left := |Ended(bios, n, ok)|, Rest(bios, n, ok);
            && k + |left| == |bios|
            && (left != [] ==> left[1..] == bios[k + 1..])
            && (left != [] ==> left[0].id == bios[k].id && left[0].uptodate == (bios[k].uptodate && (ok || left[0] == bios[k])))
  {
    hide DropVecs;
    if bios != [] && n > bios[0].size {
      LeftAre(bios[1..], n - bios[0].size, ok);
      var k := |Ended(bios[1..], n - bios[0].size, ok)|;
      assert k < |bios[1..]| ==> bios[1..][k] == bios[k + 1] && bios[1..][k + 1..] == bios[k + 2..];
    }
  }

  /** No bio is ended while its request is part of a flush sequence; and only a request with a sector of its own has it moved. */
  lemma UpdateMarks(rq: Request, n: nat, ok: bool)
    ensures var rq' := Update(rq, n, ok);
            && rq'.hasSector == rq.hasSector && rq'.flushSeq == rq.flushSeq
            && (rq.flushSeq ==> rq'.ends == rq.ends) && rq.ends <= rq'.ends
            && (!rq.hasSector || rq'.bios == [] ==> rq'.sector == rq.sector)
  {
    hide Rest, Ended, Used, Sectors;
  }

  lemma UpdateOk(rq: Request, n: nat, ok: bool)
    requires Valid(rq)
    ensures Valid(Update(rq, n, ok))
  {
    RestOk(rq.bios, n, ok);
    Conserved(rq.bios, n, ok);
  }

  lemma {:induction false} UsedSectors(bios: seq<Bio>, n: nat)
    requires Sectored(bios) && Whole(n)
    ensures Whole(Used(bios, n))
  {
    hide Whole;
    if bios != [] && n > bios[0].size {
      SectorsAdd(bios[0].size, n - bios[0].size);
      UsedSectors(bios[1..], n - bios[0].size);
      SectorsAdd(bios[0].size, Used(bios[1..], n - bios[0].size));
    } else {
      assert Whole(0) by { SectorsAdd(n, 0); ZeroWhole(); }
    }
  }

  lemma ZeroWhole()
    ensures Whole(0)
  {}

  lemma NothingLeft(n: nat, ok: bool)
    ensures Rest([], n, ok) == [] && Ended([], n, ok) == [] && Used([], n) == 0
  {}

  /**
   Completing n1 and then n2 bytes is completing n1 + n2: the same chain, the same bios ended, the
   same length, and, while anything is left, the same request altogether.
   */
  lemma Additive(rq: Request, n1: nat, n2: nat, ok: bool)
    requires Valid(rq) && Sectored(rq.bios) && Whole(n1) && n2 > 0 && !StopsInDataless(rq.bios, n1)
    ensures SameWork(Update(Update(rq, n1, ok), n2, ok), Update(rq, n1 + n2, ok))
    ensures Update(rq, n1 + n2, ok).bios == [] ==>
              && Update(rq, n1 + n2, ok).sector == rq.sector
              && Update(Update(rq, n1, ok), n2, ok).sector == Update(rq, n1, ok).sector
  {
    hide Rest, Ended, Total, Used, ChainOk, Sectors, Whole;
    RestTwice(rq.bios, n1, n2, ok);
    Conserved(rq.bios, n1, ok);
    Conserved(rq.bios, n1 + n2, ok);
    UsedSectors(rq.bios, n1);
    SectorsAdd(Used(rq.bios, n1), Used(Rest(rq.bios, n1, ok), n2));
    NothingLeft(n2, ok);
  }

  /** Equal, except that the sector of a finished request does not matter. */
  predicate SameWork(r: Request, r': Request) {
    r'.(sector := r.sector) == r && (r.bios != [] ==> r == r')
  }

  /** Stopping inside a dataless bio loses count: the bytes that end the bio do not end it any more. */
  lemma {:induction false} DatalessStalls(bios: seq<Bio>, n1: nat, ok: bool) returns (n2: nat)
    requires Sectored(bios) && Whole(n1) && StopsInDataless(bios, n1)
    ensures n2 > 0 && Whole(n2) && n1 + n2 <= Total(bios)
    ensures |Rest(Rest(bios, n1, ok), n2, ok)| > |Rest(bios, n1 + n2, ok)|
  {
    hide Whole;
    if n1 >= bios[0].size {
      SectorsAdd(bios[0].size, n1 - bios[0].size);
      n2 := DatalessStalls(bios[1..], n1 - bios[0].size, ok);
    } else {
      n2 := bios[0].size - n1;
      SectorsAdd(n1, n2);
    }
  }

  /** Exactly then it does not matter that n1 bytes are completed on their own. */
  lemma AdditiveIff(rq: Request, n1: nat, ok: bool)
    requires Valid(rq) && Sectored(rq.bios) && Whole(n1)
    ensures (forall n2: nat :: n2 > 0 && Whole(n2) && n1 + n2 <= rq.dataLen ==>
               SameWork(Update(Update(rq, n1, ok), n2, ok), Update(rq, n1 + n2, ok)))
            <==> !StopsInDataless(rq.bios, n1)
  {
    if StopsInDataless(rq.bios, n1) {
      var n2 := DatalessStalls(rq.bios, n1, ok);
      assert !SameWork(Update(Update(rq, n1, ok), n2, ok), Update(rq, n1 + n2, ok)) by { hide Used, Total, Ended; NothingLeft(n2, ok); }
    } else {
      forall n2: nat | n2 > 0 && Whole(n2) ensures SameWork(Update(Update(rq, n1, ok), n2, ok), Update(rq, n1 + n2, ok)) {
        Additive(rq, n1, n2, ok);
      }
    }
  }

  // ---------------------------------------------------------------- any number of pieces

  function UpdateAll(rq: Request, ns: seq<nat>, ok: bool): Request
    decreases |ns|
  {
    if ns == [] then rq else UpdateAll(Update(rq, ns[0], ok), ns[1..], ok)
  }

  function Sum(ns: seq<nat>): nat {
    if ns == [] then 0 else ns[0] + Sum(ns[1..])
  }

  predicate Pieces(ns: seq<nat>) {
    forall i :: 0 <= i < |ns| ==> ns[i] > 0 && Whole(ns[i])
  }

  /** No piece, except perhaps the last, ends inside a bio without vectors. */
  predicate NoneStops(bios: seq<Bio>, ns: seq<nat>) {
    forall i :: 0 <= i < |ns| ==> !StopsInDataless(bios, Sum(ns[..i]))
  }

  lemma {:induction false} SumLast(ns: seq<nat>, n: nat)
    ensures Sum(ns + [n]) == Sum(ns) + n
  {
    if ns != [] {
      SumLast(ns[1..], n);
      assert (ns + [n])[1..] == ns[1..] + [n];
    }
  }

  lemma {:induction false} UpdateLast(rq: Request, ns: seq<nat>, n: nat, ok: bool)
    ensures UpdateAll(rq, ns + [n], ok) == Update(UpdateAll(rq, ns, ok), n, ok)
    decreases |ns|
  {
    hide Update;
    if ns == [] {
      assert (ns + [n])[1..] == [];
    } else {
      UpdateLast(Update(rq, ns[0], ok), ns[1..], n, ok);
      assert (ns + [n])[1..] == ns[1..] + [n];
    }
  }

  lemma {:induction false} SumPieces(ns: seq<nat>)
    requires Pieces(ns)
    ensures Whole(Sum(ns))
  {
    if ns != [] {
      SumPieces(ns[1..]);
    }
  }

  /** Requests that differ only in the sector of finished work stay that way. */
  lemma SameWorkUpdate(r: Request, r': Request, n: nat, ok: bool)
    requires SameWork(r, r')
    ensures SameWork(Update(r, n, ok), Update(r', n, ok))
  {}

  /** Completion in pieces is completion in one, unless a piece ends inside a bio without vectors. */
  lemma {:induction false} PiecesAddUp(rq: Request, ns: seq<nat>, ok: bool)
    requires Valid(rq) && Sectored(rq.bios) && Pieces(ns) && ns != [] && NoneStops(rq.bios, ns)
    ensures SameWork(UpdateAll(rq, ns, ok), Update(rq, Sum(ns), ok))
    decreases |ns|
  {
    hide Update, Valid, Rest, Whole;
    var init, n := ns[..|ns| - 1], ns[|ns| - 1];
    assert ns == init + [n];
    SumLast(init, n);
    UpdateLast(rq, init, n, ok);
    if init != [] {
      assert NoneStops(rq.bios, init) by {
        assert forall i :: 0 <= i < |init| ==> init[..i] == ns[..i];
      }
      PiecesAddUp(rq, init, ok);
      SumPieces(init);
      SameWorkUpdate(UpdateAll(rq, init, ok), Update(rq, Sum(init), ok), n, ok);
      assert !StopsInDataless(rq.bios, Sum(ns[..|init|]));
      Additive(rq, Sum(init), n, ok);
    }
  }

  predicate AllData(bios: seq<Bio>) {
    forall i :: 0 <= i < |bios| ==> bios[i].vecs != []
  }

  /** Which never happens to a request whose bios all carry data. */
  lemma {:induction false} DataNeverStops(bios: seq<Bio>, n: nat)
    requires AllData(bios)
    ensures !StopsInDataless(bios, n)
  {
    if bios != [] && n >= bios[0].size {
      DataNeverStops(bios[1..], n - bios[0].size);
    }
  }

  // ---------------------------------------------------------------- where it is on the disk

  /** The sector behind the last of a bio. */
  function EndSector(b: Bio): nat {
    b.sector + Sectors(b.size)
  }

  /** rest are the last bios of a chain, in their places, each ending on the disk where it did. */
  ghost predicate SameEnds(bios: seq<Bio>, rest: seq<Bio>) {
    && |rest| <= |bios|
    && forall i :: 0 <= i < |rest| ==> rest[i].id == bios[|bios| - |rest| + i].id && EndSector(rest[i]) == EndSector(bios[|bios| - |rest| + i])
  }

  lemma EndsOfTail(bios: seq<Bio>, rest: seq<Bio>)
    requires bios != [] && SameEnds(bios[1..], rest)
    ensures SameEnds(bios, rest)
  {
    hide EndSector;
  }

  lemma EndsOfPart(bios: seq<Bio>, n: nat, ok: bool)
    requires bios != [] && n < bios[0].size && Whole(n)
    ensures SameEnds(bios, [Advance(bios[0], n, ok)] + bios[1..])
  {
    hide DropVecs, Sectors, Whole;
    SectorsAdd(n, bios[0].size - n);
  }

  lemma {:induction false} RestEnds(bios: seq<Bio>, n: nat, ok: bool)
    requires Sectored(bios) && Whole(n)
    ensures SameEnds(bios, Rest(bios, n, ok))
  {
    hide SameEnds, Whole, Sectors, DropVecs;
    SameEndsSelf(bios);
    if bios != [] {
      SameEndsSelf(bios[1..]);
      EndsOfTail(bios, bios[1..]);
      if n > bios[0].size {
        SectorsAdd(bios[0].size, n - bios[0].size);
        RestEnds(bios[1..], n - bios[0].size, ok);
        EndsOfTail(bios, Rest(bios, n, ok));
      } else if 0 < n < bios[0].size {
        EndsOfPart(bios, n, ok);
      }
    }
  }

  lemma SameEndsSelf(bios: seq<Bio>)
    ensures SameEnds(bios, bios)
  {}

  /** A request that is not finished ends where it did, and so does every bio of it. */
  lemma EndSectorKept(rq: Request, n: nat, ok: bool)
    requires Valid(rq) && Sectored(rq.bios) && Whole(n) && rq.hasSector && Update(rq, n, ok).bios != []
    ensures var rq' := Update(rq, n, ok);
            && rq'.sector + Sectors(rq'.dataLen) == rq.sector + Sectors(rq.dataLen)
            && SameEnds(rq.bios, rq'.bios)
  {
    hide Rest, Used, Ended, Total, SameEnds, Sectors, Whole;
    RestEnds(rq.bios, n, ok);
    UsedSectors(rq.bios, n);
    Conserved(rq.bios, n, ok);
    SectorsAdd(Used(rq.bios, n), rq.dataLen - Used(rq.bios, n));
    NothingLeft(n, ok);
  }

  // ---------------------------------------------------------------- the bytes themselves

  /** The memory a chain still has to transfer, byte by byte. */
  function VecFlat(vecs: seq<Vec>): seq<(nat, nat)> {
    if vecs == [] then [] else Bytes(vecs[0]) + VecFlat(vecs[1..])
  }

  function Bytes(v: Vec): (s: seq<(nat, nat)>)
    ensures |s| == v.len
  {
    seq(v.len, i requires 0 <= i => (v.page, v.offset + i))
  }

  function Flat(bios: seq<Bio>): seq<(nat, nat)> {
    if bios == [] then [] else VecFlat(bios[0].vecs) + Flat(bios[1..])
  }

  lemma {:induction false} VecFlatLen(vecs: seq<Vec>)
    ensures |VecFlat(vecs)| == VecBytes(vecs)
  {
    if vecs != [] {
      VecFlatLen(vecs[1..]);
    }
  }

  lemma {:induction false} DropVecsFlat(vecs: seq<Vec>, n: nat)
    requires n <= VecBytes(vecs)
    ensures n <= |VecFlat(vecs)| && VecFlat(DropVecs(vecs, n)) == VecFlat(vecs)[n..]
  {
    VecFlatLen(vecs);
    if vecs != [] {
      var v, tail := vecs[0], VecFlat(vecs[1..]);
      if n >= v.len {
        DropVecsFlat(vecs[1..], n - v.len);
        assert (Bytes(v) + tail)[n..] == tail[n - v.len..];
      } else {
        var w := v.(offset := v.offset + n, len := v.len - n);
        assert ([w] + vecs[1..])[1..] == vecs[1..];
        assert Bytes(w) == Bytes(v)[n..];
        assert (Bytes(v) + tail)[n..] == Bytes(v)[n..] + tail;
      }
    }
  }

  lemma {:induction false} FlatLen(bios: seq<Bio>)
    requires ChainOk(bios) && AllData(bios)
    ensures |Flat(bios)| == Total(bios)
  {
    if bios != [] {
      VecFlatLen(bios[0].vecs);
      FlatLen(bios[1..]);
    }
  }

  lemma AdvanceFlat(b: Bio, n: nat, tail: seq<Bio>, ok: bool)
    requires BioOk(b) && b.vecs != [] && n < b.size
    ensures n <= |VecFlat(b.vecs)| && Flat([Advance(b, n, ok)] + tail) == VecFlat(b.vecs)[n..] + Flat(tail)
  {
    DropVecsFlat(b.vecs, n);
    hide DropVecs, VecFlat, VecBytes;
    assert ([Advance(b, n, ok)] + tail)[1..] == tail;
  }

  lemma DropAll<T>(xs: seq<T>, ys: seq<T>, n: int)
    requires |xs| <= n <= |xs| + |ys|
    ensures (xs + ys)[n..] == ys[n - |xs|..]
  {}

  lemma DropSome<T>(xs: seq<T>, ys: seq<T>, n: int)
    requires 0 <= n <= |xs|
    ensures (xs + ys)[n..] == xs[n..] + ys
  {}

  /** What is left to transfer after n bytes is exactly what was to transfer, without the first n. */
  lemma {:induction false} RestBytes(bios: seq<Bio>, n: nat, ok: bool)
    requires ChainOk(bios) && AllData(bios) && n <= Total(bios)
    ensures n <= |Flat(bios)| && Flat(Rest(bios, n, ok)) == Flat(bios)[n..]
  {
    FlatLen(bios);
    if bios != [] {
      hide DropVecs, VecFlat, VecBytes, AllData;
      var b, tail := bios[0], Flat(bios[1..]);
      VecFlatLen(b.vecs);
      AllDataTail(bios);
      if n >= b.size {
        RestBytes(bios[1..], n - b.size, ok);
        DropAll(VecFlat(b.vecs), tail, n);
      } else if n > 0 {
        AdvanceFlat(b, n, bios[1..], ok);
        DropSome(VecFlat(b.vecs), tail, n);
      }
    }
  }

  lemma AllDataTail(bios: seq<Bio>)
    requires bios != [] && AllData(bios)
    ensures bios[0].vecs != [] && AllData(bios[1..])
  {}

  // ---------------------------------------------------------------- in place

  /** blk_rq_cur_bytes. */
  function CurBytes(b: Bio): nat {
    if b.vecs != [] then b.vecs[0].len else b.size
  }

  /** So the branch for a botched request is never taken. */
  lemma NotBotched(rq: Request)
    requires Valid(rq) && rq.bios != []
    ensures CurBytes(rq.bios[0]) <= rq.dataLen
  {}

  /** Where the loop of blk_update_request is. */
  datatype Cursor = Cursor(bios: seq<Bio>, ends: seq<End>, total: nat, nr: nat, bioBytes: nat, nextIdx: nat)

  /** The bytes of the current bio that are still to be accounted for. */
  function Due(c: Cursor): nat {
    c.bioBytes + c.nr
  }

  ghost predicate VecsDone(c: Cursor) {
    if c.bios == [] then c.bioBytes == 0
    else c.nextIdx <= |c.bios[0].vecs| && c.bioBytes == VecBytes(c.bios[0].vecs[..c.nextIdx])
  }

  /** The loop has still to do to c what the call has to do to rq. */
  ghost predicate Towards(rq: Request, n: nat, ok: bool, c: Cursor) {
    && Rest(c.bios, Due(c), ok) == Rest(rq.bios, n, ok)
    && c.bioBytes <= c.total
    && c.total - c.bioBytes + Used(c.bios, Due(c)) == Used(rq.bios, n)
    && c.ends + (if rq.flushSeq then [] else Ended(c.bios, Due(c), ok)) == Update(rq, n, ok).ends
  }

  ghost predicate LoopInv(rq: Request, n: nat, ok: bool, c: Cursor) {
    && ChainOk(c.bios) && VecsDone(c) && Towards(rq, n, ok, c)
    && (c.bioBytes > 0 ==> Due(c) < c.bios[0].size)
  }

  /** The loop is over: only the current bio is still to be brought up to date. */
  ghost predicate Finished(rq: Request, n: nat, ok: bool, c: Cursor) {
    && c.bios != [] && c.ends == Update(rq, n, ok).ends && c.total == Used(rq.bios, n)
    && (c.bioBytes == 0 ==> Rest(rq.bios, n, ok) == c.bios)
    && (c.bioBytes > 0 ==>
          && c.bioBytes < c.bios[0].size && c.nextIdx < |c.bios[0].vecs| && c.nr < c.bios[0].vecs[c.nextIdx].len
          && Rest(rq.bios, n, ok) == [Advance(c.bios[0], c.bioBytes, ok)] + c.bios[1..]
          && DropVecs(c.bios[0].vecs, c.bioBytes) == Shifted(c.bios[0].vecs[c.nextIdx..], c.nr))
  }

  /** The first vector starts r bytes later. */
  function Shifted(vecs: seq<Vec>, r: nat): seq<Vec>
    requires vecs != [] && r < vecs[0].len
  {
    [vecs[0].(offset := vecs[0].offset + r, len := vecs[0].len - r)] + vecs[1..]
  }

  lemma {:induction false} TakeVec(vecs: seq<Vec>, k: nat)
    requires k < |vecs|
    ensures VecBytes(vecs[..k + 1]) == VecBytes(vecs[..k]) + vecs[k].len
    ensures VecBytes(vecs[..k + 1]) <= VecBytes(vecs)
  {
    if k > 0 {
      TakeVec(vecs[1..], k - 1);
      assert vecs[..k + 1][1..] == vecs[1..][..k] && vecs[..k][1..] == vecs[1..][..k - 1];
    } else {
      assert vecs[..1][1..] == [];
    }
  }

  lemma {:induction false} DropToVec(vecs: seq<Vec>, k: nat, r: nat)
    requires k < |vecs| && r < vecs[k].len
    ensures DropVecs(vecs, VecBytes(vecs[..k]) + r) == Shifted(vecs[k..], r)
  {
    if k > 0 {
      DropToVec(vecs[1..], k - 1, r);
      assert vecs[..k][1..] == vecs[1..][..k - 1] && vecs[1..][k - 1..] == vecs[k..];
    }
  }

  lemma HeadWhole(bios: seq<Bio>, n: nat, ok: bool)
    requires bios != [] && n >= bios[0].size
    ensures var tail, m, head := bios[1..], n - bios[0].size, [End(bios[0].id, bios[0].uptodate && ok)];
            && Rest(bios, n, ok) == (if m == 0 then tail else Rest(tail, m, ok))
            && Ended(bios, n, ok) == head + (if m == 0 then [] else Ended(tail, m, ok))
            && Used(bios, n) == bios[0].size + (if m == 0 then 0 else Used(tail, m))
  {}

  /** A whole bio is done, and there is more to do. */
  lemma StepWhole(rq: Request, n: nat, ok: bool, c: Cursor, ends: seq<End>)
    requires LoopInv(rq, n, ok, c) && c.bios != [] && c.nr >= c.bios[0].size
    requires ends == c.ends + (if rq.flushSeq then [] else [End(c.bios[0].id, c.bios[0].uptodate && ok)])
    requires |c.bios| == 1 || c.nr > c.bios[0].size
    ensures LoopInv(rq, n, ok, Cursor(c.bios[1..], ends, c.total + c.bios[0].size, c.nr - c.bios[0].size, 0, 0))
  {
    assert VecBytes([]) == 0;
    hide VecBytes, Update, Rest, Ended, Used, BioOk;
    assert |c.bios| > 1 ==> c.bios[1].vecs[..0] == [];
    HeadWhole(c.bios, c.nr, ok);
    NothingLeft(0, ok);
    JoinEnds(c.ends, c.bios[0], c.bios[1..], c.nr - c.bios[0].size, ok);
  }

  lemma JoinEnds(ends: seq<End>, b: Bio, tail: seq<Bio>, m: nat, ok: bool)
    ensures var e := [End(b.id, b.uptodate && ok)]; ends + (e + Ended(tail, m, ok)) == ends + e + Ended(tail, m, ok)
  {}

  /** A whole bio is done, and with it all of the bytes. */
  lemma ExitAfterBio(rq: Request, n: nat, ok: bool, c: Cursor, ends: seq<End>)
    requires LoopInv(rq, n, ok, c) && |c.bios| > 1 && c.nr == c.bios[0].size
    requires ends == c.ends + (if rq.flushSeq then [] else [End(c.bios[0].id, c.bios[0].uptodate && ok)])
    ensures Finished(rq, n, ok, Cursor(c.bios[1..], ends, c.total + c.bios[0].size, 0, 0, 0))
  {}

  /** The bytes end with a vector. */
  lemma ExitAfterVec(rq: Request, n: nat, ok: bool, c: Cursor)
    requires LoopInv(rq, n, ok, c) && c.bios != [] && c.nr == 0 && c.bioBytes > 0
    ensures Finished(rq, n, ok, c)
  {
    var vecs := c.bios[0].vecs;
    assert vecs[..|vecs|] == vecs;
    assert c.nextIdx < |vecs| by { hide Towards; }
    DropToVec(vecs, c.nextIdx, 0);
    hide VecBytes, DropVecs, Update;
  }

  lemma VecDone(rq: Request, n: nat, ok: bool, c: Cursor)
    requires LoopInv(rq, n, ok, c) && c.bios != [] && c.nr < c.bios[0].size && c.nextIdx < |c.bios[0].vecs|
    requires var vecs := c.bios[0].vecs; vecs[c.nextIdx].len <= c.nr
    requires var vecs := c.bios[0].vecs; VecBytes(vecs[..c.nextIdx + 1]) == VecBytes(vecs[..c.nextIdx]) + vecs[c.nextIdx].len
    ensures var len := c.bios[0].vecs[c.nextIdx].len;
            LoopInv(rq, n, ok, c.(total := c.total + len, nr := c.nr - len, bioBytes := c.bioBytes + len, nextIdx := c.nextIdx + 1))
  {
    hide Rest, Used, Ended, VecBytes, Update;
  }

  /** A whole vector of the current bio is done. */
  lemma StepVec(rq: Request, n: nat, ok: bool, c: Cursor)
    requires LoopInv(rq, n, ok, c) && c.bios != [] && c.nr < c.bios[0].size && c.nextIdx < |c.bios[0].vecs|
    requires c.bios[0].vecs[c.nextIdx].len <= c.nr
    ensures var len := c.bios[0].vecs[c.nextIdx].len;
            var c' := c.(total := c.total + len, nr := c.nr - len, bioBytes := c.bioBytes + len, nextIdx := c.nextIdx + 1);
            if c'.nr == 0 then Finished(rq, n, ok, c') else LoopInv(rq, n, ok, c')
  {
    var b, len := c.bios[0], c.bios[0].vecs[c.nextIdx].len;
    var c' := c.(total := c.total + len, nr := c.nr - len, bioBytes := c.bioBytes + len, nextIdx := c.nextIdx + 1);
    TakeVec(b.vecs, c.nextIdx);
    VecDone(rq, n, ok, c);
    hide LoopInv, Finished;
    if c'.nr == 0 {
      ExitAfterVec(rq, n, ok, c');
    }
  }

  /** The bytes end inside a vector of the current bio. */
  lemma ExitInVec(rq: Request, n: nat, ok: bool, c: Cursor)
    requires LoopInv(rq, n, ok, c) && c.bios != [] && c.nr < c.bios[0].size && c.nextIdx < |c.bios[0].vecs|
    requires c.nr < c.bios[0].vecs[c.nextIdx].len
    ensures Finished(rq, n, ok, c.(total := c.total + c.nr, bioBytes := c.bioBytes + c.nr))
  {
    DropToVec(c.bios[0].vecs, c.nextIdx, c.nr);
    hide VecBytes, DropVecs, Update;
  }

  /** The bytes end inside a bio without vectors. */
  lemma ExitDataless(rq: Request, n: nat, ok: bool, c: Cursor)
    requires LoopInv(rq, n, ok, c) && c.bios != [] && c.nr < c.bios[0].size && c.nextIdx >= |c.bios[0].vecs|
    ensures Finished(rq, n, ok, c)
  {
    var vecs := c.bios[0].vecs;
    assert vecs[..|vecs|] == vecs;
    hide DropVecs, Update;
  }

  class BlkRequest {
    var bios: seq<Bio>
    var dataLen: nat
    var sector: nat
    var hasSector: bool
    var flushSeq: bool
    var ends: seq<End>

    function Model(): Request
      reads this
    {
      Request(bios, dataLen, sector, hasSector, flushSeq, ends)
    }

    /** req_bio_endio. */
    method BioEndio(bio: Bio, nbytes: nat, ok: bool) returns (b: Bio)
      modifies this`ends
      ensures var done := if nbytes > bio.size then bio.size else nbytes;
              && b == bio.(size := bio.size - done, sector := bio.sector + Sectors(done), uptodate := bio.uptodate && ok)
              && ends == old(ends) + (if done == bio.size && !flushSeq then [End(bio.id, bio.uptodate && ok)] else [])
    {
      var uptodate, n := bio.uptodate && ok, nbytes;
      if n > bio.size {
        n := bio.size;
      }
      b := bio.(size := bio.size - n, sector := bio.sector + Sectors(n), uptodate := uptodate);
      if b.size == 0 && !flushSeq {
        ends := ends + [End(b.id, uptodate)];
      }
    }

    /** The loop of blk_update_request over the bios and their vectors. */
    method AdvanceChain(n: nat, ok: bool) returns (total: nat, bioBytes: nat, nextIdx: nat, nr: nat)
      requires Valid(Model())
      modifies this`bios, this`ends
      ensures bios == [] ==> Rest(old(bios), n, ok) == [] && ends == Update(old(Model()), n, ok).ends
      ensures bios != [] ==> Finished(old(Model()), n, ok, Cursor(bios, ends, total, nr, bioBytes, nextIdx))
    {
      hide LoopInv, Finished, Update;
      ghost var rq := Model();
      total, bioBytes, nextIdx, nr := 0, 0, 0, n;
      LoopStart(rq, n, ok);
      while bios != []
        invariant LoopInv(rq, n, ok, Cursor(bios, ends, total, nr, bioBytes, nextIdx))
        decreases |bios|, nr
      {
        var bio := bios[0];
        ghost var c := Cursor(bios, ends, total, nr, bioBytes, nextIdx);
        var nbytes: nat;
        if nr >= bio.size {
          bios := bios[1..];
          nbytes := bio.size;
          var _ := BioEndio(bio, nbytes, ok);
          if |bios| > 0 && nr == nbytes {
            ExitAfterBio(rq, n, ok, c, ends);
          } else {
            StepWhole(rq, n, ok, c, ends);
          }
          nextIdx, bioBytes := 0, 0;
        } else {
          if nextIdx >= |bio.vecs| {
            ExitDataless(rq, n, ok, c);
            break;
          }
          nbytes := bio.vecs[nextIdx].len;
          VecFits(rq, n, ok, c);
          assert nbytes <= bio.size;
          if nbytes > nr {
            ExitInVec(rq, n, ok, c);
            bioBytes := bioBytes + nr;
            total := total + nr;
            break;
          }
          StepVec(rq, n, ok, c);
          nextIdx := nextIdx + 1;
          bioBytes := bioBytes + nbytes;
        }
        total := total + nbytes;
        nr := nr - nbytes;
        if bios != [] && nr <= 0 {
          break;
        }
      }
      if bios == [] {
        LoopEnd(rq, n, ok, Cursor(bios, ends, total, nr, bioBytes, nextIdx));
      }
    }

    /** blk_update_request: false if the request has no more data. */
    method UpdateRequest(n: nat, ok: bool) returns (more: bool)
      requires Valid(Model())
      modifies this
      ensures Model() == Update(old(Model()), n, ok) && Valid(Model())
      ensures more == (bios != [])
    {
      hide Valid, Rest, Used, Ended, DropVecs;
      UpdateOk(Model(), n, ok);
      if bios == [] {
        return false;
      }
      UsedBound(Model(), n, ok);
      var total, bioBytes, nextIdx, nr := AdvanceChain(n, ok);
      if bios == [] {
        dataLen := 0;
        return false;
      }
      if bioBytes > 0 {
        AdvanceHead(bioBytes, nextIdx, nr, ok);
      }
      dataLen := dataLen - total;
      if hasSector {
        sector := sector + Sectors(total);
      }
      NotBotched(Model());
      assert dataLen >= CurBytes(bios[0]);
      more := true;
    }

    /** The first bio is partly done: its size, sector and status, and the vectors it still has. */
    method AdvanceHead(n: nat, nextIdx: nat, nr: nat, ok: bool)
      requires bios != [] && 0 < n < bios[0].size && nextIdx < |bios[0].vecs| && nr < bios[0].vecs[nextIdx].len
      requires DropVecs(bios[0].vecs, n) == Shifted(bios[0].vecs[nextIdx..], nr)
      modifies this`bios, this`ends
      ensures bios == [Advance(old(bios)[0], n, ok)] + old(bios)[1..] && ends == old(ends)
    {
      hide DropVecs;
      var b := BioEndio(bios[0], n, ok);
      b := b.(vecs := Shifted(b.vecs[nextIdx..], nr));
      bios := [b] + bios[1..];
    }
  }

  lemma LoopStart(rq: Request, n: nat, ok: bool)
    requires Valid(rq)
    ensures LoopInv(rq, n, ok, Cursor(rq.bios, rq.ends, 0, n, 0, 0))
  {}

  lemma LoopEnd(rq: Request, n: nat, ok: bool, c: Cursor)
    requires LoopInv(rq, n, ok, c) && c.bios == []
    ensures Rest(rq.bios, n, ok) == [] && c.ends == Update(rq, n, ok).ends
  {}

  lemma VecFits(rq: Request, n: nat, ok: bool, c: Cursor)
    requires LoopInv(rq, n, ok, c) && c.bios != [] && c.nextIdx < |c.bios[0].vecs|
    ensures 0 < c.bios[0].vecs[c.nextIdx].len <= c.bios[0].size
  {
    hide Towards;
    TakeVec(c.bios[0].vecs, c.nextIdx);
  }

  lemma UsedBound(rq: Request, n: nat, ok: bool)
    requires Valid(rq)
    ensures Used(rq.bios, n) <= rq.dataLen
  {
    Conserved(rq.bios, n, ok);
  }
}
