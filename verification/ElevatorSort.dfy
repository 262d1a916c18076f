/**
 The dispatch list of a queue: elv_dispatch_sort walks back over it and puts a request where the
 one-way elevator would serve it, without passing a request it must not overtake.
 */
module ElevatorSort {
  /** `id` numbers the requests in the order in which they arrive at the list. */
  datatype Rq = Rq(id: nat, pos: nat, write: bool, discard: bool, softBarrier: bool, started: bool) {
    predicate Stops() {
      softBarrier || started
    }
    predicate SameKind(p: Rq) {
      write == p.write && discard == p.discard
    }
  }

  /** The one-way order: up from the boundary, then up from the lowest sector to the boundary. */
  predicate Before(boundary: nat, p: Rq, q: Rq) {
    if (p.pos < boundary) == (q.pos < boundary) then p.pos < q.pos else q.pos < boundary
  }

  predicate SameSpot(p: Rq, q: Rq) {
    p.pos == q.pos
  }

  /** r, coming in later, may go in front of p. */
  predicate MayPass(boundary: nat, r: Rq, p: Rq) {
    r.SameKind(p) && !p.Stops() && Before(boundary, r, p)
  }

  /** A stretch of the list in which any request could pass any other. */
  ghost predicate Stretch(xs: seq<Rq>, i: int, j: int)
    requires 0 <= i <= j < |xs|
  {
    forall k :: i <= k <= j ==> xs[k].SameKind(xs[i]) && !xs[k].Stops()
  }

  /** Every stretch is in one-way order. */
  ghost predicate Sorted(boundary: nat, xs: seq<Rq>) {
    forall i, j :: 0 <= i < j < |xs| && Stretch(xs, i, j) ==> !Before(boundary, xs[j], xs[i])
  }

  /** Whoever is in front either came first or was allowed to pass. */
  ghost predicate NoWrongPass(boundary: nat, xs: seq<Rq>) {
    forall i, j :: 0 <= i < j < |xs| ==> xs[i].id < xs[j].id || MayPass(boundary, xs[i], xs[j])
  }

  function Put(xs: seq<Rq>, k: int, r: Rq): seq<Rq>
    requires 0 <= k <= |xs|
  {
    xs[..k] + [r] + xs[k..]
  }

  /** k is where the backward walk for r stops. */
  predicate Place(boundary: nat, xs: seq<Rq>, r: Rq, k: int) {
    && 0 <= k <= |xs|
    && (forall i :: k <= i < |xs| ==> MayPass(boundary, r, xs[i]))
    && (k > 0 ==> !MayPass(boundary, r, xs[k - 1]))
  }

  lemma PlaceUnique(boundary: nat, xs: seq<Rq>, r: Rq, k: int, l: int)
    requires Place(boundary, xs, r, k) && Place(boundary, xs, r, l)
    ensures k == l
  {}

  class DispatchList {
    var queue: seq<Rq>
    var nrSorted: int
    var lastMerge: int      // the id of q->last_merge, or -1
    var endSector: nat

    /** elv_dispatch_sort. */
    method DispatchSort(r: Rq) returns (k: nat)
      modifies this`queue, this`nrSorted, this`lastMerge
      ensures Place(endSector, old(queue), r, k) && queue == Put(old(queue), k, r)
      ensures queue == SortAll(endSector, old(queue), [r])
      ensures nrSorted == old(nrSorted) - 1
      ensures lastMerge == if old(lastMerge) == r.id then -1 else old(lastMerge)
    {
      if lastMerge == r.id {
        lastMerge := -1;
      }
      nrSorted := nrSorted - 1;
      var boundary := endSector;
      k := |queue|;
      while k > 0
        invariant 0 <= k <= |queue|
        invariant forall i :: k <= i < |queue| ==> MayPass(boundary, r, queue[i])
      {
        var pos := queue[k - 1];
        if r.discard != pos.discard {
          break;
        }
        if r.write != pos.write {
          break;
        }
        if pos.softBarrier || pos.started {
          break;
        }
        if r.pos >= boundary {
          if pos.pos < boundary {
            k := k - 1;
            continue;
          }
        } else {
          if pos.pos >= boundary {
            break;
          }
        }
        if r.pos >= pos.pos {
          break;
        }
        k := k - 1;
      }
      PlaceUnique(boundary, queue, r, k, PlaceOf(boundary, queue, r));
      queue := queue[..k] + [r] + queue[k..];
    }
  }

  lemma PutAt(xs: seq<Rq>, k: int, r: Rq, i: int)
    requires 0 <= k <= |xs| && 0 <= i <= |xs|
    ensures Put(xs, k, r)[i] == if i < k then xs[i] else if i == k then r else xs[i - 1]
  {}

  /** A stretch of the new list is a stretch of the old one once r is taken out. */
  lemma StretchBack(xs: seq<Rq>, k: int, r: Rq, i: int, j: int)
    requires 0 <= k <= |xs| && 0 <= i < j <= |xs| && Stretch(Put(xs, k, r), i, j)
    ensures i != k && j != k ==> Stretch(xs, if i < k then i else i - 1, if j < k then j else j - 1)
    ensures i < k == j ==> Stretch(xs, i, k - 1) && xs[k - 1].SameKind(r) && !xs[k - 1].Stops()
  {
    var ys := Put(xs, k, r);
    forall l | 0 <= l < |xs| ensures xs[l] == ys[if l < k then l else l + 1] {}
    assert ys[k] == r;
    assert j == k ==> ys[k].SameKind(ys[i]) && ys[k - 1].SameKind(ys[i]);
  }

  /** Inserting at the place found keeps every stretch of the list in one-way order. */
  lemma KeepsSorted(boundary: nat, xs: seq<Rq>, r: Rq, k: int)
    requires Sorted(boundary, xs) && Place(boundary, xs, r, k)
    ensures Sorted(boundary, Put(xs, k, r))
  {
    var ys := Put(xs, k, r);
    forall i, j | 0 <= i < j < |ys| && Stretch(ys, i, j) ensures !Before(boundary, ys[j], ys[i]) {
      StretchBack(xs, k, r, i, j);
      PutAt(xs, k, r, i);
      PutAt(xs, k, r, j);
      hide Stretch, Put;
      if j == k && i < k - 1 {
        assert !Before(boundary, xs[k - 1], xs[i]);
      }
    }
  }

  /** A request that comes in last passes only those it may pass. */
  lemma KeepsPasses(boundary: nat, xs: seq<Rq>, r: Rq, k: int)
    requires NoWrongPass(boundary, xs) && Place(boundary, xs, r, k)
    requires forall i :: 0 <= i < |xs| ==> xs[i].id < r.id
    ensures NoWrongPass(boundary, Put(xs, k, r))
  {}

  // ---------------------------------------------------------------- any number of requests

  function PlaceOf(boundary: nat, xs: seq<Rq>, r: Rq): (k: nat)
    ensures Place(boundary, xs, r, k)
  {
    WalkBack(boundary, xs, r, |xs|)
  }

  function WalkBack(boundary: nat, xs: seq<Rq>, r: Rq, k: nat): (l: nat)
    requires k <= |xs| && forall i :: k <= i < |xs| ==> MayPass(boundary, r, xs[i])
    ensures Place(boundary, xs, r, l)
  {
    if k > 0 && MayPass(boundary, r, xs[k - 1]) then WalkBack(boundary, xs, r, k - 1) else k
  }

  /** The list after the requests rs arrived at xs one after the other. */
  function SortAll(boundary: nat, xs: seq<Rq>, rs: seq<Rq>): seq<Rq>
    decreases |rs|
  {
    if rs == [] then xs else SortAll(boundary, Put(xs, PlaceOf(boundary, xs, rs[0]), rs[0]), rs[1..])
  }

  ghost predicate Arrivals(rs: seq<Rq>) {
    forall i, j :: 0 <= i < j < |rs| ==> rs[i].id < rs[j].id
  }

  lemma PutMultiset(xs: seq<Rq>, k: int, r: Rq)
    requires 0 <= k <= |xs|
    ensures multiset(Put(xs, k, r)) == multiset(xs) + multiset{r}
  {
    assert xs == xs[..k] + xs[k..];
  }

  lemma StillEarlier(xs: seq<Rq>, rs: seq<Rq>, k: int)
    requires rs != [] && 0 <= k <= |xs| && Arrivals(rs)
    requires forall i, j :: 0 <= i < |xs| && 0 <= j < |rs| ==> xs[i].id < rs[j].id
    ensures |Put(xs, k, rs[0])| == |xs| + 1 && Arrivals(rs[1..])
    ensures forall i, j :: 0 <= i <= |xs| && 0 <= j < |rs| - 1 ==> Put(xs, k, rs[0])[i].id < rs[1..][j].id
  {}

  lemma {:induction false} SortAllOk(boundary: nat, xs: seq<Rq>, rs: seq<Rq>)
    requires Sorted(boundary, xs) && NoWrongPass(boundary, xs) && Arrivals(rs)
    requires forall i, j :: 0 <= i < |xs| && 0 <= j < |rs| ==> xs[i].id < rs[j].id
    ensures var ys := SortAll(boundary, xs, rs);
            Sorted(boundary, ys) && NoWrongPass(boundary, ys) && multiset(ys) == multiset(xs) + multiset(rs)
    decreases |rs|
  {
    if rs != [] {
      hide Sorted, NoWrongPass, Put, PlaceOf;
      var k := PlaceOf(boundary, xs, rs[0]);
      var ys := Put(xs, k, rs[0]);
      KeepsSorted(boundary, xs, rs[0], k);
      KeepsPasses(boundary, xs, rs[0], k);
      PutMultiset(xs, k, rs[0]);
      assert rs == [rs[0]] + rs[1..];
      StillEarlier(xs, rs, k);
      SortAllOk(boundary, ys, rs[1..]);
    }
  }

  /** First in one-way order, then in order of arrival: with distinct ids, a total order. */
  predicate Precedes(boundary: nat, p: Rq, q: Rq) {
    Before(boundary, p, q) || (SameSpot(p, q) && p.id < q.id)
  }

  /** Requests of one kind that stop nobody come out in one-way order, ties in order of arrival. */
  lemma StableSort(boundary: nat, rs: seq<Rq>)
    requires Arrivals(rs) && forall i :: 0 <= i < |rs| ==> rs[i].SameKind(rs[0]) && !rs[i].Stops()
    ensures var ys := SortAll(boundary, [], rs);
            && multiset(ys) == multiset(rs)
            && forall i, j :: 0 <= i < j < |ys| ==> Precedes(boundary, ys[i], ys[j])
  {
    SortAllOk(boundary, [], rs);
    var ys := SortAll(boundary, [], rs);
    assert multiset(ys) == multiset(rs);
    forall i | 0 <= i < |ys| ensures ys[i].SameKind(rs[0]) && !ys[i].Stops() {
      assert ys[i] in multiset(ys);
      assert ys[i] in multiset(rs);
    }
    hide SortAll, Arrivals;
    forall i, j | 0 <= i < j < |ys| ensures Precedes(boundary, ys[i], ys[j]) {
      assert Stretch(ys, i, j);
    }
  }

  lemma SameFirst(boundary: nat, xs: seq<Rq>, ys: seq<Rq>)
    requires multiset(xs) == multiset(ys) && xs != [] && ys != []
    requires forall i, j :: 0 <= i < j < |xs| ==> Precedes(boundary, xs[i], xs[j])
    requires forall i, j :: 0 <= i < j < |ys| ==> Precedes(boundary, ys[i], ys[j])
    ensures xs[0] == ys[0]
  {
    assert xs[0] in multiset(ys) && ys[0] in multiset(xs);
    var i :| 0 <= i < |ys| && ys[i] == xs[0];
    var j :| 0 <= j < |xs| && xs[j] == ys[0];
  }

  /** The order decides the list: there is only one way to list the same requests by it. */
  lemma {:induction false} OneOrder(boundary: nat, xs: seq<Rq>, ys: seq<Rq>)
    requires multiset(xs) == multiset(ys)
    requires forall i, j :: 0 <= i < j < |xs| ==> Precedes(boundary, xs[i], xs[j])
    requires forall i, j :: 0 <= i < j < |ys| ==> Precedes(boundary, ys[i], ys[j])
    ensures xs == ys
    decreases |xs|
  {
    assert |multiset(xs)| == |xs| && |multiset(ys)| == |ys|;
    if xs != [] {
      SameFirst(boundary, xs, ys);
      assert xs == [xs[0]] + xs[1..] && ys == [ys[0]] + ys[1..];
      assert multiset(xs[1..]) == multiset(xs) - multiset{xs[0]};
      assert multiset(ys[1..]) == multiset(ys) - multiset{ys[0]};
      OneOrder(boundary, xs[1..], ys[1..]);
    }
  }
}
