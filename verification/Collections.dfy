/** Optional values, and lists from which members are taken out. */
module Collections {
  datatype Option<T> = None | Some(value: T)

  ghost predicate NoDup<T(!new)>(xs: seq<T>) {
    forall i, j :: 0 <= i < j < |xs| ==> xs[i] != xs[j]
  }

  /** list_del: without the first occurrence of x. */
  function Del<T(==)>(xs: seq<T>, x: T): seq<T> {
    if xs == [] then [] else if xs[0] == x then xs[1..] else [xs[0]] + Del(xs[1..], x)
  }

  lemma {:induction false} DelFacts<T(!new)>(xs: seq<T>, x: T)
    requires NoDup(xs)
    ensures NoDup(Del(xs, x))
    ensures forall y :: y in Del(xs, x) <==> y in xs && y != x
    ensures x !in xs ==> Del(xs, x) == xs
    ensures x in xs ==> |Del(xs, x)| == |xs| - 1
  {
    if xs != [] {
      assert xs == [xs[0]] + xs[1..];
      DelFacts(xs[1..], x);
      var ys := Del(xs[1..], x);
      if xs[0] != x {
        forall i, j | 0 <= i < j < |[xs[0]] + ys| ensures ([xs[0]] + ys)[i] != ([xs[0]] + ys)[j] {
          if i == 0 {
            assert ys[j - 1] in ys;
          }
        }
      }
    }
  }

  lemma {:induction false} DelMultiset<T>(xs: seq<T>, x: T)
    ensures multiset(Del(xs, x)) == multiset(xs) - multiset{x}
  {
    if xs != [] {
      assert xs == [xs[0]] + xs[1..];
      if xs[0] != x {
        DelMultiset(xs[1..], x);
      }
    }
  }
}
