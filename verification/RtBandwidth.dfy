/**
 Real-time bandwidth on the CPUs of one root domain: a run queue that ran out of runtime borrows
 from its neighbours, a run queue that goes offline takes back what it lent (or hands on what it
 borrowed), and one that comes online starts with the group's own runtime.
 */
module RtBandwidth {
  import opened Arithmetic

  /** rt_runtime; RUNTIME_INF marks a disabled run queue. */
  datatype Runtime = Inf | Ns(ns: int)

  /** Per CPU: the runtime its run queue may use in a period, and the time it has used. */
  datatype State = State(runtime: seq<Runtime>, time: seq<nat>) {
    ghost predicate Shaped() {
      |runtime| == |time|
    }
    predicate Enabled(c: int) {
      0 <= c < |runtime| && runtime[c].Ns?
    }
  }

  // ---------------------------------------------------------------- borrowing

  /** What CPU c may take from a lender with `spare` time left: 1/n of it, but no more than its period. */
  function Share(spare: int, weight: int, have: int, period: int): int
    requires weight > 0
  {
    if have + spare / weight > period then period - have else spare / weight
  }

  /** One iteration of do_balance_runtime. */
  function BorrowOne(s: State, c: nat, i: nat, period: nat): State
    requires s.Shaped() && s.Enabled(c) && i < |s.runtime|
  {
    if i == c || !s.Enabled(i) || s.runtime[i].ns <= s.time[i] then s
    else
      var diff := Share(s.runtime[i].ns - s.time[i], |s.runtime|, s.runtime[c].ns, period);
      s.(runtime := s.runtime[i := Ns(s.runtime[i].ns - diff)][c := Ns(s.runtime[c].ns + diff)])
  }

  predicate Lends(s: State, c: nat, i: nat)
    requires s.Shaped() && i < |s.runtime|
  {
    i != c && s.Enabled(i) && s.runtime[i].ns > s.time[i]
  }

  /** do_balance_runtime from CPU i on; it stops as soon as c has its full period. */
  function BorrowFrom(s: State, c: nat, i: nat, period: nat): (s': State)
    requires s.Shaped() && s.Enabled(c)
    ensures s'.Shaped() && s'.Enabled(c) && s'.time == s.time && |s'.runtime| == |s.runtime|
    decreases |s.runtime| - i
  {
    if i >= |s.runtime| then s
    else
      var s1 := BorrowOne(s, c, i, period);
      if Lends(s, c, i) && s1.runtime[c].ns == period then s1 else BorrowFrom(s1, c, i + 1, period)
  }

  // ---------------------------------------------------------------- going offline and online

  /** The greedy reclaim of __disable_runtime from CPU i on: the runtimes and what is still wanted. */
  function ReclaimFrom(rs: seq<Runtime>, c: nat, i: nat, want: int): (r: (seq<Runtime>, int))
    ensures |r.0| == |rs|
    decreases |rs| - i
  {
    if i >= |rs| then (rs, want)
    else if i == c || rs[i].Inf? then ReclaimFrom(rs, c, i + 1, want)
    else
      var diff := if want > 0 && rs[i].ns < want then rs[i].ns else want;
      var rs1 := rs[i := Ns(rs[i].ns - diff)];
      if want == diff then (rs1, 0) else ReclaimFrom(rs1, c, i + 1, want - diff)
  }

  /** What is left wanting when CPU c is disabled: BUG_ON(want) demands that it is nothing. */
  function LeftWanting(rs: seq<Runtime>, c: nat, budget: nat): int
    requires c < |rs|
  {
    if rs[c].Inf? || rs[c] == Ns(budget) then 0 else ReclaimFrom(rs, c, 0, budget - rs[c].ns).1
  }

  /** __disable_runtime. */
  function Disable(s: State, c: nat, budget: nat): State
    requires s.Shaped() && c < |s.runtime|
  {
    var rs := if s.runtime[c].Inf? || s.runtime[c] == Ns(budget) then s.runtime
              else ReclaimFrom(s.runtime, c, 0, budget - s.runtime[c].ns).0;
    s.(runtime := rs[c := Inf])
  }

  /** __enable_runtime. */
  function Enable(s: State, c: nat, budget: nat): State
    requires s.Shaped() && c < |s.runtime|
  {
    s.(runtime := s.runtime[c := Ns(budget)], time := s.time[c := 0])
  }

  // ---------------------------------------------------------------- conservation

  ghost function Sum(rs: seq<Runtime>): int {
    if rs == [] then 0 else (if rs[0].Ns? then rs[0].ns else 0) + Sum(rs[1..])
  }

  ghost function CountEnabled(rs: seq<Runtime>): nat {
    if rs == [] then 0 else (if rs[0].Ns? then 1 else 0) + CountEnabled(rs[1..])
  }

  ghost predicate NonNegative(rs: seq<Runtime>) {
    forall i :: 0 <= i < |rs| && rs[i].Ns? ==> rs[i].ns >= 0
  }

  /** The enabled run queues share exactly what they were given, and none owes anything. */
  ghost predicate Conserved(rs: seq<Runtime>, budget: nat) {
    NonNegative(rs) && Sum(rs) == CountEnabled(rs) * budget
  }

  function Value(r: Runtime): int {
    if r.Ns? then r.ns else 0
  }

  function One(r: Runtime): int {
    if r.Ns? then 1 else 0
  }

  lemma {:induction false} SumUpdate(rs: seq<Runtime>, i: nat, r: Runtime)
    requires i < |rs|
    ensures Sum(rs[i := r]) == Sum(rs) - Value(rs[i]) + Value(r)
    ensures CountEnabled(rs[i := r]) == CountEnabled(rs) - One(rs[i]) + One(r)
  {
    if i == 0 {
      assert rs[i := r][1..] == rs[1..];
    } else {
      SumUpdate(rs[1..], i - 1, r);
      assert rs[i := r][1..] == rs[1..][i - 1 := r];
    }
  }

  lemma {:induction false} SumAtLeast(rs: seq<Runtime>, c: nat)
    requires c < |rs| && NonNegative(rs)
    ensures Sum(rs) >= Value(rs[c]) && CountEnabled(rs) >= One(rs[c])
    ensures 0 <= Sum(rs)
    decreases |rs|
  {
    assert NonNegative(rs[1..]) by {
      assert forall i :: 0 <= i < |rs| - 1 ==> rs[1..][i] == rs[i + 1];
    }
    if |rs| > 1 {
      SumAtLeast(rs[1..], if c == 0 then 0 else c - 1);
    }
  }

  /** When only c holds anything, the sum is what c holds. */
  lemma {:induction false} SumOnly(rs: seq<Runtime>, c: int)
    requires c < |rs| && forall i :: 0 <= i < |rs| && i != c ==> Value(rs[i]) == 0
    ensures Sum(rs) == if c >= 0 then Value(rs[c]) else 0
    decreases |rs|
  {
    if rs != [] {
      if |rs| > 1 {
        assert forall i :: 0 <= i < |rs| - 1 ==> rs[1..][i] == rs[i + 1];
        SumOnly(rs[1..], c - 1);
      }
    }
  }

  lemma {:induction false} CountOnly(rs: seq<Runtime>, c: int)
    requires c < |rs| && forall i :: 0 <= i < |rs| && i != c ==> rs[i].Inf?
    ensures CountEnabled(rs) == if c >= 0 then One(rs[c]) else 0
    decreases |rs|
  {
    if rs != [] {
      if |rs| > 1 {
        assert forall i :: 0 <= i < |rs| - 1 ==> rs[1..][i] == rs[i + 1];
        CountOnly(rs[1..], c - 1);
      }
    }
  }

  /** The same CPUs are enabled. */
  ghost predicate SameEnabled(rs: seq<Runtime>, rs': seq<Runtime>) {
    |rs'| == |rs| && forall i :: 0 <= i < |rs| ==> (rs'[i].Ns? <==> rs[i].Ns?)
  }

  /** Reclaiming takes out of the system exactly what is no longer wanted, and leaves c alone. */
  lemma {:induction false} ReclaimSum(rs: seq<Runtime>, c: nat, i: nat, want: int)
    requires NonNegative(rs)
    ensures var (rs', want') := ReclaimFrom(rs, c, i, want);
            && NonNegative(rs') && SameEnabled(rs, rs') && CountEnabled(rs') == CountEnabled(rs)
            && Sum(rs') - want' == Sum(rs) - want
            && (c < |rs| ==> rs'[c] == rs[c])
            && (want > 0 ==> 0 <= want' <= want) && (want <= 0 ==> want <= want' <= 0)
    decreases |rs| - i
  {
    if i >= |rs| {
    } else if i == c || rs[i].Inf? {
      ReclaimSum(rs, c, i + 1, want);
    } else {
      var diff := if want > 0 && rs[i].ns < want then rs[i].ns else want;
      SumUpdate(rs, i, Ns(rs[i].ns - diff));
      if want != diff {
        ReclaimSum(rs[i := Ns(rs[i].ns - diff)], c, i + 1, want - diff);
      }
    }
  }

  /** If something is still wanted in the end, every CPU visited has nothing left, or there was none. */
  lemma {:induction false} ReclaimExhausts(rs: seq<Runtime>, c: nat, i: nat, want: int)
    requires NonNegative(rs) && want != 0
    ensures var (rs', want') := ReclaimFrom(rs, c, i, want);
            && (want' > 0 ==> forall j :: i <= j < |rs| && j != c ==> Value(rs'[j]) == 0)
            && (want' < 0 ==> forall j :: i <= j < |rs| && j != c ==> rs[j].Inf?)
            && (forall j :: 0 <= j < i && j < |rs| ==> rs'[j] == rs[j])
    decreases |rs| - i
  {
    if i >= |rs| {
    } else if i == c || rs[i].Inf? {
      ReclaimExhausts(rs, c, i + 1, want);
    } else {
      var diff := if want > 0 && rs[i].ns < want then rs[i].ns else want;
      if want != diff {
        ReclaimSum(rs[i := Ns(rs[i].ns - diff)], c, i + 1, want - diff);
        ReclaimExhausts(rs[i := Ns(rs[i].ns - diff)], c, i + 1, want - diff);
      }
    }
  }

  lemma OneLess(n: int, budget: nat)
    requires n >= 1
    ensures n * budget - budget == (n - 1) * budget >= 0
  {}

  /** No runtime leaks out of the system: BUG_ON(want) in __disable_runtime cannot fire. */
  lemma NothingLeftWanting(rs: seq<Runtime>, c: nat, budget: nat)
    requires Conserved(rs, budget) && c < |rs|
    ensures LeftWanting(rs, c, budget) == 0
  {
    if rs[c].Ns? && rs[c] != Ns(budget) {
      var want := budget - rs[c].ns;
      var (rs', want') := ReclaimFrom(rs, c, 0, want);
      ReclaimSum(rs, c, 0, want);
      ReclaimExhausts(rs, c, 0, want);
      SumAtLeast(rs, c);
      OneLess(CountEnabled(rs), budget);
      if want' > 0 {
        SumOnly(rs', c);
      } else if want' < 0 {
        CountOnly(rs, c);
        SumOnly(rs, c);
      }
    }
  }

  lemma DisableConserves(s: State, c: nat, budget: nat)
    requires s.Shaped() && c < |s.runtime| && Conserved(s.runtime, budget)
    ensures Disable(s, c, budget).Shaped() && Conserved(Disable(s, c, budget).runtime, budget)
  {
    NothingLeftWanting(s.runtime, c, budget);
    if s.runtime[c].Ns? && s.runtime[c] != Ns(budget) {
      var want := budget - s.runtime[c].ns;
      ReclaimSum(s.runtime, c, 0, want);
      var rs := ReclaimFrom(s.runtime, c, 0, want).0;
      SumUpdate(rs, c, Inf);
      assert CountEnabled(s.runtime) * budget - budget == (CountEnabled(s.runtime) - 1) * budget;
    } else {
      SumUpdate(s.runtime, c, Inf);
      assert CountEnabled(s.runtime) * budget - budget == (CountEnabled(s.runtime) - 1) * budget;
    }
  }

  /** Enabling keeps the sum exactly when the run queue was disabled or held its own share. */
  lemma EnableConservesIff(s: State, c: nat, budget: nat)
    requires s.Shaped() && c < |s.runtime| && Conserved(s.runtime, budget)
    ensures Conserved(Enable(s, c, budget).runtime, budget) <==> s.runtime[c].Inf? || s.runtime[c] == Ns(budget)
  {
    SumUpdate(s.runtime, c, Ns(budget));
    assert CountEnabled(s.runtime) * budget + budget == (CountEnabled(s.runtime) + 1) * budget;
  }

  /** A transfer between two enabled run queues keeps the sum. */
  lemma TransferConserves(rs: seq<Runtime>, i: nat, c: nat, diff: int, budget: nat)
    requires Conserved(rs, budget) && i < |rs| && c < |rs| && i != c && rs[i].Ns? && rs[c].Ns?
    requires rs[i].ns - diff >= 0 && rs[c].ns + diff >= 0
    ensures Conserved(rs[i := Ns(rs[i].ns - diff)][c := Ns(rs[c].ns + diff)], budget)
  {
    var rs1 := rs[i := Ns(rs[i].ns - diff)];
    SumUpdate(rs, i, Ns(rs[i].ns - diff));
    SumUpdate(rs1, c, Ns(rs[c].ns + diff));
  }

  lemma ShareBounds(spare: int, weight: int, have: int, period: int)
    requires weight > 0 && spare > 0 && have >= 0 && period >= 0
    ensures var diff := Share(spare, weight, have, period);
            diff <= spare && have + diff >= 0 && have + diff <= period && (have <= period ==> diff >= 0)
  {
    DivBounds(spare, weight);
  }

  lemma {:induction false} MulGrows(q: int, d: int)
    requires d > 0
    ensures q >= 0 ==> q * d >= q
    ensures q < 0 ==> q * d < 0
    decreases d
  {}

  lemma DivBounds(x: int, d: int)
    requires x >= 0 && d > 0
    ensures 0 <= x / d <= x
  {
    MulGrows(x / d, d);
  }

  /** What a round of borrowing guarantees to each lender and to the borrower. */
  ghost predicate FairTo(s: State, s': State, c: nat, period: nat)
    requires s.Shaped()
  {
    && s'.time == s.time && SameEnabled(s.runtime, s'.runtime)
    && (forall i :: 0 <= i < |s.runtime| && i != c && s.runtime[i].Ns? ==>
          if s.runtime[i].ns <= s.time[i] then s'.runtime[i] == s.runtime[i]
          else s'.runtime[i].ns >= s.time[i])
    && (c < |s.runtime| && s.runtime[c].Ns? ==>
          if s.runtime[c].ns <= period then s.runtime[c].ns <= s'.runtime[c].ns <= period
          else s'.runtime[c].ns <= s.runtime[c].ns)
  }

  lemma BorrowOneOk(s: State, c: nat, i: nat, period: nat, budget: nat)
    requires s.Shaped() && s.Enabled(c) && i < |s.runtime| && Conserved(s.runtime, budget)
    ensures var s1 := BorrowOne(s, c, i, period);
            && s1.Shaped() && s1.Enabled(c) && Conserved(s1.runtime, budget) && FairTo(s, s1, c, period)
            && (forall j :: 0 <= j < |s.runtime| && j != c && j != i ==> s1.runtime[j] == s.runtime[j])
            && (Lends(s, c, i) ==> s1.runtime[c].ns <= period)
  {
    if Lends(s, c, i) {
      ShareBounds(s.runtime[i].ns - s.time[i], |s.runtime|, s.runtime[c].ns, period);
      TransferConserves(s.runtime, i, c, Share(s.runtime[i].ns - s.time[i], |s.runtime|, s.runtime[c].ns, period), budget);
    }
  }

  /** do_balance_runtime keeps the sum, and never pushes a lender below the time it has used. */
  lemma {:induction false} BorrowOk(s: State, c: nat, i: nat, period: nat, budget: nat)
    requires s.Shaped() && s.Enabled(c) && Conserved(s.runtime, budget)
    ensures var s' := BorrowFrom(s, c, i, period);
            && Conserved(s'.runtime, budget) && FairTo(s, s', c, period)
            && (forall j :: 0 <= j < |s.runtime| && j != c && j < i ==> s'.runtime[j] == s.runtime[j])
    decreases |s.runtime| - i
  {
    if i < |s.runtime| {
      BorrowOneOk(s, c, i, period, budget);
      hide Conserved;
      var s1 := BorrowOne(s, c, i, period);
      if !(Lends(s, c, i) && s1.runtime[c].ns == period) {
        BorrowOk(s1, c, i + 1, period, budget);
      }
    }
  }

  // ---------------------------------------------------------------- 1/n of what is spare

  lemma ShareFair(spare: int, weight: int, have: int, period: int)
    requires weight > 0 && spare > 0 && have <= period
    ensures var diff := Share(spare, weight, have, period);
            && 0 <= diff && weight * diff <= spare && have + diff == Least(period, have + spare / weight)
            && (have + diff < period ==> weight * diff > spare - weight)
  {
    var diff, q := Share(spare, weight, have, period), spare / weight;
    DivMod(spare, weight);
    DivGreatest(0, spare, weight);
    MulLe(weight, diff, q);
    assert weight * q == q * weight;
  }

  function Least(a: int, b: int): int {
    if a <= b then a else b
  }

  /** What CPU j lends, of what it has to spare, at most 1/n, and unless the borrower got all it wanted as much as that. */
  ghost predicate LendsShare(s: State, s': State, c: nat, j: nat, period: nat)
    requires s.Shaped() && j < |s.runtime| && s'.Enabled(j) && s'.Enabled(c) && Lends(s, c, j)
  {
    var n, spare, given := |s.runtime|, s.runtime[j].ns - s.time[j], s.runtime[j].ns - s'.runtime[j].ns;
    0 <= given && n * given <= spare && (s'.runtime[c].ns < period ==> n * given > spare - n)
  }

  /** The n-th parts of what the lenders from CPU i on have to spare. */
  function Offered(s: State, c: nat, i: nat): nat
    requires s.Shaped()
    decreases |s.runtime| - i
  {
    if i >= |s.runtime| then 0
    else (if Lends(s, c, i) then Div(s.runtime[i].ns - s.time[i], |s.runtime|) else 0) + Offered(s, c, i + 1)
  }

  /** What one CPU offers depends on it alone. */
  lemma {:induction false} SameOffer(s: State, s1: State, c: nat, i: nat)
    requires s.Shaped() && s1.Shaped() && |s1.runtime| == |s.runtime| && s1.time == s.time
    requires forall j :: i <= j < |s.runtime| && j != c ==> s1.runtime[j] == s.runtime[j]
    ensures Offered(s1, c, i) == Offered(s, c, i)
    decreases |s.runtime| - i
  {
    if i < |s.runtime| {
      SameOffer(s, s1, c, i + 1);
    }
  }

  lemma LoanOne(s: State, c: nat, i: nat, period: nat)
    requires s.Shaped() && s.Enabled(c) && i < |s.runtime| && s.runtime[c].ns <= period
    ensures var s1 := BorrowOne(s, c, i, period);
            && s1.Shaped() && s1.time == s.time && SameEnabled(s.runtime, s1.runtime) && s1.runtime[c].ns <= period
            && (forall j :: 0 <= j < |s.runtime| && j != c && (j != i || !Lends(s, c, i)) ==> s1.runtime[j] == s.runtime[j])
            && (Lends(s, c, i) ==> LendsShare(s, s1, c, i, period))
            && s1.runtime[c].ns == Least(period, s.runtime[c].ns
                                                 + if Lends(s, c, i) then Div(s.runtime[i].ns - s.time[i], |s.runtime|) else 0)
  {
    if Lends(s, c, i) {
      ShareFair(s.runtime[i].ns - s.time[i], |s.runtime|, s.runtime[c].ns, period);
      hide Share;
    }
  }

  /**
   A whole round: whoever has nothing to spare is left alone; every lender gives at most 1/n of what
   it has to spare, and exactly that, rounded down, unless the borrower reaches the period; and the
   borrower gets all that is offered, up to the period.
   */
  lemma {:induction false} LoansFair(s: State, c: nat, i: nat, period: nat)
    requires s.Shaped() && s.Enabled(c) && s.runtime[c].ns <= period
    ensures var s' := BorrowFrom(s, c, i, period);
            && SameEnabled(s.runtime, s'.runtime)
            && (forall j: nat :: i <= j < |s.runtime| && Lends(s, c, j) ==> LendsShare(s, s', c, j, period))
            && (forall j: nat :: j < |s.runtime| && j != c && (j < i || !Lends(s, c, j)) ==> s'.runtime[j] == s.runtime[j])
            && s'.runtime[c].ns == Least(period, s.runtime[c].ns + Offered(s, c, i))
    decreases |s.runtime| - i
  {
    if i < |s.runtime| {
      LoanOne(s, c, i, period);
      var s1 := BorrowOne(s, c, i, period);
      hide BorrowOne, LendsShare;
      SameOffer(s, s1, c, i + 1);
      var s' := BorrowFrom(s, c, i, period);
      if !(Lends(s, c, i) && s1.runtime[c].ns == period) {
        LoansFair(s1, c, i + 1, period);
      }
      forall j: nat | i <= j < |s.runtime| && Lends(s, c, j) ensures LendsShare(s, s', c, j, period) {
        LaterShare(s, s1, s', c, i, j, period);
      }
    }
  }

  lemma LaterShare(s: State, s1: State, s': State, c: nat, i: nat, j: nat, period: nat)
    requires s.Shaped() && s1.Shaped() && s1.time == s.time && |s1.runtime| == |s.runtime| && i <= j < |s.runtime| && Lends(s, c, j)
    requires s1.Enabled(c) && s'.Enabled(c) && s'.Enabled(j) && s1.Enabled(j)
    requires j == i ==> LendsShare(s, s1, c, i, period) && s'.runtime[i] == s1.runtime[i]
    requires j != i ==> s1.runtime[j] == s.runtime[j]
    requires s1.runtime[c].ns <= s'.runtime[c].ns <= period
    requires j == i || (s' == s1 && s1.runtime[c].ns == period) || LendsShare(s1, s', c, j, period)
    ensures LendsShare(s, s', c, j, period)
  {}

  // ---------------------------------------------------------------- runs

  datatype Action =
    | Balance(c: nat)              // the run queue exceeded its runtime
    | GoOffline(c: nat)
    | GoOnline(c: nat)
    | Charge(c: nat, delta: nat)   // update_curr_rt
    | Refill(c: nat, overrun: nat) // the period timer

  /** Borrowing needs an enabled run queue that exceeded its runtime; coming online a disabled one. */
  predicate Possible(s: State, a: Action)
    requires s.Shaped()
  {
    match a
    case Balance(c) => s.Enabled(c) && s.time[c] > s.runtime[c].ns
    case GoOffline(c) => c < |s.runtime|
    case GoOnline(c) => c < |s.runtime| && s.runtime[c].Inf?
    case Charge(c, _) => s.Enabled(c)
    case Refill(c, _) => s.Enabled(c)
  }

  function Minus(t: nat, d: int): nat {
    if d <= 0 then t else if d >= t then 0 else t - d
  }

  function Apply(s: State, a: Action, period: nat, budget: nat): (s': State)
    requires s.Shaped()
    ensures s'.Shaped() && |s'.runtime| == |s.runtime|
  {
    if !Possible(s, a) then s
    else
      match a
      case Balance(c) => BorrowFrom(s, c, 0, period)
      case GoOffline(c) => Disable(s, c, budget)
      case GoOnline(c) => Enable(s, c, budget)
      case Charge(c, delta) => s.(time := s.time[c := s.time[c] + delta])
      case Refill(c, overrun) => s.(time := s.time[c := Minus(s.time[c], overrun * s.runtime[c].ns)])
  }

  function Run(s: State, run: seq<Action>, period: nat, budget: nat): (s': State)
    requires s.Shaped()
    ensures s'.Shaped() && |s'.runtime| == |s.runtime|
    decreases |run|
  {
    if run == [] then s else Run(Apply(s, run[0], period, budget), run[1..], period, budget)
  }

  /** Over every run, the enabled run queues hold together what each was given. */
  lemma {:induction false} RunConserves(s: State, run: seq<Action>, period: nat, budget: nat)
    requires s.Shaped() && Conserved(s.runtime, budget)
    ensures Conserved(Run(s, run, period, budget).runtime, budget)
    decreases |run|
  {
    if run != [] {
      ApplyConserves(s, run[0], period, budget);
      hide Conserved, Apply;
      RunConserves(Apply(s, run[0], period, budget), run[1..], period, budget);
    }
  }

  lemma ApplyConserves(s: State, a: Action, period: nat, budget: nat)
    requires s.Shaped() && Conserved(s.runtime, budget)
    ensures Conserved(Apply(s, a, period, budget).runtime, budget)
  {
    hide Conserved, BorrowFrom, Disable, Enable;
    if Possible(s, a) {
      match a
      case Balance(c) => BorrowOk(s, c, 0, period, budget);
      case GoOffline(c) => DisableConserves(s, c, budget);
      case GoOnline(c) => EnableConservesIff(s, c, budget);
      case Charge(_, _) =>
      case Refill(_, _) =>
    }
  }

  lemma {:induction false} InitConserved(n: nat, budget: nat)
    ensures Conserved(seq(n, _ => Ns(budget)), budget)
  {
    if n > 0 {
      InitConserved(n - 1, budget);
      var rs := seq(n, _ => Ns(budget));
      assert rs[1..] == seq(n - 1, _ => Ns(budget));
      assert CountEnabled(rs) * budget == CountEnabled(rs[1..]) * budget + budget;
    }
  }

  /** In every reachable state, no CPU is left wanting when it is taken offline, and none holds more than all together. */
  lemma NeverLeftWanting(n: nat, run: seq<Action>, period: nat, budget: nat, c: nat)
    requires c < n
    ensures var s := Run(State(seq(n, _ => Ns(budget)), seq(n, _ => 0)), run, period, budget);
            && LeftWanting(s.runtime, c, budget) == 0
            && (s.Enabled(c) ==> 0 <= s.runtime[c].ns <= CountEnabled(s.runtime) * budget)
  {
    var s0 := State(seq(n, _ => Ns(budget)), seq(n, _ => 0));
    InitConserved(n, budget);
    RunConserves(s0, run, period, budget);
    var s := Run(s0, run, period, budget);
    NothingLeftWanting(s.runtime, c, budget);
    SumAtLeast(s.runtime, c);
  }

  // ---------------------------------------------------------------- the period

  predicate WithinPeriod(rs: seq<Runtime>, period: nat) {
    forall i :: 0 <= i < |rs| && rs[i].Ns? ==> rs[i].ns <= period
  }

  /** The first enabled run queue from i on other than c's, or the end: the one a surplus goes to. */
  function FirstOther(rs: seq<Runtime>, c: nat, i: nat): (j: nat)
    ensures i <= |rs| ==> i <= j <= |rs|
    ensures j < |rs| ==> j != c && rs[j].Ns?
    decreases |rs| - i
  {
    if i >= |rs| then |rs| else if i == c || rs[i].Inf? then FirstOther(rs, c, i + 1) else i
  }

  /** A surplus goes to the first of the others as a whole. */
  lemma {:induction false} ReclaimSurplus(rs: seq<Runtime>, c: nat, i: nat, want: int)
    requires want < 0
    ensures var j := FirstOther(rs, c, i);
            ReclaimFrom(rs, c, i, want) == if j < |rs| then (rs[j := Ns(rs[j].ns - want)], 0) else (rs, want)
    decreases |rs| - i
  {
    if i < |rs| && (i == c || rs[i].Inf?) {
      ReclaimSurplus(rs, c, i + 1, want);
    }
  }

  /** What was lent is taken back in order: a run queue gives something up only if those before it have nothing left. */
  lemma {:induction false} ReclaimInOrder(rs: seq<Runtime>, c: nat, i: nat, want: int, j: nat, k: nat)
    requires NonNegative(rs) && want > 0 && i <= j < k < |rs| && j != c && rs[j].Ns? && rs[k].Ns?
    ensures var rs' := ReclaimFrom(rs, c, i, want).0;
            rs'[k].Ns? && rs'[j].Ns? && 0 <= rs'[k].ns <= rs[k].ns && (rs'[k] != rs[k] ==> rs'[j].ns == 0)
    decreases |rs| - i
  {
    ReclaimSum(rs, c, i, want);
    ReclaimDown(rs, c, i, want, k);
    if i == j {
      var diff := if rs[i].ns < want then rs[i].ns else want;
      if want != diff {
        ReclaimExhausts(rs[i := Ns(rs[i].ns - diff)], c, i + 1, want - diff);
      }
    } else if i == c || rs[i].Inf? {
      ReclaimInOrder(rs, c, i + 1, want, j, k);
    } else {
      var diff := if rs[i].ns < want then rs[i].ns else want;
      if want != diff {
        ReclaimInOrder(rs[i := Ns(rs[i].ns - diff)], c, i + 1, want - diff, j, k);
      }
    }
  }

  lemma {:induction false} ReclaimDown(rs: seq<Runtime>, c: nat, i: nat, want: int, k: nat)
    requires NonNegative(rs) && want > 0 && k < |rs| && rs[k].Ns?
    ensures var rs' := ReclaimFrom(rs, c, i, want).0; rs'[k].Ns? && rs'[k].ns <= rs[k].ns
    decreases |rs| - i
  {
    if i >= |rs| {
    } else if i == c || rs[i].Inf? {
      ReclaimDown(rs, c, i + 1, want, k);
    } else {
      var diff := if rs[i].ns < want then rs[i].ns else want;
      if want != diff {
        ReclaimDown(rs[i := Ns(rs[i].ns - diff)], c, i + 1, want - diff, k);
      }
    }
  }

  /** A run queue that has come online has its share to itself, and nothing it could have exceeded; the others keep theirs. */
  lemma EnableFresh(s: State, c: nat, budget: nat)
    requires s.Shaped() && c < |s.runtime|
    ensures var s' := Enable(s, c, budget);
            && s'.Shaped() && s'.Enabled(c) && !Possible(s', Balance(c)) && s'.runtime[c].ns - s'.time[c] == budget
            && (forall i :: 0 <= i < |s.runtime| && i != c ==> s'.runtime[i] == s.runtime[i] && s'.time[i] == s.time[i])
  {}

  /** Taking back what was lent lifts nobody. */
  lemma {:induction false} ReclaimLowers(rs: seq<Runtime>, c: nat, i: nat, want: int, period: nat)
    requires want > 0 && WithinPeriod(rs, period)
    ensures WithinPeriod(ReclaimFrom(rs, c, i, want).0, period)
    decreases |rs| - i
  {
    if i >= |rs| {
    } else if i == c || rs[i].Inf? {
      ReclaimLowers(rs, c, i + 1, want, period);
    } else {
      var diff := if rs[i].ns < want then rs[i].ns else want;
      var rs1 := rs[i := Ns(rs[i].ns - diff)];
      if want != diff {
        ReclaimLowers(rs1, c, i + 1, want - diff, period);
      }
    }
  }

  /** There is room for what c borrowed at the one it is handed on to. */
  predicate RoomForSurplus(rs: seq<Runtime>, c: nat, period: nat, budget: nat)
    requires c < |rs|
  {
    var j := FirstOther(rs, c, 0);
    rs[c].Inf? || rs[c].ns <= budget || j == |rs| || rs[j].ns + (rs[c].ns - budget) <= period
  }

  /** Going offline keeps every run queue within the period exactly if there is room for the surplus. */
  lemma DisableWithinPeriodIff(s: State, c: nat, period: nat, budget: nat)
    requires s.Shaped() && c < |s.runtime| && WithinPeriod(s.runtime, period)
    ensures WithinPeriod(Disable(s, c, budget).runtime, period) <==> RoomForSurplus(s.runtime, c, period, budget)
  {
    var rs := s.runtime;
    if rs[c].Ns? && rs[c] != Ns(budget) {
      var want := budget - rs[c].ns;
      if want > 0 {
        ReclaimLowers(rs, c, 0, want, period);
      } else {
        ReclaimSurplus(rs, c, 0, want);
        var j := FirstOther(rs, c, 0);
        if j < |rs| {
          assert Disable(s, c, budget).runtime[j] == Ns(rs[j].ns - want);
        }
      }
    }
  }

  /** Borrowing keeps everybody within the period. */
  lemma {:induction false} BorrowWithinPeriod(s: State, c: nat, i: nat, period: nat)
    requires s.Shaped() && s.Enabled(c) && WithinPeriod(s.runtime, period)
    ensures WithinPeriod(BorrowFrom(s, c, i, period).runtime, period)
    decreases |s.runtime| - i
  {
    if i < |s.runtime| {
      var s1 := BorrowOne(s, c, i, period);
      if Lends(s, c, i) {
        var spare := s.runtime[i].ns - s.time[i];
        DivBounds(spare, |s.runtime|);
        hide BorrowFrom;
        assert 0 <= Share(spare, |s.runtime|, s.runtime[c].ns, period) <= period - s.runtime[c].ns;
        assert WithinPeriod(s1.runtime, period);
      }
      hide BorrowOne;
      if !(Lends(s, c, i) && s1.runtime[c].ns == period) {
        BorrowWithinPeriod(s1, c, i + 1, period);
      }
    }
  }

  /** An action keeps every run queue within the period, unless it goes offline with no room for its surplus. */
  lemma ApplyWithinPeriodIff(s: State, a: Action, period: nat, budget: nat)
    requires s.Shaped() && WithinPeriod(s.runtime, period) && budget <= period
    ensures WithinPeriod(Apply(s, a, period, budget).runtime, period)
       <==> (a.GoOffline? && a.c < |s.runtime| ==> RoomForSurplus(s.runtime, a.c, period, budget))
  {
    hide BorrowFrom, Disable, RoomForSurplus;
    if Possible(s, a) {
      match a
      case Balance(c) => BorrowWithinPeriod(s, c, 0, period);
      case GoOffline(c) => DisableWithinPeriodIff(s, c, period, budget);
      case _ =>
    }
  }

  /** Three run queues of 95 in a period of 100: two use up their time and borrow. */
  function ExampleRun(): seq<Action> {
    [Charge(0, 100), Balance(0), Charge(1, 91), Balance(1), Refill(0, 1), Refill(1, 1)]
  }

  function ExampleStates(): seq<State> {
    [State([Ns(95), Ns(95), Ns(95)], [0, 0, 0]), State([Ns(95), Ns(95), Ns(95)], [100, 0, 0]),
     State([Ns(100), Ns(90), Ns(95)], [100, 0, 0]), State([Ns(100), Ns(90), Ns(95)], [100, 91, 0]),
     State([Ns(100), Ns(100), Ns(85)], [100, 91, 0]), State([Ns(100), Ns(100), Ns(85)], [0, 91, 0]),
     State([Ns(100), Ns(100), Ns(85)], [0, 0, 0])]
  }

  lemma ExampleStep(k: nat)
    requires k < 6
    ensures Apply(ExampleStates()[k], ExampleRun()[k], 100, 95) == ExampleStates()[k + 1]
  {
    var s := ExampleStates()[k];
    if k == 3 {
      assert BorrowFrom(s, 1, 0, 100) == BorrowFrom(s, 1, 1, 100) == BorrowFrom(s, 1, 2, 100);
    }
  }

  lemma {:induction false} ExampleFrom(k: nat)
    requires k <= 6
    ensures Run(ExampleStates()[k], ExampleRun()[k..], 100, 95) == ExampleStates()[6]
    decreases 6 - k
  {
    hide Apply, ExampleStates, ExampleRun;
    assert |ExampleRun()| == 6 && |ExampleStates()| == 7 && ExampleStates()[k].Shaped() by { ExampleShape(k); }
    if k < 6 {
      assert ExampleRun()[k..][1..] == ExampleRun()[k + 1..];
      ExampleStep(k);
      ExampleFrom(k + 1);
    }
  }

  lemma ExampleShape(k: nat)
    requires k <= 6
    ensures |ExampleRun()| == 6 && |ExampleStates()| == 7 && ExampleStates()[k].Shaped()
  {}

  /** Borrowing alone leads from the start to a state from which going offline lifts a run queue above its period. */
  lemma SurplusExceedsPeriod()
    ensures var s := Run(State([Ns(95), Ns(95), Ns(95)], [0, 0, 0]), ExampleRun(), 100, 95);
            && Possible(s, GoOffline(0)) && WithinPeriod(s.runtime, 100)
            && !WithinPeriod(Apply(s, GoOffline(0), 100, 95).runtime, 100)
  {
    hide Run, Disable;
    ExampleFrom(0);
    assert ExampleRun()[0..] == ExampleRun();
    var s := ExampleStates()[6];
    DisableWithinPeriodIff(s, 0, 100, 95);
    assert FirstOther(s.runtime, 0, 0) == 1;
  }

  // ---------------------------------------------------------------- the run queues, updated in place

  class RtBandwidthPool {
    const period: nat
    const budget: nat
    const runtime: array<Runtime>
    const time: array<nat>

    ghost function Model(): State
      reads runtime, time
    {
      State(runtime[..], time[..])
    }

    ghost predicate Valid()
      reads runtime, time
    {
      runtime.Length == time.Length && Conserved(runtime[..], budget)
    }

    constructor (n: nat, period: nat, budget: nat)
      ensures Valid() && fresh(runtime) && fresh(time) && this.period == period && this.budget == budget
      ensures Model() == State(seq(n, _ => Ns(budget)), seq(n, _ => 0))
    {
      this.period, this.budget := period, budget;
      runtime := new Runtime[n](_ => Ns(budget));
      time := new nat[n](_ => 0);
      new;
      InitConserved(n, budget);
      assert runtime[..] == seq(n, _ => Ns(budget));
      assert time[..] == seq(n, _ => 0);
    }

    /** One iteration of do_balance_runtime; true if run queue i had time to spare. */
    method BorrowFromOne(c: nat, i: nat) returns (lends: bool)
      requires Model().Shaped() && Model().Enabled(c) && i < runtime.Length
      modifies runtime
      ensures Model() == BorrowOne(old(Model()), c, i, period) && lends == Lends(old(Model()), c, i)
    {
      ghost var s := Model();
      lends := false;
      if i != c && runtime[i].Ns? {
        var diff := runtime[i].ns - time[i];
        if diff > 0 {
          diff := diff / runtime.Length;
          if runtime[c].ns + diff > period {
            diff := period - runtime[c].ns;
          }
          runtime[i] := Ns(runtime[i].ns - diff);
          runtime[c] := Ns(runtime[c].ns + diff);
          assert runtime[..] == BorrowOne(s, c, i, period).runtime;
          lends := true;
        }
      }
    }

    /** do_balance_runtime; true if some run queue had time to spare. */
    method DoBalanceRuntime(c: nat) returns (more: bool)
      requires Valid() && Model().Enabled(c)
      modifies runtime
      ensures Valid() && Model() == BorrowFrom(old(Model()), c, 0, period)
      ensures FairTo(old(Model()), Model(), c, period)
      ensures more <==> exists i :: 0 <= i < runtime.Length && Lends(old(Model()), c, i)
    {
      hide Conserved, FairTo, Share;
      ghost var s := Model();
      BorrowOk(s, c, 0, period, budget);
      more := false;
      var i := 0;
      while i < runtime.Length
        invariant 0 <= i <= runtime.Length && Model().Enabled(c) && Model().time == s.time
        invariant BorrowFrom(Model(), c, i, period) == BorrowFrom(s, c, 0, period)
        invariant forall j :: i <= j < runtime.Length && j != c ==> runtime[j] == s.runtime[j]
        invariant more <==> exists j :: 0 <= j < i && Lends(s, c, j)
      {
        assert Lends(Model(), c, i) <==> Lends(s, c, i);
        var lends := BorrowFromOne(c, i);
        more := more || lends;
        if lends && runtime[c].ns == period {
          break;
        }
        i := i + 1;
      }
    }

    /** __disable_runtime; the BUG_ON is an assertion. */
    method DisableRuntime(c: nat)
      requires Valid() && c < runtime.Length
      modifies runtime
      ensures Valid() && Model() == Disable(old(Model()), c, budget)
    {
      hide Conserved;
      ghost var s := Model();
      DisableConserves(s, c, budget);
      NothingLeftWanting(s.runtime, c, budget);
      if runtime[c].Ns? && runtime[c].ns != budget {
        var want := budget - runtime[c].ns;
        var i := 0;
        while i < runtime.Length
          invariant 0 <= i <= runtime.Length && want != 0
          invariant ReclaimFrom(runtime[..], c, i, want) == ReclaimFrom(s.runtime, c, 0, budget - s.runtime[c].ns)
        {
          if i != c && runtime[i].Ns? {
            var diff := if want > 0 && runtime[i].ns < want then runtime[i].ns else want;
            ghost var rs := runtime[..];
            runtime[i] := Ns(runtime[i].ns - diff);
            assert runtime[..] == rs[i := Ns(rs[i].ns - diff)];
            want := want - diff;
            if want == 0 {
              break;
            }
          }
          i := i + 1;
        }
        assert want == 0; // BUG_ON
      }
      ghost var rs := runtime[..];
      runtime[c] := Inf;
      assert runtime[..] == rs[c := Inf];
    }

    /** __enable_runtime of a disabled run queue. */
    method EnableRuntime(c: nat)
      requires Valid() && c < runtime.Length && runtime[c].Inf?
      modifies runtime, time
      ensures Valid() && Model() == Enable(old(Model()), c, budget)
    {
      EnableConservesIff(Model(), c, budget);
      ghost var s := Model();
      runtime[c] := Ns(budget);
      time[c] := 0;
      assert runtime[..] == s.runtime[c := Ns(budget)];
    }
  }
}
