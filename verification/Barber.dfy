/**
 The sleeping barber: one thread per customer, the barber and main, stepping from one semaphore
 operation or flag access to the next in any order.
 */
module Barber {
  /** What a customer does next, in get_hair_cut. */
  datatype CustomerPc =
    | Outside   // sem_wait(&waiting_room)
    | Seated    // sem_wait(&barber_chair)
    | InChair   // sem_post(&waiting_room)
    | Ready     // sem_post(&nap_time)
    | Waiting   // sem_wait(&in_progress)
    | Rising    // sem_post(&barber_chair)
    | Gone

  /** What the barber does next, in barber_proc and cut_hair. */
  datatype BarberPc =
    | NotHired
    | Check     // while (!end_of_day)
    | Sleep     // sem_wait(&nap_time)
    | Awake     // if (!end_of_day)
    | Cutting   // sem_post(&in_progress)
    | Home

  datatype MainPc = Hire | Open | Join | Close | Wake | JoinBarber | Exit

  datatype Shop = Shop(
    waitingRoom: nat, barberChair: nat, inProgress: nat, napTime: nat, endOfDay: bool,
    main: MainPc, created: nat, joined: nat, barber: BarberPc, customers: seq<CustomerPc>,
    cuts: seq<nat>  // whose hair was cut, in order
  )

  datatype Action = Main | BarberStep | Customer(i: nat)

  function Init(chairs: nat, n: nat): Shop {
    Shop(chairs, 1, 0, 0, false, Hire, 0, 0, NotHired, seq(n, _ => Outside), [])
  }

  predicate CustomerEnabled(s: Shop, i: nat) {
    && i < s.created && i < |s.customers|
    && match s.customers[i]
       case Outside => s.waitingRoom > 0
       case Seated => s.barberChair > 0
       case Waiting => s.inProgress > 0
       case Gone => false
       case _ => true
  }

  predicate Enabled(s: Shop, a: Action) {
    match a
    case Main =>
      (match s.main
       case Join => s.joined < |s.customers| ==> s.customers[s.joined] == Gone
       case JoinBarber => s.barber == Home
       case Exit => false
       case _ => true)
    case BarberStep => s.barber != NotHired && s.barber != Home && (s.barber == Sleep ==> s.napTime > 0)
    case Customer(i) => CustomerEnabled(s, i)
  }

  function CustomerNext(pc: CustomerPc): CustomerPc {
    match pc
    case Outside => Seated
    case Seated => InChair
    case InChair => Ready
    case Ready => Waiting
    case Waiting => Rising
    case Rising => Gone
    case Gone => Gone
  }

  function CustomerDo(s: Shop, i: nat): Shop
    requires CustomerEnabled(s, i)
  {
    var s' := s.(customers := s.customers[i := CustomerNext(s.customers[i])]);
    match s.customers[i]
    case Outside => s'.(waitingRoom := s.waitingRoom - 1)
    case Seated => s'.(barberChair := s.barberChair - 1)
    case InChair => s'.(waitingRoom := s.waitingRoom + 1)
    case Ready => s'.(napTime := s.napTime + 1)
    case Waiting => s'.(inProgress := s.inProgress - 1)
    case Rising => s'.(barberChair := s.barberChair + 1)
    case Gone => s'
  }

  /** The customer in the chair; |cs| if there is none. */
  function InTheChair(cs: seq<CustomerPc>): (i: nat)
    ensures i <= |cs| && (i < |cs| ==> cs[i] == Waiting)
  {
    if cs == [] then 0 else if cs[0] == Waiting then 0 else 1 + InTheChair(cs[1..])
  }

  function BarberDo(s: Shop): Shop
    requires Enabled(s, BarberStep)
  {
    match s.barber
    case Check => s.(barber := if s.endOfDay then Home else Sleep)
    case Sleep => s.(barber := Awake, napTime := s.napTime - 1)
    case Awake => s.(barber := if s.endOfDay then Check else Cutting)
    case Cutting => s.(barber := Check, inProgress := s.inProgress + 1, cuts := s.cuts + [InTheChair(s.customers)])
    case _ => s
  }

  function MainDo(s: Shop): Shop
    requires Enabled(s, Main)
  {
    match s.main
    case Hire => s.(main := Open, barber := Check)
    case Open => if s.created < |s.customers| then s.(created := s.created + 1) else s.(main := Join)
    case Join => if s.joined < |s.customers| then s.(joined := s.joined + 1) else s.(main := Close)
    case Close => s.(main := Wake, endOfDay := true)
    case Wake => s.(main := JoinBarber, napTime := s.napTime + 1)
    case JoinBarber => s.(main := Exit)
    case Exit => s
  }

  function Do(s: Shop, a: Action): Shop
    requires Enabled(s, a)
  {
    match a
    case Main => MainDo(s)
    case BarberStep => BarberDo(s)
    case Customer(i) => CustomerDo(s, i)
  }

  // ---------------------------------------------------------------- counting customers

  function Count(cs: seq<CustomerPc>, pc: CustomerPc): nat {
    if cs == [] then 0 else (if cs[0] == pc then 1 else 0) + Count(cs[1..], pc)
  }

  lemma {:induction false} CountUpdate(cs: seq<CustomerPc>, i: nat, to: CustomerPc, pc: CustomerPc)
    requires i < |cs|
    ensures Count(cs[i := to], pc) == Count(cs, pc) - (if cs[i] == pc then 1 else 0) + (if to == pc then 1 else 0)
  {
    if i == 0 {
      assert cs[0 := to][1..] == cs[1..];
    } else {
      CountUpdate(cs[1..], i - 1, to, pc);
      assert cs[i := to][1..] == cs[1..][i - 1 := to];
    }
  }

  lemma {:induction false} Find(cs: seq<CustomerPc>, pc: CustomerPc) returns (i: nat)
    requires Count(cs, pc) > 0
    ensures i < |cs| && cs[i] == pc
  {
    if cs[0] == pc {
      i := 0;
    } else {
      i := Find(cs[1..], pc);
      i := i + 1;
    }
  }

  lemma {:induction false} Counted(cs: seq<CustomerPc>, i: nat)
    requires i < |cs|
    ensures Count(cs, cs[i]) > 0
  {
    if i > 0 {
      Counted(cs[1..], i - 1);
    }
  }

  lemma {:induction false} OnlyOne(cs: seq<CustomerPc>, i: nat, j: nat)
    requires i < |cs| && j < |cs| && cs[i] == cs[j] && Count(cs, cs[i]) <= 1
    ensures i == j
  {
    if i > 0 && j > 0 {
      OnlyOne(cs[1..], i - 1, j - 1);
    } else if i > 0 {
      Counted(cs[1..], i - 1);
    } else if j > 0 {
      Counted(cs[1..], j - 1);
    }
  }

  lemma {:induction false} ChairFound(cs: seq<CustomerPc>)
    requires Count(cs, Waiting) > 0
    ensures InTheChair(cs) < |cs|
  {
    if cs[0] != Waiting {
      ChairFound(cs[1..]);
    }
  }

  // ---------------------------------------------------------------- what every step keeps

  ghost predicate AllGone(cs: seq<CustomerPc>) {
    forall i :: 0 <= i < |cs| ==> cs[i] == Gone
  }

  /** Everyone in the barber's chair, from sitting down to getting up. */
  function InChairCount(cs: seq<CustomerPc>): nat {
    Count(cs, InChair) + Count(cs, Ready) + Count(cs, Waiting) + Count(cs, Rising)
  }

  function Busy(pc: BarberPc): nat {
    if pc == Awake || pc == Cutting then 1 else 0
  }

  /** The semaphores count what they should. */
  ghost predicate Tokens(s: Shop, chairs: nat) {
    && s.waitingRoom + Count(s.customers, Seated) + Count(s.customers, InChair) == chairs
    && s.barberChair + InChairCount(s.customers) == 1
    && (s.main != JoinBarber && s.main != Exit ==> s.napTime + Busy(s.barber) + s.inProgress == Count(s.customers, Waiting))
  }

  ghost predicate Phases(s: Shop) {
    && (s.endOfDay <==> s.main == Wake || s.main == JoinBarber || s.main == Exit)
    && (s.barber == NotHired <==> s.main == Hire)
    && (s.barber == Home ==> s.endOfDay)
    && s.created <= |s.customers| && s.joined <= |s.customers|
    && (s.main == Hire || s.main == Open || s.created == |s.customers|)
    && (forall i :: 0 <= i < s.joined ==> s.customers[i] == Gone)
    && (s.main == Close || s.endOfDay ==> AllGone(s.customers))
    && (s.main == JoinBarber || s.main == Exit ==> s.inProgress == 0 && s.barber != Cutting && (s.barber == Sleep ==> s.napTime > 0))
    && (s.main == Exit ==> s.barber == Home)
  }

  predicate HadCut(s: Shop, i: nat)
    requires i < |s.customers|
  {
    s.customers[i] == Rising || s.customers[i] == Gone || (s.customers[i] == Waiting && s.inProgress > 0)
  }

  /** Those whose hair was cut are the ones who need not wait for it any more, once each. */
  ghost predicate CutsOk(s: Shop) {
    && (forall i, j :: 0 <= i < j < |s.cuts| ==> s.cuts[i] != s.cuts[j])
    && (forall i :: i in s.cuts ==> i < |s.customers|)
    && (forall i :: 0 <= i < |s.customers| ==> (i in s.cuts <==> HadCut(s, i)))
  }

  ghost predicate Inv(s: Shop, chairs: nat) {
    Tokens(s, chairs) && Phases(s) && CutsOk(s)
  }

  lemma {:induction false} CountOutside(n: nat, pc: CustomerPc)
    ensures Count(seq(n, _ => Outside), pc) == if pc == Outside then n else 0
  {
    if n > 0 {
      CountOutside(n - 1, pc);
      assert seq(n, _ => Outside)[1..] == seq(n - 1, _ => Outside);
    }
  }

  lemma InitInv(chairs: nat, n: nat)
    ensures Inv(Init(chairs, n), chairs)
  {
    CountOutside(n, Seated);
    CountOutside(n, InChair);
    CountOutside(n, Ready);
    CountOutside(n, Waiting);
    CountOutside(n, Rising);
  }

  lemma {:induction false} NoneCounted(cs: seq<CustomerPc>, pc: CustomerPc)
    requires AllGone(cs) && pc != Gone
    ensures Count(cs, pc) == 0
  {
    if cs != [] {
      NoneCounted(cs[1..], pc);
    }
  }

  lemma CountMoves(cs: seq<CustomerPc>, i: nat, to: CustomerPc)
    requires i < |cs|
    ensures forall pc :: Count(cs[i := to], pc) == Count(cs, pc) - (if cs[i] == pc then 1 else 0) + (if to == pc then 1 else 0)
    ensures Count(cs, cs[i]) > 0
  {
    forall pc ensures Count(cs[i := to], pc) == Count(cs, pc) - (if cs[i] == pc then 1 else 0) + (if to == pc then 1 else 0) {
      CountUpdate(cs, i, to, pc);
    }
    Counted(cs, i);
  }

  lemma CustomerTokens(s: Shop, chairs: nat, i: nat)
    requires Inv(s, chairs) && CustomerEnabled(s, i)
    ensures Tokens(CustomerDo(s, i), chairs)
  {
    hide Count, CutsOk;
    CountMoves(s.customers, i, CustomerNext(s.customers[i]));
  }

  lemma CustomerPhases(s: Shop, chairs: nat, i: nat)
    requires Inv(s, chairs) && CustomerEnabled(s, i)
    ensures Phases(CustomerDo(s, i))
  {}

  /** A customer who is done waiting is the one whose hair was cut. */
  lemma CustomerCuts(s: Shop, chairs: nat, i: nat)
    requires Inv(s, chairs) && CustomerEnabled(s, i)
    ensures CutsOk(CustomerDo(s, i))
  {
    hide Count;
    var cs, s' := s.customers, CustomerDo(s, i);
    assert !s.endOfDay;
    hide Phases;
    Counted(cs, i);
    forall j | 0 <= j < |cs| ensures j in s'.cuts <==> HadCut(s', j) {
      if j != i && cs[j] == Waiting {
        Counted(cs, j);
        if cs[i] == Waiting {
          OnlyOne(cs, i, j);
        }
      }
    }
  }

  lemma BarberInv(s: Shop, chairs: nat)
    requires Inv(s, chairs) && Enabled(s, BarberStep)
    ensures Inv(BarberDo(s), chairs)
  {
    hide Count;
    if s.barber == Cutting {
      BarberCuts(s, chairs);
    }
    if s.main == Close || s.main == Wake {
      NoneCounted(s.customers, Waiting);
    }
  }

  /** The barber cuts the hair of the one customer in the chair, who has not had it cut yet. */
  lemma BarberCuts(s: Shop, chairs: nat)
    requires Inv(s, chairs) && s.barber == Cutting
    ensures var i := InTheChair(s.customers);
            && i < |s.customers| && i !in s.cuts && s.inProgress == 0 && Count(s.customers, Waiting) == 1
            && (forall j :: 0 <= j < |s.customers| && s.customers[j] == Waiting ==> j == i)
    ensures CutsOk(BarberDo(s))
  {
    hide Count;
    var cs, s' := s.customers, BarberDo(s);
    ChairFound(cs);
    var i := InTheChair(cs);
    forall j | 0 <= j < |cs| && cs[j] == Waiting ensures j == i {
      OnlyOne(cs, i, j);
    }
  }

  lemma MainInv(s: Shop, chairs: nat)
    requires Inv(s, chairs) && Enabled(s, Main)
    ensures Inv(MainDo(s), chairs)
  {
    hide Count;
    if s.main == Wake {
      NoneCounted(s.customers, Waiting);
    }
  }

  lemma StepInv(s: Shop, chairs: nat, a: Action)
    requires Inv(s, chairs) && Enabled(s, a)
    ensures Inv(Do(s, a), chairs)
  {
    hide Inv;
    match a
    case Main => MainInv(s, chairs);
    case BarberStep => BarberInv(s, chairs);
    case Customer(i) =>
      CustomerTokens(s, chairs, i);
      CustomerPhases(s, chairs, i);
      CustomerCuts(s, chairs, i);
      hide Tokens, Phases, CutsOk, CustomerDo;
      JoinInv(CustomerDo(s, i), chairs);
  }

  lemma JoinInv(s: Shop, chairs: nat)
    requires Tokens(s, chairs) && Phases(s) && CutsOk(s)
    ensures Inv(s, chairs)
  {}

  // ---------------------------------------------------------------- progress

  /** The day is over: everybody has left and main exits. */
  ghost predicate Final(s: Shop) {
    s.main == Exit && s.barber == Home && AllGone(s.customers)
  }

  /** With a chair to wait in, or nobody to wait, some thread can always go on. */
  lemma NoDeadlock(s: Shop, chairs: nat) returns (a: Action)
    requires Inv(s, chairs) && !Final(s) && (chairs > 0 || s.customers == [])
    ensures Enabled(s, a)
  {
    hide CutsOk, Count;
    var cs := s.customers;
    if Enabled(s, Main) {
      a := Main;
    } else if Enabled(s, BarberStep) {
      a := BarberStep;
    } else if s.main == Join {
      a := SomeCustomer(s, chairs);
    }
  }

  lemma SomeCustomer(s: Shop, chairs: nat) returns (a: Action)
    requires Inv(s, chairs) && chairs > 0 && s.main == Join && !Enabled(s, Main) && !Enabled(s, BarberStep)
    ensures Enabled(s, a)
  {
    hide CutsOk, Count;
    var cs := s.customers;
    var i := s.joined;
    if Count(cs, InChair) > 0 {
      i := Find(cs, InChair);
    } else if Count(cs, Ready) > 0 {
      i := Find(cs, Ready);
    } else if Count(cs, Rising) > 0 {
      i := Find(cs, Rising);
    } else if Count(cs, Waiting) > 0 {
      i := Find(cs, Waiting);
    } else if Count(cs, Seated) > 0 {
      i := Find(cs, Seated);
    } else {
      Counted(cs, i);
    }
    a := Customer(i);
  }

  /** An upper bound on the steps still to come. */
  function CustomerWork(pc: CustomerPc): nat {
    match pc
    case Outside => 11
    case Seated => 10
    case InChair => 9
    case Ready => 8
    case Waiting => 2
    case Rising => 1
    case Gone => 0
  }

  function BarberWork(pc: BarberPc): nat {
    match pc
    case Check => 1
    case Awake => 3
    case Cutting => 2
    case _ => 0
  }

  function MainWork(s: Shop): int {
    var n := |s.customers|;
    match s.main
    case Hire => 2 * n + 12
    case Open => 2 * n - s.created + 10
    case Join => n - s.joined + 9
    case Close => 8
    case Wake => 7
    case JoinBarber => 1
    case Exit => 0
  }

  function Customers(cs: seq<CustomerPc>): nat {
    if cs == [] then 0 else CustomerWork(cs[0]) + Customers(cs[1..])
  }

  function Work(s: Shop): int {
    MainWork(s) + BarberWork(s.barber) + Customers(s.customers) + 5 * s.napTime
  }

  lemma {:induction false} CustomersUpdate(cs: seq<CustomerPc>, i: nat, to: CustomerPc)
    requires i < |cs|
    ensures Customers(cs[i := to]) == Customers(cs) - CustomerWork(cs[i]) + CustomerWork(to)
  {
    if i == 0 {
      assert cs[0 := to][1..] == cs[1..];
    } else {
      CustomersUpdate(cs[1..], i - 1, to);
      assert cs[i := to][1..] == cs[1..][i - 1 := to];
    }
  }

  lemma CustomerWorks(s: Shop, i: nat)
    requires CustomerEnabled(s, i)
    ensures Work(CustomerDo(s, i)) < Work(s)
    ensures MainWork(CustomerDo(s, i)) == MainWork(s)
  {
    hide Customers;
    CustomersUpdate(s.customers, i, CustomerNext(s.customers[i]));
  }

  lemma OtherWorks(s: Shop, a: Action)
    requires Phases(s) && Enabled(s, a) && !a.Customer?
    ensures Work(Do(s, a)) < Work(s)
  {}

  /** Every step uses up work, so no run goes on for ever. */
  lemma StepWorks(s: Shop, chairs: nat, a: Action)
    requires Inv(s, chairs) && Enabled(s, a)
    ensures 0 <= Work(Do(s, a)) < Work(s)
  {
    StepInv(s, chairs, a);
    hide Tokens, CutsOk, Do, CustomerEnabled, CustomerDo;
    if a.Customer? {
      CustomerWorks(s, a.i);
      assert Do(s, a) == CustomerDo(s, a.i) by { CustomerIs(s, a.i); }
    } else {
      OtherWorks(s, a);
    }
    WorkBounded(Do(s, a), chairs);
  }

  lemma CustomerIs(s: Shop, i: nat)
    requires CustomerEnabled(s, i)
    ensures Do(s, Customer(i)) == CustomerDo(s, i)
  {}

  lemma WorkBounded(s: Shop, chairs: nat)
    requires Inv(s, chairs)
    ensures 0 <= Work(s)
  {}

  // ---------------------------------------------------------------- whole runs

  /** acts is a run from s, every action possible when it is taken. */
  ghost predicate IsRun(s: Shop, acts: seq<Action>)
    decreases |acts|
  {
    acts == [] || (Enabled(s, acts[0]) && IsRun(Do(s, acts[0]), acts[1..]))
  }

  ghost function After(s: Shop, acts: seq<Action>): Shop
    requires IsRun(s, acts)
    decreases |acts|
  {
    if acts == [] then s else After(Do(s, acts[0]), acts[1..])
  }

  ghost predicate Stuck(s: Shop) {
    forall a :: !Enabled(s, a)
  }

  lemma SameCustomers(s: Shop, a: Action)
    requires Enabled(s, a)
    ensures |Do(s, a).customers| == |s.customers|
  {}

  lemma {:induction false} RunInv(s: Shop, chairs: nat, acts: seq<Action>)
    requires Inv(s, chairs) && IsRun(s, acts)
    ensures Inv(After(s, acts), chairs) && |After(s, acts).customers| == |s.customers|
    ensures 0 <= Work(After(s, acts)) <= Work(s) - |acts|
    decreases |acts|
  {
    hide Inv, Work, Enabled, Do;
    WorkBounded(s, chairs);
    if acts != [] {
      StepInv(s, chairs, acts[0]);
      StepWorks(s, chairs, acts[0]);
      SameCustomers(s, acts[0]);
      RunInv(Do(s, acts[0]), chairs, acts[1..]);
    }
  }

  /** Without a chair in the waiting room nobody gets in. */
  ghost predicate NobodyIn(s: Shop) {
    s.waitingRoom == 0 && forall i :: 0 <= i < |s.customers| ==> s.customers[i] == Outside
  }

  lemma {:induction false} NobodyEver(s: Shop, acts: seq<Action>)
    requires NobodyIn(s) && IsRun(s, acts)
    ensures NobodyIn(After(s, acts))
    decreases |acts|
  {
    if acts != [] {
      NobodyEver(Do(s, acts[0]), acts[1..]);
    }
  }

  lemma InitWork(chairs: nat, n: nat)
    ensures Work(Init(chairs, n)) == 13 * n + 12
  {
    OutsideWork(n);
  }

  lemma {:induction false} OutsideWork(n: nat)
    ensures Customers(seq(n, _ => Outside)) == 11 * n
  {
    if n > 0 {
      OutsideWork(n - 1);
      assert seq(n, _ => Outside)[1..] == seq(n - 1, _ => Outside);
    }
  }

  /** At any time, nap_time, the barber at work and in_progress account for the one customer in the chair. */
  lemma OneAtATime(chairs: nat, n: nat, acts: seq<Action>)
    requires IsRun(Init(chairs, n), acts)
    ensures var s := After(Init(chairs, n), acts);
            && InChairCount(s.customers) <= 1 && s.waitingRoom <= chairs
            && (s.main != JoinBarber && s.main != Exit ==>
                  s.napTime + Busy(s.barber) + s.inProgress == Count(s.customers, Waiting) <= 1)
  {
    InitInv(chairs, n);
    RunInv(Init(chairs, n), chairs, acts);
    hide After, Count, CutsOk;
  }

  /** Everyone in the list, once. */
  ghost predicate OnceEach(cuts: seq<nat>, n: nat) {
    && (forall i: nat :: i in cuts <==> i < n)
    && (forall i, j :: 0 <= i < j < |cuts| ==> cuts[i] != cuts[j])
  }

  lemma FinalCuts(s: Shop, chairs: nat)
    requires Inv(s, chairs) && Final(s)
    ensures OnceEach(s.cuts, |s.customers|)
  {}

  lemma StuckFinal(s: Shop, chairs: nat)
    requires Inv(s, chairs) && Stuck(s) && (chairs > 0 || s.customers == [])
    ensures Final(s)
  {
    hide Inv, Enabled;
    if !Final(s) {
      var a := NoDeadlock(s, chairs);
    }
  }

  /**
   Every run ends.  When no thread can go on, everybody has left and the barber is home exactly if
   there was a chair to wait in, or nobody came; and then each customer's hair was cut once.
   */
  lemma EverybodyServed(chairs: nat, n: nat, acts: seq<Action>)
    requires IsRun(Init(chairs, n), acts)
    ensures |acts| <= 13 * n + 12
    ensures var s := After(Init(chairs, n), acts);
            && (Stuck(s) ==> (Final(s) <==> chairs > 0 || n == 0))
            && (Final(s) ==> OnceEach(s.cuts, n))
  {
    hide After, Work, IsRun, Inv, Stuck, OnceEach;
    InitInv(chairs, n);
    InitWork(chairs, n);
    RunInv(Init(chairs, n), chairs, acts);
    var s := After(Init(chairs, n), acts);
    if chairs == 0 && n > 0 {
      NobodyEver(Init(chairs, n), acts);
      assert s.customers[0] == Outside;
    } else if Stuck(s) {
      StuckFinal(s, chairs);
    }
    if Final(s) {
      FinalCuts(s, chairs);
    }
  }
}
