/**
 Block I/O throttling of one group in one direction: time slices that are started, extended and
 trimmed, and the rate bound they enforce over any run.

 Times are jiffies.  The limits are constant; `BPS_UNLIMITED` and `IOPS_UNLIMITED` together mean
 that there is no rule.
 */
module Throttle {
  import opened Arithmetic

  type Positive = n: nat | n > 0 witness 1

  // Jiffies per second and jiffies per slice; nothing below depends on their values.
  const HZ: Positive
  const THROTL_SLICE: Positive
  const UINT_MAX: nat := 0xFFFF_FFFF
  const BPS_UNLIMITED: nat := 0xFFFF_FFFF_FFFF_FFFF
  const IOPS_UNLIMITED: nat := UINT_MAX

  datatype Limits = Limits(bps: nat, iops: nat) {
    predicate NoRule() {
      bps == BPS_UNLIMITED && iops == IOPS_UNLIMITED
    }
    predicate Valid() {
      bps > 0 && iops > 0
    }
  }

  /** bytes_disp, io_disp, slice_start and slice_end. */
  datatype Slice = Slice(bytes: nat, ios: nat, start: nat, end: nat)

  function RoundUp(x: nat): (r: nat)
    ensures x <= r < x + THROTL_SLICE && r % THROTL_SLICE == 0
  {
    if x % THROTL_SLICE == 0 then x else NextMultiple(x, THROTL_SLICE); x + (THROTL_SLICE - x % THROTL_SLICE)
  }

  lemma NextMultiple(x: nat, d: nat)
    requires d > 0
    ensures (x + (d - x % d)) % d == 0
  {
    DivMod(x, d);
    ModUnique(x + (d - x % d), d, x / d + 1, 0);
  }

  /** throtl_start_new_slice. */
  function NewSlice(now: nat): Slice {
    Slice(0, 0, now, now + THROTL_SLICE)
  }

  /** throtl_slice_used. */
  predicate SliceUsed(s: Slice, now: nat) {
    !(s.start <= now <= s.end)
  }

  function Extend(s: Slice, until: nat): Slice {
    s.(end := RoundUp(until))
  }

  function Sub(a: nat, b: nat): nat {
    if a >= b then a - b else 0
  }

  /** What a rate amounts to in a span of time. */
  function Earned(rate: nat, span: nat): nat {
    Div(rate * span, HZ)
  }

  /** throtl_trim_slice. */
  function Trim(s: Slice, lim: Limits, now: nat): Slice {
    if SliceUsed(s, now) then s
    else
      var s1 := Extend(s, now + THROTL_SLICE);
      var slices := Div(now - s.start, THROTL_SLICE);
      var span: nat := THROTL_SLICE * slices;
      var bytesTrim, ioTrim := Earned(lim.bps, span), Earned(lim.iops, span);
      if slices == 0 || (bytesTrim == 0 && ioTrim == 0) then s1
      else Slice(Sub(s.bytes, bytesTrim), Sub(s.ios, ioTrim), s.start + span, s1.end)
  }

  /** The elapsed time a limit is measured over: rounded up to whole slices, at least one. */
  function ElapsedRounded(s: Slice, now: nat): (e: nat)
    requires s.start <= now
    ensures now - s.start <= e
  {
    if now == s.start then THROTL_SLICE else RoundUp(now - s.start)
  }

  function BytesAllowed(s: Slice, lim: Limits, now: nat): nat
    requires s.start <= now
  {
    Div(lim.bps * ElapsedRounded(s, now), HZ)
  }

  function IosAllowed(s: Slice, lim: Limits, now: nat): nat
    requires s.start <= now
  {
    var n := Div(lim.iops * ElapsedRounded(s, now), HZ);
    if n > UINT_MAX then UINT_MAX else n
  }

  /** tg_with_in_bps_limit: whether a bio of `size` bytes is within the limit, and else how long to wait. */
  function WithinBps(s: Slice, lim: Limits, size: nat, now: nat): (bool, nat)
    requires s.start <= now && lim.Valid()
  {
    var allowed := BytesAllowed(s, lim, now);
    if s.bytes + size <= allowed then (true, 0)
    else
      var wait := Div((s.bytes + size - allowed) * HZ, lim.bps);
      (false, (if wait == 0 then 1 else wait) + (ElapsedRounded(s, now) - (now - s.start)))
  }

  /** tg_with_in_iops_limit. */
  function WithinIops(s: Slice, lim: Limits, now: nat): (bool, nat)
    requires s.start <= now && lim.Valid()
  {
    if s.ios + 1 <= IosAllowed(s, lim, now) then (true, 0)
    else
      var wait := Div((s.ios + 1) * HZ, lim.iops) + 1;
      (false, if wait > now - s.start then wait - (now - s.start) else 1)
  }

  /** The first half of tg_may_dispatch: renew the slice, or make it last at least a slice from now. */
  function Renew(s: Slice, now: nat): Slice {
    if SliceUsed(s, now) then NewSlice(now)
    else if s.end < now + THROTL_SLICE then Extend(s, now + THROTL_SLICE)
    else s
  }

  /** tg_may_dispatch: the slice afterwards, the verdict and the wait. */
  function MayDispatch(s: Slice, lim: Limits, size: nat, now: nat): (Slice, bool, nat)
    requires lim.Valid()
  {
    if lim.NoRule() then (s, true, 0)
    else
      var s1 := Renew(s, now);
      var (bpsOk, bpsWait) := WithinBps(s1, lim, size, now);
      var (iopsOk, iopsWait) := if bpsOk then WithinIops(s1, lim, now) else (false, 0);
      if bpsOk && iopsOk then (s1, true, 0)
      else
        var wait := if bpsWait > iopsWait then bpsWait else iopsWait;
        (if s1.end < now + wait then Extend(s1, now + wait) else s1, false, wait)
  }

  /** throtl_charge_bio. */
  function Charge(s: Slice, size: nat): Slice {
    s.(bytes := s.bytes + size, ios := s.ios + 1)
  }

  // ---------------------------------------------------------------- one group, one direction

  /** The slice, the queued bios, and what was submitted and dispatched so far (in order). */
  datatype Group = Group(slice: Slice, queue: seq<nat>, submitted: seq<nat>, dispatched: seq<nat>)

  function InitGroup(): Group {
    Group(Slice(0, 0, 0, 0), [], [], [])
  }

  /** Let a bio go: tg_dispatch_one_bio, and the direct path of blk_throtl_bio. */
  function Dispatch(g: Group, lim: Limits, s: Slice, size: nat, now: nat): Group {
    g.(slice := Trim(Charge(s, size), lim, now), dispatched := g.dispatched + [size])
  }

  /** One round of the loop of throtl_dispatch_tg: dispatch the first queued bio if it may go. */
  function TryQueued(g: Group, lim: Limits, now: nat): Group
    requires lim.Valid()
  {
    if g.queue == [] then g
    else
      var (s, ok, _) := MayDispatch(g.slice, lim, g.queue[0], now);
      if ok then Dispatch(g, lim, s, g.queue[0], now).(queue := g.queue[1..]) else g.(slice := s)
  }

  /** The whole loop, at most `max` bios. */
  function DispatchQueued(g: Group, lim: Limits, now: nat, max: nat): Group
    requires lim.Valid()
    decreases max
  {
    if max == 0 || g.queue == [] then g
    else
      var g1 := TryQueued(g, lim, now);
      if MayDispatch(g.slice, lim, g.queue[0], now).1 then DispatchQueued(g1, lim, now, max - 1) else g1
  }

  /** tg_update_disptime: the first queued bio is looked at again. */
  function UpdateDisptime(g: Group, lim: Limits, now: nat): Group
    requires lim.Valid()
  {
    if g.queue == [] then g else g.(slice := MayDispatch(g.slice, lim, g.queue[0], now).0)
  }

  /** blk_throtl_bio of a group that has a rule. */
  function Submit(g: Group, lim: Limits, size: nat, now: nat): Group
    requires lim.Valid()
  {
    var g1 := g.(submitted := g.submitted + [size]);
    if g1.queue != [] then g1.(queue := g1.queue + [size])
    else
      var (s, ok, _) := MayDispatch(g1.slice, lim, size, now);
      if ok then Dispatch(g1, lim, s, size, now)
      else UpdateDisptime(g1.(slice := s, queue := [size]), lim, now)
  }

  datatype Action =
    | SubmitBio(size: nat)
    | Work(max: nat)       // throtl_dispatch_tg
    | Recheck              // tg_update_disptime

  function Apply(g: Group, lim: Limits, a: Action, now: nat): Group
    requires lim.Valid()
  {
    match a
    case SubmitBio(size) => Submit(g, lim, size, now)
    case Work(max) => DispatchQueued(g, lim, now, max)
    case Recheck => UpdateDisptime(g, lim, now)
  }

  function Run(g: Group, lim: Limits, run: seq<(Action, nat)>): Group
    requires lim.Valid()
    decreases |run|
  {
    if run == [] then g else Run(Apply(g, lim, run[0].0, run[0].1), lim, run[1..])
  }

  // ---------------------------------------------------------------- the rate bound

  function Sum(xs: seq<nat>): nat {
    if xs == [] then 0 else xs[0] + Sum(xs[1..])
  }

  lemma {:induction false} SumAppend(xs: seq<nat>, x: nat)
    ensures Sum(xs + [x]) == Sum(xs) + x
  {
    if xs == [] {
      assert xs + [x] == [x];
    } else {
      SumAppend(xs[1..], x);
      assert (xs + [x])[1..] == xs[1..] + [x];
    }
  }

  /** `total` units at `rate` units per second were used by time `until`, counting from t0. */
  ghost predicate Within(total: nat, rate: nat, t0: int, until: int) {
    total * HZ <= rate * (until - t0)
  }

  /**
   What ties the counters of the current slice to all that was dispatched since t0: everything
   before the slice is within the rate up to its start, and everything within the rate up to its end.
   */
  ghost predicate Accounted(total: nat, disp: nat, rate: nat, t0: int, s: Slice) {
    && total * HZ <= rate * (s.start - t0) + disp * HZ
    && Within(total, rate, t0, s.end)
  }

  lemma WithinLater(total: nat, rate: nat, t0: int, u: int, v: int)
    requires Within(total, rate, t0, u) && u <= v
    ensures Within(total, rate, t0, v)
  {}

  lemma RenewAccounted(total: nat, disp: nat, disp': nat, rate: nat, t0: int, s: Slice, now: nat)
    requires Accounted(total, disp, rate, t0, s) && s.start <= now
    requires disp' == if SliceUsed(s, now) then 0 else disp
    ensures Accounted(total, disp', rate, t0, Renew(s, now))
  {
    WithinLater(total, rate, t0, s.end, if s.end <= Renew(s, now).end then Renew(s, now).end else s.end);
    if SliceUsed(s, now) {
      WithinLater(total, rate, t0, s.end, now);
      WithinLater(total, rate, t0, s.end, now + THROTL_SLICE);
    }
  }

  lemma ExtendAccounted(total: nat, disp: nat, rate: nat, t0: int, s: Slice, until: nat)
    requires Accounted(total, disp, rate, t0, s) && s.end <= until
    ensures Accounted(total, disp, rate, t0, Extend(s, until))
  {
    WithinLater(total, rate, t0, s.end, RoundUp(until));
  }

  /** A bio within the allowance of the current slice is within the rate a slice from now. */
  lemma AllowedWithin(total: nat, disp: nat, rate: nat, t0: int, s: Slice, n: nat, now: nat)
    requires Accounted(total, disp, rate, t0, s) && s.start <= now
    requires disp + n <= Div(rate * ElapsedRounded(s, now), HZ)
    ensures (total + n) * HZ <= rate * (s.start - t0) + (disp + n) * HZ
    ensures Within(total + n, rate, t0, now + THROTL_SLICE)
  {
    var e := ElapsedRounded(s, now);
    var q, u, v := Div(rate * e, HZ), s.start - t0, now + THROTL_SLICE - s.start;
    assert e <= v;
    hide ElapsedRounded, Div;
    MulLe(HZ, disp + n, q);
    MulLe(rate, e, v);
    assert (total + n) * HZ == total * HZ + n * HZ && (disp + n) * HZ == disp * HZ + n * HZ;
    assert rate * (u + v) == rate * u + rate * v;
  }

  /** Trimming whole slices rounds down, so it never forgets more than the rate allows. */
  lemma TrimAccounted(total: nat, disp: nat, rate: nat, t0: int, s: Slice, slices: nat, end: nat)
    requires total * HZ <= rate * (s.start - t0) + disp * HZ && Within(total, rate, t0, end)
    ensures var trim := Earned(rate, THROTL_SLICE * slices);
            Accounted(total, Sub(disp, trim), rate, t0, Slice(0, 0, s.start + THROTL_SLICE * slices, end))
  {}

  /** Both limits are accounted for in the slice. */
  ghost predicate SliceOk(bytes: nat, ios: nat, lim: Limits, t0: int, s: Slice, now: nat) {
    && t0 <= s.start <= now && s.start <= s.end
    && Accounted(bytes, s.bytes, lim.bps, t0, s) && Accounted(ios, s.ios, lim.iops, t0, s)
  }

  /** At time now, everything dispatched since t0 is within both rates, one slice ahead. */
  ghost predicate RateBound(bytes: nat, ios: nat, lim: Limits, t0: int, now: int) {
    Within(bytes, lim.bps, t0, now + THROTL_SLICE) && Within(ios, lim.iops, t0, now + THROTL_SLICE)
  }

  lemma MayDispatchOk(bytes: nat, ios: nat, lim: Limits, t0: int, s: Slice, size: nat, now: nat)
    requires lim.Valid() && !lim.NoRule() && SliceOk(bytes, ios, lim, t0, s, now)
    ensures var (s', ok, wait) := MayDispatch(s, lim, size, now);
            && SliceOk(bytes, ios, lim, t0, s', now) && s'.end >= now + THROTL_SLICE
            && (ok ==> s'.bytes + size <= BytesAllowed(s', lim, now) && s'.ios + 1 <= IosAllowed(s', lim, now))
            && (!ok ==> wait > 0 && s'.end >= now + wait)
  {
    var s1 := Renew(s, now);
    RenewOk(bytes, ios, lim, t0, s, now);
    hide SliceOk, RoundUp, WithinBps, WithinIops, BytesAllowed, IosAllowed, Renew;
    BpsVerdict(s1, lim, size, now);
    IopsVerdict(s1, lim, now);
    var (s', ok, wait) := MayDispatch(s, lim, size, now);
    if s1.end < now + wait {
      ExtendOk(bytes, ios, lim, t0, s1, now, now + wait);
      SameStart(s1, Extend(s1, now + wait), lim, now);
    }
  }

  lemma RenewOk(bytes: nat, ios: nat, lim: Limits, t0: int, s: Slice, now: nat)
    requires SliceOk(bytes, ios, lim, t0, s, now)
    ensures SliceOk(bytes, ios, lim, t0, Renew(s, now), now)
    ensures Renew(s, now).start <= now && Renew(s, now).end >= now + THROTL_SLICE
  {
    var s1 := Renew(s, now);
    RenewAccounted(bytes, s.bytes, s1.bytes, lim.bps, t0, s, now);
    RenewAccounted(ios, s.ios, s1.ios, lim.iops, t0, s, now);
  }

  lemma ExtendOk(bytes: nat, ios: nat, lim: Limits, t0: int, s: Slice, now: nat, until: nat)
    requires SliceOk(bytes, ios, lim, t0, s, now) && s.end <= until
    ensures SliceOk(bytes, ios, lim, t0, Extend(s, until), now) && Extend(s, until).end >= until
  {
    ExtendAccounted(bytes, s.bytes, lim.bps, t0, s, until);
    ExtendAccounted(ios, s.ios, lim.iops, t0, s, until);
  }

  lemma SameStart(s: Slice, s': Slice, lim: Limits, now: nat)
    requires s.start == s'.start <= now
    ensures BytesAllowed(s', lim, now) == BytesAllowed(s, lim, now) && IosAllowed(s', lim, now) == IosAllowed(s, lim, now)
  {}

  lemma BpsVerdict(s: Slice, lim: Limits, size: nat, now: nat)
    requires s.start <= now && lim.Valid()
    ensures var (ok, wait) := WithinBps(s, lim, size, now);
            if ok then s.bytes + size <= BytesAllowed(s, lim, now) else wait > 0
  {
    hide BytesAllowed, RoundUp;
  }

  lemma IopsVerdict(s: Slice, lim: Limits, now: nat)
    requires s.start <= now && lim.Valid()
    ensures var (ok, wait) := WithinIops(s, lim, now);
            if ok then s.ios + 1 <= IosAllowed(s, lim, now) else wait > 0
  {}

  lemma TrimOk(bytes: nat, ios: nat, lim: Limits, t0: int, s: Slice, now: nat)
    requires t0 <= s.start <= now && s.end >= now + THROTL_SLICE
    requires bytes * HZ <= lim.bps * (s.start - t0) + s.bytes * HZ
    requires ios * HZ <= lim.iops * (s.start - t0) + s.ios * HZ
    requires RateBound(bytes, ios, lim, t0, now)
    ensures SliceOk(bytes, ios, lim, t0, Trim(s, lim, now), now)
  {
    var end, slices := RoundUp(now + THROTL_SLICE), Div(now - s.start, THROTL_SLICE);
    WithinLater(bytes, lim.bps, t0, now + THROTL_SLICE, end);
    WithinLater(ios, lim.iops, t0, now + THROTL_SLICE, end);
    TrimAccounted(bytes, s.bytes, lim.bps, t0, s, slices, end);
    TrimAccounted(ios, s.ios, lim.iops, t0, s, slices, end);
    TrimAccounted(bytes, s.bytes, lim.bps, t0, s, 0, end);
    TrimAccounted(ios, s.ios, lim.iops, t0, s, 0, end);
    assert THROTL_SLICE * slices <= now - s.start;
    hide RoundUp, Within;
  }

  /** Dispatching an admitted bio keeps the accounts and the bound. */
  lemma DispatchOk(bytes: nat, ios: nat, lim: Limits, t0: int, s: Slice, size: nat, now: nat)
    requires SliceOk(bytes, ios, lim, t0, s, now) && s.end >= now + THROTL_SLICE
    requires s.bytes + size <= BytesAllowed(s, lim, now) && s.ios + 1 <= IosAllowed(s, lim, now)
    ensures SliceOk(bytes + size, ios + 1, lim, t0, Trim(Charge(s, size), lim, now), now)
    ensures RateBound(bytes + size, ios + 1, lim, t0, now)
  {
    AllowedWithin(bytes, s.bytes, lim.bps, t0, s, size, now);
    AllowedWithin(ios, s.ios, lim.iops, t0, s, 1, now);
    hide Accounted, Within, Trim;
    TrimOk(bytes + size, ios + 1, lim, t0, Charge(s, size), now);
  }

  /** What holds of a group after its first bio, at t0, up to time now. */
  ghost predicate Inv(g: Group, lim: Limits, t0: nat, now: nat) {
    && SliceOk(Sum(g.dispatched), |g.dispatched|, lim, t0, g.slice, now)
    && RateBound(Sum(g.dispatched), |g.dispatched|, lim, t0, now)
    && g.submitted == g.dispatched + g.queue
  }

  lemma InvLater(g: Group, lim: Limits, t0: nat, now: nat, later: nat)
    requires Inv(g, lim, t0, now) && now <= later
    ensures Inv(g, lim, t0, later)
  {
    WithinLater(Sum(g.dispatched), lim.bps, t0, now + THROTL_SLICE, later + THROTL_SLICE);
    WithinLater(|g.dispatched|, lim.iops, t0, now + THROTL_SLICE, later + THROTL_SLICE);
  }

  /** The slice after a look at a bio, and the group after that bio was let go. */
  lemma LookOk(g: Group, lim: Limits, t0: nat, size: nat, now: nat)
    requires lim.Valid() && !lim.NoRule() && SliceOk(Sum(g.dispatched), |g.dispatched|, lim, t0, g.slice, now)
    ensures var (s, ok, _) := MayDispatch(g.slice, lim, size, now);
            var n := |g.dispatched|;
            && SliceOk(Sum(g.dispatched), n, lim, t0, s, now)
            && (ok ==> var d := Dispatch(g, lim, s, size, now);
                       SliceOk(Sum(d.dispatched), n + 1, lim, t0, d.slice, now) && RateBound(Sum(d.dispatched), n + 1, lim, t0, now))
  {
    MayDispatchOk(Sum(g.dispatched), |g.dispatched|, lim, t0, g.slice, size, now);
    SumAppend(g.dispatched, size);
    hide SliceOk, RateBound, Trim, BytesAllowed, IosAllowed;
    var (s, ok, _) := MayDispatch(g.slice, lim, size, now);
    hide MayDispatch;
    if ok {
      DispatchOk(Sum(g.dispatched), |g.dispatched|, lim, t0, s, size, now);
    }
  }

  lemma SubmitInv(g: Group, lim: Limits, t0: nat, size: nat, now: nat)
    requires lim.Valid() && !lim.NoRule() && Inv(g, lim, t0, now)
    ensures Inv(Submit(g, lim, size, now), lim, t0, now)
  {
    hide SliceOk, RateBound, MayDispatch, Trim, Sum;
    LookOk(g, lim, t0, size, now);
    if g.queue == [] {
      var (s, ok, _) := MayDispatch(g.slice, lim, size, now);
      LookOk(g.(slice := s), lim, t0, size, now);
    }
  }

  lemma UpdateInv(g: Group, lim: Limits, t0: nat, now: nat)
    requires lim.Valid() && !lim.NoRule() && Inv(g, lim, t0, now)
    ensures Inv(UpdateDisptime(g, lim, now), lim, t0, now)
  {
    hide SliceOk, RateBound, MayDispatch, Trim, Sum;
    if g.queue != [] {
      LookOk(g, lim, t0, g.queue[0], now);
    }
  }

  lemma {:induction false} WorkInv(g: Group, lim: Limits, t0: nat, now: nat, max: nat)
    requires lim.Valid() && !lim.NoRule() && Inv(g, lim, t0, now)
    ensures Inv(DispatchQueued(g, lim, now, max), lim, t0, now)
    decreases max
  {
    hide SliceOk, RateBound, MayDispatch, Trim, Sum;
    if max > 0 && g.queue != [] {
      LookOk(g, lim, t0, g.queue[0], now);
      if MayDispatch(g.slice, lim, g.queue[0], now).1 {
        WorkInv(TryQueued(g, lim, now), lim, t0, now, max - 1);
      }
    }
  }

  /** The times of a run do not go back. */
  ghost predicate Monotone(run: seq<(Action, nat)>, from: nat) {
    && (forall i :: 0 <= i < |run| ==> from <= run[i].1)
    && (forall i, j :: 0 <= i < j < |run| ==> run[i].1 <= run[j].1)
  }

  function EndTime(run: seq<(Action, nat)>, from: nat): nat {
    if run == [] then from else run[|run| - 1].1
  }

  lemma {:induction false} RunInv(g: Group, lim: Limits, t0: nat, now: nat, run: seq<(Action, nat)>)
    requires lim.Valid() && !lim.NoRule() && Inv(g, lim, t0, now) && Monotone(run, now)
    ensures Inv(Run(g, lim, run), lim, t0, EndTime(run, now))
    decreases |run|
  {
    hide Inv, Submit, DispatchQueued, UpdateDisptime;
    if run != [] {
      var (a, t) := run[0];
      InvLater(g, lim, t0, now, t);
      match a {
        case SubmitBio(size) => SubmitInv(g, lim, t0, size, t);
        case Work(max) => WorkInv(g, lim, t0, t, max);
        case Recheck => UpdateInv(g, lim, t0, t);
      }
      assert Monotone(run[1..], t);
      RunInv(Apply(g, lim, a, t), lim, t0, t, run[1..]);
    }
  }

  lemma FirstSubmit(lim: Limits, size: nat, t0: nat)
    requires lim.Valid() && !lim.NoRule()
    ensures Inv(Submit(InitGroup(), lim, size, t0), lim, t0, t0)
  {
    var s := Slice(0, 0, t0, if t0 == 0 then 0 else t0 + THROTL_SLICE);
    assert Inv(Group(s, [], [], []), lim, t0, t0);
    SubmitInv(Group(s, [], [], []), lim, t0, size, t0);
    assert Renew(s, t0) == Renew(InitGroup().slice, t0);
    hide WithinBps, WithinIops, Trim;
  }

  /**
   The rate bound.  Whatever is submitted and whenever the group is worked on, the bytes and bios
   it has dispatched between its first bio at t0 and any later time are within its limits for
   that time plus one slice; and bios leave in the order they came, none lost or duplicated.
   */
  lemma DispatchedWithinRate(lim: Limits, first: nat, t0: nat, run: seq<(Action, nat)>, t: nat)
    requires lim.Valid() && !lim.NoRule() && Monotone(run, t0) && EndTime(run, t0) <= t
    ensures var g := Run(Submit(InitGroup(), lim, first, t0), lim, run);
            && Sum(g.dispatched) * HZ <= lim.bps * (t - t0 + THROTL_SLICE)
            && |g.dispatched| * HZ <= lim.iops * (t - t0 + THROTL_SLICE)
            && g.submitted == g.dispatched + g.queue
  {
    FirstSubmit(lim, first, t0);
    RunInv(Submit(InitGroup(), lim, first, t0), lim, t0, t0, run);
    var g := Run(Submit(InitGroup(), lim, first, t0), lim, run);
    InvLater(g, lim, t0, EndTime(run, t0), t);
    assert t + THROTL_SLICE - t0 == t - t0 + THROTL_SLICE;
  }

  /** The bound is met with equality at once: a slice's worth of bytes can leave at t0. */
  lemma BoundIsTight(t0: nat)
    requires t0 > 0
    ensures var lim := Limits(HZ, HZ);
            var g := Submit(InitGroup(), lim, THROTL_SLICE, t0);
            g.dispatched == [THROTL_SLICE] && Sum(g.dispatched) * HZ == lim.bps * (t0 - t0 + THROTL_SLICE)
  {
    var lim, slice := Limits(HZ, HZ), InitGroup().slice;
    hide MayDispatch, FitsFreshSlice, Trim;
    SliceFits();
    LateLook(slice, lim, THROTL_SLICE, t0);
    assert Submit(InitGroup(), lim, THROTL_SLICE, t0).dispatched == [THROTL_SLICE];
  }

  lemma SliceFits()
    ensures FitsFreshSlice(Limits(HZ, HZ), THROTL_SLICE)
  {
    DivGreatest(THROTL_SLICE, HZ * THROTL_SLICE, HZ);
  }

  // ---------------------------------------------------------------- the allowance over time

  lemma RoundUpMonotone(x: nat, y: nat)
    requires x <= y
    ensures RoundUp(x) <= RoundUp(y)
  {
    if RoundUp(y) < RoundUp(x) {
      MultiplesApart(RoundUp(x), RoundUp(y), THROTL_SLICE);
    }
  }

  /** More time, more allowance. */
  lemma AllowedGrows(s: Slice, s': Slice, lim: Limits, now: nat, later: nat)
    requires s.start == s'.start <= now <= later
    ensures BytesAllowed(s, lim, now) <= BytesAllowed(s', lim, later)
    ensures IosAllowed(s, lim, now) <= IosAllowed(s', lim, later)
  {
    RoundUpMonotone(now - s.start, later - s.start);
    hide RoundUp;
    assert now < later ==> THROTL_SLICE <= RoundUp(later - s.start) by { SliceAtLeast(later - s.start); }
    var e, e' := ElapsedRounded(s, now), ElapsedRounded(s', later);
    MulLe(lim.bps, e, e');
    MulLe(lim.iops, e, e');
    DivLe(lim.bps * e, lim.bps * e', HZ);
    DivLe(lim.iops * e, lim.iops * e', HZ);
  }

  lemma SliceAtLeast(x: int)
    ensures x > 0 ==> RoundUp(x) >= THROTL_SLICE
  {}

  /** Once the rate has covered the bytes, they are allowed. */
  lemma PaidAllowed(s: Slice, lim: Limits, need: nat, t: nat)
    requires s.start < t && lim.bps * (t - s.start) >= need * HZ
    ensures need <= BytesAllowed(s, lim, t)
  {
    var e := ElapsedRounded(s, t);
    hide ElapsedRounded;
    MulLe(lim.bps, t - s.start, e);
    DivGreatest(need, lim.bps * e, HZ);
  }

  lemma PaidIos(s: Slice, lim: Limits, t: nat)
    requires s.start < t && lim.iops * (t - s.start) >= (s.ios + 1) * HZ && s.ios < UINT_MAX
    ensures s.ios + 1 <= IosAllowed(s, lim, t)
  {
    var e := ElapsedRounded(s, t);
    hide ElapsedRounded;
    MulLe(lim.iops, t - s.start, e);
    DivGreatest(s.ios + 1, lim.iops * e, HZ);
  }

  // ---------------------------------------------------------------- is the wait long enough?

  /** s1 is s, still running, as far as the limits can tell. */
  predicate SameAccounts(s: Slice, s1: Slice) {
    s1.start == s.start && s1.bytes == s.bytes && s1.ios == s.ios
  }

  /** The wait for a byte limit, counted from the end of the rounded elapsed time. */
  function BpsWait(s: Slice, lim: Limits, size: nat, now: nat): nat
    requires s.start <= now && lim.Valid() && s.bytes + size > BytesAllowed(s, lim, now)
  {
    var k := Div((s.bytes + size - BytesAllowed(s, lim, now)) * HZ, lim.bps);
    if k == 0 then 1 else k
  }

  /**
   The wait rounds down.  When it is over the bytes are allowed, if and only if the next rounding of
   the elapsed time makes up for that or nothing was lost.
   */
  lemma BpsWaitEnoughIff(s: Slice, s': Slice, lim: Limits, size: nat, now: nat)
    requires s.start <= now && lim.Valid() && !WithinBps(s, lim, size, now).0 && SameAccounts(s, s')
    ensures var e, w := ElapsedRounded(s, now), BpsWait(s, lim, size, now);
            var allowed := WithinBps(s', lim, size, now + WithinBps(s, lim, size, now).1).0;
            allowed <==> w % THROTL_SLICE != 0 || lim.bps * (e + w) >= (s.bytes + size) * HZ
  {
    var e, w, need := ElapsedRounded(s, now), BpsWait(s, lim, size, now), s.bytes + size;
    var t := now + WithinBps(s, lim, size, now).1;
    assert t - s.start == e + w;
    OneMorePays(s, lim, size, now);
    NextRounding(e, w);
    var e' := ElapsedRounded(s', t);
    assert e' == RoundUp(e + w);
    hide ElapsedRounded, RoundUp, BpsWait;
    DivGreatest(need, lim.bps * e', HZ);
    if w % THROTL_SLICE != 0 {
      MulLe(lim.bps, e + w + 1, e');
    }
  }

  lemma NextRounding(e: nat, w: nat)
    requires e % THROTL_SLICE == 0
    ensures if w % THROTL_SLICE == 0 then RoundUp(e + w) == e + w else RoundUp(e + w) > e + w
  {
    var d := THROTL_SLICE;
    DivMod(e, d);
    DivMod(w, d);
    assert e + w == (e / d + w / d) * d + w % d;
    ModUnique(e + w, d, e / d + w / d, w % d);
  }

  /** One jiffy more than the wait always covers the bytes. */
  lemma OneMorePays(s: Slice, lim: Limits, size: nat, now: nat)
    requires s.start <= now && lim.Valid() && !WithinBps(s, lim, size, now).0
    ensures lim.bps * (ElapsedRounded(s, now) + BpsWait(s, lim, size, now) + 1) >= (s.bytes + size) * HZ
  {
    var e, allowed := ElapsedRounded(s, now), BytesAllowed(s, lim, now);
    var extra := s.bytes + size - allowed;
    var k, w := Div(extra * HZ, lim.bps), BpsWait(s, lim, size, now);
    assert allowed * HZ <= lim.bps * e;
    hide Div, ElapsedRounded, BytesAllowed;
    Pays(lim.bps, e, k, allowed, extra, e + w + 1);
  }

  lemma Pays(rate: nat, e: nat, k: nat, allowed: nat, extra: nat, t: nat)
    requires allowed * HZ <= rate * e && extra * HZ < k * rate + rate && t >= e + k + 1
    ensures rate * t >= (allowed + extra) * HZ
  {
    MulLe(rate, e + k + 1, t);
    assert rate * (e + k + 1) == rate * e + k * rate + rate;
    assert (allowed + extra) * HZ == allowed * HZ + extra * HZ;
  }

  /** A bio whose wait is too short: when it is over, inside the slice, the bio is refused again. */
  lemma BpsWaitTooShort(now: nat)
    ensures var lim, size := Limits(2 * HZ, 2 * HZ), 4 * THROTL_SLICE + 1;
            var (s, ok, wait) := MayDispatch(NewSlice(now), lim, size, now);
            !ok && wait == 2 * THROTL_SLICE && !SliceUsed(s, now + wait) && !MayDispatch(s, lim, size, now + wait).1
  {
    var lim, size, s := Limits(2 * HZ, 2 * HZ), 4 * THROTL_SLICE + 1, NewSlice(now);
    TooShort(now);
    hide WithinBps, MayDispatch, BpsWait, ElapsedRounded;
    RefusedAgain(s, lim, size, now);
  }

  lemma RefusedAgain(s: Slice, lim: Limits, size: nat, now: nat)
    requires lim.Valid() && !lim.NoRule() && !SliceUsed(s, now) && !WithinBps(s, lim, size, now).0
    requires var w := BpsWait(s, lim, size, now);
             w % THROTL_SLICE == 0 && lim.bps * (ElapsedRounded(s, now) + w) < (s.bytes + size) * HZ
    ensures var (s1, ok, wait) := MayDispatch(s, lim, size, now);
            !ok && wait == WithinBps(s, lim, size, now).1 && !SliceUsed(s1, now + wait) && !MayDispatch(s1, lim, size, now + wait).1
  {
    hide WithinBps, WithinIops, RoundUp, MayDispatch, BpsWait, ElapsedRounded;
    Looked(s, lim, size, now);
    var (s1, _, wait) := MayDispatch(s, lim, size, now);
    SameVerdict(s, s1, lim, size, now);
    Looked(s1, lim, size, now + wait);
    BpsWaitEnoughIff(s, MayDispatch(s1, lim, size, now + wait).0, lim, size, now);
  }

  lemma SameVerdict(s: Slice, s1: Slice, lim: Limits, size: nat, now: nat)
    requires lim.Valid() && SameAccounts(s, s1) && s.start <= now
    ensures WithinBps(s1, lim, size, now) == WithinBps(s, lim, size, now)
  {
    hide Div, RoundUp;
  }

  lemma TooShort(now: nat)
    ensures var lim, size, s := Limits(2 * HZ, 2 * HZ), 4 * THROTL_SLICE + 1, NewSlice(now);
            && WithinBps(s, lim, size, now) == (false, 2 * THROTL_SLICE)
            && ElapsedRounded(s, now) == BpsWait(s, lim, size, now) == THROTL_SLICE && THROTL_SLICE % THROTL_SLICE == 0
            && lim.bps * (THROTL_SLICE + THROTL_SLICE) < (s.bytes + size) * HZ
  {
    var d := THROTL_SLICE;
    ModUnique(2 * HZ * d, HZ, 2 * d, 0);
    ModUnique((2 * d + 1) * HZ, 2 * HZ, d, HZ);
    ModUnique(d, d, 1, 0);
    hide RoundUp;
    var lim, s := Limits(2 * HZ, 2 * HZ), NewSlice(now);
    assert BytesAllowed(s, lim, now) == 2 * d;
    hide BytesAllowed;
    assert BpsWait(s, lim, 4 * d + 1, now) == d;
  }

  /** After the wait for the number of bios, one more is always allowed. */
  lemma IopsWaitEnough(s: Slice, s': Slice, lim: Limits, now: nat)
    requires s.start == s'.start <= now && s.ios == s'.ios && lim.Valid() && s.ios < UINT_MAX
    ensures WithinIops(s', lim, now + WithinIops(s, lim, now).1).0
  {
    hide IosAllowed;
    AllowedGrows(s, s', lim, now, now);
    var wait := Div((s.ios + 1) * HZ, lim.iops) + 1;
    hide Div, ElapsedRounded;
    assert lim.iops * wait >= (s.ios + 1) * HZ;
    if wait > now - s.start {
      PaidIos(s', lim, s.start + wait);
    } else {
      MulLe(lim.iops, wait, now - s.start);
      PaidIos(s, lim, now);
    }
  }

  // ---------------------------------------------------------------- one look at a bio

  /** What a look at a bio decides, in terms of the slice it leaves; a refused bio finds that slice still running. */
  lemma Looked(s: Slice, lim: Limits, size: nat, now: nat)
    requires lim.Valid() && !lim.NoRule()
    ensures var (s1, ok, wait) := MayDispatch(s, lim, size, now);
            && s1.start <= now && now + THROTL_SLICE <= s1.end
            && (ok <==> WithinBps(s1, lim, size, now).0 && WithinIops(s1, lim, now).0)
            && (if SliceUsed(s, now) then s1.bytes == 0 && s1.ios == 0 && s1.start == now else SameAccounts(s, s1))
            && (!ok ==> !SliceUsed(s1, now + wait) && wait > 0)
            && (!WithinBps(s1, lim, size, now).0 ==> wait == WithinBps(s1, lim, size, now).1)
            && (!ok && WithinBps(s1, lim, size, now).0 ==> wait == WithinIops(s1, lim, now).1)
  {
    var s0 := Renew(s, now);
    var (s1, _, _) := MayDispatch(s, lim, size, now);
    SameStart(s0, s1, lim, now);
    BpsVerdict(s0, lim, size, now);
    IopsVerdict(s0, lim, now);
    hide RoundUp;
  }

  /** What a slice that has just started allows. */
  predicate FitsFreshSlice(lim: Limits, size: nat) {
    size <= Div(lim.bps * THROTL_SLICE, HZ) && 1 <= Div(lim.iops * THROTL_SLICE, HZ)
  }

  /** A look after the end of the slice admits exactly what a fresh slice allows. */
  lemma LateLook(s: Slice, lim: Limits, size: nat, t: nat)
    requires lim.Valid() && !lim.NoRule() && SliceUsed(s, t)
    ensures MayDispatch(s, lim, size, t).1 <==> FitsFreshSlice(lim, size)
  {
    Looked(s, lim, size, t);
  }

  /** By time t the rate has covered what the slice has used, and a bio of `size` bytes more. */
  predicate Paid(s: Slice, lim: Limits, size: nat, t: nat) {
    && s.start < t && s.ios < UINT_MAX
    && lim.bps * (t - s.start) >= (s.bytes + size) * HZ
    && lim.iops * (t - s.start) >= (s.ios + 1) * HZ
  }

  lemma PaidLater(s: Slice, lim: Limits, size: nat, t: nat, t': nat)
    requires Paid(s, lim, size, t) && t <= t'
    ensures Paid(s, lim, size, t')
  {
    MulLe(lim.bps, t - s.start, t' - s.start);
    MulLe(lim.iops, t - s.start, t' - s.start);
  }

  /** Every bio is paid for some day. */
  lemma PaidSomeDay(s: Slice, lim: Limits, size: nat) returns (t: nat)
    requires lim.Valid() && s.ios < UINT_MAX
    ensures Paid(s, lim, size, t)
  {
    var n := (s.bytes + size) * HZ + (s.ios + 1) * HZ;
    t := s.start + n;
    MulAtLeast(lim.bps, n);
    MulAtLeast(lim.iops, n);
    MulAtLeast(s.ios + 1, HZ);
  }

  /** A look that finds the slice running admits a bio that is paid for, however large. */
  lemma PaidLook(s: Slice, lim: Limits, size: nat, t: nat)
    requires lim.Valid() && !lim.NoRule() && !SliceUsed(s, t) && Paid(s, lim, size, t)
    ensures MayDispatch(s, lim, size, t).1
  {
    hide MayDispatch, BytesAllowed, IosAllowed;
    Looked(s, lim, size, t);
    var s1 := MayDispatch(s, lim, size, t).0;
    PaidAllowed(s1, lim, s.bytes + size, t);
    PaidIos(s1, lim, t);
  }

  /** A slice nothing was charged to admits what a fresh one does, at any time. */
  lemma UnchargedLook(s: Slice, lim: Limits, size: nat, t: nat)
    requires lim.Valid() && !lim.NoRule() && s.bytes == 0 && s.ios == 0 && FitsFreshSlice(lim, size)
    ensures MayDispatch(s, lim, size, t).1
  {
    Looked(s, lim, size, t);
    var s1 := MayDispatch(s, lim, size, t).0;
    hide MayDispatch;
    AllowedGrows(s1, s1, lim, s1.start, t);
  }

  // ---------------------------------------------------------------- the first queued bio over a run

  /** s1 is s, or was started since, and nothing was charged to it since. */
  predicate Uncharged(s: Slice, s1: Slice) {
    SameAccounts(s, s1) || (s1.bytes == 0 && s1.ios == 0)
  }

  /** The bio at the head of g's queue has left by g1. */
  ghost predicate HeadLeft(g: Group, g1: Group)
    requires g.queue != []
  {
    g.dispatched + [g.queue[0]] <= g1.dispatched
  }

  /** It is still at the head. */
  ghost predicate HeadWaits(g: Group, g1: Group)
    requires g.queue != []
  {
    g1.queue != [] && g1.queue[0] == g.queue[0] && g1.dispatched == g.dispatched
  }

  lemma {:induction false} WorkGrows(g: Group, lim: Limits, now: nat, max: nat)
    requires lim.Valid()
    ensures g.dispatched <= DispatchQueued(g, lim, now, max).dispatched
    decreases max
  {
    hide MayDispatch, Trim;
    if max > 0 && g.queue != [] && MayDispatch(g.slice, lim, g.queue[0], now).1 {
      WorkGrows(TryQueued(g, lim, now), lim, now, max - 1);
    }
  }

  lemma {:induction false} RunGrows(g: Group, lim: Limits, run: seq<(Action, nat)>)
    requires lim.Valid()
    ensures g.dispatched <= Run(g, lim, run).dispatched
    decreases |run|
  {
    hide MayDispatch, Trim, DispatchQueued;
    if run != [] {
      var (a, t) := run[0];
      if a.Work? {
        WorkGrows(g, lim, t, a.max);
      }
      RunGrows(Apply(g, lim, a, t), lim, run[1..]);
    }
  }

  /** Whether an action looks at the first queued bio. */
  predicate Looks(a: Action) {
    a.Recheck? || (a.Work? && a.max > 0)
  }

  /** A dispatch lets the first bio go exactly if the look admits it. */
  lemma WorkStep(g: Group, lim: Limits, now: nat, max: nat)
    requires lim.Valid() && g.queue != [] && max > 0
    ensures var (s, ok, _) := MayDispatch(g.slice, lim, g.queue[0], now);
            var g1 := DispatchQueued(g, lim, now, max);
            if ok then HeadLeft(g, g1) else g1 == g.(slice := s)
  {
    hide MayDispatch, Trim;
    if MayDispatch(g.slice, lim, g.queue[0], now).1 {
      WorkGrows(TryQueued(g, lim, now), lim, now, max - 1);
    }
  }

  /** One action: the bio leaves, or waits on with the slice a look leaves, if the action looks at all. */
  lemma OneAction(g: Group, lim: Limits, a: Action, t: nat)
    requires lim.Valid() && g.queue != []
    ensures var g1 := Apply(g, lim, a, t);
            var s := MayDispatch(g.slice, lim, g.queue[0], t).0;
            HeadLeft(g, g1) || (HeadWaits(g, g1) && g1.slice == if Looks(a) then s else g.slice)
  {
    if a.Work? && a.max > 0 {
      WorkStep(g, lim, t, a.max);
    }
    hide MayDispatch, Trim;
  }

  lemma LeftForGood(g: Group, g1: Group, lim: Limits, run: seq<(Action, nat)>)
    requires lim.Valid() && g.queue != [] && HeadLeft(g, g1)
    ensures HeadLeft(g, Run(g1, lim, run))
  {
    hide Run;
    RunGrows(g1, lim, run);
  }

  /** The run, and then a dispatch at time t. */
  function WithWork(run: seq<(Action, nat)>, t: nat, max: nat): (r: seq<(Action, nat)>)
    ensures r != [] && (run != [] ==> r[0] == run[0] && r[1..] == WithWork(run[1..], t, max))
  {
    run + [(Work(max), t)]
  }

  /** While a bio waits, nothing is charged; so once it is paid for, the next dispatch lets it go. */
  lemma {:induction false} ServedSince(s: Slice, g: Group, lim: Limits, run: seq<(Action, nat)>, t: nat, max: nat)
    requires lim.Valid() && !lim.NoRule() && g.queue != [] && FitsFreshSlice(lim, g.queue[0])
    requires Uncharged(s, g.slice) && Paid(s, lim, g.queue[0], t) && max > 0
    ensures HeadLeft(g, Run(g, lim, WithWork(run, t, max)))
    decreases |run|
  {
    hide MayDispatch, DispatchQueued, FitsFreshSlice, Paid;
    var all := WithWork(run, t, max);
    var (a, now) := all[0];
    var g1 := Apply(g, lim, a, now);
    OneAction(g, lim, a, now);
    if run == [] {
      FittingLook(s, g.slice, lim, g.queue[0], t);
      WorkStep(g, lim, t, max);
    }
    if HeadLeft(g, g1) {
      LeftForGood(g, g1, lim, all[1..]);
    } else {
      Looked(g.slice, lim, g.queue[0], now);
      ServedSince(s, g1, lim, run[1..], t, max);
    }
  }

  lemma FittingLook(s: Slice, s1: Slice, lim: Limits, size: nat, t: nat)
    requires lim.Valid() && !lim.NoRule() && FitsFreshSlice(lim, size) && Uncharged(s, s1) && Paid(s, lim, size, t)
    ensures MayDispatch(s1, lim, size, t).1
  {
    hide MayDispatch, FitsFreshSlice;
    if SliceUsed(s1, t) {
      LateLook(s1, lim, size, t);
    } else if SameAccounts(s, s1) {
      PaidLook(s1, lim, size, t);
    } else {
      UnchargedLook(s1, lim, size, t);
    }
  }

  /**
   Whatever happens in between, whenever the group is looked at, early or late: a dispatch at a time
   by which the first queued bio is paid for lets it go, if a fresh slice allows the bio.
   */
  lemma ServedOncePaid(g: Group, lim: Limits, run: seq<(Action, nat)>, t: nat, max: nat)
    requires lim.Valid() && !lim.NoRule() && g.queue != [] && FitsFreshSlice(lim, g.queue[0])
    requires Paid(g.slice, lim, g.queue[0], t) && max > 0
    ensures HeadLeft(g, Run(g, lim, run + [(Work(max), t)]))
  {
    ServedSince(g.slice, g, lim, run, t, max);
  }

  /** Every run that goes on from `now` and ends with a dispatch once the first bio is paid for lets that bio go. */
  ghost predicate AlwaysServed(g: Group, lim: Limits, now: nat)
    requires lim.Valid() && g.queue != []
  {
    forall run, t, max | max > 0 && Monotone(WithWork(run, t, max), now) && Paid(g.slice, lim, g.queue[0], t) ::
      HeadLeft(g, Run(g, lim, WithWork(run, t, max)))
  }

  /** That is so exactly for the bios a fresh slice allows. */
  lemma AlwaysServedIff(g: Group, lim: Limits, now: nat)
    requires lim.Valid() && !lim.NoRule() && g.queue != [] && g.slice.ios < UINT_MAX
    ensures AlwaysServed(g, lim, now) <==> FitsFreshSlice(lim, g.queue[0])
  {
    hide FitsFreshSlice, Paid, Monotone, Run;
    if FitsFreshSlice(lim, g.queue[0]) {
      forall run, t, max | max > 0 && Monotone(WithWork(run, t, max), now) && Paid(g.slice, lim, g.queue[0], t)
        ensures HeadLeft(g, Run(g, lim, WithWork(run, t, max)))
      {
        ServedOncePaid(g, lim, run, t, max);
      }
    } else {
      var from := PaidSomeDay(g.slice, lim, g.queue[0]);
      NotServedLate(g, lim, now, from);
    }
  }

  lemma NotServedLate(g: Group, lim: Limits, now: nat, from: nat)
    requires lim.Valid() && !lim.NoRule() && g.queue != [] && !FitsFreshSlice(lim, g.queue[0])
    requires Paid(g.slice, lim, g.queue[0], from)
    ensures !AlwaysServed(g, lim, now)
  {
    hide FitsFreshSlice, Paid;
    var t := from + now + g.slice.end + 1;
    PaidLater(g.slice, lim, g.queue[0], from, t);
    LateLook(g.slice, lim, g.queue[0], t);
    WorkStep(g, lim, t, 1);
    assert WithWork([], t, 1)[1..] == [];
    assert !HeadLeft(g, Run(g, lim, WithWork([], t, 1)));
    assert Monotone(WithWork([], t, 1), now);
  }

  /** n dispatches, from time `from` on, each after the end of the slice it finds. */
  function LateRun(g: Group, lim: Limits, from: nat, n: nat): (run: seq<(Action, nat)>)
    requires lim.Valid()
    ensures |run| == n
    decreases n
  {
    if n == 0 then []
    else
      var t := from + g.slice.end + 1;
      [(Work(1), t)] + LateRun(DispatchQueued(g, lim, t, 1), lim, t, n - 1)
  }

  /** A bio that is too large for a fresh slice can be put off for ever, long after it is paid for. */
  lemma {:induction false} PutOff(g: Group, lim: Limits, from: nat, n: nat)
    requires lim.Valid() && !lim.NoRule() && g.queue != [] && !FitsFreshSlice(lim, g.queue[0])
    ensures var run := LateRun(g, lim, from, n);
            Monotone(run, from) && HeadWaits(g, Run(g, lim, run))
    decreases n
  {
    hide MayDispatch, FitsFreshSlice, DispatchQueued;
    if n > 0 {
      var run, t := LateRun(g, lim, from, n), from + g.slice.end + 1;
      LateLook(g.slice, lim, g.queue[0], t);
      WorkStep(g, lim, t, 1);
      PutOff(DispatchQueued(g, lim, t, 1), lim, t, n - 1);
      assert run[1..] == LateRun(DispatchQueued(g, lim, t, 1), lim, t, n - 1);
      LaterRun(run, from);
    }
  }

  lemma LaterRun(run: seq<(Action, nat)>, from: nat)
    requires run != [] && from <= run[0].1 && Monotone(run[1..], run[0].1)
    ensures Monotone(run, from)
  {
    forall i, j | 0 <= i < j < |run| ensures from <= run[j].1 && run[i].1 <= run[j].1 {
      assert run[j] == run[1..][j - 1];
      assert i > 0 ==> run[i] == run[1..][i - 1];
    }
  }

  // ---------------------------------------------------------------- bios of any size

  /** As long as the first bio waits, every look at it finds the slice running. */
  ghost predicate InTime(g: Group, lim: Limits, run: seq<(Action, nat)>)
    requires lim.Valid() && g.queue != []
    decreases |run|
  {
    run == [] ||
      var (a, t) := run[0];
      var g1 := Apply(g, lim, a, t);
      (Looks(a) ==> !SliceUsed(g.slice, t)) && (HeadWaits(g, g1) ==> InTime(g1, lim, run[1..]))
  }

  /** Looked at in time, however often and however early, every bio leaves once it is paid for. */
  lemma {:induction false} NeverStarved(g: Group, lim: Limits, run: seq<(Action, nat)>, t: nat, max: nat)
    requires lim.Valid() && !lim.NoRule() && g.queue != [] && max > 0
    requires InTime(g, lim, WithWork(run, t, max)) && Paid(g.slice, lim, g.queue[0], t)
    ensures HeadLeft(g, Run(g, lim, WithWork(run, t, max)))
    decreases |run|
  {
    hide MayDispatch, DispatchQueued;
    var all := WithWork(run, t, max);
    var (a, now) := all[0];
    var g1 := Apply(g, lim, a, now);
    OneAction(g, lim, a, now);
    if run == [] {
      PaidLook(g.slice, lim, g.queue[0], t);
      WorkStep(g, lim, t, max);
    }
    if HeadLeft(g, g1) {
      LeftForGood(g, g1, lim, all[1..]);
    } else {
      Looked(g.slice, lim, g.queue[0], now);
      NeverStarved(g1, lim, run[1..], t, max);
    }
  }

  /** A look at time t asks for the next one within the wait it computes, or within a slice if that is longer. */
  function Due(s: Slice, lim: Limits, size: nat, t: nat): nat
    requires lim.Valid()
  {
    var wait := MayDispatch(s, lim, size, t).2;
    t + if wait > THROTL_SLICE then wait else THROTL_SLICE
  }

  lemma LastsUntilDue(s: Slice, lim: Limits, size: nat, t: nat)
    requires lim.Valid() && !lim.NoRule()
    ensures var s1 := MayDispatch(s, lim, size, t).0; s1.start <= t && Due(s, lim, size, t) <= s1.end
  {
    Looked(s, lim, size, t);
    hide WithinBps, WithinIops, RoundUp, Renew;
  }

  /** Time does not go back, and no look at the first bio comes after it is due. */
  ghost predicate Punctual(g: Group, lim: Limits, run: seq<(Action, nat)>, last: nat, due: nat)
    requires lim.Valid() && g.queue != []
    decreases |run|
  {
    run == [] ||
      var (a, t) := run[0];
      var g1, due1 := Apply(g, lim, a, t), if Looks(a) then Due(g.slice, lim, g.queue[0], t) else due;
      last <= t && (Looks(a) ==> t <= due) && (HeadWaits(g, g1) ==> Punctual(g1, lim, run[1..], t, due1))
  }

  /** A slice lasts until the next look is due, so punctual looks are in time. */
  lemma {:induction false} PunctualInTime(g: Group, lim: Limits, run: seq<(Action, nat)>, last: nat, due: nat)
    requires lim.Valid() && !lim.NoRule() && g.queue != [] && Punctual(g, lim, run, last, due)
    requires g.slice.start <= last && due <= g.slice.end
    ensures InTime(g, lim, run)
    decreases |run|
  {
    hide MayDispatch, DispatchQueued, Due;
    if run != [] {
      var (a, t) := run[0];
      LastsUntilDue(g.slice, lim, g.queue[0], t);
      OneAction(g, lim, a, t);
      var g1 := Apply(g, lim, a, t);
      if HeadWaits(g, g1) {
        PunctualInTime(g1, lim, run[1..], t, if Looks(a) then Due(g.slice, lim, g.queue[0], t) else due);
      }
    }
  }

  // ---------------------------------------------------------------- nor is anybody held back longer

  /** When the wait for a byte limit is over, the rate has covered less than one byte too much, unless the wait was the shortest. */
  lemma BpsWaitNotLong(s: Slice, lim: Limits, size: nat, now: nat)
    requires s.start <= now && lim.Valid() && !WithinBps(s, lim, size, now).0
    ensures var t := now + WithinBps(s, lim, size, now).1;
            BpsWait(s, lim, size, now) == 1 || lim.bps * (t - s.start) < (s.bytes + size + 1) * HZ
  {
    var e, allowed := ElapsedRounded(s, now), BytesAllowed(s, lim, now);
    var extra := s.bytes + size - allowed;
    var k := Div(extra * HZ, lim.bps);
    assert lim.bps * e < allowed * HZ + HZ;
    hide Div, ElapsedRounded, BytesAllowed;
    if k > 1 {
      assert lim.bps * (e + k) == lim.bps * e + k * lim.bps;
      assert (allowed + extra + 1) * HZ == allowed * HZ + extra * HZ + HZ;
    }
  }

  /** When the wait for the number of bios is over, a jiffy before the rate had not covered more than one. */
  lemma IopsWaitNotLong(s: Slice, lim: Limits, now: nat)
    requires s.start <= now && lim.Valid() && !WithinIops(s, lim, now).0
    ensures var wait := WithinIops(s, lim, now).1;
            wait == 1 || lim.iops * (now + wait - 1 - s.start) <= (s.ios + 1) * HZ
  {
    var k := Div((s.ios + 1) * HZ, lim.iops);
    hide Div, IosAllowed;
    assert lim.iops * k == k * lim.iops;
  }

  /**
   Trimming costs at most one unit of what was left to a bio of the slice: what is taken off the
   counters is what the limits lose, up to rounding, unless the counter is down to nothing.
   */
  lemma TrimLeaves(s: Slice, lim: Limits, now: nat, t: nat)
    requires !SliceUsed(s, now) && now <= t
    ensures var s1 := Trim(s, lim, now);
            && s1.start <= t
            && (s1.bytes == 0 || BytesAllowed(s1, lim, t) - s1.bytes >= BytesAllowed(s, lim, t) - s.bytes - 1)
            && (s1.ios == 0 || IosAllowed(s1, lim, t) - s1.ios >= IosAllowed(s, lim, t) - s.ios - 1)
  {
    var slices := Div(now - s.start, THROTL_SLICE);
    var span: nat := THROTL_SLICE * slices;
    assert span <= now - s.start;
    assert slices > 0 ==> span > 0;
    hide Div, RoundUp, Earned, ElapsedRounded;
    var s1 := Trim(s, lim, now);
    if s1.start == s.start {
      SameStart(s, s1, lim, t);
    } else {
      ElapsedLess(s, s1, slices, t);
      AllowedLess(lim.bps, ElapsedRounded(s, t), ElapsedRounded(s1, t), span);
      AllowedLess(lim.iops, ElapsedRounded(s, t), ElapsedRounded(s1, t), span);
      AllowedIs(s, lim, t);
      AllowedIs(s1, lim, t);
      hide BytesAllowed, IosAllowed;
    }
  }

  lemma AllowedIs(s: Slice, lim: Limits, t: nat)
    requires s.start <= t
    ensures var e := ElapsedRounded(s, t);
            && BytesAllowed(s, lim, t) == Earned(lim.bps, e)
            && IosAllowed(s, lim, t) == if Earned(lim.iops, e) > UINT_MAX then UINT_MAX else Earned(lim.iops, e)
  {
    hide Div, ElapsedRounded;
  }

  /** Moving the start by whole slices shortens the rounded elapsed time by no more. */
  lemma ElapsedLess(s: Slice, s1: Slice, slices: nat, t: nat)
    requires s1.start == s.start + THROTL_SLICE * slices <= t
    ensures ElapsedRounded(s, t) <= ElapsedRounded(s1, t) + THROTL_SLICE * slices
  {
    var span, x := THROTL_SLICE * slices, t - s1.start;
    var r, r1 := RoundUp(x + span), RoundUp(x);
    DivMod(r1, THROTL_SLICE);
    assert r1 + span == (r1 / THROTL_SLICE + slices) * THROTL_SLICE;
    ModUnique(r1 + span, THROTL_SLICE, r1 / THROTL_SLICE + slices, 0);
    if r > r1 + span {
      MultiplesApart(r, r1 + span, THROTL_SLICE);
    }
    hide RoundUp;
  }

  lemma AllowedLess(rate: nat, e: nat, e1: nat, span: nat)
    requires e <= e1 + span
    ensures Earned(rate, e) <= Earned(rate, e1) + Earned(rate, span) + 1
  {
    var a, a1, b := Earned(rate, e), Earned(rate, e1), Earned(rate, span);
    hide Earned, Div;
    EarnedBounds(rate, e);
    EarnedBounds(rate, e1);
    EarnedBounds(rate, span);
    MulLe(rate, e, e1 + span);
    assert rate * (e1 + span) == rate * e1 + rate * span;
    assert a * HZ < (a1 + b + 2) * HZ by { assert (a1 + b + 2) * HZ == a1 * HZ + HZ + b * HZ + HZ; }
    if a >= a1 + b + 2 {
      MulLe(HZ, a1 + b + 2, a);
    }
  }

  lemma EarnedBounds(rate: nat, span: nat)
    ensures Earned(rate, span) * HZ <= rate * span < Earned(rate, span) * HZ + HZ
  {}

  // ---------------------------------------------------------------- unused allowance is not saved up

  /** At least one of the rates earns something in a slice. */
  predicate Earns(lim: Limits) {
    lim.bps * THROTL_SLICE >= HZ || lim.iops * THROTL_SLICE >= HZ
  }


  /** The slice is running and started less than a slice ago. */
  predicate JustStarted(s: Slice, now: nat) {
    s.start <= now < s.start + THROTL_SLICE && now <= s.end
  }

  /** And it ends less than two slices from now. */
  predicate Recent(s: Slice, now: nat) {
    JustStarted(s, now) && s.end < now + 2 * THROTL_SLICE
  }

  lemma EarnsTrims(rate: nat, slices: nat)
    requires rate * THROTL_SLICE >= HZ && slices > 0
    ensures Earned(rate, THROTL_SLICE * slices) > 0
  {
    assert rate * (THROTL_SLICE * slices) == slices * (rate * THROTL_SLICE);
    MulAtLeast(slices, rate * THROTL_SLICE);
    DivGreatest(1, rate * (THROTL_SLICE * slices), HZ);
  }

  /** Whenever a bio is let go, the slice is made recent. */
  lemma TrimRecent(s: Slice, lim: Limits, now: nat)
    requires Earns(lim) && !SliceUsed(s, now)
    ensures Recent(Trim(s, lim, now), now)
  {
    var slices := Div(now - s.start, THROTL_SLICE);
    assert now - s.start - THROTL_SLICE * slices < THROTL_SLICE;
    if slices > 0 {
      if lim.bps * THROTL_SLICE >= HZ {
        EarnsTrims(lim.bps, slices);
      } else {
        EarnsTrims(lim.iops, slices);
      }
    }
    hide Div, RoundUp;
  }

  lemma DispatchRecent(g: Group, lim: Limits, size: nat, now: nat)
    requires lim.Valid() && !lim.NoRule() && Earns(lim)
    ensures Recent(Dispatch(g, lim, MayDispatch(g.slice, lim, size, now).0, size, now).slice, now)
  {
    Looked(g.slice, lim, size, now);
    hide MayDispatch, Trim;
    TrimRecent(Charge(MayDispatch(g.slice, lim, size, now).0, size), lim, now);
  }

  lemma LookRecent(s: Slice, lim: Limits, size: nat, now: nat)
    requires lim.Valid() && !lim.NoRule() && JustStarted(s, now)
    ensures JustStarted(MayDispatch(s, lim, size, now).0, now)
  {
    Looked(s, lim, size, now);
    hide MayDispatch;
  }

  /** A dispatch round that lets something go leaves a slice that started less than a slice ago. */
  lemma {:induction false} WorkRecent(g: Group, lim: Limits, now: nat, max: nat)
    requires lim.Valid() && !lim.NoRule() && Earns(lim)
    ensures var g1 := DispatchQueued(g, lim, now, max);
            && (g1.dispatched != g.dispatched || JustStarted(g.slice, now) ==> JustStarted(g1.slice, now))
            && (g1.dispatched != g.dispatched && g1.queue == [] ==> Recent(g1.slice, now))
    decreases max
  {
    if max > 0 && g.queue != [] {
      DispatchRecent(g, lim, g.queue[0], now);
      if JustStarted(g.slice, now) {
        LookRecent(g.slice, lim, g.queue[0], now);
      }
      hide MayDispatch, Trim, Earns, JustStarted;
      if MayDispatch(g.slice, lim, g.queue[0], now).1 {
        var g' := TryQueued(g, lim, now);
        WorkRecent(g', lim, now, max - 1);
        WorkEmpty(g', lim, now, max - 1);
      }
    }
  }

  /** While nothing waits, the slice of a group that has dispatched something is less than three slices long. */
  ghost predicate Short(g: Group) {
    g.queue == [] && g.dispatched != [] ==> g.slice.end < g.slice.start + 3 * THROTL_SLICE
  }

  lemma ApplyShort(g: Group, lim: Limits, a: Action, now: nat)
    requires lim.Valid() && !lim.NoRule() && Earns(lim) && Short(g)
    ensures Short(Apply(g, lim, a, now))
  {
    match a
    case SubmitBio(size) =>
      DispatchRecent(g, lim, size, now);
      hide MayDispatch, Trim;
    case Work(max) =>
      WorkRecent(g, lim, now, max);
      WorkEmpty(g, lim, now, max);
      hide DispatchQueued;
    case Recheck =>
      hide MayDispatch;
  }

  lemma {:induction false} WorkEmpty(g: Group, lim: Limits, now: nat, max: nat)
    requires lim.Valid()
    ensures var g1 := DispatchQueued(g, lim, now, max);
            g1.dispatched == g.dispatched && g1.queue == [] ==> g1 == g
    decreases max
  {
    hide MayDispatch, Trim;
    if max > 0 && g.queue != [] && MayDispatch(g.slice, lim, g.queue[0], now).1 {
      WorkGrows(TryQueued(g, lim, now), lim, now, max - 1);
    }
  }

  lemma {:induction false} RunShort(g: Group, lim: Limits, run: seq<(Action, nat)>)
    requires lim.Valid() && !lim.NoRule() && Earns(lim) && Short(g)
    ensures Short(Run(g, lim, run))
    decreases |run|
  {
    hide Apply;
    if run != [] {
      ApplyShort(g, lim, run[0].0, run[0].1);
      RunShort(Apply(g, lim, run[0].0, run[0].1), lim, run[1..]);
    }
  }

  /**
   However long a group was idle: once it has dispatched something, a bio that finds the queue empty
   leaves at once only if three slices' worth of bytes cover it.
   */
  lemma NothingSavedUp(lim: Limits, run: seq<(Action, nat)>, size: nat, t: nat)
    requires lim.Valid() && !lim.NoRule() && Earns(lim)
    requires var g := Run(InitGroup(), lim, run); g.queue == [] && g.dispatched != []
    ensures var g := Run(InitGroup(), lim, run);
            Submit(g, lim, size, t).dispatched != g.dispatched ==> size * HZ <= lim.bps * (3 * THROTL_SLICE)
  {
    var g := Run(InitGroup(), lim, run);
    RunShort(InitGroup(), lim, run);
    hide Run, MayDispatch, Trim, Earns;
    if MayDispatch(g.slice, lim, size, t).1 {
      ShortAllows(g.slice, lim, size, t);
    }
  }

  lemma ShortAllows(s: Slice, lim: Limits, size: nat, t: nat)
    requires lim.Valid() && !lim.NoRule() && s.end < s.start + 3 * THROTL_SLICE && MayDispatch(s, lim, size, t).1
    ensures size * HZ <= lim.bps * (3 * THROTL_SLICE)
  {
    Looked(s, lim, size, t);
    var s1 := MayDispatch(s, lim, size, t).0;
    BpsVerdict(s1, lim, size, t);
    hide MayDispatch, WithinBps, WithinIops;
    AllowedWithin3(s1, lim, t);
    hide BytesAllowed;
    MulLe(HZ, size, BytesAllowed(s1, lim, t));
  }

  lemma AllowedWithin3(s: Slice, lim: Limits, t: nat)
    requires s.start <= t < s.start + 3 * THROTL_SLICE
    ensures BytesAllowed(s, lim, t) * HZ <= lim.bps * (3 * THROTL_SLICE)
  {
    var e := ElapsedRounded(s, t);
    assert e <= 3 * THROTL_SLICE by {
      ModUnique(3 * THROTL_SLICE, THROTL_SLICE, 3, 0);
      RoundUpMonotone(t - s.start, 3 * THROTL_SLICE);
    }
    hide ElapsedRounded;
    MulLe(lim.bps, e, 3 * THROTL_SLICE);
  }

  // ---------------------------------------------------------------- the rate bound over any window

  /** The same group, except that g has a longer history. */
  ghost predicate Alike(g: Group, h: Group, gone: seq<nat>) {
    g.slice == h.slice && g.queue == h.queue && g.dispatched == gone + h.dispatched
  }

  lemma {:induction false} WorkAlike(g: Group, h: Group, lim: Limits, gone: seq<nat>, now: nat, max: nat)
    requires lim.Valid() && Alike(g, h, gone)
    ensures Alike(DispatchQueued(g, lim, now, max), DispatchQueued(h, lim, now, max), gone)
    decreases max
  {
    hide MayDispatch, Trim;
    if max > 0 && g.queue != [] && MayDispatch(g.slice, lim, g.queue[0], now).1 {
      WorkAlike(TryQueued(g, lim, now), TryQueued(h, lim, now), lim, gone, now, max - 1);
    }
  }

  lemma ApplyAlike(g: Group, h: Group, lim: Limits, gone: seq<nat>, a: Action, now: nat)
    requires lim.Valid() && Alike(g, h, gone)
    ensures Alike(Apply(g, lim, a, now), Apply(h, lim, a, now), gone)
  {
    hide MayDispatch, Trim, DispatchQueued;
    if a.Work? {
      WorkAlike(g, h, lim, gone, now, a.max);
    }
  }

  /** What a group does does not depend on what it did. */
  lemma {:induction false} RunAlike(g: Group, h: Group, lim: Limits, gone: seq<nat>, run: seq<(Action, nat)>)
    requires lim.Valid() && Alike(g, h, gone)
    ensures Alike(Run(g, lim, run), Run(h, lim, run), gone)
    decreases |run|
  {
    hide Apply;
    if run != [] {
      var (a, now) := run[0];
      ApplyAlike(g, h, lim, gone, a, now);
      RunAlike(Apply(g, lim, a, now), Apply(h, lim, a, now), lim, gone, run[1..]);
    }
  }

  /** An action that lets a bio go leaves a slice that started less than a slice ago. */
  lemma ApplyRecent(g: Group, lim: Limits, a: Action, now: nat)
    requires lim.Valid() && !lim.NoRule() && Earns(lim) && Apply(g, lim, a, now).dispatched != g.dispatched
    ensures JustStarted(Apply(g, lim, a, now).slice, now)
  {
    match a
    case SubmitBio(size) =>
      DispatchRecent(g, lim, size, now);
      hide MayDispatch, Trim;
    case Work(max) =>
      WorkRecent(g, lim, now, max);
      hide DispatchQueued;
    case Recheck =>
  }

  /**
   The rate bound over every window.  Whatever the group was like before: after an action that let a
   bio go at t1, what it dispatches up to any later time t is within its limits for t - t1 plus two
   slices.
   */
  lemma WindowWithinRate(g: Group, lim: Limits, a: Action, t1: nat, run: seq<(Action, nat)>, t: nat)
    requires lim.Valid() && !lim.NoRule() && Earns(lim) && Apply(g, lim, a, t1).dispatched != g.dispatched
    requires Monotone(run, t1) && EndTime(run, t1) <= t
    ensures var g1 := Apply(g, lim, a, t1);
            var g2 := Run(g1, lim, run);
            && g1.dispatched <= g2.dispatched
            && var sent := g2.dispatched[|g1.dispatched|..];
               && Sum(sent) * HZ <= lim.bps * (t - t1 + 2 * THROTL_SLICE)
               && |sent| * HZ <= lim.iops * (t - t1 + 2 * THROTL_SLICE)
  {
    ApplyRecent(g, lim, a, t1);
    hide Apply, Earns, Run;
    var g1 := Apply(g, lim, a, t1);
    var h := Group(g1.slice, g1.queue, g1.queue, []);
    RunAlike(g1, h, lim, g1.dispatched, run);
    assert Run(g1, lim, run).dispatched[|g1.dispatched|..] == Run(h, lim, run).dispatched;
    SentSince(h, lim, t1, run, t);
  }

  /** A group with a slice that has just started, counting from now. */
  lemma SentSince(h: Group, lim: Limits, t1: nat, run: seq<(Action, nat)>, t: nat)
    requires lim.Valid() && !lim.NoRule() && JustStarted(h.slice, t1) && h.dispatched == [] && h.submitted == h.queue
    requires Monotone(run, t1) && EndTime(run, t1) <= t
    ensures var sent := Run(h, lim, run).dispatched;
            && Sum(sent) * HZ <= lim.bps * (t - t1 + 2 * THROTL_SLICE)
            && |sent| * HZ <= lim.iops * (t - t1 + 2 * THROTL_SLICE)
  {
    var t0, h2 := h.slice.start, Run(h, lim, run);
    hide Run;
    StartInv(h, lim, t1);
    hide SliceOk, RateBound;
    RunInv(h, lim, t0, t1, run);
    InvLater(h2, lim, t0, EndTime(run, t1), t);
    BoundSince(Sum(h2.dispatched), |h2.dispatched|, lim, t0, t1, t);
  }

  lemma StartInv(h: Group, lim: Limits, now: nat)
    requires JustStarted(h.slice, now) && h.dispatched == [] && h.submitted == h.queue
    ensures Inv(h, lim, h.slice.start, now)
  {}

  lemma BoundSince(bytes: nat, ios: nat, lim: Limits, t0: nat, t1: nat, t: nat)
    requires RateBound(bytes, ios, lim, t0, t) && t1 < t0 + THROTL_SLICE
    ensures bytes * HZ <= lim.bps * (t - t1 + 2 * THROTL_SLICE) && ios * HZ <= lim.iops * (t - t1 + 2 * THROTL_SLICE)
  {
    MulLe(lim.bps, t + THROTL_SLICE - t0, t - t1 + 2 * THROTL_SLICE);
    MulLe(lim.iops, t + THROTL_SLICE - t0, t - t1 + 2 * THROTL_SLICE);
  }

  // ---------------------------------------------------------------- the group, updated in place

  class ThrotlGroup {
    const lim: Limits
    var bytesDisp: nat
    var ioDisp: nat
    var sliceStart: nat
    var sliceEnd: nat
    var queue: seq<nat>        // sizes of the queued bios
    ghost var submitted: seq<nat>
    ghost var dispatched: seq<nat>

    function CurrentSlice(): Slice
      reads this
    {
      Slice(bytesDisp, ioDisp, sliceStart, sliceEnd)
    }

    ghost function Model(): Group
      reads this
    {
      Group(CurrentSlice(), queue, submitted, dispatched)
    }

    constructor (lim: Limits)
      ensures Model() == InitGroup() && this.lim == lim
    {
      this.lim := lim;
      bytesDisp, ioDisp, sliceStart, sliceEnd := 0, 0, 0, 0;
      queue, submitted, dispatched := [], [], [];
    }

    method TrimSlice(now: nat)
      modifies this`bytesDisp, this`ioDisp, this`sliceStart, this`sliceEnd
      ensures CurrentSlice() == Trim(old(CurrentSlice()), lim, now)
    {
      hide RoundUp, Div, Earned;
      if SliceUsed(CurrentSlice(), now) {
        return;
      }
      sliceEnd := RoundUp(now + THROTL_SLICE);
      var slices := Div(now - sliceStart, THROTL_SLICE);
      if slices == 0 {
        return;
      }
      var span: nat := THROTL_SLICE * slices;
      var bytesTrim, ioTrim := Earned(lim.bps, span), Earned(lim.iops, span);
      if bytesTrim == 0 && ioTrim == 0 {
        return;
      }
      bytesDisp := if bytesDisp >= bytesTrim then bytesDisp - bytesTrim else 0;
      ioDisp := if ioDisp >= ioTrim then ioDisp - ioTrim else 0;
      sliceStart := sliceStart + span;
    }

    method TgMayDispatch(size: nat, now: nat) returns (ok: bool, wait: nat)
      requires lim.Valid()
      modifies this`bytesDisp, this`ioDisp, this`sliceStart, this`sliceEnd
      ensures (CurrentSlice(), ok, wait) == MayDispatch(old(CurrentSlice()), lim, size, now)
    {
      hide WithinBps, WithinIops, RoundUp;
      if lim.NoRule() {
        return true, 0;
      }
      if SliceUsed(CurrentSlice(), now) {
        bytesDisp, ioDisp, sliceStart, sliceEnd := 0, 0, now, now + THROTL_SLICE;
      } else if sliceEnd < now + THROTL_SLICE {
        sliceEnd := RoundUp(now + THROTL_SLICE);
      }
      var (bpsOk, bpsWait) := WithinBps(CurrentSlice(), lim, size, now);
      var iopsOk, iopsWait := false, 0;
      if bpsOk {
        var verdict := WithinIops(CurrentSlice(), lim, now);
        iopsOk, iopsWait := verdict.0, verdict.1;
      }
      if bpsOk && iopsOk {
        return true, 0;
      }
      wait := if bpsWait > iopsWait then bpsWait else iopsWait;
      if sliceEnd < now + wait {
        sliceEnd := RoundUp(now + wait);
      }
      ok := false;
    }

    /** throtl_charge_bio and throtl_trim_slice for a bio that was let go. */
    method LetGo(size: nat, now: nat)
      modifies this`bytesDisp, this`ioDisp, this`sliceStart, this`sliceEnd, this`dispatched
      ensures Model() == Dispatch(old(Model()), lim, old(CurrentSlice()), size, now)
    {
      bytesDisp, ioDisp := bytesDisp + size, ioDisp + 1;
      dispatched := dispatched + [size];
      TrimSlice(now);
    }

    /** throtl_dispatch_tg, for one direction. */
    method DispatchTg(now: nat, max: nat) returns (n: nat)
      requires lim.Valid()
      modifies this
      ensures Model() == DispatchQueued(old(Model()), lim, now, max)
      ensures n <= max && |dispatched| == |old(dispatched)| + n
    {
      hide MayDispatch, Trim;
      n := 0;
      while n < max && queue != []
        invariant n <= max && |dispatched| == |old(dispatched)| + n
        invariant DispatchQueued(Model(), lim, now, max - n) == DispatchQueued(old(Model()), lim, now, max)
      {
        ghost var g := Model();
        var ok, wait := TgMayDispatch(queue[0], now);
        if !ok {
          assert Model() == TryQueued(g, lim, now);
          break;
        }
        var size := queue[0];
        queue := queue[1..];
        LetGo(size, now);
        assert Model() == TryQueued(g, lim, now);
        n := n + 1;
      }
    }

    /** tg_update_disptime, for one direction. */
    method TgUpdateDisptime(now: nat)
      requires lim.Valid()
      modifies this`bytesDisp, this`ioDisp, this`sliceStart, this`sliceEnd
      ensures Model() == UpdateDisptime(old(Model()), lim, now)
    {
      if queue != [] {
        var ok, wait := TgMayDispatch(queue[0], now);
      }
    }

    /** blk_throtl_bio; true if the bio was queued. */
    method ThrotlBio(size: nat, now: nat) returns (queued: bool)
      requires lim.Valid()
      modifies this
      ensures Model() == Submit(old(Model()), lim, size, now)
      ensures queued <==> dispatched == old(dispatched)
    {
      hide MayDispatch, Trim;
      submitted := submitted + [size];
      if queue != [] {
        queue := queue + [size];
        return true;
      }
      var ok, wait := TgMayDispatch(size, now);
      if ok {
        LetGo(size, now);
        return false;
      }
      queue := [size];
      TgUpdateDisptime(now);
      queued := true;
    }
  }
}
