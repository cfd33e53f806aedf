/**
Time slices of block/blk-throttle.c: one direction (READ or WRITE) of one throttle group.

A group may dispatch while what it dispatched in the current slice stays within rate * elapsed time.
Slices are started, extended while the group is active, trimmed after each dispatch and restarted
after a pause.  What all that bookkeeping is for is one sentence: from the first slice start on, no
more than rate * (elapsed time + one slice) is ever let through.  That is theorem RateBound.

Time is in jiffies, unbounded; an unset limit (-1 in the source) is `Unlimited`.
*/
module ThrottleSlice {

  /** HZ and throtl_slice. */
  datatype Clock = Clock(hz: nat, slice: nat) {
    ghost predicate Ok() {
      hz > 0 && slice > 0
    }
  }

  datatype Limit = Unlimited | AtMost(rate: nat) {
    ghost predicate Ok() {
      AtMost? ==> rate > 0
    }
  }

  datatype Bio = Bio(id: nat, size: nat)

  /**
  The fields of struct throtl_grp for one direction.  The last five are history: the bios that came
  in, those let through, and when the first slice started and the latest bio was let through.
  */
  datatype Dir = Dir(
    bps: Limit,
    iops: Limit,
    bytesDisp: nat,
    ioDisp: nat,
    sliceStart: int,
    sliceEnd: int,
    queue: seq<Bio>,
    nrQueued: nat,
    arrived: seq<Bio>,
    admitted: seq<Bio>,
    started: bool,
    first: int,
    last: int)

  const UINT_MAX: nat := 0xFFFF_FFFF

  function NewDir(bps: Limit, iops: Limit): Dir {
    Dir(bps, iops, 0, 0, 0, 0, [], 0, [], [], false, 0, 0)
  }

  function Div(x: nat, y: nat): (q: nat)
    requires y > 0
    ensures q * y <= x < q * y + y
  {
    assert x == y * (x / y) + x % y;
    x / y
  }

  function RoundUp(x: nat, y: nat): (r: nat)
    requires y > 0
    ensures x <= r < x + y
  {
    Div(x + y - 1, y) * y
  }

  predicate NoRule(d: Dir) {
    d.bps.Unlimited? && d.iops.Unlimited?
  }

  /** throtl_slice_used */
  predicate SliceUsed(d: Dir, now: nat) {
    !(d.sliceStart <= now <= d.sliceEnd)
  }

  /** throtl_start_new_slice */
  function StartNewSlice(d: Dir, now: nat, c: Clock): Dir {
    d.(bytesDisp := 0, ioDisp := 0, sliceStart := now, sliceEnd := now + c.slice)
  }

  /** throtl_extend_slice, throtl_set_slice_end */
  function SetSliceEnd(d: Dir, jiffyEnd: nat, c: Clock): Dir
    requires c.Ok()
  {
    d.(sliceEnd := RoundUp(jiffyEnd, c.slice))
  }

  /** The slice tg_may_dispatch works on: a fresh one if the old one expired, else an extended one. */
  function OpenSlice(d: Dir, now: nat, c: Clock): Dir
    requires c.Ok()
  {
    var e :=
      if SliceUsed(d, now) then StartNewSlice(d, now, c)
      else if d.sliceEnd < now + c.slice then SetSliceEnd(d, now + c.slice, c)
      else d;
    if d.started then e else e.(started := true, first := e.sliceStart, last := e.sliceStart)
  }

  /** The elapsed time the limits are computed from: at least one slice, in whole slices. */
  function ElapsedRounded(d: Dir, now: nat, c: Clock): nat
    requires c.Ok() && d.sliceStart <= now
  {
    var elapsed := now - d.sliceStart;
    RoundUp(if elapsed == 0 then c.slice else elapsed, c.slice)
  }

  function Allowed(rate: nat, time: nat, c: Clock): nat
    requires c.Ok()
  {
    Div(rate * time, c.hz)
  }

  /** tg_with_in_bps_limit: 0 if within the limit, else the approximate wait. */
  function BpsWait(d: Dir, size: nat, now: nat, c: Clock): nat
    requires c.Ok() && d.sliceStart <= now && d.bps.Ok()
  {
    if d.bps.Unlimited? then 0
    else
      var rnd := ElapsedRounded(d, now, c);
      var allowed := Allowed(d.bps.rate, rnd, c);
      if d.bytesDisp + size <= allowed then 0
      else
        var w := Div((d.bytesDisp + size - allowed) * c.hz, d.bps.rate);
        (if w == 0 then 1 else w) + (rnd - (now - d.sliceStart))
  }

  /** tg_with_in_iops_limit */
  function IopsWait(d: Dir, now: nat, c: Clock): nat
    requires c.Ok() && d.sliceStart <= now && d.iops.Ok()
  {
    if d.iops.Unlimited? then 0
    else
      var tmp := Allowed(d.iops.rate, ElapsedRounded(d, now, c), c);
      var allowed := if tmp > UINT_MAX then UINT_MAX else tmp;
      if d.ioDisp + 1 <= allowed then 0
      else
        var w := Div((d.ioDisp + 1) * c.hz, d.iops.rate) + 1;
        if w > now - d.sliceStart then w - (now - d.sliceStart) else 1
  }

  datatype Verdict = Verdict(d: Dir, ok: bool, wait: nat)

  /** tg_may_dispatch */
  function MayDispatch(d: Dir, size: nat, now: nat, c: Clock): Verdict
    requires c.Ok() && d.bps.Ok() && d.iops.Ok() && d.sliceStart <= now
  {
    if NoRule(d) then Verdict(d, true, 0)
    else
      var e := OpenSlice(d, now, c);
      var bpsWait := BpsWait(e, size, now, c);
      var iopsWait := if bpsWait == 0 then IopsWait(e, now, c) else 0;
      var wait := if bpsWait > iopsWait then bpsWait else iopsWait;
      if bpsWait == 0 && iopsWait == 0 then Verdict(e, true, 0)
      else if e.sliceEnd < now + wait then Verdict(SetSliceEnd(e, now + wait, c), false, wait)
      else Verdict(e, false, wait)
  }

  /** throtl_charge_bio */
  function Charge(d: Dir, bio: Bio, now: nat): Dir {
    d.(bytesDisp := d.bytesDisp + bio.size, ioDisp := d.ioDisp + 1,
       admitted := d.admitted + [bio], last := now)
  }

  function Less(x: nat, y: nat): nat {
    if x >= y then x - y else 0
  }

  /** throtl_trim_slice, which requires that the slice does not end before it starts; an unlimited rate trims everything. */
  function Trim(d: Dir, now: nat, c: Clock): Dir
    requires c.Ok() && d.sliceStart <= now && d.sliceStart <= d.sliceEnd
  {
    if SliceUsed(d, now) then d
    else
      var e := SetSliceEnd(d, now + c.slice, c);
      var nr := Div(now - d.sliceStart, c.slice);
      if nr == 0 then e
      else if (d.bps.AtMost? && Allowed(d.bps.rate, c.slice * nr, c) == 0) &&
              (d.iops.AtMost? && Allowed(d.iops.rate, c.slice * nr, c) == 0) then e
      else e.(bytesDisp := if d.bps.Unlimited? then 0 else Less(d.bytesDisp, Allowed(d.bps.rate, c.slice * nr, c)),
              ioDisp := if d.iops.Unlimited? then 0 else Less(d.ioDisp, Allowed(d.iops.rate, c.slice * nr, c)),
              sliceStart := d.sliceStart + nr * c.slice)
  }

  /** A bio that may go: charge it and trim the slice. */
  function Release(d: Dir, bio: Bio, now: nat, c: Clock): Dir
    requires c.Ok() && d.sliceStart <= now && d.sliceStart <= d.sliceEnd
  {
    Trim(Charge(d, bio, now), now, c)
  }

  // ---------- the rate bound ----------

  function Bytes(l: seq<Bio>): nat {
    if l == [] then 0 else Bytes(l[..|l| - 1]) + l[|l| - 1].size
  }

  lemma BytesAppend(l: seq<Bio>, b: Bio)
    ensures Bytes(l + [b]) == Bytes(l) + b.size
  {
    assert (l + [b])[..|l|] == l;
  }

  /**
  A rate limit and its accounting: `total` let through in all, `disp` of it in the current slice.
  What came before the slice fits into the time before the slice, and the total fits into the time
  up to the latest admission plus one slice.
  */
  ghost predicate Budget(limit: Limit, total: int, disp: int, d: Dir, c: Clock) {
    limit.AtMost? ==>
      && 0 <= disp <= total
      && (total - disp) * c.hz <= limit.rate * (d.sliceStart - d.first)
      && total * c.hz <= limit.rate * (d.last - d.first + c.slice)
  }

  ghost predicate SliceInv(d: Dir, now: nat, c: Clock) {
    && c.Ok() && d.bps.Ok() && d.iops.Ok()
    && d.sliceStart <= now
    && (!d.started ==> d.admitted == [] && d.bytesDisp == 0 && d.ioDisp == 0 && d.sliceStart == 0 && d.sliceEnd == 0)
    && (d.started ==>
      && d.first <= d.sliceStart && d.first <= d.last <= now && d.last + c.slice <= d.sliceEnd
      && Budget(d.bps, Bytes(d.admitted), d.bytesDisp, d, c)
      && Budget(d.iops, |d.admitted|, d.ioDisp, d, c))
  }

  lemma MulMono(k: nat, x: int, y: int)
    requires x <= y
    ensures k * x <= k * y
  {
  }

  lemma AllowedBound(rate: nat, time: nat, c: Clock)
    requires c.Ok()
    ensures Allowed(rate, time, c) * c.hz <= rate * time
  {
  }

  lemma NewSliceBudget(limit: Limit, total: int, disp: int, d: Dir, now: nat, c: Clock)
    requires c.Ok() && Budget(limit, total, disp, d, c) && d.last + c.slice <= now
    ensures Budget(limit, total, 0, StartNewSlice(d, now, c), c)
  {
    if limit.AtMost? {
      MulMono(limit.rate, d.last - d.first + c.slice, now - d.first);
    }
  }

  lemma OpenSliceInv(d: Dir, now: nat, c: Clock)
    requires SliceInv(d, now, c)
    ensures var e := OpenSlice(d, now, c);
            SliceInv(e, now, c) && e.started && !SliceUsed(e, now) && now + c.slice <= e.sliceEnd
    ensures d.started ==> OpenSlice(d, now, c).first == d.first
    ensures !d.started ==> OpenSlice(d, now, c).first == now
  {
    if d.started && SliceUsed(d, now) {
      NewSliceBudget(d.bps, Bytes(d.admitted), d.bytesDisp, d, now, c);
      NewSliceBudget(d.iops, |d.admitted|, d.ioDisp, d, now, c);
    }
  }

  lemma ExtendInv(d: Dir, end: int, now: nat, c: Clock)
    requires SliceInv(d, now, c) && d.started && d.sliceEnd <= end
    ensures SliceInv(d.(sliceEnd := end), now, c)
  {
  }

  /** Asking whether a bio may go keeps the accounting, and a refusal names a wait of at least 1. */
  lemma MayDispatchInv(d: Dir, size: nat, now: nat, c: Clock)
    requires SliceInv(d, now, c)
    requires c.Ok() && d.bps.Ok() && d.iops.Ok() && d.sliceStart <= now
    ensures var v := MayDispatch(d, size, now, c);
            && SliceInv(v.d, now, c)
            && (v.ok <==> v.wait == 0)
            && v.d.admitted == d.admitted && v.d.queue == d.queue && v.d.arrived == d.arrived
            && v.d.nrQueued == d.nrQueued && v.d.bps == d.bps && v.d.iops == d.iops
            && (d.started ==> v.d.started && v.d.first == d.first)
            && (v.ok && !NoRule(d) ==> v.d.sliceStart <= v.d.sliceEnd)
  {
    hide Div, SliceInv;
    if !NoRule(d) {
      OpenSliceInv(d, now, c);
      var e := OpenSlice(d, now, c);
      if MayDispatch(d, size, now, c).d != e {
        ExtendInv(e, MayDispatch(d, size, now, c).d.sliceEnd, now, c);
      }
    }
  }

  lemma ChargeBudget(limit: Limit, total: int, disp: int, more: nat, d: Dir, now: nat, c: Clock, allowed: nat)
    requires c.Ok() && Budget(limit, total, disp, d, c) && d.sliceStart <= now
    requires limit.AtMost? ==> allowed <= Allowed(limit.rate, ElapsedRounded(d, now, c), c)
    requires limit.AtMost? ==> disp + more <= allowed
    ensures Budget(limit, total + more, disp + more, d.(last := now), c)
  {
    if limit.AtMost? {
      var rnd := ElapsedRounded(d, now, c);
      AllowedBound(limit.rate, rnd, c);
      RoundUpOne(c.slice);
      assert rnd <= now - d.sliceStart + c.slice;
      MulMono(limit.rate, rnd, now - d.sliceStart + c.slice);
      MulMono(c.hz, disp + more, Allowed(limit.rate, rnd, c));
      assert (total + more) * c.hz == (total - disp) * c.hz + (disp + more) * c.hz;
      assert limit.rate * (now - d.first + c.slice) ==
             limit.rate * (d.sliceStart - d.first) + limit.rate * (now - d.sliceStart + c.slice);
    }
  }

  lemma RoundUpOne(y: nat)
    requires y > 0
    ensures RoundUp(y, y) == y
  {
    var n := Div(y + y - 1, y);
    if n >= 2 {
      MulMono(y, 2, n);
      assert false;
    }
  }

  lemma TrimBudget(limit: Limit, total: int, disp: nat, d: Dir, nr: nat, c: Clock)
    requires c.Ok() && Budget(limit, total, disp, d, c)
    requires limit.AtMost?
    ensures Budget(limit, total, Less(disp, Allowed(limit.rate, c.slice * nr, c)),
                   d.(sliceStart := d.sliceStart + nr * c.slice), c)
  {
    var trim := Allowed(limit.rate, c.slice * nr, c);
    var gone := disp - Less(disp, trim);
    AllowedBound(limit.rate, c.slice * nr, c);
    MulMono(c.hz, gone, trim);
    assert (total - Less(disp, trim)) * c.hz == (total - disp) * c.hz + gone * c.hz;
    assert limit.rate * (d.sliceStart + nr * c.slice - d.first) ==
           limit.rate * (d.sliceStart - d.first) + limit.rate * (c.slice * nr);
  }

  lemma TrimInv(d: Dir, now: nat, c: Clock)
    requires SliceInv(d, now, c) && d.started && d.last == now && d.sliceStart <= d.sliceEnd
    ensures var e := Trim(d, now, c);
            SliceInv(e, now, c) && e.first == d.first && e.started
  {
    if !SliceUsed(d, now) {
      var nr := Div(now - d.sliceStart, c.slice);
      if d.bps.AtMost? {
        TrimBudget(d.bps, Bytes(d.admitted), d.bytesDisp, d, nr, c);
      }
      if d.iops.AtMost? {
        TrimBudget(d.iops, |d.admitted|, d.ioDisp, d, nr, c);
      }
    }
  }

  lemma ChargeBytes(e: Dir, bio: Bio, now: nat, c: Clock)
    requires SliceInv(e, now, c) && e.started && BpsWait(e, bio.size, now, c) == 0
    ensures Budget(e.bps, Bytes(e.admitted + [bio]), e.bytesDisp + bio.size, e.(last := now), c)
  {
    hide Div, RoundUp, Allowed;
    BytesAppend(e.admitted, bio);
    if e.bps.AtMost? {
      ChargeBudget(e.bps, Bytes(e.admitted), e.bytesDisp, bio.size, e, now, c,
                   Allowed(e.bps.rate, ElapsedRounded(e, now, c), c));
    }
  }

  lemma ChargeBios(e: Dir, bio: Bio, now: nat, c: Clock)
    requires SliceInv(e, now, c) && e.started && IopsWait(e, now, c) == 0
    ensures Budget(e.iops, |e.admitted + [bio]|, e.ioDisp + 1, e.(last := now), c)
  {
    hide Div, RoundUp, Allowed, ElapsedRounded;
    if e.iops.AtMost? {
      var tmp := Allowed(e.iops.rate, ElapsedRounded(e, now, c), c);
      ChargeBudget(e.iops, |e.admitted|, e.ioDisp, 1, e, now, c, if tmp > UINT_MAX then UINT_MAX else tmp);
    }
  }

  lemma SameBudget(limit: Limit, total: int, disp: int, d: Dir, e: Dir, c: Clock)
    requires Budget(limit, total, disp, d, c) && e.sliceStart == d.sliceStart && e.first == d.first && e.last == d.last
    ensures Budget(limit, total, disp, e, c)
  {
  }

  /** What tg_may_dispatch has made sure of when it lets a bio go. */
  lemma ChargeInv(e: Dir, bio: Bio, now: nat, c: Clock)
    requires SliceInv(e, now, c) && e.started && now + c.slice <= e.sliceEnd
    requires BpsWait(e, bio.size, now, c) == 0 && IopsWait(e, now, c) == 0
    ensures SliceInv(Charge(e, bio, now), now, c)
  {
    hide BpsWait, IopsWait, Budget, Bytes;
    ChargeBytes(e, bio, now, c);
    ChargeBios(e, bio, now, c);
    var d := Charge(e, bio, now);
    SameBudget(e.bps, Bytes(d.admitted), d.bytesDisp, e.(last := now), d, c);
    SameBudget(e.iops, |d.admitted|, d.ioDisp, e.(last := now), d, c);
  }

  /** Letting through a bio that may go keeps the accounting. */
  lemma ReleaseInv(d: Dir, bio: Bio, now: nat, c: Clock)
    requires SliceInv(d, now, c) && !NoRule(d)
    requires MayDispatch(d, bio.size, now, c).ok
    ensures MayDispatch(d, bio.size, now, c).d.sliceStart <= MayDispatch(d, bio.size, now, c).d.sliceEnd
    ensures var e := Release(MayDispatch(d, bio.size, now, c).d, bio, now, c);
            && SliceInv(e, now, c) && e.started
            && e.admitted == d.admitted + [bio]
            && (d.started ==> e.first == d.first) && (!d.started ==> e.first == now)
  {
    hide BpsWait, IopsWait, Budget;
    OpenSliceInv(d, now, c);
    ChargeInv(OpenSlice(d, now, c), bio, now, c);
    TrimInv(Charge(OpenSlice(d, now, c), bio, now), now, c);
  }

  // ---------- every run ----------

  /** What can happen to a direction: a bio is only asked about, or asked about and let through. */
  datatype Op = Ask(size: nat, now: nat) | Send(bio: Bio, now: nat)

  /**
  One such event.  That a slice never starts in the future, or after its own end, is not assumed: if it
  did, anything might follow.
  */
  ghost predicate Takes(d: Dir, op: Op, e: Dir, c: Clock) {
    c.Ok() && d.bps.Ok() && d.iops.Ok() && d.sliceStart <= op.now ==>
      match op
      case Ask(size, now) => e == MayDispatch(d, size, now, c).d
      case Send(bio, now) =>
        var v := MayDispatch(d, bio.size, now, c);
        v.ok && (v.d.sliceStart <= now && v.d.sliceStart <= v.d.sliceEnd ==> e == Release(v.d, bio, now, c))
  }

  /** dirs are the states a direction with some limit passes through, at non-decreasing times. */
  ghost predicate Runs(bps: Limit, iops: Limit, ops: seq<Op>, dirs: seq<Dir>, c: Clock) {
    && c.Ok() && bps.Ok() && iops.Ok() && !NoRule(NewDir(bps, iops))
    && |dirs| == |ops| + 1 && dirs[0] == NewDir(bps, iops)
    && (forall i, j :: 0 <= i < j < |ops| ==> ops[i].now <= ops[j].now)
    && (forall i :: 0 <= i < |ops| ==> Takes(dirs[i], ops[i], dirs[i + 1], c))
  }

  lemma Later(d: Dir, now: nat, then_: nat, c: Clock)
    requires SliceInv(d, now, c) && now <= then_
    ensures SliceInv(d, then_, c)
  {
  }

  lemma {:induction false} RunInv(bps: Limit, iops: Limit, ops: seq<Op>, dirs: seq<Dir>, c: Clock, k: nat)
    requires Runs(bps, iops, ops, dirs, c) && k < |ops|
    ensures SliceInv(dirs[k], ops[k].now, c)
    ensures SliceInv(dirs[k + 1], ops[k].now, c)
    ensures dirs[k + 1].started && dirs[k + 1].first == ops[0].now
    ensures dirs[k + 1].bps == bps && dirs[k + 1].iops == iops
  {
    hide SliceInv, MayDispatch, Release;
    if k == 0 {
      NewDirInv(bps, iops, ops[0].now, c);
    } else {
      RunInv(bps, iops, ops, dirs, c, k - 1);
      Later(dirs[k], ops[k - 1].now, ops[k].now, c);
    }
    assert Takes(dirs[k], ops[k], dirs[k + 1], c);
    StepInv(dirs[k], ops[k], dirs[k + 1], c);
  }

  lemma NewDirInv(bps: Limit, iops: Limit, now: nat, c: Clock)
    requires c.Ok() && bps.Ok() && iops.Ok()
    ensures SliceInv(NewDir(bps, iops), now, c)
  {
  }

  lemma StepInv(d: Dir, op: Op, e: Dir, c: Clock)
    requires SliceInv(d, op.now, c) && Takes(d, op, e, c) && !NoRule(d)
    ensures SliceInv(e, op.now, c) && e.started && e.bps == d.bps && e.iops == d.iops
    ensures e.first == if d.started then d.first else op.now
  {
    match op
    case Ask(size, now) =>
      MayDispatchInv(d, size, now, c);
      OpenSliceInv(d, now, c);
    case Send(bio, now) =>
      ReleaseInv(d, bio, now, c);
  }

  lemma BudgetBound(d: Dir, t: nat, c: Clock)
    requires SliceInv(d, t, c) && d.started
    ensures d.bps.AtMost? ==> Bytes(d.admitted) <= d.bps.rate * (t - d.first + c.slice) / c.hz
    ensures d.iops.AtMost? ==> |d.admitted| <= d.iops.rate * (t - d.first + c.slice) / c.hz
  {
    if d.bps.AtMost? {
      MulMono(d.bps.rate, d.last - d.first + c.slice, t - d.first + c.slice);
      AtMostQuotient(Bytes(d.admitted), d.bps.rate * (t - d.first + c.slice), c.hz);
    }
    if d.iops.AtMost? {
      MulMono(d.iops.rate, d.last - d.first + c.slice, t - d.first + c.slice);
      AtMostQuotient(|d.admitted|, d.iops.rate * (t - d.first + c.slice), c.hz);
    }
  }

  /**
  The rate bound.  However slices were started, extended, trimmed and restarted, the bytes let
  through from the first slice start up to any later time t are at most
  bps * (t - start + throtl_slice) / HZ, and the number of bios at most
  iops * (t - start + throtl_slice) / HZ.
  */
  lemma RateBound(bps: Limit, iops: Limit, ops: seq<Op>, dirs: seq<Dir>, c: Clock, k: nat, t: nat)
    requires Runs(bps, iops, ops, dirs, c) && k < |ops| && ops[k].now <= t
    ensures bps.AtMost? ==> Bytes(dirs[k + 1].admitted) <= bps.rate * (t - ops[0].now + c.slice) / c.hz
    ensures iops.AtMost? ==> |dirs[k + 1].admitted| <= iops.rate * (t - ops[0].now + c.slice) / c.hz
  {
    RunInv(bps, iops, ops, dirs, c, k);
    Later(dirs[k + 1], ops[k].now, t, c);
    BudgetBound(dirs[k + 1], t, c);
  }

  lemma AtMostQuotient(x: nat, y: int, k: nat)
    requires k > 0 && x * k <= y
    ensures x <= y / k
  {
    assert y == k * (y / k) + y % k;
    if y / k < x {
      MulMono(k, y / k + 1, x);
      assert false;
    }
  }
}
