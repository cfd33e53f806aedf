/**
What every step of the request allocator keeps, and what follows for whole runs: the counts are
exact and bounded, and a sleeper is never forgotten while something that could wake it is left.
*/
module RequestPoolProofs {
  import opened RequestPool

  datatype Sleeper = Sleeps(task: Task) | Returns

  /**
    One locked stretch of code.  Attempt is a call of get_request, by a task that sleeps if it fails
    or by one that just returns; `resumed` says that the task was woken to make it.
  */
  datatype Step =
    | Attempt(g: Grant, v: Verdict, ioc: Ioc, now: int, who: Sleeper, resumed: bool)
    | GotMemory(g: Grant)
    | NoMemory(g: Grant, who: Sleeper)
    | Done(g: Grant)

  ghost predicate Enabled(p: Pool, a: Step) {
    match a
    case Attempt(g, v, ioc, now, who, resumed) =>
      resumed ==> who.Sleeps? && who.task in At(p, g.side).woken
    case GotMemory(g) => g in p.pending
    case NoMemory(g, who) => g in p.pending
    case Done(g) => g in p.held
  }

  function SleepIf(p: Pool, s: Side, who: Sleeper): Pool {
    if who.Sleeps? then Slept(p, s, who.task) else p
  }

  function Next(p: Pool, a: Step, batchTime: nat): Pool {
    match a
    case Attempt(g, v, ioc, now, who, resumed) =>
      var p1 := if resumed && who.Sleeps? then Resumed(p, g.side, who.task) else p;
      var p2 := Get(p1, g, v, ioc, now, batchTime);
      if Passes(p1, g, v, ioc, now, batchTime) then p2 else SleepIf(p2, g.side, who)
    case GotMemory(g) => Allocated(p, g)
    case NoMemory(g, who) => SleepIf(AllocFailed(p, g), g.side, who)
    case Done(g) => Free(p, g)
  }

  // ---------- the invariant ----------

  /** The allocations of a side. */
  function Of(m: multiset<Grant>, s: Side): nat {
    m[Grant(s, true)] + m[Grant(s, false)]
  }

  /** The counters of both sides, and of the requests with scheduler data, are exact. */
  ghost predicate Tally(all: multiset<Grant>, sync: int, async: int, elvpriv: int) {
    && sync == Of(all, Sync) && async == Of(all, Async)
    && elvpriv == all[Grant(Sync, true)] + all[Grant(Async, true)]
  }

  /** The flags of a side say what its count is; the congestion flag does so with some slack. */
  ghost predicate Flags(nr: nat, l: Lane) {
    && 0 <= l.count <= 3 * nr / 2
    && (l.full <==> l.count >= nr)
    && (l.count >= OnThreshold(nr) ==> l.congested)
    && (l.congested ==> l.count >= OffThreshold(nr))
    && (l.starved ==> l.count == 0)
  }

  /** Sleepers have something to wait for. */
  ghost predicate Minded(l: Lane) {
    l.wait != [] ==> l.count > 0 || l.starved || |l.woken| > 0
  }

  ghost predicate Inv(p: Pool) {
    && p.nr >= 4 && Tally(p.pending + p.held, p.sync.count, p.async.count, p.elvpriv)
    && Flags(p.nr, p.sync) && Flags(p.nr, p.async)
    && Minded(p.sync) && Minded(p.async)
  }

  /** The invariant but for the sleepers of one side, which a woken task may just have left. */
  ghost predicate Entered(p: Pool, s: Side) {
    && p.nr >= 4 && Tally(p.pending + p.held, p.sync.count, p.async.count, p.elvpriv)
    && Flags(p.nr, p.sync) && Flags(p.nr, p.async) && Minded(At(p, Other(s)))
  }

  /** The invariant but for one allocation, which is no longer counted. */
  ghost predicate Released(p: Pool, g: Grant) {
    && g in p.pending + p.held && p.nr >= 4
    && Tally(p.pending + p.held - multiset{g}, p.sync.count, p.async.count, p.elvpriv)
    && Flags(p.nr, p.sync) && Flags(p.nr, p.async) && Minded(p.sync) && Minded(p.async)
  }

  lemma WakeMinds(l: Lane)
    ensures |Wake(l).woken| >= |l.woken|
    ensures l.wait != [] ==> |Wake(l).woken| > 0
    ensures Wake(l).count == l.count && Wake(l).starved == l.starved
  {
  }

  /** One request fewer on its own side. */
  lemma FreedLaneOk(nr: nat, l: Lane)
    requires nr >= 4 && Flags(nr, l) && l.count > 0
    ensures var f := FreedLane(nr, l.(count := l.count - 1));
            && Flags(nr, f) && Minded(f) && f.count == l.count - 1
            && (l.wait != [] && l.count <= nr ==> |f.woken| > 0)
  {
    WakeMinds(l.(count := l.count - 1));
    WakeMinds(l.(count := l.count - 1, congested := false));
  }

  /** The other side is looked at only when it is starved, and then a sleeper is woken. */
  lemma StarvedLaneOk(nr: nat, l: Lane)
    requires nr >= 4 && Flags(nr, l) && l.starved
    ensures var f := FreedLane(nr, l);
            && Flags(nr, f) && Minded(f) && f.count == l.count && (l.wait != [] ==> |f.woken| > 0)
  {
    WakeMinds(l.(congested := false));
  }

  lemma FreedOk(p: Pool, g: Grant)
    requires p.nr >= 4 && Flags(p.nr, p.sync) && Flags(p.nr, p.async) && Minded(At(p, Other(g.side)))
    requires At(p, g.side).count > 0
    ensures var q := Freed(p, g);
            && q.nr == p.nr && Flags(p.nr, q.sync) && Flags(p.nr, q.async) && Minded(q.sync) && Minded(q.async)
            && At(q, g.side).count == At(p, g.side).count - 1 && At(q, Other(g.side)).count == At(p, Other(g.side)).count
            && q.elvpriv == p.elvpriv - (if g.priv then 1 else 0) && q.pending == p.pending && q.held == p.held
  {
    hide Flags, FreedLane, Minded;
    FreedLaneOk(p.nr, At(p, g.side));
    var o := At(p, Other(g.side));
    if o.starved {
      StarvedLaneOk(p.nr, o);
    }
  }

  /** One request fewer is counted, and a sleeper is woken on each side that has one which can go on. */
  ghost predicate Woke(p: Pool, q: Pool, g: Grant) {
    var own, other := At(p, g.side), At(p, Other(g.side));
    && At(q, g.side).count == own.count - 1
    && (own.wait != [] && own.count <= p.nr ==> |At(q, g.side).woken| > 0)
    && (other.wait != [] && other.starved ==> |At(q, Other(g.side)).woken| > 0)
  }

  /** freed_request, and the sleepers it wakes. */
  lemma FreedReleases(p: Pool, g: Grant)
    requires Inv(p) && g in p.pending + p.held
    ensures Released(Freed(p, g), g) && Woke(p, Freed(p, g), g)
  {
    hide Flags, Freed, Minded, Tally, Woke;
    TallyRemove(p.pending + p.held, g, p.sync.count, p.async.count, p.elvpriv);
    FreedOk(p, g);
    FreedWakes(p, g);
  }

  lemma FreedWakes(p: Pool, g: Grant)
    requires p.nr >= 4 && Flags(p.nr, p.sync) && Flags(p.nr, p.async) && At(p, g.side).count > 0
    ensures Woke(p, Freed(p, g), g)
  {
    hide Flags, FreedLane;
    FreedLaneOk(p.nr, At(p, g.side));
    if At(p, Other(g.side)).starved {
      StarvedLaneOk(p.nr, At(p, Other(g.side)));
    }
  }

  lemma TallyRemove(all: multiset<Grant>, g: Grant, sync: int, async: int, elvpriv: int)
    requires g in all && Tally(all, sync, async, elvpriv)
    ensures (if g.side == Sync then sync else async) > 0
    ensures Tally(all - multiset{g}, if g.side == Sync then sync - 1 else sync,
                  if g.side == Sync then async else async - 1, elvpriv - (if g.priv then 1 else 0))
  {
  }

  lemma TallyAdd(all: multiset<Grant>, g: Grant, sync: int, async: int, elvpriv: int)
    requires Tally(all, sync, async, elvpriv)
    ensures Tally(all + multiset{g}, if g.side == Sync then sync + 1 else sync,
                  if g.side == Sync then async else async + 1, elvpriv + (if g.priv then 1 else 0))
  {
  }

  lemma DoneOk(p: Pool, g: Grant)
    requires Inv(p) && g in p.held
    ensures Inv(Free(p, g))
  {
    hide Flags, Freed, Minded, Tally;
    var all := p.pending + p.held;
    TallyRemove(all, g, p.sync.count, p.async.count, p.elvpriv);
    FreedOk(p, g);
    assert p.pending + (p.held - multiset{g}) == all - multiset{g};
  }

  lemma MarkOk(nr: nat, l: Lane, who: Sleeper)
    requires Flags(nr, l)
    ensures Flags(nr, MarkStarved(l)) && Minded(MarkStarved(l)) && MarkStarved(l).count == l.count
    ensures who.Sleeps? ==> Flags(nr, Sleep(MarkStarved(l), who.task)) && Minded(Sleep(MarkStarved(l), who.task))
  {
  }

  lemma NoMemoryOk(p: Pool, g: Grant, who: Sleeper)
    requires Inv(p) && g in p.pending
    ensures Inv(SleepIf(AllocFailed(p, g), g.side, who))
  {
    hide Flags, Freed, Minded, Tally, MarkStarved;
    var all := p.pending + p.held;
    TallyRemove(all, g, p.sync.count, p.async.count, p.elvpriv);
    FreedOk(p, g);
    MarkOk(p.nr, At(Freed(p, g), g.side), who);
    assert (p.pending - multiset{g}) + p.held == all - multiset{g};
  }

  lemma AdmitOk(nr: nat, l: Lane, v: Verdict, ioc: Ioc, now: int, batchTime: nat)
    requires nr >= 4 && Flags(nr, l)
    ensures var gate := Admit(nr, l, v, ioc, now, batchTime);
            && Flags(nr, gate.lane) && gate.lane.wait == l.wait && gate.lane.woken == l.woken
            && (gate.pass ==> gate.lane.count == l.count + 1)
            && (!gate.pass ==> gate.lane.count == l.count && (l.count > 0 || gate.lane.starved))
  {
  }

  /** Who gets a request: below the limit anyone, above it batchers and those the scheduler insists on. */
  lemma AdmitIff(nr: nat, l: Lane, v: Verdict, ioc: Ioc, now: int, batchTime: nat)
    requires nr >= 4 && Flags(nr, l)
    ensures Admit(nr, l, v, ioc, now, batchTime).pass <==>
            v != NoQueue && l.count < 3 * nr / 2 && (l.count < nr || v == MustQueue || Batching(ioc, now, batchTime))
  {
    hide Batching;
  }

  lemma GateOk(nr: nat, l: Lane, v: Verdict, ioc: Ioc, now: int, batchTime: nat)
    requires nr >= 4 && Flags(nr, l)
    ensures var gate := Admit(nr, l, v, ioc, now, batchTime);
            && Flags(nr, gate.lane) && Minded(gate.lane) && gate.lane.count == l.count + (if gate.pass then 1 else 0)
            && (!gate.pass ==> gate.lane.count > 0 || gate.lane.starved)
  {
    hide Admit;
    AdmitOk(nr, l, v, ioc, now, batchTime);
  }

  /** get_request leaves the sleepers of its side with something to wait for, whether it passes or not. */
  lemma GetOk(p: Pool, g: Grant, v: Verdict, ioc: Ioc, now: int, batchTime: nat)
    requires Entered(p, g.side)
    ensures Inv(Get(p, g, v, ioc, now, batchTime))
    ensures !Passes(p, g, v, ioc, now, batchTime) ==>
              var l := At(Get(p, g, v, ioc, now, batchTime), g.side); l.count > 0 || l.starved
  {
    hide Admit, Tally, Flags, Minded;
    GateOk(p.nr, At(p, g.side), v, ioc, now, batchTime);
    TallyAdd(p.pending + p.held, g, p.sync.count, p.async.count, p.elvpriv);
    assert p.pending + multiset{g} + p.held == p.pending + p.held + multiset{g};
  }

  /** A task may go to sleep where there is something to wait for. */
  lemma SleptOk(p: Pool, s: Side, t: Task)
    requires Inv(p) && (At(p, s).count > 0 || At(p, s).starved)
    ensures Inv(Slept(p, s, t))
  {
  }

  /** The lane that an attempt starts from: a woken task is no longer one that has yet to retry. */
  function Entering(l: Lane, a: Step): Lane
    requires a.Attempt?
  {
    if a.resumed && a.who.Sleeps? then l.(woken := l.woken - multiset{a.who.task}) else l
  }

  predicate Granted(nr: nat, l: Lane, a: Step, batchTime: nat)
    requires a.Attempt?
  {
    Admit(nr, Entering(l, a), a.v, a.ioc, a.now, batchTime).pass
  }

  /** A lane after an attempt, with the task asleep on it if the attempt failed. */
  function Attempted(nr: nat, l: Lane, a: Step, batchTime: nat): Lane
    requires a.Attempt?
  {
    var gate := Admit(nr, Entering(l, a), a.v, a.ioc, a.now, batchTime);
    if !gate.pass && a.who.Sleeps? then Sleep(gate.lane, a.who.task) else gate.lane
  }

  /** Whatever the attempt comes to, its sleepers still have something to wait for. */
  lemma AttemptedOk(nr: nat, l: Lane, a: Step, batchTime: nat)
    requires a.Attempt? && nr >= 4 && Flags(nr, l) && Minded(l)
    requires a.resumed ==> a.who.Sleeps?
    ensures Flags(nr, Attempted(nr, l, a, batchTime)) && Minded(Attempted(nr, l, a, batchTime))
    ensures Attempted(nr, l, a, batchTime).count == l.count + if Granted(nr, l, a, batchTime) then 1 else 0
  {
    hide Admit;
    AdmitOk(nr, Entering(l, a), a.v, a.ioc, a.now, batchTime);
  }

  lemma AttemptIs(p: Pool, a: Step, batchTime: nat)
    requires a.Attempt?
    ensures var q := Next(p, a, batchTime);
            var l := At(p, a.g.side);
            var pass := Granted(p.nr, l, a, batchTime);
            && q.nr == p.nr && q.held == p.held
            && At(q, a.g.side) == Attempted(p.nr, l, a, batchTime) && At(q, Other(a.g.side)) == At(p, Other(a.g.side))
            && q.pending == (if pass then p.pending + multiset{a.g} else p.pending)
            && q.elvpriv == p.elvpriv + (if pass && a.g.priv then 1 else 0)
  {
    hide Admit;
  }

  lemma AttemptOk(p: Pool, a: Step, batchTime: nat)
    requires Inv(p) && a.Attempt? && Enabled(p, a)
    ensures Inv(Next(p, a, batchTime))
  {
    hide Attempted, Granted, Flags, Minded, Tally, Next;
    var l := At(p, a.g.side);
    AttemptIs(p, a, batchTime);
    AttemptedOk(p.nr, l, a, batchTime);
    TallyAdd(p.pending + p.held, a.g, p.sync.count, p.async.count, p.elvpriv);
    assert p.pending + multiset{a.g} + p.held == p.pending + p.held + multiset{a.g};
  }

  lemma StepInv(p: Pool, a: Step, batchTime: nat)
    requires Inv(p) && Enabled(p, a)
    ensures Inv(Next(p, a, batchTime))
  {
    hide Inv, Freed, Get, Passes, Resumed;
    match a
    case Attempt(g, v, ioc, now, who, resumed) => AttemptOk(p, a, batchTime);
    case GotMemory(g) => AllocatedOk(p, g);
    case NoMemory(g, who) => NoMemoryOk(p, g, who);
    case Done(g) => DoneOk(p, g);
  }

  lemma AllocatedOk(p: Pool, g: Grant)
    requires Inv(p) && g in p.pending
    ensures Inv(Allocated(p, g))
  {
    assert (p.pending - multiset{g}) + (p.held + multiset{g}) == p.pending + p.held;
  }

  // ---------- runs ----------

  /** A queue whose requests are all free. */
  ghost predicate Fresh(p: Pool) {
    var l := Lane(0, false, false, false, [], multiset{});
    p.nr >= 4 && p == Pool(p.nr, l, l, 0, multiset{}, multiset{})
  }

  ghost predicate Run(run: seq<Pool>, steps: seq<Step>, batchTime: nat) {
    && |run| == |steps| + 1 && Fresh(run[0])
    && forall i :: 0 <= i < |steps| ==> Enabled(run[i], steps[i]) && run[i + 1] == Next(run[i], steps[i], batchTime)
  }

  lemma {:induction false} RunInv(run: seq<Pool>, steps: seq<Step>, batchTime: nat, i: nat)
    requires Run(run, steps, batchTime) && i < |run|
    ensures Inv(run[i])
  {
    hide Next, Enabled;
    if i > 0 {
      RunInv(run, steps, batchTime, i - 1);
      StepInv(run[i - 1], steps[i - 1], batchTime);
    } else {
      FreshOk(run[0]);
    }
  }

  lemma FreshOk(p: Pool)
    requires Fresh(p)
    ensures Inv(p)
  {
  }

  /** At every point of every run. */
  lemma Allocator(run: seq<Pool>, steps: seq<Step>, batchTime: nat, i: nat, s: Side)
    requires Run(run, steps, batchTime) && i < |run|
    ensures var p := run[i]; var l := At(p, s);
            && l.count == Of(p.pending + p.held, s) <= 3 * p.nr / 2
            && (l.full <==> l.count >= p.nr)
            && (l.wait != [] ==> l.count > 0 || l.starved || |l.woken| > 0)
  {
    RunInv(run, steps, batchTime, i);
  }

  // ---------- draining ----------

  function FreeAll(p: Pool, gs: seq<Grant>): Pool
    decreases |gs|
  {
    if gs == [] then p else FreeAll(Free(p, gs[0]), gs[1..])
  }

  lemma FreedLaneKeeps(nr: nat, l: Lane)
    ensures var f := FreedLane(nr, l);
            |f.woken| >= |l.woken| && (f.wait == l.wait || |f.woken| > 0) && f.starved == l.starved
  {
    WakeMinds(l);
    WakeMinds(l.(congested := false));
  }

  /** Freeing only moves sleepers to the woken ones. */
  lemma FreeKeeps(p: Pool, g: Grant, s: Side)
    ensures var l := At(p, s); var f := At(Free(p, g), s);
            |f.woken| >= |l.woken| && (f.wait == l.wait || |f.woken| > 0)
  {
    hide FreedLane;
    var l := At(p, g.side);
    FreedLaneKeeps(p.nr, l.(count := l.count - 1));
    FreedLaneKeeps(p.nr, At(p, Other(g.side)));
  }

  lemma {:induction false} FreeAllKeeps(p: Pool, gs: seq<Grant>, s: Side)
    ensures |At(FreeAll(p, gs), s).woken| >= |At(p, s).woken|
    decreases |gs|
  {
    hide Free;
    if gs != [] {
      FreeKeeps(p, gs[0], s);
      FreeAllKeeps(Free(p, gs[0]), gs[1..], s);
    }
  }

  /** The last request of all to be freed wakes a sleeper of either side. */
  lemma LastFree(p: Pool, g: Grant, s: Side)
    requires Inv(p) && p.pending == multiset{} && p.held == multiset{g} && At(p, s).wait != []
    ensures |At(Free(p, g), s).woken| > 0
  {
    hide FreedLane, Flags;
    var all := p.pending + p.held;
    assert all == multiset{g};
    if s == g.side {
      assert At(p, s).count == 1;
      FreedLaneOk(p.nr, At(p, s));
    } else {
      assert At(p, s).count == 0;
      if At(p, s).starved {
        StarvedLaneOk(p.nr, At(p, s));
      }
    }
  }

  /**
    When all requests that are out come back, in any order, every side that has sleepers has woken
    one, provided there was a request out at all.
  */
  lemma {:induction false} Drain(p: Pool, gs: seq<Grant>, s: Side)
    requires Inv(p) && p.pending == multiset{} && multiset(gs) == p.held && gs != []
    requires At(p, s).wait != []
    ensures Inv(FreeAll(p, gs)) && At(FreeAll(p, gs), s).count == 0
    ensures |At(FreeAll(p, gs), s).woken| > 0
    decreases |gs|
  {
    hide Free, Inv;
    var g, rest := gs[0], gs[1..];
    assert gs == [g] + rest;
    DoneOk(p, g);
    var p1 := Free(p, g);
    FreeMembers(p, g);
    assert multiset(rest) == p1.held;
    if rest == [] {
      LastFree(p, g, s);
      NoneOut(p1, s);
    } else {
      FreeKeeps(p, g, s);
      if At(p1, s).wait != [] {
        Drain(p1, rest, s);
      } else {
        FreeAllKeeps(p1, rest, s);
        DrainCount(p1, rest, s);
      }
    }
  }

  /** Exactly when there was a request out, or a sleeper had been woken before. */
  lemma DrainIff(p: Pool, gs: seq<Grant>, s: Side)
    requires Inv(p) && p.pending == multiset{} && multiset(gs) == p.held && At(p, s).wait != []
    ensures |At(FreeAll(p, gs), s).woken| > 0 <==> gs != [] || |At(p, s).woken| > 0
  {
    hide Inv;
    if gs != [] {
      Drain(p, gs, s);
    }
  }

  lemma FreeMembers(p: Pool, g: Grant)
    ensures Free(p, g).pending == p.pending && Free(p, g).held == p.held - multiset{g}
  {
  }

  lemma NoneOut(p: Pool, s: Side)
    requires Inv(p) && p.pending == multiset{} && p.held == multiset{}
    ensures At(p, s).count == 0
  {
  }

  lemma {:induction false} DrainCount(p: Pool, gs: seq<Grant>, s: Side)
    requires Inv(p) && p.pending == multiset{} && multiset(gs) == p.held
    ensures Inv(FreeAll(p, gs)) && At(FreeAll(p, gs), s).count == 0
    decreases |gs|
  {
    hide Free, Inv;
    if gs == [] {
      NoneOut(p, s);
    } else {
      assert gs == [gs[0]] + gs[1..];
      DoneOk(p, gs[0]);
      FreeMembers(p, gs[0]);
      DrainCount(Free(p, gs[0]), gs[1..], s);
    }
  }

  /**
    The proviso is needed: when the scheduler refuses the first request of all, its task sleeps on
    a side that is marked starved while nothing is out whose return would wake it.
  */
  lemma RefusedFirst(p: Pool, t: Task, batchTime: nat)
    requires Fresh(p)
    ensures var a := Attempt(Grant(Sync, true), NoQueue, NoIoc, 0, Sleeps(t), false);
            var q := Next(p, a, batchTime);
            && Enabled(p, a) && Run([p, q], [a], batchTime)
            && q.sync.wait == [t] && q.sync.starved && |q.sync.woken| == 0
            && q.pending + q.held == multiset{} && !(exists g :: Enabled(q, Done(g)))
  {
  }

  /**
    A task that was woken gets its request, whatever the flags, unless the scheduler refuses it or
    the hard limit is reached: it is made a batcher first.  If it was one already, the batch must
    not have run out on the way.
  */
  lemma WokenAdmitted(nr: nat, l: Lane, v: Verdict, ioc: Ioc, woke: int, now: int, batchTime: nat)
    requires v != NoQueue && l.count < 3 * nr / 2 && ioc.Ioc?
    requires woke == now || !Batching(ioc, woke, batchTime) || ioc.batch == BATCH_REQ
    ensures Admit(nr, l, v, SetBatching(ioc, woke, batchTime), now, batchTime).pass
  {
  }
}
