/**
The request list of a queue, with the functions of block/blk-core.c that change it in place.
*/
module RequestQueue {
  import opened RequestPool
  import opened RequestPoolProofs

  /** __freed_request: after one request fewer, or on a starved side, the flags are right and a sleeper is woken. */
  method FreedSide(nr: nat, lane: Lane) returns (l: Lane)
    requires nr >= 4 && ((Flags(nr, lane.(count := lane.count + 1)) && lane.count >= 0) || (Flags(nr, lane) && lane.starved))
    ensures l == FreedLane(nr, lane)
    ensures Flags(nr, l) && Minded(l) && l.count == lane.count
    ensures lane.wait != [] && lane.count < nr ==> |l.woken| > 0
  {
    if lane.count >= 0 && Flags(nr, lane.(count := lane.count + 1)) {
      FreedLaneOk(nr, lane.(count := lane.count + 1));
    } else {
      StarvedLaneOk(nr, lane);
    }
    l := lane;
    if l.count < OffThreshold(nr) {
      l := l.(congested := false);
    }
    if l.count + 1 <= nr {
      if |l.wait| > 0 {
        l := l.(wait := l.wait[1..], woken := l.woken + multiset{l.wait[0]});
      }
      l := l.(full := false);
    }
  }

  /** freed_request on the two sides: one request fewer on its own, and a look at the other if that is starved. */
  method FreedBoth(nr: nat, own: Lane, other: Lane) returns (own': Lane, other': Lane)
    requires nr >= 4 && own.count > 0 && Flags(nr, own) && Flags(nr, other)
    ensures own' == FreedLane(nr, own.(count := own.count - 1))
    ensures other' == if other.starved then FreedLane(nr, other) else other
  {
    hide FreedLane, Flags;
    var l := own.(count := own.count - 1);
    assert l.(count := l.count + 1) == own;
    own' := FreedSide(nr, l);
    other' := other;
    if other'.starved {
      other' := FreedSide(nr, other);
    }
  }

  /** What get_request decides under the lock: `pass` says that memory is to be obtained. */
  method Decide(nr: nat, lane: Lane, v: Verdict, ioc: Ioc, now: int, batchTime: nat)
    returns (l: Lane, ioc': Ioc, pass: bool)
    requires nr >= 4 && Flags(nr, lane)
    ensures Gate(l, ioc', pass) == Admit(nr, lane, v, ioc, now, batchTime)
    ensures pass <==> v != NoQueue && lane.count < 3 * nr / 2 && (lane.count < nr || v == MustQueue || Batching(ioc, now, batchTime))
    ensures Flags(nr, l) && l.wait == lane.wait && l.woken == lane.woken && l.count == lane.count + if pass then 1 else 0
    ensures !pass ==> l.count > 0 || l.starved
  {
    AdmitIff(nr, lane, v, ioc, now, batchTime);
    AdmitOk(nr, lane, v, ioc, now, batchTime);
    hide Batching, SetBatching, OnThreshold, Flags;
    l, ioc', pass := lane, ioc, false;
    if v == NoQueue {
      if l.count == 0 {
        l := l.(starved := true);
      }
      return;
    }
    if l.count + 1 >= OnThreshold(nr) {
      if l.count + 1 >= nr {
        if !l.full {
          ioc' := SetBatching(ioc, now, batchTime);
          l := l.(full := true);
        } else if v != MustQueue && !Batching(ioc, now, batchTime) {
          return;
        }
      }
      l := l.(congested := true);
    }
    if l.count >= 3 * nr / 2 {
      return;
    }
    l := l.(count := l.count + 1, starved := false);
    pass := true;
  }

  class RequestList {
    var nrRequests: nat
    var sync: Lane
    var async: Lane
    var elvpriv: int
    ghost var pending: multiset<Grant>
    ghost var held: multiset<Grant>

    ghost function State(): Pool
      reads this
    {
      Pool(nrRequests, sync, async, elvpriv, pending, held)
    }

    function LaneAt(s: Side): Lane
      reads this
    {
      if s == Sync then sync else async
    }

    /** blk_init_free_list; BLKDEV_MIN_RQ is 4. */
    constructor (nr: nat)
      requires nr >= 4
      ensures Fresh(State()) && nrRequests == nr && Inv(State())
    {
      nrRequests := nr;
      sync := Lane(0, false, false, false, [], multiset{});
      async := Lane(0, false, false, false, [], multiset{});
      elvpriv := 0;
      pending, held := multiset{}, multiset{};
      new;
      FreshOk(State());
    }

    method SetLane(s: Side, l: Lane)
      modifies this`sync, this`async
      ensures State() == With(old(State()), s, l)
    {
      if s == Sync {
        sync := l;
      } else {
        async := l;
      }
    }

    /** freed_request: the allocation is no longer counted, and sleepers that can go on are woken. */
    method FreedRequest(g: Grant)
      requires Inv(State()) && g in pending + held
      modifies this`sync, this`async, this`elvpriv
      ensures State() == Freed(old(State()), g) && Released(State(), g) && Woke(old(State()), State(), g)
    {
      hide FreedLane, Flags, Released, Inv, Woke;
      FreedReleases(State(), g);
      FreeReady(State(), g);
      if g.priv {
        elvpriv := elvpriv - 1;
      }
      if g.side == Sync {
        sync, async := FreedBoth(nrRequests, sync, async);
      } else {
        async, sync := FreedBoth(nrRequests, async, sync);
      }
    }

    /** A driver is done with a request. */
    method PutRequest(g: Grant)
      requires Inv(State()) && g in held
      modifies this
      ensures State() == Free(old(State()), g) && Inv(State())
    {
      hide Inv, Freed, Released;
      DoneOk(State(), g);
      FreedRequest(g);
      held := held - multiset{g};
    }

    /**
      get_request up to where it drops the lock, on a side that a woken task may just have left: a request
      is granted below the limit, or to a batcher or on the scheduler's word below the hard limit.
    */
    method GetRequest(g: Grant, v: Verdict, ioc: Ioc, now: int, batchTime: nat) returns (pass: bool, ioc': Ioc)
      requires Entered(State(), g.side)
      modifies this
      ensures Inv(State()) && State() == Get(old(State()), g, v, ioc, now, batchTime)
      ensures pass <==> && v != NoQueue && old(LaneAt(g.side)).count < 3 * nrRequests / 2
                        && (old(LaneAt(g.side)).count < nrRequests || v == MustQueue || Batching(ioc, now, batchTime))
      ensures pass == Passes(old(State()), g, v, ioc, now, batchTime)
      ensures pending == old(pending) + if pass then multiset{g} else multiset{}
      ensures !pass ==> LaneAt(g.side).count > 0 || LaneAt(g.side).starved
      ensures ioc' == Admit(nrRequests, old(LaneAt(g.side)), v, ioc, now, batchTime).ioc
    {
      hide Admit, Flags, Tally, Minded, Batching;
      GetOk(State(), g, v, ioc, now, batchTime);
      var l;
      l, ioc', pass := Decide(nrRequests, LaneAt(g.side), v, ioc, now, batchTime);
      SetLane(g.side, l);
      if pass {
        if g.priv {
          elvpriv := elvpriv + 1;
        }
        pending := pending + multiset{g};
      }
    }

    /** The memory was there. */
    method GotMemory(g: Grant)
      requires Inv(State()) && g in pending
      modifies this
      ensures Inv(State()) && State() == Allocated(old(State()), g)
    {
      hide Inv;
      AllocatedOk(State(), g);
      pending, held := pending - multiset{g}, held + multiset{g};
    }

    /** The end of get_request when the memory could not be had: all is as if it had not been asked for, but a task can sleep. */
    method Undo(g: Grant)
      requires Inv(State()) && g in pending
      modifies this
      ensures Inv(State()) && State() == AllocFailed(old(State()), g)
      ensures pending == old(pending) - multiset{g} && held == old(held)
      ensures LaneAt(g.side).count > 0 || LaneAt(g.side).starved
    {
      hide Freed, Inv, Released;
      NoMemoryOk(State(), g, Returns);
      FreedRequest(g);
      ghost var p := State();
      pending := pending - multiset{g};
      var l := LaneAt(g.side);
      CountsUp(p, g);
      if l.count == 0 {
        SetLane(g.side, l.(starved := true));
      }
    }

    /** prepare_to_wait_exclusive, after an attempt that failed. */
    method PrepareToWait(s: Side, t: Task)
      requires Inv(State()) && (LaneAt(s).count > 0 || LaneAt(s).starved)
      modifies this`sync, this`async
      ensures Inv(State()) && State() == Slept(old(State()), s, t)
    {
      SleptOk(State(), s, t);
      var l := LaneAt(s);
      SetLane(s, l.(wait := l.wait + [t]));
    }

    /** finish_wait of a task that was woken. */
    method FinishWait(s: Side, t: Task)
      requires Inv(State()) && t in LaneAt(s).woken
      modifies this`sync, this`async
      ensures State() == Resumed(old(State()), s, t) && Entered(State(), s)
    {
      var l := LaneAt(s);
      SetLane(s, l.(woken := l.woken - multiset{t}));
    }

    /** One turn of get_request_wait: a woken task tries again, and sleeps again if it fails. */
    method Retry(g: Grant, v: Verdict, ioc: Ioc, now: int, batchTime: nat, t: Task) returns (pass: bool)
      requires Inv(State()) && t in LaneAt(g.side).woken
      modifies this
      ensures Inv(State()) && State() == Next(old(State()), Attempt(g, v, ioc, now, Sleeps(t), true), batchTime)
      ensures pass <==> && v != NoQueue && old(LaneAt(g.side)).count < 3 * nrRequests / 2
                        && (old(LaneAt(g.side)).count < nrRequests || v == MustQueue || Batching(ioc, now, batchTime))
    {
      hide Inv, Get, Passes, Batching, Entered;
      FinishWait(g.side, t);
      var batcher: Ioc;
      pass, batcher := GetRequest(g, v, ioc, now, batchTime);
      if !pass {
        PrepareToWait(g.side, t);
      }
    }
  }

  lemma FreeReady(p: Pool, g: Grant)
    requires Inv(p) && g in p.pending + p.held
    ensures p.nr >= 4 && At(p, g.side).count > 0 && Flags(p.nr, p.sync) && Flags(p.nr, p.async)
  {
    hide Flags, Minded;
    TallyRemove(p.pending + p.held, g, p.sync.count, p.async.count, p.elvpriv);
  }

  lemma CountsUp(p: Pool, g: Grant)
    requires Released(p, g)
    ensures At(p, g.side).count >= 0
  {
  }
}
