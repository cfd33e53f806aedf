/**
block/blk-flush.c as the object it is: the flush-related fields of a request queue, updated in
place.  Every method is proved to be the corresponding step of FlushSpec; FlushEndIo walks the live
list the way list_for_each_entry_safe does, with a new flush that may be kicked half way and turn the
walked list into the pending one.
*/
module FlushQueue {
  import opened FlushSpec
  import opened FlushDevice
  import opened FlushProofs
  import FlushTheorems

  datatype Cursor = AtHead | At(r: Rid)

  /** The entry after r, as the list stands now. */
  function NextOf(l: seq<Rid>, r: Rid): Cursor {
    if |l| < 2 then AtHead
    else if l[0] == r then At(l[1])
    else NextOf(l[1..], r)
  }

  class RequestQueue {
    var queue0: seq<Rid>
    var queue1: seq<Rid>
    var data: seq<Rid>
    var pendingIdx: Index
    var runningIdx: Index
    var pendingSince: int
    var done: map<Rid, Mask>
    var direct: set<Rid>
    var dispatch: seq<Item>
    var driver: set<Item>
    var hz: nat
    var bug: bool
    var log: seq<Event>

    ghost function View(): State
      reads this
    {
      State(queue0, queue1, data, pendingIdx, runningIdx, pendingSince, done, direct, dispatch, driver, hz, bug, log)
    }

    constructor (hz: nat)
      ensures View() == Init(hz) && Inv(View())
    {
      queue0, queue1, data, pendingIdx, runningIdx, pendingSince := [], [], [], 0, 0, 0;
      done, direct, dispatch, driver, this.hz, bug, log := map[], {}, [], {}, hz, false, [];
      new;
      FlushTheorems.InitOk(hz);
    }

    method ListMove(r: Rid, target: int)
      modifies this`queue0, this`queue1, this`data
      ensures var d := Detach(old(View()), r);
              View() == if target == 0 then d.(queue0 := d.queue0 + [r])
                        else if target == 1 then d.(queue1 := d.queue1 + [r])
                        else if target == 2 then d.(data := d.data + [r])
                        else d
    {
      queue0, queue1, data := Without(queue0, r), Without(queue1, r), Without(data, r);
      if target == 0 {
        queue0 := queue0 + [r];
      } else if target == 1 {
        queue1 := queue1 + [r];
      } else if target == 2 {
        data := data + [r];
      }
    }

    method KickFlush(now: int) returns (issued: bool)
      modifies this
      ensures View() == Kick(old(View()), now)
      ensures issued <==> pendingIdx != old(pendingIdx)
      ensures |dispatch| == |old(dispatch)| + if issued then 1 else 0
    {
      var pending := if pendingIdx == 0 then queue0 else queue1;
      if pendingIdx != runningIdx || pending == [] {
        return false;
      }
      if data != [] && now < pendingSince + 5 * hz {
        return false;
      }
      pendingIdx := 1 - pendingIdx;
      dispatch := dispatch + [FlushRq];
      log := log + [Issued];
      return true;
    }

    /** The switch of blk_flush_complete_seq. */
    method PlaceRequest(r: Rid, next: Step, error: bool, now: int) returns (queued: bool)
      modifies this
      ensures View() == Place(old(View()), r, next, error, now)
      ensures |dispatch| == |old(dispatch)| + if queued then 1 else 0
    {
      queued := false;
      match next
      case PreFlush | PostFlush =>
        var pending := if pendingIdx == 0 then queue0 else queue1;
        if pending == [] {
          pendingSince := now;
        }
        ListMove(r, pendingIdx);
        log := log + [Queued(r, next)];
      case Data =>
        ListMove(r, 2);
        dispatch := [DataRq(r)] + dispatch;
        log := log + [Queued(r, Data)];
        queued := true;
      case Done =>
        bug := bug || DataRq(r) in dispatch;
        ListMove(r, 3);
        log := log + [Ended(r, error)];
    }

    /** The result tells whether anything was added to the dispatch queue. */
    method CompleteSequence(r: Rid, done_: Mask, error: bool, now: int) returns (queued: bool)
      requires r in done
      modifies this
      ensures View() == CompleteSeq(old(View()), r, done_, error, now)
      ensures queued <==> |dispatch| > |old(dispatch)|
    {
      hide Place, Kick;
      bug := bug || Overlap(done[r], done_);
      done := done[r := Union(done[r], done_)];
      var next := if error then Done else CurSeq(done[r]);
      queued := PlaceRequest(r, next, error, now);
      var kicked := KickFlush(now);
      queued := queued || kicked;
    }

    /** One turn of the walk in flush_end_io; the successor is read before the request is moved. */
    method WalkTurn(walked: Index, r: Rid, error: bool, now: int) returns (next: Cursor)
      requires r in done
      modifies this
      ensures View() == WalkOne(old(View()), r, error, now)
      ensures next == NextOf(Queue(old(View()), walked), r)
    {
      hide CompleteSeq;
      var list := if walked == 0 then queue0 else queue1;
      next := NextOf(list, r);
      var step := CurSeq(done[r]);
      bug := bug || !(step == PreFlush || step == PostFlush);
      var _ := CompleteSequence(r, Bit(step), error, now);
    }

    /** Completion of the flush in flight. */
    method FlushEndIo(error: bool, now: int)
      requires Inv(View()) && FlushRq in driver
      modifies this
      ensures forall r <- Queue(old(View()), old(runningIdx)) :: r in old(done)
      ensures View() == FlushDone(old(View()), error, now)
      ensures Inv(View())
    {
      hide Core, Inv, WalkOne, Observe, Rest;
      FlushDoneOk(View(), error, now);
      FlushDoneHeadOk(View(), error);
      var walked := runningIdx;
      ghost var goal := FlushDone(View(), error, now);
      bug := bug || pendingIdx == runningIdx;
      driver := driver - {FlushRq};
      runningIdx := 1 - runningIdx;
      log := log + [FlushCompleted(error)];

      var list := if walked == 0 then queue0 else queue1;
      var cur := At(list[0]);
      while cur.At?
        invariant cur.At? ==> Queue(View(), walked) != [] && cur.r == Queue(View(), walked)[0]
        invariant cur.At? ==> forall r <- Queue(View(), walked) :: r in done
        invariant cur.At? ==> Core(View(), Observe(log), walked, !error, -1) && Walk(View(), walked, error, now) == goal
        invariant cur.AtHead? ==> View() == goal
        decreases if cur.At? then 1 + Weight(done, Queue(View(), walked)) else 0
      {
        WalkOneOk(View(), error, now, walked);
        WalkShrinks(View(), walked, error, now);
        cur := WalkTurn(walked, cur.r, error, now);
      }
    }

    /** Completion of the data step of r, or of a request that bypassed the sequencer. */
    method DataEndIo(r: Rid, error: bool, now: int)
      requires Inv(View()) && DataRq(r) in driver
      modifies this
      ensures old(r in direct || r in done)
      ensures View() == if r in old(direct) then DirectDone(old(View()), r, error)
                        else DataDone(old(View()), r, error, now)
      ensures Inv(View())
    {
      hide Inv, CompleteSeq, OnAList;
      FlushTheorems.FetchedData(View(), r);
      if r in direct {
        DirectDoneOk(View(), r, error);
        driver := driver - {DataRq(r)};
        log := log + [DataCompleted(r, error)];
        direct := direct - {r};
        log := log + [Ended(r, error)];
      } else {
        SequencedDataDoneOk(View(), r, error, now);
        driver := driver - {DataRq(r)};
        log := log + [DataCompleted(r, error)];
        var _ := CompleteSequence(r, Bit(Data), error, now);
      }
    }

    /** A new FLUSH/FUA request. */
    method InsertFlush(r: Rid, hw: Hw, needs: Needs, now: int)
      requires Inv(View()) && r !in Observe(log).hw
      modifies this
      ensures View() == Submit(old(View()), r, hw, needs, now)
      ensures Inv(View())
    {
      hide Inv, CompleteSeq, Observe;
      SubmitOk(View(), r, hw, needs, now);
      var policy := Policy(hw, needs);
      log := log + [Inserted(r, hw, needs)];
      if policy == Mask(false, false, false) {
        log := log + [Ended(r, false)];
      } else if policy.data && !policy.pre && !policy.post {
        direct := direct + {r};
        dispatch := dispatch + [DataRq(r)];
        log := log + [Direct(r)];
      } else {
        done := done[r := Mask(false, false, false)];
        var _ := CompleteSequence(r, Complement(policy), false, now);
      }
    }
  }
}
