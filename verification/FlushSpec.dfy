/**
The FLUSH/FUA sequencer of block/blk-flush.c as a transition system on values.

A sequenced request runs up to three steps (PREFLUSH, DATA, POSTFLUSH).  Requests that need a
flush wait on one of two flush queues; a single flush serves a whole queue.  Every function below
is what the code does while holding the queue lock, with `now` the value of jiffies.

What the sequencer shows to the outside (requests queued, ended, flushes issued) is appended to
`log`; module FlushDevice gives that log its meaning in terms of a disk with a volatile cache.
*/
module FlushSpec {

  type Rid = nat

  type Index = i: nat | i < 2

  /** REQ_FSEQ_*: what a request is doing, or has to do next. */
  datatype Step = PreFlush | Data | PostFlush | Done

  /** A mask over REQ_FSEQ_ACTIONS. */
  datatype Mask = Mask(pre: bool, data: bool, post: bool)

  /** q->flush_flags: the device has a write-back cache, and it honours FUA writes. */
  datatype Hw = Hw(flush: bool, fua: bool)

  /** What a submitted request asks for. */
  datatype Needs = Needs(flush: bool, fua: bool, sectors: nat)

  /** Entries of the dispatch queue: the shared flush request, or a request with data. */
  datatype Item = FlushRq | DataRq(r: Rid)

  datatype Event =
    | Inserted(r: Rid, hw: Hw, needs: Needs)
    | Queued(r: Rid, step: Step)
    | Direct(r: Rid)
    | Issued
    | FlushCompleted(error: bool)
    | DataCompleted(r: Rid, error: bool)
    | PlainWriteCompleted(w: nat)
    | Ended(r: Rid, error: bool)

  datatype State = State(
    queue0: seq<Rid>,
    queue1: seq<Rid>,
    data: seq<Rid>,           // flush_data_in_flight
    pendingIdx: Index,
    runningIdx: Index,
    pendingSince: int,
    done: map<Rid, Mask>,     // rq->flush.seq
    direct: set<Rid>,         // requests that bypass the sequencer
    dispatch: seq<Item>,      // queue_head
    driver: set<Item>,        // fetched by the driver, not yet completed
    hz: nat,
    bug: bool,                // some BUG_ON fired
    log: seq<Event>)

  function Queue(s: State, i: Index): seq<Rid> {
    if i == 0 then s.queue0 else s.queue1
  }

  function Toggle(i: Index): Index {
    1 - i
  }

  // ---------- pure helpers of the source ----------

  /** blk_flush_policy */
  function Policy(hw: Hw, n: Needs): Mask {
    Mask(hw.flush && n.flush, n.sectors != 0, hw.flush && !hw.fua && n.fua)
  }

  /** blk_flush_cur_seq: the first step not yet recorded as complete. */
  function CurSeq(done: Mask): Step {
    if !done.pre then PreFlush
    else if !done.data then Data
    else if !done.post then PostFlush
    else Done
  }

  function Union(a: Mask, b: Mask): Mask {
    Mask(a.pre || b.pre, a.data || b.data, a.post || b.post)
  }

  predicate Overlap(a: Mask, b: Mask) {
    (a.pre && b.pre) || (a.data && b.data) || (a.post && b.post)
  }

  function Complement(a: Mask): Mask {
    Mask(!a.pre, !a.data, !a.post)
  }

  function Bit(step: Step): Mask {
    Mask(step == PreFlush, step == Data, step == PostFlush)
  }

  function Without(l: seq<Rid>, r: Rid): seq<Rid> {
    if l == [] then []
    else if l[0] == r then Without(l[1..], r)
    else [l[0]] + Without(l[1..], r)
  }

  /** Take r off whichever flush list it is on. */
  function Detach(s: State, r: Rid): State {
    s.(queue0 := Without(s.queue0, r), queue1 := Without(s.queue1, r), data := Without(s.data, r))
  }

  function Emit(s: State, e: Event): State {
    s.(log := s.log + [e])
  }

  // ---------- the sequencer ----------

  /** Put the flush request on the dispatch queue and toggle pending_idx: a flush is now in flight. */
  function Issue(s: State): State {
    Emit(s.(pendingIdx := Toggle(s.pendingIdx), dispatch := s.dispatch + [FlushRq]), Issued)
  }

  /** blk_kick_flush */
  function Kick(s: State, now: int): State {
    if s.pendingIdx != s.runningIdx || Queue(s, s.pendingIdx) == [] then s
    else if s.data != [] && now < s.pendingSince + 5 * s.hz then s
    else Issue(s)
  }

  function QueueForFlush(s: State, r: Rid, step: Step, now: int): State {
    var since := if Queue(s, s.pendingIdx) == [] then now else s.pendingSince;
    var t := Detach(s, r);
    var u := if s.pendingIdx == 0 then t.(queue0 := t.queue0 + [r]) else t.(queue1 := t.queue1 + [r]);
    Emit(u.(pendingSince := since), Queued(r, step))
  }

  function QueueData(s: State, r: Rid): State {
    var t := Detach(s, r);
    Emit(t.(data := t.data + [r], dispatch := [DataRq(r)] + t.dispatch), Queued(r, Data))
  }

  function Finish(s: State, r: Rid, error: bool): State {
    Emit(Detach(s, r).(bug := s.bug || DataRq(r) in s.dispatch), Ended(r, error))
  }

  /** The switch of blk_flush_complete_seq. */
  function Place(s: State, r: Rid, next: Step, error: bool, now: int): State {
    match next
    case PreFlush => QueueForFlush(s, r, PreFlush, now)
    case PostFlush => QueueForFlush(s, r, PostFlush, now)
    case Data => QueueData(s, r)
    case Done => Finish(s, r, error)
  }

  function Record(s: State, r: Rid, seq_: Mask): State
    requires r in s.done
  {
    s.(done := s.done[r := Union(s.done[r], seq_)], bug := s.bug || Overlap(s.done[r], seq_))
  }

  /** blk_flush_complete_seq */
  function CompleteSeq(s: State, r: Rid, seq_: Mask, error: bool, now: int): (t: State)
    requires r in s.done
    ensures t.done.Keys == s.done.Keys
  {
    var t := Record(s, r, seq_);
    var next := if error then Done else CurSeq(t.done[r]);
    Kick(Place(t, r, next, error, now), now)
  }

  /** One turn of the loop in flush_end_io. */
  function WalkOne(s: State, r: Rid, error: bool, now: int): (t: State)
    requires r in s.done
    ensures t.done.Keys == s.done.Keys
  {
    var step := CurSeq(s.done[r]);
    CompleteSeq(s.(bug := s.bug || !(step == PreFlush || step == PostFlush)), r, Bit(step), error, now)
  }

  /** The steps a request has before it, counting its end. */
  function Ahead(done: Mask): nat {
    1 + (if done.pre then 0 else 1) + (if done.data then 0 else 1) + (if done.post then 0 else 1)
  }

  function Weight(done: map<Rid, Mask>, l: seq<Rid>): nat {
    if l == [] then 0 else (if l[0] in done then Ahead(done[l[0]]) else 0) + Weight(done, l[1..])
  }

  lemma {:induction false} WithoutWeight(done: map<Rid, Mask>, l: seq<Rid>, r: Rid, m: Mask)
    requires r in done
    ensures Weight(done[r := m], Without(l, r)) == Weight(done, Without(l, r)) <= Weight(done, l)
    ensures r in l ==> Weight(done, Without(l, r)) + Ahead(done[r]) <= Weight(done, l)
    ensures forall x :: x in Without(l, r) ==> x in l
  {
    if l != [] {
      WithoutWeight(done, l[1..], r, m);
    }
  }

  lemma {:induction false} AppendWeight(done: map<Rid, Mask>, l: seq<Rid>, r: Rid)
    requires r in done
    ensures Weight(done, l + [r]) == Weight(done, l) + Ahead(done[r])
  {
    if l == [] {
      assert l + [r] == [r];
    } else {
      assert (l + [r])[1..] == l[1..] + [r];
      AppendWeight(done, l[1..], r);
    }
  }

  lemma KickKeeps(s: State, now: int)
    ensures var t := Kick(s, now); t.queue0 == s.queue0 && t.queue1 == s.queue1 && t.done == s.done
  {
  }

  lemma PlaceMoves(s: State, walked: Index, r: Rid, next: Step, error: bool, now: int)
    ensures var t := Place(s, r, next, error, now);
            && t.done == s.done
            && (|| Queue(t, walked) == Without(Queue(s, walked), r)
                || (Queue(t, walked) == Without(Queue(s, walked), r) + [r] && (next == PreFlush || next == PostFlush)))
  {
  }

  /** A turn takes the request off the walked list, or puts it back at its end with a step less to do. */
  lemma TurnMoves(s: State, walked: Index, r: Rid, error: bool, now: int)
    requires r in s.done
    ensures var t := WalkOne(s, r, error, now);
            var m := Union(s.done[r], Bit(CurSeq(s.done[r])));
            && t.done == s.done[r := m]
            && (|| Queue(t, walked) == Without(Queue(s, walked), r)
                || (Queue(t, walked) == Without(Queue(s, walked), r) + [r] && Ahead(m) < Ahead(s.done[r])))
  {
    hide Place, Kick, Without;
    var step := CurSeq(s.done[r]);
    var u := Record(s.(bug := s.bug || !(step == PreFlush || step == PostFlush)), r, Bit(step));
    var next := if error then Done else CurSeq(u.done[r]);
    PlaceMoves(u, walked, r, next, error, now);
    KickKeeps(Place(u, r, next, error, now), now);
  }

  lemma WalkShrinks(s: State, walked: Index, error: bool, now: int)
    requires Queue(s, walked) != [] && forall r <- Queue(s, walked) :: r in s.done
    ensures var t := WalkOne(s, Queue(s, walked)[0], error, now);
            && Weight(t.done, Queue(t, walked)) < Weight(s.done, Queue(s, walked))
            && forall r <- Queue(t, walked) :: r in t.done
  {
    hide WalkOne;
    var l := Queue(s, walked);
    var r := l[0];
    var m := Union(s.done[r], Bit(CurSeq(s.done[r])));
    TurnMoves(s, walked, r, error, now);
    WithoutWeight(s.done, l, r, m);
    AppendWeight(s.done[r := m], Without(l, r), r);
  }

  /**
  The loop of flush_end_io over the live list.  The successor of a request is read before the request
  is moved, so the walk is over after a request that was alone on the list, even if it is put back.
  */
  function Walk(s: State, walked: Index, error: bool, now: int): State
    requires forall r <- Queue(s, walked) :: r in s.done
    decreases Weight(s.done, Queue(s, walked))
  {
    var l := Queue(s, walked);
    if l == [] then s
    else
      var t := WalkOne(s, l[0], error, now);
      WalkShrinks(s, walked, error, now);
      if |l| == 1 then t else Walk(t, walked, error, now)
  }

  /** flush_end_io up to its loop. */
  function FlushDoneHead(s: State, error: bool): State {
    Emit(s.(bug := s.bug || s.pendingIdx == s.runningIdx,
            driver := s.driver - {FlushRq},
            runningIdx := Toggle(s.runningIdx)),
         FlushCompleted(error))
  }

  /** flush_end_io */
  function FlushDone(s: State, error: bool, now: int): State
    requires forall r <- Queue(s, s.runningIdx) :: r in s.done
  {
    Walk(FlushDoneHead(s, error), s.runningIdx, error, now)
  }

  /** The ordinary completion of a request that bypassed the sequencer. */
  function DirectDone(s: State, r: Rid, error: bool): State {
    var t := Emit(s.(driver := s.driver - {DataRq(r)}), DataCompleted(r, error));
    Emit(t.(direct := t.direct - {r}), Ended(r, error))
  }

  /** flush_data_end_io */
  function DataDone(s: State, r: Rid, error: bool, now: int): State
    requires r in s.done
  {
    CompleteSeq(Emit(s.(driver := s.driver - {DataRq(r)}), DataCompleted(r, error)), r, Bit(Data), error, now)
  }

  /** A FLUSH/FUA request with data that needs no flush is queued for normal execution. */
  function Bypass(s: State, r: Rid): State {
    Emit(s.(direct := s.direct + {r}, dispatch := s.dispatch + [DataRq(r)]), Direct(r))
  }

  /** blk_insert_flush */
  function Submit(s: State, r: Rid, hw: Hw, needs: Needs, now: int): State {
    var policy := Policy(hw, needs);
    var t := Emit(s, Inserted(r, hw, needs));
    if policy == Mask(false, false, false) then Emit(t, Ended(r, false))
    else if policy.data && !policy.pre && !policy.post then
      Bypass(t, r)
    else
      CompleteSeq(t.(done := t.done[r := Mask(false, false, false)]), r, Complement(policy), false, now)
  }

  /** The driver takes the k-th entry off the dispatch queue. */
  function Fetch(s: State, k: nat): State
    requires k < |s.dispatch|
  {
    s.(dispatch := s.dispatch[..k] + s.dispatch[k + 1..], driver := s.driver + {s.dispatch[k]})
  }

  function Init(hz: nat): State {
    State([], [], [], 0, 0, 0, map[], {}, [], {}, hz, false, [])
  }
}
