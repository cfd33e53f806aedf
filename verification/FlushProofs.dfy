/**
Safety, exactly-once completion, durability and progress of the flush sequencer over every run.
*/
module FlushProofs {
  import opened Common
  import opened FlushSpec
  import opened FlushDevice

  // ---------- lists ----------

  lemma {:induction false} WithoutFacts(l: seq<Rid>, r: Rid)
    ensures forall x :: x in Without(l, r) <==> x in l && x != r
    ensures Distinct(l) ==> Distinct(Without(l, r))
    ensures r !in l ==> Without(l, r) == l
  {
    if l != [] {
      WithoutFacts(l[1..], r);
      assert l == [l[0]] + l[1..];
      if Distinct(l) {
        assert Distinct(l[1..]) && l[0] !in l[1..];
      }
    }
  }

  lemma WithoutHead(l: seq<Rid>)
    requires l != [] && Distinct(l)
    ensures Without(l, l[0]) == l[1..]
  {
    WithoutFacts(l[1..], l[0]);
  }

  lemma DistinctAppend<T>(l: seq<T>, x: T)
    requires Distinct(l) && x !in l
    ensures Distinct(l + [x]) && Distinct([x] + l)
  {
  }

  // ---------- one request ----------

  ghost function PolicyOf(o: Obs, r: Rid): Mask
    requires r in o.hw && r in o.needs
  {
    Policy(o.hw[r], o.needs[r])
  }

  ghost predicate Known(o: Obs, r: Rid) {
    r in o.hw && r in o.needs && r in o.before
  }

  predicate Prescribed(p: Mask, step: Step) {
    match step
    case PreFlush => p.pre
    case Data => p.data
    case PostFlush => p.post
    case Done => true
  }

  /** flush.seq of a request whose current step is `cur`. */
  function DoneMask(p: Mask, cur: Step): Mask {
    match cur
    case PreFlush => Mask(!p.pre, !p.data, !p.post)
    case Data => Mask(true, !p.data, !p.post)
    case PostFlush => Mask(true, true, !p.post)
    case Done => Mask(true, true, true)
  }

  /** The prescribed steps up to and including `cur`. */
  function StepsThrough(p: Mask, cur: Step): seq<Step> {
    match cur
    case PreFlush => PolicySteps(Mask(p.pre, false, false))
    case Data => PolicySteps(Mask(p.pre, p.data, false))
    case PostFlush => PolicySteps(p)
    case Done => PolicySteps(p)
  }

  ghost predicate OnTrack(s: State, o: Obs, r: Rid)
  {
    && Known(o, r) && r in s.done
    && var cur := CurSeq(s.done[r]);
    && cur != Done && Prescribed(PolicyOf(o, r), cur)
    && s.done[r] == DoneMask(PolicyOf(o, r), cur)
    && StepsOf(o, r) == StepsThrough(PolicyOf(o, r), cur)
  }

  ghost predicate Alive(s: State, o: Obs, r: Rid) {
    OnTrack(s, o, r) && r !in o.ended && r !in s.direct
  }

  /** REQ_FLUSH has already done its job for r. */
  ghost predicate FlushedFirst(o: Obs, r: Rid)
    requires Known(o, r)
  {
    PolicyOf(o, r).pre ==>
      && o.before[r] <= o.durable
      && (PolicyOf(o, r).data ==> r in o.atData && o.before[r] <= o.atData[r])
  }

  /**
  What is (or will be, when the flush serving queue i is done) durable for the waiters of queue i.
  `w` is the queue being walked by flush_end_io, or -1.
  */
  ghost function Reach(s: State, o: Obs, i: Index, w: int): set<Write> {
    if i == w then o.durable
    else if s.pendingIdx != s.runningIdx && i == s.runningIdx then o.covered
    else o.completed
  }

  /** r waits on flush queue i. */
  ghost predicate Waits(s: State, o: Obs, r: Rid, i: Index, w: int, ok: bool) {
    && Alive(s, o, r)
    && var cur := CurSeq(s.done[r]);
    && (cur == PreFlush || cur == PostFlush)
    && (cur == PreFlush && (i == w ==> ok) ==> o.before[r] <= Reach(s, o, i, w))
    && (cur == PostFlush && (i == w ==> ok) && PolicyOf(o, r).data ==> Own(r) in Reach(s, o, i, w))
    && (cur == PostFlush && (i == w ==> ok) && Ordinary(PolicyOf(o, r)) ==> Mark(r) in Reach(s, o, i, w))
    && (cur == PostFlush ==> FlushedFirst(o, r))
  }

  /** r is writing its data. */
  ghost predicate Writes(s: State, o: Obs, r: Rid) {
    Alive(s, o, r) && CurSeq(s.done[r]) == Data && FlushedFirst(o, r)
  }

  /** r needs no flush and is an ordinary request. */
  ghost predicate Bypasses(s: State, o: Obs, r: Rid) {
    && Known(o, r) && r !in o.ended && r !in s.done
    && PolicyOf(o, r) == Mask(false, true, false) && StepsOf(o, r) == [Data]
  }

  /** r ended, and was given what it asked for. */
  ghost predicate Kept(o: Obs, r: Rid) {
    && Known(o, r) && r in o.ended && Promise(o, r)
    && (Ordinary(PolicyOf(o, r)) ==> PostFlushed(o, r))
  }

  ghost predicate OnAFlushQueue(s: State, r: Rid) {
    r in s.queue0 || r in s.queue1
  }

  ghost predicate OnAList(s: State, r: Rid) {
    OnAFlushQueue(s, r) || r in s.data
  }

  // ---------- the whole state ----------

  ghost predicate ListsOk(s: State) {
    && Distinct(s.queue0) && Distinct(s.queue1) && Distinct(s.data)
    && (forall r <- s.queue0 :: r !in s.queue1 && r !in s.data)
    && (forall r <- s.queue1 :: r !in s.data)
  }

  ghost predicate RequestsOk(s: State, o: Obs, w: int, ok: bool, skip: int) {
    && (forall r <- s.queue0 :: r != skip ==> Waits(s, o, r, 0, w, ok))
    && (forall r <- s.queue1 :: r != skip ==> Waits(s, o, r, 1, w, ok))
    && (forall r <- s.data :: r != skip ==> Writes(s, o, r))
    && (forall r <- s.direct :: r != skip ==> Bypasses(s, o, r))
    && (forall r <- o.ended :: !OnAList(s, r) && r !in s.direct && Kept(o, r))
  }

  ghost predicate KeysOk(s: State, o: Obs, skip: int) {
    && o.hw.Keys == o.needs.Keys == o.before.Keys
    && o.steps.Keys <= o.hw.Keys && s.done.Keys <= o.hw.Keys
    && (forall r <- o.hw :: r != skip ==> OnAList(s, r) || r in s.direct || r in o.ended)
  }

  ghost predicate AtDriver(s: State, x: Item) {
    x in s.dispatch || x in s.driver
  }

  ghost predicate DispatchOk(s: State, skip: int) {
    && Distinct(s.dispatch) && (forall x <- s.dispatch :: x !in s.driver)
    && (AtDriver(s, FlushRq) <==> s.pendingIdx != s.runningIdx)
    && (forall r: Rid :: AtDriver(s, DataRq(r)) ==> r != skip && (r in s.data || r in s.direct))
    && (forall r <- s.data :: r != skip ==> AtDriver(s, DataRq(r)))
    && (forall r <- s.direct :: r != skip ==> AtDriver(s, DataRq(r)))
  }

  ghost predicate FlightOk(s: State, o: Obs, w: int) {
    && o.inFlight == (if s.pendingIdx != s.runningIdx then 1 else 0)
    && o.covered <= o.completed
    && (s.pendingIdx != s.runningIdx ==> Queue(s, s.runningIdx) != [])
    && (w == -1 && s.pendingIdx == s.runningIdx ==> Queue(s, Toggle(s.pendingIdx)) == [])
    && (w != -1 ==> (w == 0 || w == 1) && s.runningIdx == 1 - w)
  }

  ghost predicate Core(s: State, o: Obs, w: int, ok: bool, skip: int) {
    && !s.bug && !o.endedTwice
    && ListsOk(s) && RequestsOk(s, o, w, ok, skip) && KeysOk(s, o, skip)
    && DispatchOk(s, skip) && FlightOk(s, o, w)
  }

  /** Somebody waiting for a flush is never forgotten: a completion that will kick it is due. */
  ghost predicate Progress(s: State) {
    Queue(s, s.pendingIdx) != [] ==> s.pendingIdx != s.runningIdx || s.data != []
  }

  ghost predicate Inv(s: State) {
    Core(s, Observe(s.log), -1, true, -1) && Progress(s)
  }

  // ---------- frames: a request the step does not touch ----------

  ghost predicate SameFor(s: State, o: Obs, t: State, p: Obs, r: Rid) {
    && (r in s.done ==> r in t.done && t.done[r] == s.done[r])
    && (Known(o, r) ==> Known(p, r) && p.hw[r] == o.hw[r] && p.needs[r] == o.needs[r] && p.before[r] == o.before[r])
    && StepsOf(p, r) == StepsOf(o, r)
    && (r in o.atData ==> r in p.atData && p.atData[r] == o.atData[r])
    && (r in p.ended ==> r in o.ended)
    && (r in t.direct ==> r in s.direct)
    && o.durable <= p.durable
  }

  lemma WaitsFrame(s: State, o: Obs, t: State, p: Obs, r: Rid, i: Index, w: int, ok: bool)
    requires Waits(s, o, r, i, w, ok)
    requires SameFor(s, o, t, p, r) && Reach(s, o, i, w) <= Reach(t, p, i, w)
    ensures Waits(t, p, r, i, w, ok)
  {
  }

  lemma WritesFrame(s: State, o: Obs, t: State, p: Obs, r: Rid)
    requires Writes(s, o, r)
    requires SameFor(s, o, t, p, r)
    ensures Writes(t, p, r)
  {
  }

  lemma BypassesFrame(s: State, o: Obs, t: State, p: Obs, r: Rid)
    requires Bypasses(s, o, r)
    requires SameFor(s, o, t, p, r) && r !in t.done
    ensures Bypasses(t, p, r)
  {
  }

  lemma KeptFrame(o: Obs, p: Obs, r: Rid)
    requires Kept(o, r)
    requires Known(p, r) && p.hw[r] == o.hw[r] && p.needs[r] == o.needs[r] && p.before[r] == o.before[r]
    requires r in p.ended && p.ended[r] == o.ended[r]
    requires StepsOf(p, r) == StepsOf(o, r) && (r in o.atData ==> r in p.atData && p.atData[r] == o.atData[r])
    ensures Kept(p, r)
  {
  }

  /** The step from s to t touches no request but `skip`, and what the waiters can reach only grows. */
  ghost predicate OnlyTouches(s: State, o: Obs, t: State, p: Obs, w: int, skip: int) {
    && (forall x <- t.queue0 :: x != skip ==> x in s.queue0)
    && (forall x <- t.queue1 :: x != skip ==> x in s.queue1)
    && (forall x <- t.data :: x != skip ==> x in s.data)
    && (forall x <- t.direct :: x != skip ==> x in s.direct)
    && (forall x: Rid :: x != skip ==> SameFor(s, o, t, p, x))
    && (forall x <- t.done :: x != skip ==> x in s.done)
    && (forall x <- p.ended :: x != skip ==> x in o.ended && p.ended[x] == o.ended[x])
    && Reach(s, o, 0, w) <= Reach(t, p, 0, w) && Reach(s, o, 1, w) <= Reach(t, p, 1, w)
  }

  lemma OthersKept(s: State, o: Obs, t: State, p: Obs, w: int, ok: bool, skip: int)
    requires OnlyTouches(s, o, t, p, w, skip)
    requires RequestsOk(s, o, w, ok, skip)
    requires skip >= 0 && skip in p.ended ==>
               !OnAList(t, skip) && skip !in t.direct && Kept(p, skip)
    ensures RequestsOk(t, p, w, ok, skip)
  {
    forall r | r in t.queue0 && r != skip ensures Waits(t, p, r, 0, w, ok) { WaitsFrame(s, o, t, p, r, 0, w, ok); }
    forall r | r in t.queue1 && r != skip ensures Waits(t, p, r, 1, w, ok) { WaitsFrame(s, o, t, p, r, 1, w, ok); }
    forall r | r in t.data && r != skip ensures Writes(t, p, r) { WritesFrame(s, o, t, p, r); }
    forall r | r in t.direct && r != skip ensures Bypasses(t, p, r) { BypassesFrame(s, o, t, p, r); }
    forall r | r in p.ended
      ensures !OnAList(t, r) && r !in t.direct && Kept(p, r)
    {
      if r != skip {
        assert SameFor(s, o, t, p, r);
        KeptFrame(o, p, r);
      }
    }
  }

  // ---------- steps keep the invariant ----------

  lemma KickRequests(s: State, o: Obs, w: int, ok: bool)
    requires s.pendingIdx == s.runningIdx && FlightOk(s, o, w)
    requires RequestsOk(s, o, w, ok, -1)
    ensures RequestsOk(Issue(s), See(o, Issued), w, ok, -1)
  {
    OthersKept(s, o, Issue(s), See(o, Issued), w, ok, -1);
  }

  lemma KickDispatch(s: State)
    requires s.pendingIdx == s.runningIdx && DispatchOk(s, -1)
    ensures DispatchOk(Issue(s), -1)
  {
    DistinctAppend(s.dispatch, FlushRq);
    var t := Issue(s);
    assert forall x :: AtDriver(t, x) <==> AtDriver(s, x) || x == FlushRq;
  }

  lemma KickOk(s: State, now: int, w: int, ok: bool)
    requires Core(s, Observe(s.log), w, ok, -1)
    ensures var t := Kick(s, now);
            && Core(t, Observe(t.log), w, ok, -1) && Progress(t)
            && t.queue0 == s.queue0 && t.queue1 == s.queue1 && t.data == s.data && t.done == s.done
            && Observe(t.log).durable == Observe(s.log).durable
  {
    var t := Kick(s, now);
    if t != s {
      var o := Observe(s.log);
      assert t == Issue(s);
      ObserveEmit(s.(pendingIdx := Toggle(s.pendingIdx), dispatch := s.dispatch + [FlushRq]), Issued);
      KickDispatch(s);
      KickRequests(s, o, w, ok);
      assert FlightOk(t, See(o, Issued), w);
      assert KeysOk(t, See(o, Issued), -1);
    }
  }

  /** r may enter `next`: everything the sequencer owes it up to here is settled. */
  ghost predicate Ready(s: State, o: Obs, r: Rid, next: Step, error: bool, w: int) {
    && Known(o, r) && r !in o.ended && r !in s.direct && !AtDriver(s, DataRq(r))
    && var p := PolicyOf(o, r);
    && (next != Done ==>
      && r in s.done && CurSeq(s.done[r]) == next && Prescribed(p, next) && s.done[r] == DoneMask(p, next)
      && StepsOf(o, r) + [next] == StepsThrough(p, next))
    && (next == PreFlush ==> w == -1 && o.before[r] <= o.completed)
    && (next == Data && p.pre ==> o.before[r] <= o.durable)
    && (next == PostFlush ==> (Ordinary(p) ==> w == -1) && (p.data ==> Own(r) in o.completed) && FlushedFirst(o, r))
    && (next == Done && !error ==>
      && StepsOf(o, r) == PolicySteps(p)
      && (p.pre ==> o.before[r] <= o.durable && (p.data ==> FlushedFirst(o, r)))
      && (p.data && o.hw[r].flush && o.needs[r].fua ==> Own(r) in o.durable)
      && (p.post && Ordinary(p) ==> Mark(r) in o.durable))
  }

  lemma DetachFacts(s: State, r: Rid)
    requires ListsOk(s)
    ensures var t := Detach(s, r);
            && ListsOk(t) && !OnAList(t, r)
            && (forall x :: x in t.queue0 <==> x in s.queue0 && x != r)
            && (forall x :: x in t.queue1 <==> x in s.queue1 && x != r)
            && (forall x :: x in t.data <==> x in s.data && x != r)
            && (r !in s.queue0 ==> t.queue0 == s.queue0)
            && (r !in s.queue1 ==> t.queue1 == s.queue1)
            && (r !in s.data ==> t.data == s.data)
  {
    WithoutFacts(s.queue0, r);
    WithoutFacts(s.queue1, r);
    WithoutFacts(s.data, r);
  }

  lemma KeptQueues(s: State, r: Rid)
    ensures r !in s.queue0 ==> Detach(s, r).queue0 == s.queue0
    ensures r !in s.queue1 ==> Detach(s, r).queue1 == s.queue1
  {
    WithoutFacts(s.queue0, r);
    WithoutFacts(s.queue1, r);
  }

  ghost predicate PlacePre(s: State, o: Obs, r: Rid, next: Step, error: bool, w: int, ok: bool) {
    && Core(s, o, w, ok, r)
    && Ready(s, o, r, next, error, w)
    && (r in s.queue0 ==> w == 0) && (r in s.queue1 ==> w == 1)
  }

  /** r has its first flush behind it, writes nothing, and waits for the second. */
  ghost predicate Lingers(s: State, o: Obs, r: Rid) {
    Known(o, r) && r in s.done && CurSeq(s.done[r]) == PostFlush && !Ordinary(PolicyOf(o, r))
  }

  /** The walked list loses r; or r goes to its end, if a flush was kicked and made the list the pending one. */
  ghost predicate Walked(s: State, t: State, p: Obs, r: Rid, w: int) {
    w == 0 || w == 1 ==>
      || Queue(t, w) == Without(Queue(s, w), r)
      || (Queue(t, w) == Without(Queue(s, w), r) + [r] && t.pendingIdx == w && Lingers(t, p, r))
  }

  ghost predicate PlacePost(s: State, o: Obs, t: State, p: Obs, r: Rid, w: int, ok: bool) {
    && Core(t, p, w, ok, -1)
    && t.done == s.done && p.durable == o.durable
    && Walked(s, t, p, r, w)
  }

  /** What the three outcomes of the switch have in common: only r changes place ... */
  ghost predicate Relists(s: State, t: State, r: Rid) {
    && (forall x :: x != r ==> (x in t.queue0 <==> x in s.queue0))
    && (forall x :: x != r ==> (x in t.queue1 <==> x in s.queue1))
    && (forall x :: x != r ==> (x in t.data <==> x in s.data))
    && t.direct == s.direct && t.done == s.done && t.driver == s.driver
    && t.pendingIdx == s.pendingIdx && t.runningIdx == s.runningIdx
  }

  /** ... and only r's record. */
  ghost predicate Renotes(o: Obs, p: Obs, r: Rid) {
    && o.completed <= p.completed && p.durable == o.durable && p.covered == o.covered && p.inFlight == o.inFlight
    && p.hw == o.hw && p.needs == o.needs && p.before == o.before
    && (forall x :: x != r ==> (x in p.steps <==> x in o.steps) && StepsOf(p, x) == StepsOf(o, x))
    && (forall x <- o.atData :: x != r ==> x in p.atData && p.atData[x] == o.atData[x])
    && (forall x :: x != r ==> (x in p.ended <==> x in o.ended))
    && (forall x <- o.ended :: x != r ==> x in p.ended && p.ended[x] == o.ended[x])
  }

  ghost predicate Moves(s: State, o: Obs, t: State, p: Obs, r: Rid) {
    Relists(s, t, r) && Renotes(o, p, r)
  }

  lemma QueuedRenotes(o: Obs, r: Rid, step: Step)
    ensures Renotes(o, See(o, Queued(r, step)), r)
  {
  }

  lemma EndedRenotes(o: Obs, r: Rid, error: bool)
    ensures Renotes(o, See(o, Ended(r, error)), r)
  {
  }

  lemma MovesOnlyTouches(s: State, o: Obs, t: State, p: Obs, r: Rid, w: int)
    requires Moves(s, o, t, p, r)
    ensures OnlyTouches(s, o, t, p, w, r)
  {
  }

  lemma MovesRequests(s: State, o: Obs, t: State, p: Obs, r: Rid, w: int, ok: bool)
    requires Moves(s, o, t, p, r) && RequestsOk(s, o, w, ok, r)
    requires r in p.ended ==> !OnAList(t, r) && r !in t.direct && Kept(p, r)
    requires r in t.queue0 ==> Waits(t, p, r, 0, w, ok)
    requires r in t.queue1 ==> Waits(t, p, r, 1, w, ok)
    requires r in t.data ==> Writes(t, p, r)
    requires r !in t.direct
    ensures RequestsOk(t, p, w, ok, -1)
  {
    MovesOnlyTouches(s, o, t, p, r, w);
    OthersKept(s, o, t, p, w, ok, r);
  }

  lemma MovesKeys(s: State, o: Obs, t: State, p: Obs, r: Rid)
    requires Moves(s, o, t, p, r) && KeysOk(s, o, r)
    requires r in o.hw && (OnAList(t, r) || r in t.direct || r in p.ended)
    ensures KeysOk(t, p, -1)
  {
  }

  lemma MovesDispatch(s: State, o: Obs, t: State, p: Obs, r: Rid)
    requires Moves(s, o, t, p, r) && DispatchOk(s, r) && r !in s.direct
    requires if r in t.data then t.dispatch == [DataRq(r)] + s.dispatch else t.dispatch == s.dispatch
    ensures DispatchOk(t, -1)
  {
    if r in t.data {
      DistinctAppend(s.dispatch, DataRq(r));
      assert forall x :: AtDriver(t, x) <==> AtDriver(s, x) || x == DataRq(r);
    } else {
      assert forall x :: AtDriver(t, x) <==> AtDriver(s, x);
    }
  }

  lemma MovesFlight(s: State, o: Obs, t: State, p: Obs, r: Rid, w: int)
    requires Moves(s, o, t, p, r) && FlightOk(s, o, w)
    requires w == -1 ==> Queue(t, Toggle(s.pendingIdx)) == Queue(s, Toggle(s.pendingIdx))
    requires s.pendingIdx != s.runningIdx ==> Queue(t, s.runningIdx) == Queue(s, s.runningIdx)
    ensures FlightOk(t, p, w)
  {
  }

  // -- the request starts writing its data --

  lemma QueueDataRelists(s: State, r: Rid)
    requires ListsOk(s)
    ensures Relists(s, QueueData(s, r), r)
    ensures ListsOk(QueueData(s, r)) && r in QueueData(s, r).data && !OnAFlushQueue(QueueData(s, r), r)
  {
    DetachFacts(s, r);
    DistinctAppend(Without(s.data, r), r);
  }

  lemma QueueDataWrites(s: State, o: Obs, r: Rid, error: bool, w: int)
    requires Ready(s, o, r, Data, error, w)
    ensures Writes(QueueData(s, r), See(o, Queued(r, Data)), r)
  {
  }

  lemma QueueDataOk(s: State, o: Obs, r: Rid, error: bool, w: int, ok: bool)
    requires PlacePre(s, o, r, Data, error, w, ok)
    ensures PlacePost(s, o, QueueData(s, r), See(o, Queued(r, Data)), r, w, ok)
  {
    var t := QueueData(s, r);
    var p := See(o, Queued(r, Data));
    hide RequestsOk, KeysOk, DispatchOk;
    QueueDataRelists(s, r);
    QueuedRenotes(o, r, Data);
    QueueDataWrites(s, o, r, error, w);
    MovesRequests(s, o, t, p, r, w, ok);
    MovesDispatch(s, o, t, p, r);
    MovesKeys(s, o, t, p, r);
    KeptQueues(s, r);
    MovesFlight(s, o, t, p, r, w);
  }

  // -- the request is over --

  lemma FinishRelists(s: State, r: Rid, error: bool)
    requires ListsOk(s)
    ensures Relists(s, Finish(s, r, error), r)
    ensures ListsOk(Finish(s, r, error)) && !OnAList(Finish(s, r, error), r)
  {
    DetachFacts(s, r);
  }

  lemma FinishKept(s: State, o: Obs, r: Rid, error: bool, w: int)
    requires Ready(s, o, r, Done, error, w)
    ensures Kept(See(o, Ended(r, error)), r)
  {
  }

  lemma FinishOk(s: State, o: Obs, r: Rid, error: bool, w: int, ok: bool)
    requires PlacePre(s, o, r, Done, error, w, ok)
    ensures PlacePost(s, o, Finish(s, r, error), See(o, Ended(r, error)), r, w, ok)
  {
    var t := Finish(s, r, error);
    var p := See(o, Ended(r, error));
    hide RequestsOk, KeysOk, DispatchOk;
    FinishRelists(s, r, error);
    EndedRenotes(o, r, error);
    FinishKept(s, o, r, error, w);
    MovesRequests(s, o, t, p, r, w, ok);
    MovesDispatch(s, o, t, p, r);
    MovesKeys(s, o, t, p, r);
    KeptQueues(s, r);
    MovesFlight(s, o, t, p, r, w);
  }

  // -- the request waits for a flush --

  lemma QueueForFlushRelists(s: State, r: Rid, next: Step, now: int)
    requires ListsOk(s)
    ensures var t := QueueForFlush(s, r, next, now);
            && Relists(s, t, r)
            && ListsOk(t) && r !in t.data
            && (r in t.queue0 <==> s.pendingIdx == 0) && (r in t.queue1 <==> s.pendingIdx == 1)
  {
    DetachFacts(s, r);
    DistinctAppend(Queue(Detach(s, r), s.pendingIdx), r);
  }

  lemma QueueForFlushWaits(s: State, o: Obs, r: Rid, next: Step, error: bool, now: int, w: int, ok: bool)
    requires next == PreFlush || next == PostFlush
    requires Ready(s, o, r, next, error, w)
    ensures Waits(QueueForFlush(s, r, next, now), See(o, Queued(r, next)), r, s.pendingIdx, w, ok)
  {
  }

  lemma QueueForFlushWalked(s: State, o: Obs, r: Rid, next: Step, error: bool, now: int, w: int)
    requires next == PreFlush || next == PostFlush
    requires Ready(s, o, r, next, error, w)
    ensures Walked(s, QueueForFlush(s, r, next, now), See(o, Queued(r, next)), r, w)
  {
  }

  lemma QueueForFlushOk(s: State, o: Obs, r: Rid, next: Step, error: bool, now: int, w: int, ok: bool)
    requires PlacePre(s, o, r, next, error, w, ok)
    requires next == PreFlush || next == PostFlush
    ensures PlacePost(s, o, QueueForFlush(s, r, next, now), See(o, Queued(r, next)), r, w, ok)
  {
    hide RequestsOk, KeysOk, DispatchOk, FlightOk, Ready, Walked, Waits;
    var t := QueueForFlush(s, r, next, now);
    var p := See(o, Queued(r, next));
    QueueForFlushRelists(s, r, next, now);
    QueuedRenotes(o, r, next);
    QueueForFlushWaits(s, o, r, next, error, now, w, ok);
    QueueForFlushWalked(s, o, r, next, error, now, w);
    QueueForFlushFlight(s, o, r, next, now, w);
    IsReady(s, o, r, next, error, w);
    MovesRequests(s, o, t, p, r, w, ok);
    MovesDispatch(s, o, t, p, r);
    MovesKeys(s, o, t, p, r);
  }

  lemma IsReady(s: State, o: Obs, r: Rid, next: Step, error: bool, w: int)
    requires Ready(s, o, r, next, error, w)
    ensures Known(o, r) && r !in o.ended && r !in s.direct && r in o.hw
  {
  }

  lemma QueueForFlushFlight(s: State, o: Obs, r: Rid, next: Step, now: int, w: int)
    requires ListsOk(s) && FlightOk(s, o, w)
    requires (r in s.queue0 ==> w == 0) && (r in s.queue1 ==> w == 1)
    ensures FlightOk(QueueForFlush(s, r, next, now), See(o, Queued(r, next)), w)
  {
    var t := QueueForFlush(s, r, next, now);
    var p := See(o, Queued(r, next));
    QueueForFlushRelists(s, r, next, now);
    QueuedRenotes(o, r, next);
    KeptQueues(s, r);
    MovesFlight(s, o, t, p, r, w);
  }

  // -- blk_flush_complete_seq --

  lemma PlaceOk(s: State, r: Rid, next: Step, error: bool, now: int, w: int, ok: bool)
    requires PlacePre(s, Observe(s.log), r, next, error, w, ok)
    ensures var t := Place(s, r, next, error, now);
            PlacePost(s, Observe(s.log), t, Observe(t.log), r, w, ok)
  {
    var o := Observe(s.log);
    var since := if Queue(s, s.pendingIdx) == [] then now else s.pendingSince;
    var u := Detach(s, r);
    match next
    case PreFlush | PostFlush =>
      QueueForFlushOk(s, o, r, next, error, now, w, ok);
      var v := if s.pendingIdx == 0 then u.(queue0 := u.queue0 + [r]) else u.(queue1 := u.queue1 + [r]);
      ObserveEmit(v.(pendingSince := since), Queued(r, next));
    case Data =>
      QueueDataOk(s, o, r, error, w, ok);
      ObserveEmit(u.(data := u.data + [r], dispatch := [DataRq(r)] + u.dispatch), Queued(r, Data));
    case Done =>
      FinishOk(s, o, r, error, w, ok);
      ObserveEmit(u.(bug := s.bug || DataRq(r) in s.dispatch), Ended(r, error));
  }

  lemma CompleteSeqOk(s: State, r: Rid, seq_: Mask, error: bool, now: int, w: int, ok: bool)
    requires r in s.done
    requires var t := Record(s, r, seq_);
             PlacePre(t, Observe(t.log), r, if error then Done else CurSeq(t.done[r]), error, w, ok)
    ensures var t := CompleteSeq(s, r, seq_, error, now);
            && Core(t, Observe(t.log), w, ok, -1) && Progress(t)
            && t.done == s.done[r := Union(s.done[r], seq_)]
            && Observe(t.log).durable == Observe(s.log).durable
            && Walked(s, t, Observe(t.log), r, w)
  {
    var t := Record(s, r, seq_);
    var next := if error then Done else CurSeq(t.done[r]);
    PlaceOk(t, r, next, error, now, w, ok);
    KickOk(Place(t, r, next, error, now), now, w, ok);
  }

  lemma RecordSkipsRequests(s: State, o: Obs, r: Rid, m: Mask, w: int, ok: bool)
    requires RequestsOk(s, o, w, ok, -1) && r !in o.ended
    requires r in s.done
    ensures RequestsOk(s.(done := s.done[r := m]), o, w, ok, r)
  {
    var t := s.(done := s.done[r := m]);
    assert OnlyTouches(s, o, t, o, w, r);
    OthersKept(s, o, t, o, w, ok, r);
  }

  lemma RecordSkipsDispatch(s: State, r: Rid, m: Mask)
    requires DispatchOk(s, -1) && !AtDriver(s, DataRq(r))
    ensures DispatchOk(s.(done := s.done[r := m]), r)
  {
    var t := s.(done := s.done[r := m]);
    assert forall x :: AtDriver(t, x) <==> AtDriver(s, x);
  }

  lemma RecordSkips(s: State, o: Obs, r: Rid, m: Mask, w: int, ok: bool)
    requires r in s.done && r !in s.direct
    requires Core(s, o, w, ok, -1) && !AtDriver(s, DataRq(r)) && r !in o.ended
    ensures Core(s.(done := s.done[r := m]), o, w, ok, r)
  {
    RecordSkipsRequests(s, o, r, m, w, ok);
    RecordSkipsDispatch(s, r, m);
  }

  // -- flush_end_io --

  lemma WalkReady(s: State, o: Obs, r: Rid, i: Index, error: bool)
    requires Waits(s, o, r, i, i, !error) && !AtDriver(s, DataRq(r))
    ensures var m := Union(s.done[r], Bit(CurSeq(s.done[r])));
            && Ready(s.(done := s.done[r := m]), o, r, if error then Done else CurSeq(m), error, i)
            && !Overlap(s.done[r], Bit(CurSeq(s.done[r])))
  {
  }

  lemma WalkOneOk(s: State, error: bool, now: int, i: Index)
    requires Core(s, Observe(s.log), i, !error, -1) && Queue(s, i) != []
    requires Queue(s, i)[0] in s.done
    ensures var t := WalkOne(s, Queue(s, i)[0], error, now);
            && Core(t, Observe(t.log), i, !error, -1) && Progress(t)
            && (|| Queue(t, i) == Queue(s, i)[1..]
                || (Queue(t, i) == Queue(s, i)[1..] + [Queue(s, i)[0]] && Rest(t, Queue(s, i)[0], i)))
  {
    var r := Queue(s, i)[0];
    var o := Observe(s.log);
    assert Waits(s, o, r, i, i, !error);
    WalkReady(s, o, r, i, error);
    var step := CurSeq(s.done[r]);
    RecordSkips(s, o, r, Union(s.done[r], Bit(step)), i, !error);
    assert s.(bug := s.bug || !(step == PreFlush || step == PostFlush)) == s;
    CompleteSeqOk(s, r, Bit(step), error, now, i, !error);
    WithoutHead(Queue(s, i));
  }

  /** What may be left on the walked list when the walk is over. */
  ghost predicate Rest(t: State, r: Rid, i: Index) {
    t.pendingIdx == i && Lingers(t, Observe(t.log), r)
  }

  lemma {:induction false} WalkOk(s: State, error: bool, now: int, i: Index)
    requires Core(s, Observe(s.log), i, !error, -1) && Queue(s, i) != []
    requires forall r <- Queue(s, i) :: r in s.done
    ensures var t := Walk(s, i, error, now);
            && Core(t, Observe(t.log), i, !error, -1) && Progress(t)
            && (Queue(t, i) == [] || (|Queue(t, i)| == 1 && Rest(t, Queue(t, i)[0], i)))
    decreases Weight(s.done, Queue(s, i))
  {
    hide Core, WalkOne, Rest, Progress;
    WalkOneOk(s, error, now, i);
    WalkShrinks(s, i, error, now);
    if |Queue(s, i)| > 1 {
      WalkOk(WalkOne(s, Queue(s, i)[0], error, now), error, now, i);
    }
  }

  lemma FlushDoneHeadWaits(s: State, o: Obs, r: Rid, i: Index, error: bool)
    requires Waits(s, o, r, i, -1, true) && s.pendingIdx != s.runningIdx
    ensures Waits(FlushDoneHead(s, error), See(o, FlushCompleted(error)), r, i, s.runningIdx, !error)
  {
  }

  lemma FlushDoneHeadRequests(s: State, o: Obs, error: bool)
    requires RequestsOk(s, o, -1, true, -1) && s.pendingIdx != s.runningIdx
    ensures RequestsOk(FlushDoneHead(s, error), See(o, FlushCompleted(error)), s.runningIdx, !error, -1)
  {
    var i := s.runningIdx;
    var t := FlushDoneHead(s, error);
    var p := See(o, FlushCompleted(error));
    forall r | r in t.queue0 ensures Waits(t, p, r, 0, i, !error) { FlushDoneHeadWaits(s, o, r, 0, error); }
    forall r | r in t.queue1 ensures Waits(t, p, r, 1, i, !error) { FlushDoneHeadWaits(s, o, r, 1, error); }
    forall r | r in t.data ensures Writes(t, p, r) { WritesFrame(s, o, t, p, r); }
    forall r | r in t.direct ensures Bypasses(t, p, r) { BypassesFrame(s, o, t, p, r); }
    forall r | r in p.ended
      ensures !OnAList(t, r) && r !in t.direct && Kept(p, r)
    {
      KeptFrame(o, p, r);
    }
  }

  lemma FlushDoneHeadDispatch(s: State, error: bool)
    requires DispatchOk(s, -1) && FlushRq in s.driver && FlushRq !in s.dispatch
    ensures s.pendingIdx != s.runningIdx
    ensures DispatchOk(FlushDoneHead(s, error), -1)
  {
    var t := FlushDoneHead(s, error);
    assert AtDriver(s, FlushRq);
    assert forall x :: AtDriver(t, x) <==> AtDriver(s, x) && x != FlushRq;
  }

  lemma FlushDoneHeadOk(s: State, error: bool)
    requires Inv(s) && FlushRq in s.driver
    ensures var t := FlushDoneHead(s, error);
            && s.pendingIdx != s.runningIdx
            && Core(t, Observe(t.log), s.runningIdx, !error, -1)
            && Queue(t, s.runningIdx) == Queue(s, s.runningIdx) != []
            && t.done == s.done
  {
    var o := Observe(s.log);
    FlushDoneHeadDispatch(s, error);
    FlushDoneHeadRequests(s, o, error);
    ObserveEmit(s.(bug := s.bug || s.pendingIdx == s.runningIdx,
                   driver := s.driver - {FlushRq},
                   runningIdx := Toggle(s.runningIdx)), FlushCompleted(error));
    assert KeysOk(FlushDoneHead(s, error), See(o, FlushCompleted(error)), -1);
  }

  /** Once the walk is over it is invisible. */
  lemma WalkOver(t: State, o: Obs, i: Index, ok: bool)
    requires RequestsOk(t, o, i, ok, -1)
    requires Queue(t, i) == [] || (|Queue(t, i)| == 1 && t.pendingIdx == i && Lingers(t, o, Queue(t, i)[0]))
    requires t.runningIdx == 1 - i
    ensures RequestsOk(t, o, -1, true, -1)
  {
    forall r | r in t.queue0 ensures Waits(t, o, r, 0, -1, true) { assert Waits(t, o, r, 0, i, ok); }
    forall r | r in t.queue1 ensures Waits(t, o, r, 1, -1, true) { assert Waits(t, o, r, 1, i, ok); }
  }

  /** The completion of a flush, even when a new flush is kicked in the middle of the walk. */
  lemma FlushDoneOk(s: State, error: bool, now: int)
    requires Inv(s) && FlushRq in s.driver
    ensures forall r <- Queue(s, s.runningIdx) :: r in s.done
    ensures Inv(FlushDone(s, error, now))
  {
    var i := s.runningIdx;
    FlushDoneHeadOk(s, error);
    var t := FlushDoneHead(s, error);
    forall r | r in Queue(s, i) ensures r in s.done {
      assert Waits(t, Observe(t.log), r, i, i, !error);
    }
    WalkOk(t, error, now, i);
    var u := FlushDone(s, error, now);
    WalkOver(u, Observe(u.log), i, !error);
  }

  // -- flush_data_end_io --

  /** The state blk_flush_complete_seq works on once r's data step is recorded. */
  ghost function DataRecorded(s: State, r: Rid, error: bool): State
    requires r in s.done
  {
    Record(Emit(s.(driver := s.driver - {DataRq(r)}), DataCompleted(r, error)), r, Bit(Data))
  }

  lemma DataReady(s: State, o: Obs, r: Rid, error: bool)
    requires Writes(s, o, r) && DataRq(r) !in s.dispatch
    ensures var t := DataRecorded(s, r, error);
            && t.bug == s.bug
            && Ready(t, See(o, DataCompleted(r, error)), r, if error then Done else CurSeq(t.done[r]), error, -1)
  {
  }

  lemma DataDoneTouches(s: State, o: Obs, r: Rid, error: bool)
    requires r in s.done
    ensures OnlyTouches(s, o, DataRecorded(s, r, error), See(o, DataCompleted(r, error)), -1, r)
  {
  }

  lemma DataDoneRequests(s: State, o: Obs, r: Rid, error: bool)
    requires RequestsOk(s, o, -1, true, -1) && r !in o.ended && r in s.done
    ensures RequestsOk(DataRecorded(s, r, error), See(o, DataCompleted(r, error)), -1, true, r)
  {
    DataDoneTouches(s, o, r, error);
    OthersKept(s, o, DataRecorded(s, r, error), See(o, DataCompleted(r, error)), -1, true, r);
  }

  lemma DataDoneDispatch(s: State, r: Rid, error: bool)
    requires DispatchOk(s, -1) && DataRq(r) in s.driver && r in s.done
    ensures DataRq(r) !in s.dispatch
    ensures DispatchOk(DataRecorded(s, r, error), r)
  {
    var t := DataRecorded(s, r, error);
    assert forall x :: AtDriver(t, x) <==> AtDriver(s, x) && x != DataRq(r);
  }

  lemma DataDoneRest(s: State, o: Obs, r: Rid, error: bool)
    requires KeysOk(s, o, -1) && FlightOk(s, o, -1) && r in s.done
    ensures var t := DataRecorded(s, r, error);
            var p := See(o, DataCompleted(r, error));
            KeysOk(t, p, r) && FlightOk(t, p, -1)
  {
  }

  lemma Writing(s: State, o: Obs, r: Rid)
    requires RequestsOk(s, o, -1, true, -1) && ListsOk(s) && r in s.data
    ensures Writes(s, o, r) && r !in o.ended && !OnAFlushQueue(s, r)
  {
  }

  lemma DataPlacePre(s: State, o: Obs, r: Rid, error: bool)
    requires Core(s, o, -1, true, -1) && DataRq(r) in s.driver && r in s.data
    requires r in s.done
    ensures var t := DataRecorded(s, r, error);
            PlacePre(t, See(o, DataCompleted(r, error)), r, if error then Done else CurSeq(t.done[r]), error, -1, true)
  {
    hide RequestsOk, KeysOk, DispatchOk, Ready, Writes;
    Writing(s, o, r);
    DataDoneDispatch(s, r, error);
    DataReady(s, o, r, error);
    DataDoneRequests(s, o, r, error);
    DataDoneRest(s, o, r, error);
  }

  lemma SequencedDataDoneOk(s: State, r: Rid, error: bool, now: int)
    requires Inv(s) && DataRq(r) in s.driver && r in s.data && r in s.done && r !in s.direct
    ensures Inv(DataDone(s, r, error, now))
  {
    DataPlacePre(s, Observe(s.log), r, error);
    ObserveEmit(s.(driver := s.driver - {DataRq(r)}), DataCompleted(r, error));
    var t := Emit(s.(driver := s.driver - {DataRq(r)}), DataCompleted(r, error));
    CompleteSeqOk(t, r, Bit(Data), error, now, -1, true);
  }

  // -- requests that bypass the sequencer --

  ghost function DirectObs(o: Obs, r: Rid, error: bool): Obs {
    See(See(o, DataCompleted(r, error)), Ended(r, error))
  }

  lemma DirectDoneKept(s: State, o: Obs, r: Rid, error: bool)
    requires Bypasses(s, o, r)
    ensures Kept(DirectObs(o, r, error), r)
  {
  }

  lemma DirectDoneTouches(s: State, o: Obs, r: Rid, error: bool)
    requires r in s.direct
    ensures OnlyTouches(s, o, DirectDone(s, r, error), DirectObs(o, r, error), -1, r)
  {
  }

  lemma DirectDoneRequests(s: State, o: Obs, r: Rid, error: bool)
    requires RequestsOk(s, o, -1, true, -1) && r in s.direct && !OnAList(s, r)
    ensures RequestsOk(DirectDone(s, r, error), DirectObs(o, r, error), -1, true, -1)
  {
    assert Bypasses(s, o, r);
    DirectDoneKept(s, o, r, error);
    DirectDoneTouches(s, o, r, error);
    OthersKept(s, o, DirectDone(s, r, error), DirectObs(o, r, error), -1, true, r);
  }

  lemma DirectDoneDispatch(s: State, r: Rid, error: bool)
    requires DispatchOk(s, -1) && DataRq(r) in s.driver && r in s.direct && !OnAList(s, r)
    ensures DispatchOk(DirectDone(s, r, error), -1)
  {
    var t := DirectDone(s, r, error);
    assert forall x :: AtDriver(t, x) <==> AtDriver(s, x) && x != DataRq(r);
  }

  lemma DirectDoneRest(s: State, o: Obs, r: Rid, error: bool)
    requires KeysOk(s, o, -1) && FlightOk(s, o, -1) && r in s.direct && r !in o.ended
    requires !s.bug && !o.endedTwice && ListsOk(s) && Progress(s)
    ensures var t := DirectDone(s, r, error);
            && !t.bug && !DirectObs(o, r, error).endedTwice && ListsOk(t) && Progress(t)
            && KeysOk(t, DirectObs(o, r, error), -1) && FlightOk(t, DirectObs(o, r, error), -1)
  {
  }

  lemma DirectDoneObs(s: State, r: Rid, error: bool)
    ensures Observe(DirectDone(s, r, error).log) == DirectObs(Observe(s.log), r, error)
  {
    var t := Emit(s.(driver := s.driver - {DataRq(r)}), DataCompleted(r, error));
    ObserveEmit(s.(driver := s.driver - {DataRq(r)}), DataCompleted(r, error));
    ObserveEmit(t.(direct := t.direct - {r}), Ended(r, error));
  }

  lemma Bypassing(s: State, o: Obs, r: Rid)
    requires RequestsOk(s, o, -1, true, -1) && r in s.direct
    ensures Bypasses(s, o, r) && r !in o.ended
  {
  }

  lemma DirectDoneOk(s: State, r: Rid, error: bool)
    requires Inv(s) && DataRq(r) in s.driver && r in s.direct && !OnAList(s, r)
    ensures Inv(DirectDone(s, r, error))
  {
    hide RequestsOk, KeysOk, DispatchOk, FlightOk, ListsOk, Progress, Bypasses, Observe, See, DirectDone, DirectObs;
    var o := Observe(s.log);
    Bypassing(s, o, r);
    DirectDoneRequests(s, o, r, error);
    DirectDoneDispatch(s, r, error);
    DirectDoneRest(s, o, r, error);
    DirectDoneObs(s, r, error);
  }

  // -- blk_insert_flush --

  ghost predicate Fresh(s: State, o: Obs, r: Rid) {
    && r !in o.hw && r !in o.ended && StepsOf(o, r) == []
    && !OnAList(s, r) && r !in s.direct && r !in s.done && !AtDriver(s, DataRq(r))
  }

  lemma NewIsFresh(s: State, o: Obs, r: Rid)
    requires RequestsOk(s, o, -1, true, -1) && KeysOk(s, o, -1) && DispatchOk(s, -1) && r !in o.hw
    ensures Fresh(s, o, r)
  {
  }

  /** s after the arrival of r, with flush.seq entries d. */
  ghost function Arrived(s: State, r: Rid, hw: Hw, needs: Needs, d: map<Rid, Mask>): State {
    Emit(s.(done := d), Inserted(r, hw, needs))
  }

  ghost predicate SameBut(d: map<Rid, Mask>, e: map<Rid, Mask>, r: Rid) {
    forall x: Rid :: x != r ==> (x in d <==> x in e) && (x in d ==> d[x] == e[x])
  }

  lemma InsertTouches(s: State, o: Obs, r: Rid, hw: Hw, needs: Needs, d: map<Rid, Mask>)
    requires Fresh(s, o, r) && SameBut(d, s.done, r)
    ensures OnlyTouches(s, o, Arrived(s, r, hw, needs, d), See(o, Inserted(r, hw, needs)), -1, r)
  {
  }

  lemma InsertRest(s: State, o: Obs, r: Rid, hw: Hw, needs: Needs, d: map<Rid, Mask>)
    requires KeysOk(s, o, -1) && DispatchOk(s, -1) && FlightOk(s, o, -1) && ListsOk(s)
    requires Fresh(s, o, r) && SameBut(d, s.done, r)
    ensures var t := Arrived(s, r, hw, needs, d);
            var p := See(o, Inserted(r, hw, needs));
            KeysOk(t, p, r) && DispatchOk(t, r) && FlightOk(t, p, -1) && ListsOk(t)
  {
    var t := Arrived(s, r, hw, needs, d);
    assert forall x :: AtDriver(t, x) <==> AtDriver(s, x);
  }

  lemma InsertOk(s: State, o: Obs, r: Rid, hw: Hw, needs: Needs, d: map<Rid, Mask>)
    requires Core(s, o, -1, true, -1) && Fresh(s, o, r) && SameBut(d, s.done, r)
    ensures Core(Arrived(s, r, hw, needs, d), See(o, Inserted(r, hw, needs)), -1, true, r)
  {
    InsertTouches(s, o, r, hw, needs, d);
    OthersKept(s, o, Arrived(s, r, hw, needs, d), See(o, Inserted(r, hw, needs)), -1, true, r);
    InsertRest(s, o, r, hw, needs, d);
  }

  lemma InsertReady(s: State, o: Obs, r: Rid, hw: Hw, needs: Needs)
    requires Fresh(s, o, r)
    ensures var policy := Policy(hw, needs);
            var p := See(o, Inserted(r, hw, needs));
            && (policy == Mask(false, false, false) ==>
                Ready(Arrived(s, r, hw, needs, s.done), p, r, Done, false, -1))
            && (policy.pre || policy.post ==>
                Ready(Arrived(s, r, hw, needs, s.done[r := Complement(policy)]), p, r,
                      CurSeq(Complement(policy)), false, -1))
  {
  }

  lemma SubmitEmptyOk(s: State, r: Rid, hw: Hw, needs: Needs, now: int)
    requires Inv(s) && Fresh(s, Observe(s.log), r) && Policy(hw, needs) == Mask(false, false, false)
    ensures Inv(Submit(s, r, hw, needs, now))
  {
    hide RequestsOk, KeysOk, DispatchOk, FlightOk, ListsOk, Ready;
    var o := Observe(s.log);
    InsertOk(s, o, r, hw, needs, s.done);
    InsertReady(s, o, r, hw, needs);
    var t := Emit(s, Inserted(r, hw, needs));
    ObserveEmit(s, Inserted(r, hw, needs));
    ObserveEmit(t, Ended(r, false));
    FinishOk(t, See(o, Inserted(r, hw, needs)), r, false, -1, true);
    WithoutFacts(s.queue0, r);
    WithoutFacts(s.queue1, r);
    WithoutFacts(s.data, r);
    assert Submit(s, r, hw, needs, now) == Finish(t, r, false);
  }

  lemma SubmitSequencedOk(s: State, r: Rid, hw: Hw, needs: Needs, now: int)
    requires Inv(s) && Fresh(s, Observe(s.log), r)
    requires Policy(hw, needs).pre || Policy(hw, needs).post
    ensures Inv(Submit(s, r, hw, needs, now))
  {
    hide RequestsOk, KeysOk, DispatchOk, FlightOk, ListsOk, Ready;
    var o := Observe(s.log);
    var m := Complement(Policy(hw, needs));
    InsertOk(s, o, r, hw, needs, s.done[r := m]);
    InsertReady(s, o, r, hw, needs);
    ObserveEmit(s, Inserted(r, hw, needs));
    var t := Emit(s, Inserted(r, hw, needs)).(done := s.done[r := Mask(false, false, false)]);
    assert s.done[r := Mask(false, false, false)][r := m] == s.done[r := m];
    assert Record(t, r, m) == Arrived(s, r, hw, needs, s.done[r := m]);
    CompleteSeqOk(t, r, m, false, now, -1, true);
  }

  lemma BypassRequests(s: State, o: Obs, r: Rid)
    requires RequestsOk(s, o, -1, true, r) && Known(o, r) && r !in o.ended && r !in s.done && !OnAList(s, r)
    requires PolicyOf(o, r) == Mask(false, true, false) && StepsOf(o, r) == []
    ensures RequestsOk(Bypass(s, r), See(o, Direct(r)), -1, true, -1)
  {
    var t := Bypass(s, r);
    var p := See(o, Direct(r));
    assert Bypasses(t, p, r);
    OthersKept(s, o, t, p, -1, true, r);
  }

  lemma BypassRest(s: State, o: Obs, r: Rid)
    requires KeysOk(s, o, r) && DispatchOk(s, r) && FlightOk(s, o, -1) && ListsOk(s) && Known(o, r)
    ensures var t := Bypass(s, r);
            var p := See(o, Direct(r));
            KeysOk(t, p, -1) && DispatchOk(t, -1) && FlightOk(t, p, -1) && ListsOk(t)
  {
    var t := Bypass(s, r);
    DistinctAppend(s.dispatch, DataRq(r));
    assert forall x :: AtDriver(t, x) <==> AtDriver(s, x) || x == DataRq(r);
  }

  lemma SubmitDirectOk(s: State, r: Rid, hw: Hw, needs: Needs, now: int)
    requires Inv(s) && Fresh(s, Observe(s.log), r) && Policy(hw, needs) == Mask(false, true, false)
    ensures Inv(Submit(s, r, hw, needs, now))
  {
    hide RequestsOk, KeysOk, DispatchOk, FlightOk, ListsOk, CompleteSeq;
    var o := Observe(s.log);
    InsertOk(s, o, r, hw, needs, s.done);
    var t := Emit(s, Inserted(r, hw, needs));
    assert t == Arrived(s, r, hw, needs, s.done);
    ObserveEmit(s, Inserted(r, hw, needs));
    BypassOk(t, r);
    assert Progress(Bypass(t, r));
  }

  lemma BypassOk(s: State, r: Rid)
    requires Core(s, Observe(s.log), -1, true, r)
    requires var o := Observe(s.log);
             && Known(o, r) && r !in o.ended && r !in s.done && !OnAList(s, r)
             && PolicyOf(o, r) == Mask(false, true, false) && StepsOf(o, r) == []
    ensures Core(Bypass(s, r), Observe(Bypass(s, r).log), -1, true, -1)
  {
    hide RequestsOk, KeysOk, DispatchOk, FlightOk, ListsOk;
    ObserveEmit(s.(direct := s.direct + {r}, dispatch := s.dispatch + [DataRq(r)]), Direct(r));
    BypassRequests(s, Observe(s.log), r);
    BypassRest(s, Observe(s.log), r);
  }

  lemma SubmitOk(s: State, r: Rid, hw: Hw, needs: Needs, now: int)
    requires Inv(s) && r !in Observe(s.log).hw
    ensures Inv(Submit(s, r, hw, needs, now))
  {
    NewIsFresh(s, Observe(s.log), r);
    var p := Policy(hw, needs);
    if p == Mask(false, false, false) {
      SubmitEmptyOk(s, r, hw, needs, now);
    } else if p.pre || p.post {
      SubmitSequencedOk(s, r, hw, needs, now);
    } else {
      SubmitDirectOk(s, r, hw, needs, now);
    }
  }

  // -- the driver and other writers --

  lemma FetchOk(s: State, k: nat)
    requires Inv(s) && k < |s.dispatch|
    ensures Inv(Fetch(s, k))
  {
    hide RequestsOk, KeysOk, DispatchOk, FlightOk, ListsOk, Progress;
    var o := Observe(s.log);
    FetchRest(s, o, k);
    FetchDispatch(s, k);
  }

  lemma FetchRest(s: State, o: Obs, k: nat)
    requires k < |s.dispatch| && ListsOk(s) && RequestsOk(s, o, -1, true, -1) && KeysOk(s, o, -1) && FlightOk(s, o, -1) && Progress(s)
    ensures var t := Fetch(s, k);
            ListsOk(t) && RequestsOk(t, o, -1, true, -1) && KeysOk(t, o, -1) && FlightOk(t, o, -1) && Progress(t)
  {
    OthersKept(s, o, Fetch(s, k), o, -1, true, -1);
  }

  lemma DropOk(d: seq<Item>, k: nat)
    requires Distinct(d) && k < |d|
    ensures var e := d[..k] + d[k + 1..];
            Distinct(e) && forall x :: x in e <==> x in d && x != d[k]
  {
    var e := d[..k] + d[k + 1..];
    assert d == d[..k] + [d[k]] + d[k + 1..];
    assert forall i :: 0 <= i < |e| ==> e[i] == d[if i < k then i else i + 1];
  }

  lemma FetchDispatch(s: State, k: nat)
    requires DispatchOk(s, -1) && k < |s.dispatch|
    ensures DispatchOk(Fetch(s, k), -1)
  {
    hide Distinct;
    var t := Fetch(s, k);
    DropOk(s.dispatch, k);
    forall x
      ensures AtDriver(t, x) <==> AtDriver(s, x)
    {
    }
  }

  lemma PlainWriteOk(s: State, w: nat)
    requires Inv(s)
    ensures Inv(Emit(s, PlainWriteCompleted(w)))
  {
    var o := Observe(s.log);
    var t := Emit(s, PlainWriteCompleted(w));
    ObserveEmit(s, PlainWriteCompleted(w));
    PlainTouches(s, o, w);
    OthersKept(s, o, t, See(o, PlainWriteCompleted(w)), -1, true, -1);
    assert forall x :: AtDriver(t, x) <==> AtDriver(s, x);
  }

  lemma PlainTouches(s: State, o: Obs, w: nat)
    ensures OnlyTouches(s, o, Emit(s, PlainWriteCompleted(w)), See(o, PlainWriteCompleted(w)), -1, -1)
  {
  }
}
