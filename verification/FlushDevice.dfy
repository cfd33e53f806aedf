/**
What a log of the flush sequencer means for a disk with a volatile write-back cache.

The disk is assumed to do no more than this: a flush that completes without error makes durable
every write that had completed when the flush was issued, and a FUA write is durable once it
completes.  `Observe` replays a log against such a disk and notes, per request, what was complete
when it was inserted, what was durable when its data was queued, and what was durable at its end.
*/
module FlushDevice {
  import opened FlushSpec

  /** Mark(r) stands for the moment at which the POSTFLUSH of r was queued: a flush issued later covers it. */
  datatype Write = Own(r: Rid) | Plain(w: nat) | Mark(r: Rid)

  datatype End = End(error: bool, durable: set<Write>)

  datatype Obs = Obs(
    completed: set<Write>,
    durable: set<Write>,
    covered: set<Write>,            // completed when the latest flush was issued
    inFlight: int,                  // flushes issued minus flushes completed
    hw: map<Rid, Hw>,
    needs: map<Rid, Needs>,
    before: map<Rid, set<Write>>,   // completed when the request was inserted
    steps: map<Rid, seq<Step>>,     // the steps entered so far, in order
    atData: map<Rid, set<Write>>,   // durable when the request's data was queued
    ended: map<Rid, End>,
    endedTwice: bool)

  const NOTHING := Obs({}, {}, {}, 0, map[], map[], map[], map[], map[], map[], false)

  function StepsOf(o: Obs, r: Rid): seq<Step> {
    if r in o.steps then o.steps[r] else []
  }

  /** The request's data write goes down with its FUA bit set. */
  predicate FuaPassedDown(o: Obs, r: Rid) {
    r in o.hw && r in o.needs && o.hw[r].fua && o.needs[r].fua
  }

  function See(o: Obs, e: Event): Obs {
    match e
    case Inserted(r, hw, needs) =>
      o.(hw := o.hw[r := hw], needs := o.needs[r := needs], before := o.before[r := o.completed])
    case Queued(r, step) =>
      var p := o.(steps := o.steps[r := StepsOf(o, r) + [step]]);
      if step == Data then p.(atData := o.atData[r := o.durable])
      else if step == PostFlush then p.(completed := o.completed + {Mark(r)})
      else p
    case Direct(r) =>
      o.(steps := o.steps[r := StepsOf(o, r) + [Data]], atData := o.atData[r := o.durable])
    case Issued =>
      o.(covered := o.completed, inFlight := o.inFlight + 1)
    case FlushCompleted(error) =>
      var p := o.(inFlight := o.inFlight - 1);
      if error then p else p.(durable := o.durable + o.covered)
    case DataCompleted(r, error) =>
      if error then o
      else o.(completed := o.completed + {Own(r)},
              durable := if FuaPassedDown(o, r) then o.durable + {Own(r)} else o.durable)
    case PlainWriteCompleted(w) =>
      o.(completed := o.completed + {Plain(w)})
    case Ended(r, error) =>
      o.(ended := o.ended[r := End(error, o.durable)], endedTwice := o.endedTwice || r in o.ended)
  }

  function Observe(log: seq<Event>): Obs {
    if log == [] then NOTHING
    else See(Observe(log[..|log| - 1]), log[|log| - 1])
  }

  lemma ObserveEmit(s: State, e: Event)
    ensures Observe(Emit(s, e).log) == See(Observe(s.log), e)
  {
    assert (s.log + [e])[..|s.log|] == s.log;
  }

  /** The steps a policy prescribes, in order. */
  function PolicySteps(p: Mask): seq<Step> {
    (if p.pre then [PreFlush] else []) + (if p.data then [Data] else []) + (if p.post then [PostFlush] else [])
  }

  /**
  What the submitter of r may rely on once r has ended without error: its steps ran once each in
  order and, on a write-back device, REQ_FLUSH made everything completed before its insertion
  durable before its own data was even queued, and REQ_FUA made its own data durable.
  */
  ghost predicate Promise(o: Obs, r: Rid)
    requires r in o.hw && r in o.needs && r in o.before && r in o.ended
  {
    var p := Policy(o.hw[r], o.needs[r]);
    var e := o.ended[r];
    !e.error ==>
      && StepsOf(o, r) == PolicySteps(p)
      && (o.hw[r].flush ==>
        && (o.needs[r].flush ==> o.before[r] <= e.durable)
        && (o.needs[r].flush && o.needs[r].sectors != 0 ==> r in o.atData && o.before[r] <= o.atData[r])
        && (o.needs[r].fua && o.needs[r].sectors != 0 ==> Own(r) in e.durable))
  }

  /** The POSTFLUSH of r was a flush: one issued after it was queued completed before r ended. */
  ghost predicate PostFlushed(o: Obs, r: Rid)
    requires r in o.hw && r in o.needs && r in o.ended
  {
    Policy(o.hw[r], o.needs[r]).post && !o.ended[r].error ==> Mark(r) in o.ended[r].durable
  }

  /** No flush before and after with nothing written in between. */
  predicate Ordinary(p: Mask) {
    p.pre && p.post ==> p.data
  }

  // ---------- what was observed, in terms of the log ----------

  predicate QueuedIn(log: seq<Event>, r: Rid) {
    Queued(r, PostFlush) in log
  }

  /** After the POSTFLUSH of r was queued a flush was issued ... */
  predicate IssuedSince(log: seq<Event>, r: Rid) {
    exists i :: 0 <= i < |log| && log[i] == Issued && QueuedIn(log[..i], r)
  }

  /** ... and after that one completed without error. */
  predicate FlushedSince(log: seq<Event>, r: Rid) {
    exists m :: 0 <= m < |log| && log[m] == FlushCompleted(false) && IssuedSince(log[..m], r)
  }

  lemma IssuedGrows(log: seq<Event>, e: Event, r: Rid)
    ensures IssuedSince(log + [e], r) <==> IssuedSince(log, r) || (QueuedIn(log, r) && e == Issued)
  {
    hide QueuedIn;
    var l := log + [e];
    assert l[..|log|] == log && l[|log|] == e;
    assert forall i :: 0 <= i < |log| ==> l[i] == log[i] && l[..i] == log[..i];
  }

  lemma FlushedGrows(log: seq<Event>, e: Event, r: Rid)
    ensures FlushedSince(log + [e], r) <==> FlushedSince(log, r) || (IssuedSince(log, r) && e == FlushCompleted(false))
  {
    hide IssuedSince;
    var l := log + [e];
    assert l[..|log|] == log && l[|log|] == e;
    assert forall i :: 0 <= i < |log| ==> l[i] == log[i] && l[..i] == log[..i];
  }

  lemma SeeCompleted(o: Obs, e: Event, r: Rid)
    ensures Mark(r) in See(o, e).completed <==> Mark(r) in o.completed || e == Queued(r, PostFlush)
  {
    hide StepsOf, FuaPassedDown;
    match e {
      case Inserted(x, hw, needs) =>
      case Queued(x, step) =>
      case Direct(x) =>
      case Issued =>
      case FlushCompleted(error) =>
      case DataCompleted(x, error) =>
      case PlainWriteCompleted(w) =>
      case Ended(x, error) =>
    }
  }

  lemma SeeCovered(o: Obs, e: Event)
    ensures See(o, e).covered == if e == Issued then o.completed else o.covered
  {
    hide StepsOf, FuaPassedDown;
    match e {
      case Inserted(x, hw, needs) =>
      case Queued(x, step) =>
      case Direct(x) =>
      case Issued =>
      case FlushCompleted(error) =>
      case DataCompleted(x, error) =>
      case PlainWriteCompleted(w) =>
      case Ended(x, error) =>
    }
  }

  lemma SeeDurable(o: Obs, e: Event, r: Rid)
    ensures Mark(r) in See(o, e).durable <==> Mark(r) in o.durable || (e == FlushCompleted(false) && Mark(r) in o.covered)
  {
    hide StepsOf, FuaPassedDown;
    match e {
      case Inserted(x, hw, needs) =>
      case Queued(x, step) =>
      case Direct(x) =>
      case Issued =>
      case FlushCompleted(error) =>
      case DataCompleted(x, error) =>
      case PlainWriteCompleted(w) =>
      case Ended(x, error) =>
    }
  }

  lemma LastEvent(log: seq<Event>)
    requires log != []
    ensures var n := |log| - 1;
            Observe(log) == See(Observe(log[..n]), log[n]) && log[..n] + [log[n]] == log
  {
    hide See;
  }

  /** The mark of r is durable exactly when a flush issued after the POSTFLUSH of r was queued has completed. */
  lemma {:induction false} MarkIff(log: seq<Event>, r: Rid)
    ensures Mark(r) in Observe(log).completed <==> QueuedIn(log, r)
    ensures Mark(r) in Observe(log).covered <==> IssuedSince(log, r)
    ensures Mark(r) in Observe(log).durable <==> FlushedSince(log, r)
  {
    if log != [] {
      hide See, Observe, IssuedSince, FlushedSince;
      var n := |log| - 1;
      LastEvent(log);
      MarkIff(log[..n], r);
      SeeCompleted(Observe(log[..n]), log[n], r);
      SeeCovered(Observe(log[..n]), log[n]);
      SeeDurable(Observe(log[..n]), log[n], r);
      IssuedGrows(log[..n], log[n], r);
      FlushedGrows(log[..n], log[n], r);
      QueuedGrows(log[..n], log[n], r);
    }
  }

  lemma QueuedGrows(log: seq<Event>, e: Event, r: Rid)
    ensures QueuedIn(log + [e], r) <==> QueuedIn(log, r) || e == Queued(r, PostFlush)
  {
  }

  lemma SeeEnded(o: Obs, e: Event, r: Rid)
    ensures var p := See(o, e);
            if e.Ended? && e.r == r then r in p.ended && p.ended[r] == End(e.error, o.durable) && (r in o.ended ==> p.endedTwice)
            else (r in p.ended <==> r in o.ended) && (r in o.ended ==> p.ended[r] == o.ended[r])
    ensures o.endedTwice ==> See(o, e).endedTwice
  {
    hide StepsOf, FuaPassedDown;
    match e {
      case Inserted(x, hw, needs) =>
      case Queued(x, step) =>
      case Direct(x) =>
      case Issued =>
      case FlushCompleted(error) =>
      case DataCompleted(x, error) =>
      case PlainWriteCompleted(w) =>
      case Ended(x, error) =>
    }
  }

  /** The entry of a request that ended once is what held when it ended. */
  lemma {:induction false} EndedAt(log: seq<Event>, k: nat)
    requires k < |log| && log[k].Ended? && !Observe(log).endedTwice
    ensures log[k].r in Observe(log).ended
    ensures Observe(log).ended[log[k].r] == End(log[k].error, Observe(log[..k]).durable)
  {
    hide See, Observe;
    var n := |log| - 1;
    LastEvent(log);
    SeeEnded(Observe(log[..n]), log[n], log[k].r);
    if k < n {
      EndedAt(log[..n], k);
      assert log[..n][..k] == log[..k];
    }
  }

  /** The latest insertion of r. */
  ghost predicate LatestAt(log: seq<Event>, r: Rid, k: nat) {
    k < |log| && log[k].Inserted? && log[k].r == r && forall i :: k < i < |log| && log[i].Inserted? ==> log[i].r != r
  }

  lemma SeeHw(o: Obs, e: Event)
    ensures See(o, e).hw == if e.Inserted? then o.hw[e.r := e.hw] else o.hw
  {
    hide StepsOf, FuaPassedDown;
    match e {
      case Inserted(r, hw, needs) =>
      case Queued(r, step) =>
      case Direct(r) =>
      case Issued =>
      case FlushCompleted(error) =>
      case DataCompleted(r, error) =>
      case PlainWriteCompleted(w) =>
      case Ended(r, error) =>
    }
  }

  lemma SeeNeeds(o: Obs, e: Event)
    ensures See(o, e).needs == if e.Inserted? then o.needs[e.r := e.needs] else o.needs
  {
    hide StepsOf, FuaPassedDown;
    match e {
      case Inserted(r, hw, needs) =>
      case Queued(r, step) =>
      case Direct(r) =>
      case Issued =>
      case FlushCompleted(error) =>
      case DataCompleted(r, error) =>
      case PlainWriteCompleted(w) =>
      case Ended(r, error) =>
    }
  }

  /** A request is what it was inserted as. */
  lemma {:induction false} InsertedAs(log: seq<Event>, r: Rid, k: nat)
    requires LatestAt(log, r, k)
    ensures r in Observe(log).hw && Observe(log).hw[r] == log[k].hw
    ensures r in Observe(log).needs && Observe(log).needs[r] == log[k].needs
  {
    hide See, Observe;
    var n := |log| - 1;
    LastEvent(log);
    SeeHw(Observe(log[..n]), log[n]);
    SeeNeeds(Observe(log[..n]), log[n]);
    if k < n {
      assert LatestAt(log[..n], r, k);
      InsertedAs(log[..n], r, k);
    }
  }

  lemma {:induction false} NotInserted(log: seq<Event>, r: Rid)
    requires forall k :: 0 <= k < |log| && log[k].Inserted? ==> log[k].r != r
    ensures r !in Observe(log).hw
  {
    if log != [] {
      hide See;
      LastEvent(log);
      SeeHw(Observe(log[..|log| - 1]), log[|log| - 1]);
      NotInserted(log[..|log| - 1], r);
    }
  }
}
