/**
Theorems about every run of the flush sequencer: any interleaving of insertions, driver fetches,
flush and data completions (with or without error) and writes by others.
*/
module FlushTheorems {
  import opened Common
  import opened FlushSpec
  import opened FlushDevice
  import opened FlushProofs

  datatype Input =
    | Insert(r: Rid, hw: Hw, needs: Needs, now: int)
    | FetchItem(k: nat)
    | FlushIrq(error: bool, now: int)
    | DataIrq(r: Rid, error: bool, now: int)
    | OtherWrite(w: nat)

  /**
  s takes one input to t.  A request object is fresh for each insertion; the driver completes only
  what it has fetched.  Where a completion would not be defined, because a request on a list has no
  record, anything may follow: that this never
  happens is part of what is proved.
  */
  ghost predicate Takes(s: State, i: Input, t: State) {
    match i
    case Insert(r, hw, needs, now) =>
      r !in Observe(s.log).hw && t == Submit(s, r, hw, needs, now)
    case FetchItem(k) =>
      k < |s.dispatch| && t == Fetch(s, k)
    case FlushIrq(error, now) =>
      && FlushRq in s.driver
      && ((forall r <- Queue(s, s.runningIdx) :: r in s.done) ==> t == FlushDone(s, error, now))
    case DataIrq(r, error, now) =>
      && DataRq(r) in s.driver
      && (if r in s.direct then t == DirectDone(s, r, error)
          else r in s.done ==> t == DataDone(s, r, error, now))
    case OtherWrite(w) =>
      t == Emit(s, PlainWriteCompleted(w))
  }

  /** states are what a run on `inputs` passes through. */
  ghost predicate Runs(hz: nat, inputs: seq<Input>, states: seq<State>) {
    && |states| == |inputs| + 1 && states[0] == Init(hz)
    && forall i :: 0 <= i < |inputs| ==> Takes(states[i], inputs[i], states[i + 1])
  }

  lemma InitOk(hz: nat)
    ensures Inv(Init(hz))
  {
    assert Observe([]) == NOTHING;
  }

  lemma FetchedData(s: State, r: Rid)
    requires Inv(s) && DataRq(r) in s.driver
    ensures if r in s.direct then !OnAList(s, r) else r in s.data && r in s.done
  {
    var o := Observe(s.log);
    assert AtDriver(s, DataRq(r));
    if r in s.direct {
      assert Bypasses(s, o, r);
    } else {
      assert Writes(s, o, r);
    }
  }

  lemma StepOk(s: State, i: Input, t: State)
    requires Inv(s) && Takes(s, i, t)
    ensures Inv(t)
  {
    hide Core, Progress;
    match i
    case Insert(r, hw, needs, now) => SubmitOk(s, r, hw, needs, now);
    case FetchItem(k) => FetchOk(s, k);
    case FlushIrq(error, now) => FlushDoneOk(s, error, now);
    case DataIrq(r, error, now) =>
      FetchedData(s, r);
      if r in s.direct {
        DirectDoneOk(s, r, error);
      } else {
        SequencedDataDoneOk(s, r, error, now);
      }
    case OtherWrite(w) => PlainWriteOk(s, w);
  }

  /** The invariant holds in every state every run passes through. */
  lemma {:induction false} RunInv(hz: nat, inputs: seq<Input>, states: seq<State>, k: nat)
    requires Runs(hz, inputs, states) && k < |states|
    ensures Inv(states[k])
  {
    hide Inv, Takes;
    if k == 0 {
      InitOk(hz);
    } else {
      RunInv(hz, inputs, states, k - 1);
      assert Takes(states[k - 1], inputs[k - 1], states[k - 1 + 1]);
      StepOk(states[k - 1], inputs[k - 1], states[k]);
    }
  }

  lemma InvIn(hz: nat, inputs: seq<Input>, states: seq<State>, s: State)
    requires Runs(hz, inputs, states) && s in states
    ensures Inv(s)
  {
    hide Inv, Takes;
    var k :| 0 <= k < |states| && states[k] == s;
    RunInv(hz, inputs, states, k);
  }

  lemma {:induction false} DistinctOnce(l: seq<Rid>, r: Rid)
    requires Distinct(l)
    ensures multiset(l)[r] == if r in l then 1 else 0
  {
    if l != [] {
      assert l == [l[0]] + l[1..];
      DistinctOnce(l[1..], r);
    }
  }

  /**
  Exactly once.  No BUG_ON ever fires, nothing is ended twice, at most one flush is in flight and
  that exactly while the two indices differ, and each inserted request is in exactly one place:
  one of the two flush queues, the data list, the ordinary path, or ended.
  */
  lemma ExactlyOnce(hz: nat, inputs: seq<Input>, states: seq<State>, s: State)
    requires Runs(hz, inputs, states) && s in states
    ensures !s.bug && !Observe(s.log).endedTwice
    ensures Observe(s.log).inFlight == if s.pendingIdx != s.runningIdx then 1 else 0
    ensures forall r <- Observe(s.log).hw ::
              multiset(s.queue0)[r] + multiset(s.queue1)[r] + multiset(s.data)[r]
              + (if r in s.direct then 1 else 0) + (if r in Observe(s.log).ended then 1 else 0) == 1
  {
    InvIn(hz, inputs, states, s);
    var o := Observe(s.log);
    forall r | r in o.hw
      ensures multiset(s.queue0)[r] + multiset(s.queue1)[r] + multiset(s.data)[r]
              + (if r in s.direct then 1 else 0) + (if r in o.ended then 1 else 0) == 1
    {
      DistinctOnce(s.queue0, r);
      DistinctOnce(s.queue1, r);
      DistinctOnce(s.data, r);
      OnePlace(s, o, r);
    }
  }

  lemma OnePlace(s: State, o: Obs, r: Rid)
    requires Core(s, o, -1, true, -1) && r in o.hw
    ensures (if r in s.queue0 then 1 else 0) + (if r in s.queue1 then 1 else 0) + (if r in s.data then 1 else 0)
            + (if r in s.direct then 1 else 0) + (if r in o.ended then 1 else 0) == 1
  {
    assert r in s.queue0 ==> Waits(s, o, r, 0, -1, true);
    assert r in s.queue1 ==> Waits(s, o, r, 1, -1, true);
    assert r in s.data ==> Writes(s, o, r);
    assert r in s.direct ==> Bypasses(s, o, r);
  }

  /**
  Durability.  Whatever the interleaving, a request that ended without error kept its promise:
  its steps ran once each in order, REQ_FLUSH made all writes completed before its insertion
  durable before its data was queued, and REQ_FUA made its own data durable.
  */
  lemma Durability(hz: nat, inputs: seq<Input>, states: seq<State>, s: State)
    requires Runs(hz, inputs, states) && s in states
    ensures forall r <- Observe(s.log).ended :: Known(Observe(s.log), r) && Promise(Observe(s.log), r)
  {
    InvIn(hz, inputs, states, s);
    assert forall r <- Observe(s.log).ended :: Kept(Observe(s.log), r);
  }

  /**
  A request that ended without error after a POSTFLUSH has had that flush: one was issued after the
  POSTFLUSH was queued and completed before the end.  Requests that flush before and after without
  writing in between are the exception.
  */
  lemma PostFlushServed(hz: nat, inputs: seq<Input>, states: seq<State>, s: State, k: nat)
    requires Runs(hz, inputs, states) && s in states && k < |s.log| && s.log[k].Ended? && !s.log[k].error
    ensures var o, r := Observe(s.log), s.log[k].r;
            && r in o.hw && r in o.needs
            && (PolicyOf(o, r).post && Ordinary(PolicyOf(o, r)) ==> FlushedSince(s.log[..k], r))
  {
    hide Inv, Runs;
    InvIn(hz, inputs, states, s);
    EndedServed(s, k);
  }

  lemma EndedServed(s: State, k: nat)
    requires Inv(s) && k < |s.log| && s.log[k].Ended? && !s.log[k].error
    ensures var o, r := Observe(s.log), s.log[k].r;
            && r in o.hw && r in o.needs
            && (PolicyOf(o, r).post && Ordinary(PolicyOf(o, r)) ==> FlushedSince(s.log[..k], r))
  {
    hide KeysOk, DispatchOk, FlightOk, ListsOk, Waits, Writes, Bypasses, Promise, Observe;
    EndedAt(s.log, k);
    MarkIff(s.log[..k], s.log[k].r);
  }

  /** A waiting request always has a completion coming that will look at its queue again. */
  lemma NoStall(hz: nat, inputs: seq<Input>, states: seq<State>, s: State)
    requires Runs(hz, inputs, states) && s in states
    ensures Queue(s, s.pendingIdx) != [] ==>
              AtDriver(s, FlushRq) || exists r :: r in s.data && AtDriver(s, DataRq(r))
    ensures Queue(s, Toggle(s.pendingIdx)) != [] ==> AtDriver(s, FlushRq)
  {
    InvIn(hz, inputs, states, s);
    if Queue(s, s.pendingIdx) != [] && s.pendingIdx == s.runningIdx {
      assert s.data[0] in s.data && AtDriver(s, DataRq(s.data[0]));
    }
  }
}
