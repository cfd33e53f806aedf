/**
The scheduler as an object, and the invariant over all of its runs.
*/
module CfqScheduler {
  import opened Common
  import opened CfqTree
  import opened CfqGroups
  import opened CfqQueues
  import opened CfqOps
  import opened CfqProofs
  import opened CfqDrain

  // ---------- runs ----------

  /** What can happen to the scheduler; keys, trees and charges are what the clock and the settings make them. */
  datatype Step =
    | DoInsert(r: Rq, last: nat, key: int, t: nat)
    | DoDispatch(r: Rq)
    | DoReposition(r: Rq, pos: nat, last: nat)
    | DoMerge(rq: Rq, gone: Rq, older: bool)
    | DoExpire(charge: nat, key: int, t: nat)
    | DoActivate(x: Qid)

  predicate Holds(d: Data, r: Rq) {
    r.queue in d.queues && r in d.queues[r.queue].sort
  }

  /**
    Any request of the active queue may be dispatched: cfq_check_fifo hands out expired ones.  The
    requests that elv_latter_request and elv_former_request bring together are of one queue.
  */
  ghost predicate Enabled(d: Data, a: Step) {
    match a
    case DoInsert(r, last, key, t) => r.queue in d.queues && t < TREES && r !in Queued(d.queues)
    case DoDispatch(r) => d.active.Some? && d.active.value in d.queues && r in d.queues[d.active.value].sort
    case DoReposition(r, pos, last) => Holds(d, r) && r.(pos := pos) !in Queued(d.queues)
    case DoMerge(rq, gone, older) => Holds(d, rq) && Holds(d, gone) && rq != gone && (rq.queue == gone.queue || !older)
    case DoExpire(charge, key, t) => t < TREES
    case DoActivate(x) => d.active.None? && x in d.queues && d.queues[x].onRr
  }

  /** Where the lists and trees disagree a step is not defined, and anything may follow. */
  ghost predicate Takes(d: Data, a: Step, e: Data, c: Tunables) {
    Enabled(d, a) && (InOrder(d) ==> e == Next(d, a, c))
  }

  function Next(d: Data, a: Step, c: Tunables): Data
    requires InOrder(d) && Enabled(d, a)
  {
    hide Sound, ActiveOk;
    match a
    case DoInsert(r, last, key, t) => Insert(d, r, last, key, t, c)
    case DoDispatch(r) => DispatchOk(d, d.active.value, r, c); Dispatch(d, d.active.value, r, c)
    case DoReposition(r, pos, last) => RepositionedOk(d, r, pos, last, c); Reposition(d, r, pos, last, c)
    case DoMerge(rq, gone, older) => Merged(d, rq, gone, older, c)
    case DoExpire(charge, key, t) => ExpiredActiveOk(d, charge, key, t); ExpiredActive(d, charge, key, t)
    case DoActivate(x) => d.(active := Some(x))
  }

  lemma DispatchActive(d: Data, r: Rq, c: Tunables)
    requires InOrder(d) && Enabled(d, DoDispatch(r))
    ensures InOrder(Next(d, DoDispatch(r), c))
  {
    hide Sound, Dispatch;
    DispatchOk(d, d.active.value, r, c);
  }

  lemma Activated(d: Data, x: Qid)
    requires InOrder(d) && d.active.None? && x in d.queues && d.queues[x].onRr
    ensures InOrder(d.(active := Some(x)))
  {
    hide Sound;
    SoundActive(d, Some(x));
  }

  lemma StepInOrder(d: Data, a: Step, c: Tunables)
    requires InOrder(d) && Enabled(d, a)
    ensures InOrder(Next(d, a, c))
  {
    hide InOrder, Insert, Dispatch, Reposition, Merged, ExpiredActive;
    match a
    case DoInsert(r, last, key, t) => InsertedOk(d, r, last, key, t, c);
    case DoDispatch(r) => DispatchActive(d, r, c);
    case DoReposition(r, pos, last) => RepositionedOk(d, r, pos, last, c);
    case DoMerge(rq, gone, older) => MergedIff(d, rq, gone, older, c);
    case DoExpire(charge, key, t) => ExpiredActiveOk(d, charge, key, t);
    case DoActivate(x) => Activated(d, x);
  }

  /** Queues and groups without requests. */
  ghost predicate Idle(d: Data) {
    && (forall x :: x in d.queues ==> d.queues[x] == Queue(d.queues[x].group, None, d.queues[x].key, false, [], [], None) &&
                                      d.queues[x].group in d.trees)
    && d.trees.Keys == d.groups.group.Keys
    && (forall g :: g in d.trees ==> d.trees[g] == [EMPTY, EMPTY, EMPTY, EMPTY, EMPTY, EMPTY, EMPTY])
    && (forall g :: g in d.groups.group ==> d.groups.group[g].nr == 0 && d.groups.group[g].weight > 0 &&
                                            d.groups.group[g].newWeight > 0)
    && d.groups.tree == EMPTY && d.groups.total == 0
    && d.active == None && d.rqQueued == 0 && d.busy == 0 && d.dispatched == []
  }

  lemma IdleInOrder(d: Data)
    requires Idle(d)
    ensures InOrder(d)
  {
    assert OnRr(d.queues) == {};
    assert Queued(d.queues) == {};
    assert forall g :: OnRrIn(d.queues, g) == {};
  }

  ghost predicate Run(run: seq<Data>, steps: seq<Step>, c: Tunables) {
    && |run| == |steps| + 1 && Idle(run[0])
    && forall i :: 0 <= i < |steps| ==> Takes(run[i], steps[i], run[i + 1], c)
  }

  /** At every point of every run the lists, trees and counters agree. */
  lemma {:induction false} RunInOrder(run: seq<Data>, steps: seq<Step>, c: Tunables, i: nat)
    requires Run(run, steps, c) && i < |run|
    ensures InOrder(run[i])
  {
    hide InOrder, Next, Enabled;
    if i > 0 {
      RunInOrder(run, steps, c, i - 1);
      assert Takes(run[i - 1], steps[i - 1], run[i - 1 + 1], c);
      StepInOrder(run[i - 1], steps[i - 1], c);
    } else {
      IdleInOrder(run[0]);
    }
  }

  // ---------- the object ----------

  class Scheduler {
    var queues: map<Qid, Queue>
    var trees: map<Gid, seq<Tree>>
    var groups: Groups
    var active: Option<Qid>
    var rqQueued: int
    var busy: int
    var dispatched: seq<Rq>
    const tunables: Tunables

    function State(): Data
      reads this
    {
      Data(queues, trees, groups, active, rqQueued, busy, dispatched)
    }

    constructor (d: Data, tunables: Tunables)
      ensures State() == d && this.tunables == tunables
    {
      queues, trees, groups, active := d.queues, d.trees, d.groups, d.active;
      rqQueued, busy, dispatched := d.rqQueued, d.busy, d.dispatched;
      this.tunables := tunables;
    }

    /** cfq_dispatch_insert */
    method DispatchInsert(x: Qid, r: Rq)
      requires Sound(State()) && x in queues && r in queues[x].sort
      modifies this
      ensures r in old(queues)[x].fifo && State() == Dispatch(old(State()), x, r, tunables)
      ensures Sound(State()) && Queued(queues) == old(Queued(queues)) - {r} && active == old(active)
    {
      hide Sound, FindNext, Without, Queued;
      DispatchOk(State(), x, r, tunables);
      var q := queues[x];
      q := q.(next := FindNext(q.sort, r, tunables.backMax, tunables.penalty));
      q := q.(fifo := Without(q.fifo, r));
      q := q.(sort := Without(q.sort, r));
      queues := queues[x := q];
      rqQueued := rqQueued - 1;
      dispatched := dispatched + [r];
    }

    /** cfq_dispatch_request, when the queue may dispatch: an expired request goes before the next one. */
    method DispatchRequest(expired: bool)
      requires InOrder(State()) && active.Some? && queues[active.value].sort != []
      modifies this
      ensures InOrder(State()) && |dispatched| == |old(dispatched)| + 1 && dispatched[..|old(dispatched)|] == old(dispatched)
      ensures var r := dispatched[|old(dispatched)|];
              && r in old(Queued(queues)) && Queued(queues) == old(Queued(queues)) - {r}
              && Some(r) == if expired then Some(old(queues)[old(active).value].fifo[0]) else old(queues)[old(active).value].next
    {
      hide Sound, Dispatch, Queued, InOrder;
      var x := active.value;
      HeadOf(State(), x);
      var q := queues[x];
      var r := if expired then q.fifo[0] else q.next.value;
      DispatchOk(State(), x, r, tunables);
      DispatchActive(State(), r, tunables);
      DispatchInsert(x, r);
    }

    /** cfq_merged_request after a front merge. */
    method MergedRequest(r: Rq, pos: nat, last: nat)
      requires InOrder(State()) && Holds(State(), r) && r.(pos := pos) !in Queued(queues)
      modifies this
      ensures r in old(queues)[r.queue].fifo && State() == Reposition(old(State()), r, pos, last, tunables)
      ensures InOrder(State()) && Queued(queues) == old(Queued(queues)) - {r} + {r.(pos := pos)}
    {
      hide InOrder, Queued, Choose, SortInsert, Without;
      RepositionedOk(State(), r, pos, last, tunables);
      var n := r.(pos := pos);
      var q := queues[r.queue];
      var next := if q.next == Some(r) then Some(n) else q.next;
      q := q.(sort := Without(q.sort, r), fifo := q.fifo[RqIndex(q.fifo, r) := n]);
      q := q.(sort := SortInsert(q.sort, n));
      q := q.(next := Choose(next, Some(n), last, tunables.backMax, tunables.penalty));
      queues := queues[r.queue := q];
    }

    /** cfq_merged_requests */
    method MergedRequests(rq: Rq, gone: Rq, older: bool)
      requires InOrder(State()) && Holds(State(), rq) && Holds(State(), gone) && rq != gone
      modifies this
      ensures Sound(old(State())) && State() == Merged(old(State()), rq, gone, older, tunables)
      ensures InOrder(State()) <==> rq.queue == gone.queue || !older
    {
      hide Sound, FindNext, Without, Queued, MergedFifo, QueueOk;
      ghost var d := State();
      MergedIff(d, rq, gone, older, tunables);
      QueueOf(d, rq.queue);
      QueueOf(d, gone.queue);
      FifoHas(rq.queue, queues[rq.queue], rq);
      FifoHas(gone.queue, queues[gone.queue], gone);
      var x, y := rq.queue, gone.queue;
      if x == y {
        var q := queues[x];
        q := q.(fifo := MergedFifo(q.fifo, rq, gone, older), next := if q.next == Some(gone) then Some(rq) else q.next);
        queues := queues[x := q.(sort := Without(q.sort, gone))];
        rqQueued := rqQueued - 1;
      } else {
        HandedTree(d, rq, gone, older, tunables);
        var p := queues[y];
        if older {
          var q := queues[x];
          queues := queues[x := q.(fifo := Without(q.fifo, rq))];
          p := p.(fifo := p.fifo[RqIndex(p.fifo, gone) := rq]);
        } else {
          p := p.(fifo := Without(p.fifo, gone));
        }
        if p.next == Some(gone) {
          p := p.(next := FindNext(p.sort, gone, tunables.backMax, tunables.penalty));
        }
        p := p.(sort := Without(p.sort, gone));
        queues := queues[y := p];
        rqQueued := rqQueued - 1;
        assert State() == Handed(d, rq, gone, older, tunables);
        if p.onRr && p.sort == [] && active != Some(y) {
          DelCfqqRr(y);
        }
      }
    }

    /** cfq_add_cfqq_rr */
    method AddCfqqRr(x: Qid, key: int, t: nat)
      requires x in queues && queues[x].group in trees && t < |trees[queues[x].group]|
      requires forall y :: y in trees[queues[x].group][t].order ==> y in queues
      requires Members(groups) && queues[x].group in groups.group
      modifies this
      ensures State() == AddRr(old(State()), x, key, t, tunables)
    {
      hide NotifyAdd, Place, Members;
      var q := queues[x].(onRr := true);
      queues := queues[x := q];
      busy := busy + 1;
      var tree := trees[q.group][t];
      var p := Place(Keys(tree.order, TreeKeys(State())), key);
      queues := queues[x := q.(key := key, tree := Some(t))];
      trees := trees[q.group := trees[q.group][t := InsertAt(tree, x, p)]];
      groups := NotifyAdd(groups, q.group, tunables.idleDelay);
    }

    /** cfq_insert_request: to the end of the fifo, into the sorted list, and perhaps next in line. */
    method InsertRequest(r: Rq, last: nat, key: int, t: nat)
      requires InOrder(State()) && r.queue in queues && t < TREES && r !in Queued(queues)
      modifies this
      ensures State() == Insert(old(State()), r, last, key, t, tunables)
      ensures InOrder(State()) && Queued(queues) == old(Queued(queues)) + {r} && dispatched == old(dispatched)
    {
      hide InOrder, Sound, Queued, AddRr, Choose, SortInsert;
      SoundOf(State());
      GroupMembers(State(), r.queue);
      InsertedOk(State(), r, last, key, t, tunables);
      var x := r.queue;
      if !queues[x].onRr {
        AddRrOk(State(), x, key, t, tunables);
        AddCfqqRr(x, key, t);
      }
      var q := queues[x];
      q := q.(fifo := q.fifo + [r]);
      q := q.(sort := SortInsert(q.sort, r));
      q := q.(next := Choose(q.next, Some(r), last, tunables.backMax, tunables.penalty));
      queues := queues[x := q];
      rqQueued := rqQueued + 1;
    }

    /** cfq_del_cfqq_rr */
    method DelCfqqRr(x: Qid)
      requires x in queues && queues[x].tree.Some? && queues[x].group in trees
      requires queues[x].tree.value < |trees[queues[x].group]|
      requires x in trees[queues[x].group][queues[x].tree.value].order && queues[x].group in groups.group
      modifies this
      ensures State() == DelRr(old(State()), x)
    {
      hide NotifyDel, Erase;
      var q := queues[x].(onRr := false);
      var g, t := q.group, q.tree.value;
      trees := trees[g := trees[g][t := Erase(trees[g][t], x)]];
      queues := queues[x := q.(tree := None)];
      groups := NotifyDel(groups, g);
      busy := busy - 1;
    }

    /** __cfq_slice_expired */
    method SliceExpired(x: Qid, charge: nat, key: int, t: nat)
      requires Sound(State()) && x in queues && queues[x].onRr && t < TREES
      requires Sound(Charge(State(), x, charge))
      modifies this
      ensures State() == Expired(old(State()), x, charge, key, t)
    {
      hide Sound, Served, DelRr, Resort;
      ChargeOk(State(), x, charge);
      ghost var d1 := Charge(State(), x, charge);
      UnlinkMembers(d1, x);
      BusyIn(d1, x);
      groups := Served(groups, queues[x].group, charge);
      if queues[x].sort == [] {
        DelRrOk(d1, x);
        DelCfqqRr(x);
      } else {
        var d2 := Resort(State(), x, key, t);
        queues, trees := d2.queues, d2.trees;
        ResortOk(d1, x, key, t);
      }
      if active == Some(x) {
        active := None;
      }
    }

    /** cfq_get_next_queue_forced */
    method GetNextQueueForced() returns (x: Option<Qid>)
      requires Sound(State())
      modifies this
      ensures (State(), x) == NextForced(old(State()))
    {
      hide Sound, NextGroup, FirstTree;
      if rqQueued == 0 {
        return None;
      }
      GroupsOf(State());
      var (gs, g) := NextGroup(groups);
      groups := gs;
      if g.None? || g.value !in trees {
        return None;
      }
      var k := FirstTree(trees[g.value], 0);
      if k == |trees[g.value]| {
        return None;
      }
      x := First(trees[g.value][k]);
      trees := trees[g.value := trees[g.value][k := Cached(trees[g.value][k])]];
    }

    /** __cfq_forced_dispatch_cfqq: the whole queue goes, and stops being busy. */
    method ForceQueue(x: Qid, charge: nat) returns (n: nat)
      requires InOrder(State()) && active == Some(x)
      modifies this
      ensures InOrder(State()) && active == None
      ensures Moved(old(State()), State()) && n == |old(queues[x].sort)|
      ensures |Queued(queues)| == old(|Queued(queues)|) - n
    {
      hide Sound, Dispatch, Queued, Expired, Moved, QueueOk, Charge;
      n := 0;
      MovedNone(State(), State());
      while queues[x].next.Some?
        invariant Sound(State()) && active == Some(x) && x in queues && queues[x].onRr
        invariant OthersFull(queues, x)
        invariant Moved(old(State()), State())
        invariant n + |queues[x].sort| == |old(queues[x].sort)|
        invariant |Queued(queues)| == old(|Queued(queues)|) - n
        decreases |queues[x].sort|
      {
        ghost var d := State();
        NextOf(d, x);
        var r := queues[x].next.value;
        DispatchOk(d, x, r, tunables);
        DispatchInsert(x, r);
        MovedOne(old(State()), d, State(), r);
        n := n + 1;
      }
      QueueOf(State(), x);
      Emptied(x, queues[x]);
      assert queues[x].fifo == [];
      ghost var d := State();
      ExpiredOk(d, x, charge, 0, 0);
      SliceExpired(x, charge, 0, 0);
      assert queues == d.queues[x := queues[x]];
      SameQueued(d.queues, x, queues[x]);
      MovedSame(old(State()), d, State());
    }

    /** cfq_forced_dispatch; cost(x) is what the slice of queue x comes to. */
    method ForcedDispatch(cost: Qid -> nat, key: int, t: nat) returns (n: nat)
      requires InOrder(State()) && t < TREES
      modifies this
      ensures InOrder(State()) && active == None
      ensures Queued(queues) == {} && OnRr(queues) == {} && busy == 0
      ensures Moved(old(State()), State()) && n == old(rqQueued)
    {
      hide Sound, NextForced, Queued, Expired, Moved, Charge;
      ghost var d0 := State();
      QueuedCount(d0);
      ExpiredActiveOk(d0, cost(if active.Some? then active.value else 0), key, t);
      if active.Some? {
        SliceExpired(active.value, cost(active.value), key, t);
      }
      MovedNone(d0, State());
      n := 0;
      while true
        invariant InOrder(State()) && active == None
        invariant Moved(d0, State()) && n + |Queued(queues)| == d0.rqQueued
        decreases |Queued(queues)|
      {
        ghost var d := State();
        NextForcedOk(d);
        var x := GetNextQueueForced();
        MovedSame(d0, d, State());
        if x.None? {
          break;
        }
        ghost var e := State();
        active := x;
        SoundActive(e, x);
        MovedSame(d0, e, State());
        ghost var f := State();
        var m := ForceQueue(x.value, cost(x.value));
        MovedOn(d0, f, State());
        n := n + m;
      }
      NoneBusy(State());
    }
  }

  lemma FifoHas(x: Qid, q: Queue, r: Rq)
    requires QueueOk(x, q) && r in q.sort
    ensures r in q.fifo
  {
  }

  lemma NextOf(d: Data, x: Qid)
    requires Sound(d) && x in d.queues && d.queues[x].next.Some?
    ensures d.queues[x].next.value in d.queues[x].sort
  {
    hide TreesOk, CountsOk, GroupCountsOk, CfqGroups.Inv;
  }

  lemma HeadOf(d: Data, x: Qid)
    requires InOrder(d) && d.active == Some(x) && d.queues[x].sort != []
    ensures Sound(d) && x in d.queues && d.queues[x].next.Some? && d.queues[x].next.value in d.queues[x].sort
    ensures d.queues[x].fifo != [] && d.queues[x].fifo[0] in d.queues[x].sort
  {
    hide TreesOk, CountsOk, GroupCountsOk, CfqGroups.Inv;
    assert d.queues[x].sort[0] in d.queues[x].sort;
  }

  lemma SoundOf(d: Data)
    requires InOrder(d)
    ensures Sound(d)
  {
    hide Sound;
  }

  lemma QueuedCount(d: Data)
    requires Sound(d)
    ensures d.rqQueued == |Queued(d.queues)|
  {
    hide TreesOk, GroupCountsOk, CfqGroups.Inv;
  }

  lemma MovedOn(d0: Data, d: Data, e: Data)
    requires Moved(d0, d) && Moved(d, e)
    ensures Moved(d0, e)
  {
    hide Queued;
    var n, m := |d0.dispatched|, |d.dispatched|;
    var a, b := d.dispatched[n..], e.dispatched[m..];
    assert e.dispatched[n..] == a + b;
    forall r
      ensures r in a + b <==> r in Queued(d0.queues) && r !in Queued(e.queues)
    {
      assert r in a + b <==> r in a || r in b;
    }
    DistinctBoth(a, b);
  }

  lemma DistinctBoth(a: seq<Rq>, b: seq<Rq>)
    requires Distinct(a) && Distinct(b) && forall r :: r in a ==> r !in b
    ensures Distinct(a + b)
  {
    var s := a + b;
    forall i, j | 0 <= i < j < |s|
      ensures s[i] != s[j]
    {
      if i < |a| <= j {
        assert s[i] in a && s[j] == b[j - |a|];
      }
    }
  }

  /** Without requests, and without an active queue, no queue is busy. */
  lemma NoneBusy(d: Data)
    requires InOrder(d) && d.active.None? && Queued(d.queues) == {}
    ensures OnRr(d.queues) == {} && d.busy == 0 && d.rqQueued == 0
  {
    hide TreesOk, GroupCountsOk, CfqGroups.Inv, Queued;
    forall x | x in d.queues
      ensures !d.queues[x].onRr
    {
      NoneQueued(d.queues, x);
    }
  }

  /** All busy queues but x have requests. */
  ghost predicate OthersFull(qs: Queues, x: Qid) {
    forall y :: y in qs && qs[y].onRr && y != x ==> qs[y].sort != []
  }

  lemma Emptied(x: Qid, q: Queue)
    requires QueueOk(x, q) && q.next.None?
    ensures q.sort == [] && q.fifo == []
  {
    HeadIn(q.fifo);
  }

  lemma HeadIn(s: seq<Rq>)
    ensures s != [] ==> s[0] in s
  {
  }

  lemma GroupsOf(d: Data)
    requires Sound(d)
    ensures Members(d.groups)
  {
    hide TreesOk, CountsOk, GroupCountsOk;
  }
}
