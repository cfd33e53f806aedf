/**
Emptying the scheduler, as cfq_forced_dispatch does it: it ends, every queued request goes to the
dispatch list once, and no queue is left busy.
*/
module CfqDrain {
  import opened Common
  import opened CfqTree
  import opened CfqGroups
  import opened CfqGroupProofs
  import opened CfqQueues
  import opened CfqOps
  import opened CfqProofs

  /** At the end of its slice a queue that is empty stops being busy, and no queue is active. */
  lemma ExpiredOk(d: Data, x: Qid, charge: nat, key: int, t: nat)
    requires Sound(d) && x in d.queues && d.queues[x].onRr && t < TREES
    ensures d.queues[x].group in d.groups.group && Members(d.groups) && Sound(Charge(d, x, charge))
    ensures var e := Expired(d, x, charge, key, t);
            && Sound(e) && e.queues.Keys == d.queues.Keys && e.dispatched == d.dispatched && e.rqQueued == d.rqQueued
            && (forall y :: y in d.queues && y != x ==> e.queues[y] == d.queues[y])
            && e.queues[x].sort == d.queues[x].sort && (e.queues[x].onRr <==> d.queues[x].sort != [])
            && e.active == if d.active == Some(x) then None else d.active
  {
    hide Sound, DelRr, Resort, Served;
    ChargeOk(d, x, charge);
    var d1 := Charge(d, x, charge);
    UnlinkMembers(d1, x);
    if d.queues[x].sort == [] {
      DelRrOk(d1, x);
    } else {
      ResortOk(d1, x, key, t);
    }
    SoundActive(if d.queues[x].sort == [] then DelRr(d1, x) else Resort(d1, x, key, t), None);
  }

  /** Which queue is active is no part of being sound. */
  lemma SoundActive(d: Data, active: Option<Qid>)
    requires Sound(d)
    ensures Sound(d.(active := active))
  {
    hide QueuesOk, TreesOk, CountsOk, GroupCountsOk, CfqGroups.Inv;
  }

  lemma ExpiredActiveOk(d: Data, charge: nat, key: int, t: nat)
    requires InOrder(d) && t < TREES
    ensures d.active.Some? ==> Sound(Charge(d, d.active.value, charge))
    ensures var e := ExpiredActive(d, charge, key, t);
            && InOrder(e) && e.active == None && Queued(e.queues) == Queued(d.queues) && e.dispatched == d.dispatched
  {
    hide Sound, Expired, Charge, Queued;
    if d.active.Some? {
      var x := d.active.value;
      ExpiredOk(d, x, charge, key, t);
      var e := Expired(d, x, charge, key, t);
      assert e.queues == d.queues[x := e.queues[x]];
      SameQueued(d.queues, x, e.queues[x]);
    }
  }

  // ---------- the choice of a queue ----------

  lemma SomeQueued(qs: Queues)
    requires Queued(qs) != {}
    ensures exists x :: x in qs && qs[x].sort != []
  {
    var r :| r in Queued(qs);
    var x :| x in qs && r in qs[x].sort;
  }

  lemma NoneQueued(qs: Queues, x: Qid)
    requires Queued(qs) == {} && x in qs
    ensures qs[x].sort == []
  {
    assert qs[x].sort == [] || qs[x].sort[0] in qs[x].sort;
    forall r | r in qs[x].sort
      ensures r in Queued(qs)
    {
    }
  }

  /** As long as a request is queued, a busy queue is found. */
  lemma NextForcedOk(d: Data)
    requires Sound(d)
    ensures var (e, x) := NextForced(d);
            && Sound(e) && e.queues == d.queues && e.active == d.active && e.dispatched == d.dispatched
            && e.rqQueued == d.rqQueued
            && (x.None? <==> Queued(d.queues) == {}) && (x.Some? ==> x.value in d.queues && d.queues[x.value].onRr)
  {
    hide CfqGroups.Inv, OnRr, Queued, QueueOk;
    if d.rqQueued != 0 {
      assert Queued(d.queues) != {};
      SomeQueued(d.queues);
      var x :| x in d.queues && d.queues[x].sort != [];
      QueueOf(d, x);
      SortedBusy(x, d.queues[x]);
      BusyIn(d, x);
      NextGroupInv(d.groups);
      GroupHasQueue(d, d.groups.tree.order[0]);
      NextForcedIs(d, d.groups.tree.order[0]);
    }
  }

  lemma SortedBusy(x: Qid, q: Queue)
    requires QueueOk(x, q) && q.sort != []
    ensures q.onRr
  {
  }

  /** A group on the group tree has a queue in one of its trees. */
  lemma GroupHasQueue(d: Data, g: Gid)
    requires Sound(d) && g in d.groups.tree.order
    ensures g in d.trees && |d.trees[g]| == TREES
    ensures exists t, x :: 0 <= t < TREES && x in d.trees[g][t].order
  {
    hide CountsOk;
    InvMembers(d.groups);
    assert g in d.groups.group;
    InvOf(d.groups, g);
    assert |OnRrIn(d.queues, g)| > 0;
    var x :| x in OnRrIn(d.queues, g);
    var t := d.queues[x].tree.value;
    assert IsIn(d.queues, g, t, x);
    assert x in d.trees[g][t].order;
  }

  lemma NextForcedIs(d: Data, g: Gid)
    requires Sound(d) && d.rqQueued != 0 && NextGroup(d.groups).1 == Some(g)
    requires NextGroup(d.groups).0.group == d.groups.group && CfqGroups.Inv(NextGroup(d.groups).0)
    requires g in d.trees && |d.trees[g]| == TREES && exists t, x :: 0 <= t < TREES && x in d.trees[g][t].order
    ensures var (e, x) := NextForced(d);
            && Sound(e) && e.queues == d.queues && e.active == d.active && e.dispatched == d.dispatched
            && e.rqQueued == d.rqQueued && x.Some? && x.value in d.queues && d.queues[x.value].onRr
  {
    hide CfqGroups.Inv, CountsOk, OnRrIn, NextGroup, FirstTree;
    var trees := d.trees[g];
    var k := FirstTree(trees, 0);
    var t, y :| 0 <= t < TREES && y in trees[t].order;
    FirstOk(trees[t]);
    assert k < TREES;
    FirstOk(trees[k]);
    var x := First(trees[k]).value;
    assert x in trees[k].order;
    assert IsIn(d.queues, g, k, x);
    CachedTrees(d.queues, d.trees, g, k);
  }

  /** Filling the cache of a tree. */
  lemma CachedTrees(qs: Queues, trees: map<Gid, seq<Tree>>, g: Gid, k: nat)
    requires TreesOk(qs, trees) && g in trees && k < TREES
    ensures TreesOk(qs, trees[g := trees[g][k := Cached(trees[g][k])]])
  {
    FirstOk(trees[g][k]);
    var after: map<Gid, seq<Tree>> := trees[g := trees[g][k := Cached(trees[g][k])]];
    forall h, s, y | h in after && 0 <= s < TREES
      ensures y in after[h][s].order <==> IsIn(qs, h, s, y)
    {
      assert y in trees[h][s].order <==> IsIn(qs, h, s, y);
    }
  }

  // ---------- what is conserved ----------

  /** From d0 to d, requests only moved from the queues to the end of the dispatch list, each once. */
  ghost predicate Moved(d0: Data, d: Data) {
    && d0.dispatched <= d.dispatched && Queued(d.queues) <= Queued(d0.queues)
    && var out := d.dispatched[|d0.dispatched|..];
       && Distinct(out) && forall r :: r in out <==> r in Queued(d0.queues) && r !in Queued(d.queues)
  }

  lemma MovedNone(d0: Data, d: Data)
    requires Queued(d.queues) == Queued(d0.queues) && d.dispatched == d0.dispatched
    ensures Moved(d0, d)
  {
  }

  lemma MovedOne(d0: Data, d: Data, e: Data, r: Rq)
    requires Moved(d0, d) && e.dispatched == d.dispatched + [r] && r in Queued(d.queues)
    requires Queued(e.queues) == Queued(d.queues) - {r}
    ensures Moved(d0, e)
  {
    hide Queued;
    var n := |d0.dispatched|;
    assert e.dispatched[n..] == d.dispatched[n..] + [r];
  }

  lemma MovedSame(d0: Data, d: Data, e: Data)
    requires Moved(d0, d) && Queued(e.queues) == Queued(d.queues) && e.dispatched == d.dispatched
    ensures Moved(d0, e)
  {
  }
}
