/**
The operations on the queues keep the invariant of the scheduler.
*/
module CfqProofs {
  import opened Common
  import opened CfqTree
  import opened CfqGroups
  import opened CfqGroupProofs
  import opened CfqQueues
  import opened CfqOps

  // ---------- requests ----------

  lemma WithoutOk(s: seq<Rq>, r: Rq)
    requires r in s && Distinct(s)
    ensures Distinct(Without(s, r)) && |Without(s, r)| == |s| - 1
    ensures forall y :: y in Without(s, r) <==> y in s && y != r
  {
    var i := RqIndex(s, r);
    assert s == s[..i] + [r] + s[i + 1..];
  }

  /** The next request is another one of the queue, as long as there is one. */
  lemma FindNextOk(s: seq<Rq>, r: Rq, backMax: nat, penalty: nat)
    requires r in s && Distinct(s)
    ensures var n := FindNext(s, r, backMax, penalty);
            (n.None? <==> |s| == 1) && (n.Some? ==> n.value in s && n.value != r)
  {
    hide Choose;
    var i := RqIndex(s, r);
  }

  lemma TakeOutOk(x: Qid, q: Queue, r: Rq, next: Option<Rq>)
    requires QueueOk(x, q) && r in q.sort
    requires (next.None? <==> |q.sort| == 1) && (next.Some? ==> next.value in q.sort && next.value != r)
    ensures r in q.fifo && QueueOk(x, TakeOut(q, r, next)) && |TakeOut(q, r, next).sort| == |q.sort| - 1
    ensures forall y :: y in TakeOut(q, r, next).sort <==> y in q.sort && y != r
  {
    hide Without;
    WithoutOk(q.sort, r);
    WithoutOk(q.fifo, r);
  }

  /** Changing what a queue holds leaves the trees alone. */
  lemma SameTrees(qs: Queues, trees: map<Gid, seq<Tree>>, x: Qid, q: Queue)
    requires x in qs && TreesOk(qs, trees)
    requires q.group == qs[x].group && q.tree == qs[x].tree && q.onRr == qs[x].onRr
    ensures TreesOk(qs[x := q], trees) && OnRr(qs[x := q]) == OnRr(qs)
    ensures forall g :: OnRrIn(qs[x := q], g) == OnRrIn(qs, g)
  {
    forall g, t, y | g in trees && 0 <= t < TREES
      ensures y in trees[g][t].order <==> IsIn(qs[x := q], g, t, y)
    {
      assert IsIn(qs[x := q], g, t, y) <==> IsIn(qs, g, t, y);
    }
  }

  /** One request fewer in a queue is one fewer in all. */
  lemma QueuedTakeOut(qs: Queues, gids: set<Gid>, x: Qid, q: Queue, r: Rq)
    requires QueuesOk(qs, gids) && x in qs && r in qs[x].sort
    requires forall y :: y in q.sort <==> y in qs[x].sort && y != r
    ensures Queued(qs[x := q]) == Queued(qs) - {r} && r in Queued(qs)
  {
    var e := qs[x := q];
    forall y
      ensures y in Queued(e) <==> y in Queued(qs) && y != r
    {
      if y in Queued(qs) && y != r {
        var z :| z in qs && y in qs[z].sort;
        assert z in e && y in e[z].sort;
      }
      if y in Queued(e) {
        var z :| z in e && y in e[z].sort;
        assert z in qs && y in qs[z].sort;
        assert y.queue == z && r.queue == x;
      }
    }
  }

  lemma TakeOutSame(q: Queue, r: Rq, next: Option<Rq>)
    requires r in q.sort && r in q.fifo
    ensures var p := TakeOut(q, r, next); p.group == q.group && p.tree == q.tree && p.onRr == q.onRr && p.next == next
  {
  }

  /** Taking a request out of a queue and nothing else. */
  lemma TakenSound(d: Data, x: Qid, r: Rq, next: Option<Rq>)
    requires Sound(d) && x in d.queues && r in d.queues[x].sort
    requires next.None? <==> |d.queues[x].sort| == 1
    requires next.Some? ==> next.value in d.queues[x].sort && next.value != r
    ensures r in d.queues[x].fifo
    ensures Sound(SetQueue(d, x, TakeOut(d.queues[x], r, next)).(rqQueued := d.rqQueued - 1))
    ensures Queued(SetQueue(d, x, TakeOut(d.queues[x], r, next)).queues) == Queued(d.queues) - {r} && r in Queued(d.queues)
  {
    hide TakeOut, CfqGroups.Inv, QueueOk, TreesOk, Queued, OnRr, OnRrIn;
    var q := d.queues[x];
    TakeOutOk(x, q, r, next);
    TakeOutSame(q, r, next);
    SameTrees(d.queues, d.trees, x, TakeOut(q, r, next));
    QueuedTakeOut(d.queues, d.trees.Keys, x, TakeOut(q, r, next), r);
  }

  /** The same with the request going to the dispatch list. */
  lemma DispatchOk(d: Data, x: Qid, r: Rq, c: Tunables)
    requires Sound(d) && x in d.queues && r in d.queues[x].sort
    ensures r in d.queues[x].fifo
    ensures var e := Dispatch(d, x, r, c);
            && Sound(e) && Queued(e.queues) == Queued(d.queues) - {r} && r in Queued(d.queues)
            && |e.queues[x].sort| == |d.queues[x].sort| - 1 && e.queues == d.queues[x := e.queues[x]]
            && e.queues[x].group == d.queues[x].group && e.queues[x].onRr == d.queues[x].onRr
            && e.active == d.active && e.dispatched == d.dispatched + [r]
  {
    hide CfqGroups.Inv, TreesOk, CountsOk, GroupCountsOk, Queued, FindNext, TakeOut;
    var q := d.queues[x];
    var n := FindNext(q.sort, r, c.backMax, c.penalty);
    FindNextOk(q.sort, r, c.backMax, c.penalty);
    TakenSound(d, x, r, n);
    TakeOutOk(x, q, r, n);
    TakeOutSame(q, r, n);
  }

  // ---------- the trees ----------

  /** A busy queue is in its tree, and its group is on the group tree. */
  lemma BusyIn(d: Data, x: Qid)
    requires Sound(d) && x in d.queues && d.queues[x].onRr
    ensures var q := d.queues[x];
            && q.group in d.trees && q.group in d.groups.group && q.tree.Some? && q.tree.value < TREES
            && |d.trees[q.group]| == TREES && x in d.trees[q.group][q.tree.value].order
            && q.group in d.groups.tree.order && x in OnRr(d.queues) && x in OnRrIn(d.queues, q.group)
  {
    var q := d.queues[x];
    assert IsIn(d.queues, q.group, q.tree.value, x);
    assert x in OnRrIn(d.queues, q.group);
    InvOf(d.groups, q.group);
  }

  /** Taking a queue out of its tree. */
  lemma UnlinkTrees(qs: Queues, trees: map<Gid, seq<Tree>>, x: Qid, q: Queue)
    requires TreesOk(qs, trees) && x in qs && qs[x].tree.Some? && qs[x].tree.value < TREES && qs[x].group in trees
    requires q.group == qs[x].group && q.tree == None
    ensures var g, t := qs[x].group, qs[x].tree.value;
            && x in trees[g][t].order
            && TreesOk(qs[x := q], trees[g := trees[g][t := Erase(trees[g][t], x)]])
  {
    hide Erase, TreeOk;
    var g, t := qs[x].group, qs[x].tree.value;
    assert IsIn(qs, g, t, x);
    EraseOk(trees[g][t], x);
    var after: map<Gid, seq<Tree>> := trees[g := trees[g][t := Erase(trees[g][t], x)]];
    forall h, s, y | h in after && 0 <= s < TREES
      ensures y in after[h][s].order <==> IsIn(qs[x := q], h, s, y)
    {
      assert y in trees[h][s].order <==> IsIn(qs, h, s, y);
    }
  }

  /** Putting a queue that is in no tree into one. */
  lemma LinkTrees(qs: Queues, trees: map<Gid, seq<Tree>>, x: Qid, q: Queue, t: nat, p: nat)
    requires TreesOk(qs, trees) && x in qs && qs[x].tree == None && qs[x].group in trees && t < TREES
    requires q.group == qs[x].group && q.tree == Some(t)
    requires p <= |trees[q.group][t].order|
    ensures TreesOk(qs[x := q], trees[q.group := trees[q.group][t := InsertAt(trees[q.group][t], x, p)]])
  {
    hide InsertAt, TreeOk;
    var g := q.group;
    assert x in trees[g][t].order <==> IsIn(qs, g, t, x);
    InsertOk(trees[g][t], x, p);
    var after: map<Gid, seq<Tree>> := trees[g := trees[g][t := InsertAt(trees[g][t], x, p)]];
    forall h, s, y | h in after && 0 <= s < TREES
      ensures y in after[h][s].order <==> IsIn(qs[x := q], h, s, y)
    {
      assert y in trees[h][s].order <==> IsIn(qs, h, s, y);
    }
  }

  // ---------- becoming busy and idle ----------

  lemma ChargeOk(d: Data, x: Qid, charge: nat)
    requires Sound(d) && x in d.queues && d.queues[x].onRr
    ensures d.queues[x].group in d.groups.group && Members(d.groups) && Sound(Charge(d, x, charge))
  {
    hide TreesOk, QueuesOk, CountsOk, Served, OnRrIn, Scale;
    BusyIn(d, x);
    ServedInv(d.groups, d.queues[x].group, charge);
    ServedIs(d.groups, d.queues[x].group, charge);
  }

  /** The sets of busy queues without one of them. */
  lemma LessBusy(qs: Queues, x: Qid, q: Queue)
    requires x in qs && qs[x].onRr && !q.onRr && q.group == qs[x].group && q.sort == qs[x].sort
    ensures OnRr(qs[x := q]) == OnRr(qs) - {x} && x in OnRr(qs)
    ensures OnRrIn(qs[x := q], q.group) == OnRrIn(qs, q.group) - {x} && x in OnRrIn(qs, q.group)
    ensures forall g :: g != q.group ==> OnRrIn(qs[x := q], g) == OnRrIn(qs, g)
  {
  }

  lemma MoreBusy(qs: Queues, x: Qid, q: Queue)
    requires x in qs && !qs[x].onRr && q.onRr && q.group == qs[x].group && q.sort == qs[x].sort
    ensures OnRr(qs[x := q]) == OnRr(qs) + {x} && x !in OnRr(qs)
    ensures OnRrIn(qs[x := q], q.group) == OnRrIn(qs, q.group) + {x} && x !in OnRrIn(qs, q.group)
    ensures forall g :: g != q.group ==> OnRrIn(qs[x := q], g) == OnRrIn(qs, g)
  {
  }

  lemma SameQueued(qs: Queues, x: Qid, q: Queue)
    requires x in qs && q.sort == qs[x].sort
    ensures Queued(qs[x := q]) == Queued(qs)
  {
    var e := qs[x := q];
    forall y
      ensures y in Queued(e) <==> y in Queued(qs)
    {
      if y in Queued(qs) {
        var z :| z in qs && y in qs[z].sort;
        assert z in e && y in e[z].sort;
      }
      if y in Queued(e) {
        var z :| z in e && y in e[z].sort;
        assert z in qs && y in qs[z].sort;
      }
    }
  }

  lemma DelRrIs(d: Data, x: Qid)
    requires Sound(d) && x in d.queues && d.queues[x].onRr
    ensures var q := d.queues[x];
            var g, t := q.group, q.tree.value;
            && q.tree.Some? && t < TREES && g in d.trees && |d.trees[g]| == TREES && x in d.trees[g][t].order
            && g in d.groups.group
            && DelRr(d, x) == d.(queues := d.queues[x := q.(onRr := false, tree := None)],
                                 trees := d.trees[g := d.trees[g][t := Erase(d.trees[g][t], x)]],
                                 busy := d.busy - 1, groups := NotifyDel(d.groups, g))
  {
    hide TreesOk, CountsOk, GroupCountsOk, CfqGroups.Inv, NotifyDel, Erase;
    BusyIn(d, x);
    var q := d.queues[x];
    assert d.queues[x := q.(onRr := false)][x := q.(onRr := false, tree := None)] ==
           d.queues[x := q.(onRr := false, tree := None)];
  }

  lemma DelRrCounts(d: Data, x: Qid)
    requires Sound(d) && x in d.queues && d.queues[x].onRr && d.queues[x].group in d.groups.group
    ensures var q := d.queues[x].(onRr := false, tree := None);
            var qs := d.queues[x := q];
            && CountsOk(qs, d.busy - 1, d.rqQueued) && GroupCountsOk(qs, NotifyDel(d.groups, q.group).group)
            && NotifyDel(d.groups, q.group).group.Keys == d.groups.group.Keys
  {
    hide TreesOk, QueuesOk, NotifyDel, OnRr, OnRrIn, Queued;
    var q := d.queues[x].(onRr := false, tree := None);
    LessBusy(d.queues, x, q);
    SameQueued(d.queues, x, q);
    NotifyCounts(d.groups, q.group, 0);
  }

  lemma DelRrOk(d: Data, x: Qid)
    requires Sound(d) && x in d.queues && d.queues[x].onRr && d.queues[x].sort == []
    ensures var q := d.queues[x];
            && q.tree.Some? && q.group in d.trees && q.tree.value < |d.trees[q.group]|
            && x in d.trees[q.group][q.tree.value].order && q.group in d.groups.group
            && Sound(DelRr(d, x)) && DelRr(d, x).queues == d.queues[x := q.(onRr := false, tree := None)]
            && DelRr(d, x).active == d.active && DelRr(d, x).dispatched == d.dispatched
            && DelRr(d, x).rqQueued == d.rqQueued
  {
    hide TreesOk, CountsOk, GroupCountsOk, CfqGroups.Inv, NotifyDel, Erase;
    var q := d.queues[x];
    BusyIn(d, x);
    DelRrIs(d, x);
    DelRrCounts(d, x);
    UnlinkTrees(d.queues, d.trees, x, q.(onRr := false, tree := None));
    NotifyDelInv(d.groups, q.group);
  }

  lemma ResortIs(d: Data, x: Qid, key: int, t: nat)
    requires Sound(d) && x in d.queues && d.queues[x].onRr && t < TREES
    requires d.queues[x].key != key || d.queues[x].tree != Some(t)
    ensures var q := d.queues[x];
            && q.group in d.trees && q.tree.Some? && q.tree.value < TREES && |d.trees[q.group]| == TREES
            && x in d.trees[q.group][q.tree.value].order
    ensures var q := d.queues[x];
            var g, s := q.group, q.tree.value;
            var trees1: map<Gid, seq<Tree>> := d.trees[g := d.trees[g][s := Erase(d.trees[g][s], x)]];
            exists p :: 0 <= p <= |trees1[g][t].order| &&
              Resort(d, x, key, t) == d.(queues := d.queues[x := q.(key := key, tree := Some(t))],
                                         trees := trees1[g := trees1[g][t := InsertAt(trees1[g][t], x, p)]])
  {
    hide TreesOk, CountsOk, GroupCountsOk, CfqGroups.Inv, Erase, InsertAt, Place;
    BusyIn(d, x);
    UnlinkMembers(d, x);
    var q := d.queues[x];
    var g, s := q.group, q.tree.value;
    var u := Unlink(d, x);
    var p := Place(Keys(u.trees[g][t].order, TreeKeys(u)), key);
    assert u.queues[x := q.(key := key, tree := Some(t))] == d.queues[x := q.(key := key, tree := Some(t))];
    assert Resort(d, x, key, t) == Link(u, x, key, t);
    var trees1: map<Gid, seq<Tree>> := d.trees[g := d.trees[g][s := Erase(d.trees[g][s], x)]];
    assert u.trees == trees1;
    assert Resort(d, x, key, t) == d.(queues := d.queues[x := q.(key := key, tree := Some(t))],
                                      trees := trees1[g := trees1[g][t := InsertAt(trees1[g][t], x, p)]]);
  }

  /** Moving a busy queue to another place, or another tree, changes nothing else. */
  lemma ResortOk(d: Data, x: Qid, key: int, t: nat)
    requires Sound(d) && x in d.queues && d.queues[x].onRr && t < TREES
    ensures Sound(Resort(d, x, key, t))
    ensures Resort(d, x, key, t).queues == d.queues[x := d.queues[x].(key := key, tree := Some(t))]
    ensures Resort(d, x, key, t) == d.(queues := Resort(d, x, key, t).queues, trees := Resort(d, x, key, t).trees)
  {
    hide TreesOk, CfqGroups.Inv, Erase, InsertAt, Resort, Queued, OnRr, OnRrIn;
    var q := d.queues[x];
    var n := q.(key := key, tree := Some(t));
    if q.key == key && q.tree == Some(t) {
      ResortSame(d, x, key, t);
    } else {
      ResortIs(d, x, key, t);
      var g, s := q.group, q.tree.value;
      var off := q.(tree := None);
      UnlinkTrees(d.queues, d.trees, x, off);
      var trees1: map<Gid, seq<Tree>> := d.trees[g := d.trees[g][s := Erase(d.trees[g][s], x)]];
      var p :| 0 <= p <= |trees1[g][t].order| &&
        Resort(d, x, key, t) == d.(queues := d.queues[x := n], trees := trees1[g := trees1[g][t := InsertAt(trees1[g][t], x, p)]]);
      LinkTrees(d.queues[x := off], trees1, x, n, t, p);
      assert d.queues[x := off][x := n] == d.queues[x := n];
      SameSets(d.queues, x, n);
    }
  }

  lemma ResortSame(d: Data, x: Qid, key: int, t: nat)
    requires Sound(d) && x in d.queues && d.queues[x].onRr && t < TREES
    requires d.queues[x].key == key && d.queues[x].tree == Some(t)
    ensures Resort(d, x, key, t) == d && d.queues == d.queues[x := d.queues[x].(key := key, tree := Some(t))]
  {
  }

  lemma SameSets(qs: Queues, x: Qid, q: Queue)
    requires x in qs && q.onRr == qs[x].onRr && q.group == qs[x].group && q.sort == qs[x].sort
    ensures OnRr(qs[x := q]) == OnRr(qs) && Queued(qs[x := q]) == Queued(qs)
    ensures forall g :: OnRrIn(qs[x := q], g) == OnRrIn(qs, g)
  {
    SameQueued(qs, x, q);
  }

  lemma AddRrIs(d: Data, x: Qid, key: int, t: nat, c: Tunables)
    requires Sound(d) && x in d.queues && !d.queues[x].onRr && t < TREES
    requires d.queues[x].group in d.trees && |d.trees[d.queues[x].group]| == TREES
    requires forall y :: y in d.trees[d.queues[x].group][t].order ==> y in d.queues
    requires Members(d.groups) && d.queues[x].group in d.groups.group
    ensures var q := d.queues[x];
            var n := q.(key := key, tree := Some(t), onRr := true);
            var g := q.group;
            exists p :: 0 <= p <= |d.trees[g][t].order| &&
              AddRr(d, x, key, t, c) == d.(queues := d.queues[x := n],
                                           trees := d.trees[g := d.trees[g][t := InsertAt(d.trees[g][t], x, p)]],
                                           busy := d.busy + 1, groups := NotifyAdd(d.groups, g, c.idleDelay))
  {
    hide Sound, InsertAt, Place, NotifyAdd, Members;
    var q := d.queues[x];
    var n := q.(key := key, tree := Some(t), onRr := true);
    var d1 := SetQueue(d, x, q.(onRr := true));
    var p := Place(Keys(d.trees[q.group][t].order, TreeKeys(d1)), key);
    assert d1.queues[x := n] == d.queues[x := n];
    assert AddRr(d, x, key, t, c) ==
           d.(queues := d.queues[x := n],
              trees := d.trees[q.group := d.trees[q.group][t := InsertAt(d.trees[q.group][t], x, p)]],
              busy := d.busy + 1, groups := NotifyAdd(d.groups, q.group, c.idleDelay));
  }

  lemma AddRrCounts(d: Data, x: Qid, n: Queue, c: Tunables)
    requires Sound(d) && x in d.queues && !d.queues[x].onRr && n.onRr
    requires n.group == d.queues[x].group && n.sort == d.queues[x].sort && Members(d.groups) && n.group in d.groups.group
    ensures var qs := d.queues[x := n];
            && CountsOk(qs, d.busy + 1, d.rqQueued)
            && GroupCountsOk(qs, NotifyAdd(d.groups, n.group, c.idleDelay).group)
            && NotifyAdd(d.groups, n.group, c.idleDelay).group.Keys == d.groups.group.Keys
  {
    hide TreesOk, QueuesOk, NotifyAdd, OnRr, OnRrIn, Queued;
    MoreBusy(d.queues, x, n);
    SameQueued(d.queues, x, n);
    NotifyCounts(d.groups, n.group, c.idleDelay);
  }

  /** A queue that becomes busy; it is sound but for being empty, unless it is the active one. */
  lemma AddRrOk(d: Data, x: Qid, key: int, t: nat, c: Tunables)
    requires Sound(d) && x in d.queues && !d.queues[x].onRr && t < TREES
    requires d.queues[x].group in d.trees && |d.trees[d.queues[x].group]| == TREES
    requires forall y :: y in d.trees[d.queues[x].group][t].order ==> y in d.queues
    requires Members(d.groups) && d.queues[x].group in d.groups.group
    ensures var q := d.queues[x];
            var n := q.(key := key, tree := Some(t), onRr := true);
            var e := AddRr(d, x, key, t, c);
            && Sound(e) && e.queues == d.queues[x := n] && e.active == d.active
            && e.rqQueued == d.rqQueued && e.dispatched == d.dispatched
  {
    hide TreesOk, CfqGroups.Inv, InsertAt, AddRr, NotifyAdd, Members, CountsOk, GroupCountsOk;
    var q := d.queues[x];
    var g := q.group;
    var n := q.(key := key, tree := Some(t), onRr := true);
    AddRrIs(d, x, key, t, c);
    var p :| 0 <= p <= |d.trees[g][t].order| &&
      AddRr(d, x, key, t, c) == d.(queues := d.queues[x := n],
                                   trees := d.trees[g := d.trees[g][t := InsertAt(d.trees[g][t], x, p)]],
                                   busy := d.busy + 1, groups := NotifyAdd(d.groups, g, c.idleDelay));
    LinkTrees(d.queues, d.trees, x, n, t, p);
    AddRrCounts(d, x, n, c);
    NotifyAddInv(d.groups, g, c.idleDelay);
  }

  // ---------- requests that come in, and merge ----------

  lemma SortInsertOk(s: seq<Rq>, r: Rq)
    requires Distinct(s) && r !in s
    ensures Distinct(SortInsert(s, r))
    ensures forall y :: y in SortInsert(s, r) <==> y == r || y in s
  {
    var p := SortPlace(s, r.pos);
    assert s == s[..p] + s[p..];
  }

  lemma PutInOk(x: Qid, q: Queue, r: Rq, last: nat, c: Tunables)
    requires QueueOk(x, q) && q.onRr && r.queue == x && r !in q.sort
    ensures QueueOk(x, PutIn(q, r, last, c)) && forall y :: y in PutIn(q, r, last, c).sort <==> y == r || y in q.sort
    ensures r in PutIn(q, r, last, c).sort
    ensures var p := PutIn(q, r, last, c); p.group == q.group && p.tree == q.tree && p.onRr == q.onRr
  {
    hide SortInsert, Choose;
    SortInsertOk(q.sort, r);
  }

  lemma QueuedPutIn(qs: Queues, x: Qid, q: Queue, r: Rq)
    requires x in qs && forall y :: y in q.sort <==> y == r || y in qs[x].sort
    ensures Queued(qs[x := q]) == Queued(qs) + {r}
  {
    var e := qs[x := q];
    forall y
      ensures y in Queued(e) <==> y in Queued(qs) || y == r
    {
      if y in Queued(qs) {
        var z :| z in qs && y in qs[z].sort;
        assert z in e && y in e[z].sort;
      }
      assert x in e && r in e[x].sort;
      if y in Queued(e) {
        var z :| z in e && y in e[z].sort;
        assert z in qs && (y in qs[z].sort || y == r);
      }
    }
  }

  lemma PutSound(d: Data, r: Rq, last: nat, c: Tunables)
    requires Sound(d) && r.queue in d.queues && d.queues[r.queue].onRr && r !in Queued(d.queues)
    ensures Sound(SetQueue(d, r.queue, PutIn(d.queues[r.queue], r, last, c)).(rqQueued := d.rqQueued + 1))
    ensures Queued(SetQueue(d, r.queue, PutIn(d.queues[r.queue], r, last, c)).queues) == Queued(d.queues) + {r}
  {
    var x := r.queue;
    assert r !in d.queues[x].sort;
    PutSoundAt(d, r, last, c);
  }

  lemma PutSoundAt(d: Data, r: Rq, last: nat, c: Tunables)
    requires Sound(d) && r.queue in d.queues && d.queues[r.queue].onRr
    requires r !in Queued(d.queues) && r !in d.queues[r.queue].sort
    ensures Sound(SetQueue(d, r.queue, PutIn(d.queues[r.queue], r, last, c)).(rqQueued := d.rqQueued + 1))
    ensures Queued(SetQueue(d, r.queue, PutIn(d.queues[r.queue], r, last, c)).queues) == Queued(d.queues) + {r}
  {
    hide PutIn, CfqGroups.Inv, QueueOk, TreesOk, Queued, OnRr, OnRrIn;
    var x := r.queue;
    var q := d.queues[x];
    PutInOk(x, q, r, last, c);
    var n := PutIn(q, r, last, c);
    SameTrees(d.queues, d.trees, x, n);
    QueuedPutIn(d.queues, x, n, r);
  }

  lemma InsertedOk(d: Data, r: Rq, last: nat, key: int, t: nat, c: Tunables)
    requires InOrder(d) && r.queue in d.queues && t < TREES && r !in Queued(d.queues)
    ensures InOrder(Insert(d, r, last, key, t, c))
    ensures Queued(Insert(d, r, last, key, t, c).queues) == Queued(d.queues) + {r}
    ensures Insert(d, r, last, key, t, c).dispatched == d.dispatched
  {
    hide Sound, AddRr, PutIn, Queued;
    var x := r.queue;
    GroupMembers(d, x);
    QueueOf(d, x);
    var d1 := d;
    if !d.queues[x].onRr {
      AddRrOk(d, x, key, t, c);
      d1 := AddRr(d, x, key, t, c);
      SameQueued(d.queues, x, d1.queues[x]);
    }
    assert r !in Queued(d1.queues);
    QueueOf(d1, x);
    PutSound(d1, r, last, c);
    NotQueued(d1.queues, r);
    PutInOk(x, d1.queues[x], r, last, c);
    var e := Insert(d, r, last, key, t, c);
    assert e.queues == d.queues[x := e.queues[x]];
  }

  lemma NotQueued(qs: Queues, r: Rq)
    requires r.queue in qs && r !in Queued(qs)
    ensures r !in qs[r.queue].sort
  {
  }

  lemma QueueOf(d: Data, x: Qid)
    requires Sound(d) && x in d.queues
    ensures QueueOk(x, d.queues[x])
  {
    hide TreesOk, CountsOk, GroupCountsOk, CfqGroups.Inv;
  }

  // ---------- a request that starts earlier ----------

  lemma RenewOk(s: seq<Rq>, r: Rq, n: Rq)
    requires Distinct(s) && r in s && n !in s
    ensures var t := s[RqIndex(s, r) := n];
            Distinct(t) && forall y :: y in t <==> y == n || (y in s && y != r)
  {
    var i := RqIndex(s, r);
    var t := s[i := n];
    forall y
      ensures y in t <==> y == n || (y in s && y != r)
    {
      assert t[i] == n;
      if y in s && y != r {
        var j :| 0 <= j < |s| && s[j] == y;
        assert t[j] == y;
      }
    }
  }

  lemma MovedQueueOk(x: Qid, q: Queue, r: Rq, n: Rq, next: Option<Rq>)
    requires QueueOk(x, q) && r in q.sort && n !in q.sort && n.queue == x
    requires next == Some(n) || (next.Some? && next.value in q.sort && next.value != r)
    ensures r in q.fifo
    ensures var p := q.(sort := SortInsert(Without(q.sort, r), n), fifo := q.fifo[RqIndex(q.fifo, r) := n], next := next);
            QueueOk(x, p) && forall y :: y in p.sort <==> y == n || (y in q.sort && y != r)
  {
    hide SortInsert, Without;
    WithoutOk(q.sort, r);
    SortInsertOk(Without(q.sort, r), n);
    RenewOk(q.fifo, r, n);
    assert n in SortInsert(Without(q.sort, r), n);
  }

  lemma QueuedRenew(qs: Queues, gids: set<Gid>, x: Qid, q: Queue, r: Rq, n: Rq)
    requires QueuesOk(qs, gids) && x in qs && r in qs[x].sort && n !in Queued(qs)
    requires forall y :: y in q.sort <==> y == n || (y in qs[x].sort && y != r)
    ensures Queued(qs[x := q]) == Queued(qs) - {r} + {n} && r in Queued(qs)
  {
    var e := qs[x := q];
    forall y
      ensures y in Queued(e) <==> y == n || (y in Queued(qs) && y != r)
    {
      if y in Queued(qs) && y != r {
        var z :| z in qs && y in qs[z].sort;
        assert z in e && y in e[z].sort;
      }
      assert x in e && n in e[x].sort;
      if y in Queued(e) {
        var z :| z in e && y in e[z].sort;
        assert z in qs && (y == n || y in qs[z].sort);
        assert y != n ==> y.queue == z && r.queue == x;
      }
    }
  }

  /** What is chosen, between the next request under its new position and the request that moved. */
  lemma ChosenNext(x: Qid, q: Queue, r: Rq, n: Rq, last: nat, c: Tunables)
    requires QueueOk(x, q) && r in q.sort
    ensures var next := if q.next == Some(r) then Some(n) else q.next;
            var m := Choose(next, Some(n), last, c.backMax, c.penalty);
            m == Some(n) || (m.Some? && m.value in q.sort && m.value != r)
  {
    hide Choose;
  }

  lemma RepositionedOk(d: Data, r: Rq, pos: nat, last: nat, c: Tunables)
    requires InOrder(d) && r.queue in d.queues && r in d.queues[r.queue].sort && r.(pos := pos) !in Queued(d.queues)
    ensures r in d.queues[r.queue].fifo && InOrder(Reposition(d, r, pos, last, c))
    ensures Queued(Reposition(d, r, pos, last, c).queues) == Queued(d.queues) - {r} + {r.(pos := pos)}
    ensures Reposition(d, r, pos, last, c).dispatched == d.dispatched
  {
    hide CfqGroups.Inv, QueueOk, TreesOk, Queued, OnRr, OnRrIn, Choose, SortInsert, Without;
    var x := r.queue;
    var q := d.queues[x];
    var n := r.(pos := pos);
    NotQueued(d.queues, n);
    ChosenNext(x, q, r, n, last, c);
    var next := Choose(if q.next == Some(r) then Some(n) else q.next, Some(n), last, c.backMax, c.penalty);
    MovedQueueOk(x, q, r, n, next);
    var p := q.(sort := SortInsert(Without(q.sort, r), n), fifo := q.fifo[RqIndex(q.fifo, r) := n], next := next);
    SameTrees(d.queues, d.trees, x, p);
    QueuedRenew(d.queues, d.trees.Keys, x, p, r, n);
    SwapSize(Queued(d.queues), r, n);
    assert n in p.sort;
  }

  lemma SwapSize(s: set<Rq>, r: Rq, n: Rq)
    requires r in s && n !in s
    ensures |s - {r} + {n}| == |s|
  {
  }

  // ---------- requests that become one ----------

  /** The order of the fifo is nobody's business here. */
  lemma SameFifo(d: Data, x: Qid, fifo: seq<Rq>)
    requires Sound(d) && x in d.queues && Distinct(fifo) && forall r :: r in fifo <==> r in d.queues[x].fifo
    ensures Sound(SetQueue(d, x, d.queues[x].(fifo := fifo)))
    ensures Queued(SetQueue(d, x, d.queues[x].(fifo := fifo)).queues) == Queued(d.queues)
  {
    hide CfqGroups.Inv, TreesOk, Queued, OnRr, OnRrIn;
    var q := d.queues[x].(fifo := fifo);
    SameTrees(d.queues, d.trees, x, q);
    SameQueued(d.queues, x, q);
  }

  lemma MergedFifoOk(fifo: seq<Rq>, rq: Rq, gone: Rq, older: bool)
    requires Distinct(fifo) && rq in fifo && gone in fifo && rq != gone
    ensures Distinct(MergedFifo(fifo, rq, gone, older))
    ensures forall r :: r in MergedFifo(fifo, rq, gone, older) <==> r in fifo && r != gone
  {
    hide Without;
    WithoutOk(fifo, gone);
    WithoutOk(fifo, rq);
    RenewOk(Without(fifo, rq), gone, rq);
  }

  lemma MergedWithinOk(d: Data, rq: Rq, gone: Rq, older: bool)
    requires InOrder(d) && rq != gone && rq.queue in d.queues
    requires rq in d.queues[rq.queue].sort && gone in d.queues[rq.queue].sort
    ensures gone in d.queues[rq.queue].fifo && InOrder(MergedWithin(d, rq, gone, older))
    ensures Queued(MergedWithin(d, rq, gone, older).queues) == Queued(d.queues) - {gone}
  {
    hide Sound, Queued, Without, MergedFifo, QueueOk;
    var x := rq.queue;
    var q := d.queues[x];
    QueueOf(d, x);
    MergedNext(x, q, rq, gone);
    var next := if q.next == Some(gone) then Some(rq) else q.next;
    TakenSound(d, x, gone, next);
    TakeOutOk(x, q, gone, next);
    var e := SetQueue(d, x, TakeOut(q, gone, next)).(rqQueued := d.rqQueued - 1);
    MergedFifoOk(q.fifo, rq, gone, older);
    WithoutOk(q.fifo, gone);
    SameFifo(e, x, MergedFifo(q.fifo, rq, gone, older));
    var p := e.queues[x].(fifo := MergedFifo(q.fifo, rq, gone, older));
    assert MergedWithin(d, rq, gone, older) == SetQueue(e, x, p) by {
      assert d.queues[x := TakeOut(q, gone, next)][x := p] == d.queues[x := p];
    }
    assert rq in p.sort;
  }

  lemma MergedNext(x: Qid, q: Queue, rq: Rq, gone: Rq)
    requires QueueOk(x, q) && rq in q.sort && gone in q.sort && rq != gone
    ensures rq in q.fifo && gone in q.fifo && Distinct(q.fifo)
    ensures var next := if q.next == Some(gone) then Some(rq) else q.next;
            (next.None? <==> |q.sort| == 1) && (next.Some? ==> next.value in q.sort && next.value != gone)
  {
    TwoIn(q.sort, rq, gone);
  }

  lemma LosingNext(x: Qid, q: Queue, gone: Rq, c: Tunables)
    requires QueueOk(x, q) && gone in q.sort
    ensures gone in q.fifo && q.onRr
    ensures var next := if q.next == Some(gone) then FindNext(q.sort, gone, c.backMax, c.penalty) else q.next;
            (next.None? <==> |q.sort| == 1) && (next.Some? ==> next.value in q.sort && next.value != gone)
  {
    hide FindNext;
    FindNextOk(q.sort, gone, c.backMax, c.penalty);
    if q.next != Some(gone) {
      TwoIn(q.sort, q.next.value, gone);
    }
  }

  /** A request of another queue takes over one that would not have expired first. */
  lemma HandedOk(d: Data, rq: Rq, gone: Rq, c: Tunables)
    requires InOrder(d) && rq.queue != gone.queue && rq.queue in d.queues && rq in d.queues[rq.queue].sort
    requires gone.queue in d.queues && gone in d.queues[gone.queue].sort
    ensures InOrder(Merged(d, rq, gone, false, c))
    ensures Queued(Merged(d, rq, gone, false, c).queues) == Queued(d.queues) - {gone}
  {
    hide Sound, Queued, Without, QueueOk, FindNext, DelRr;
    var y := gone.queue;
    var q := d.queues[y];
    QueueOf(d, y);
    LosingNext(y, q, gone, c);
    HandedTree(d, rq, gone, false, c);
    var next := if q.next == Some(gone) then FindNext(q.sort, gone, c.backMax, c.penalty) else q.next;
    TakenSound(d, y, gone, next);
    TakeOutOk(y, q, gone, next);
    var e := Handed(d, rq, gone, false, c);
    assert e == SetQueue(d, y, TakeOut(q, gone, next)).(rqQueued := d.rqQueued - 1);
    if e.queues[y].onRr && e.queues[y].sort == [] && d.active != Some(y) {
      DelRrOk(e, y);
      SameQueued(e.queues, y, DelRr(e, y).queues[y]);
    }
  }

  /** But one that is older takes the other along to its own fifo, where it does not belong. */
  lemma HandedAcross(d: Data, rq: Rq, gone: Rq, c: Tunables)
    requires InOrder(d) && rq.queue != gone.queue && rq.queue in d.queues && rq in d.queues[rq.queue].sort
    requires gone.queue in d.queues && gone in d.queues[gone.queue].sort
    ensures !InOrder(Merged(d, rq, gone, true, c))
  {
    hide TreesOk, CountsOk, GroupCountsOk, CfqGroups.Inv, Without, FindNext;
    var y := gone.queue;
    HandedTree(d, rq, gone, true, c);
    var e := Handed(d, rq, gone, true, c);
    var f := Merged(d, rq, gone, true, c);
    var q := d.queues[y];
    WithoutOk(q.sort, gone);
    assert e.queues[y].fifo[RqIndex(q.fifo, gone)] == rq;
    assert rq in e.queues[y].fifo && rq !in e.queues[y].sort;
    assert f.queues[y].fifo == e.queues[y].fifo && f.queues[y].sort == e.queues[y].sort;
  }

  /**
    cfq_merged_requests keeps the scheduler in order if and only if it does not move a request to the
    fifo of another queue.
  */
  lemma MergedIff(d: Data, rq: Rq, gone: Rq, older: bool, c: Tunables)
    requires InOrder(d) && rq != gone && rq.queue in d.queues && rq in d.queues[rq.queue].sort
    requires gone.queue in d.queues && gone in d.queues[gone.queue].sort
    ensures InOrder(Merged(d, rq, gone, older, c)) <==> rq.queue == gone.queue || !older
    ensures rq.queue == gone.queue || !older ==> Queued(Merged(d, rq, gone, older, c).queues) == Queued(d.queues) - {gone}
  {
    hide InOrder, Queued, Handed, MergedWithin, DelRr;
    if rq.queue == gone.queue {
      MergedWithinOk(d, rq, gone, older);
    } else if older {
      HandedAcross(d, rq, gone, c);
    } else {
      HandedOk(d, rq, gone, c);
    }
  }

  lemma TwoIn(s: seq<Rq>, a: Rq, b: Rq)
    requires a in s && b in s && a != b
    ensures |s| > 1
  {
  }
}
