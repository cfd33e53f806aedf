/**
What block/cfq-iosched.c does to its queues: adding and dispatching requests, making a queue busy
and idle, the end of a slice, and the choice of a queue when the scheduler has to be emptied.
*/
module CfqOps {
  import opened Common
  import opened CfqTree
  import opened CfqGroups
  import opened CfqQueues

  /** The settings of the scheduler. */
  datatype Tunables = Tunables(backMax: nat, penalty: nat, idleDelay: nat)

  function SetQueue(d: Data, x: Qid, q: Queue): Data {
    d.(queues := d.queues[x := q])
  }

  function SetTree(d: Data, g: Gid, t: nat, tree: Tree): Data
    requires g in d.trees && t < |d.trees[g]|
  {
    d.(trees := d.trees[g := d.trees[g][t := tree]])
  }

  // ---------- requests ----------

  /** A queue without one of its requests. */
  function TakeOut(q: Queue, r: Rq, next: Option<Rq>): Queue
    requires r in q.sort && r in q.fifo
  {
    q.(sort := Without(q.sort, r), fifo := Without(q.fifo, r), next := next)
  }

  /** cfq_dispatch_insert of any request of a queue: the next one, or one that has waited too long. */
  function Dispatch(d: Data, x: Qid, r: Rq, c: Tunables): Data
    requires x in d.queues && r in d.queues[x].sort && r in d.queues[x].fifo
  {
    var q := d.queues[x];
    SetQueue(d, x, TakeOut(q, r, FindNext(q.sort, r, c.backMax, c.penalty)))
      .(rqQueued := d.rqQueued - 1, dispatched := d.dispatched + [r])
  }

  // ---------- the service trees ----------

  function TreeKeys(d: Data): map<Qid, int> {
    map x | x in d.queues :: d.queues[x].key
  }

  /** Links a queue that is in no tree into tree t of its group. */
  function Link(d: Data, x: Qid, key: int, t: nat): Data
    requires x in d.queues && d.queues[x].group in d.trees && t < |d.trees[d.queues[x].group]|
    requires forall y :: y in d.trees[d.queues[x].group][t].order ==> y in d.queues
  {
    var q := d.queues[x];
    var tree := d.trees[q.group][t];
    var p := Place(Keys(tree.order, TreeKeys(d)), key);
    SetTree(SetQueue(d, x, q.(key := key, tree := Some(t))), q.group, t, InsertAt(tree, x, p))
  }

  /** Takes a queue out of the tree that it is in. */
  function Unlink(d: Data, x: Qid): Data
    requires x in d.queues && d.queues[x].tree.Some? && d.queues[x].group in d.trees
    requires d.queues[x].tree.value < |d.trees[d.queues[x].group]|
    requires x in d.trees[d.queues[x].group][d.queues[x].tree.value].order
  {
    var q := d.queues[x];
    SetTree(SetQueue(d, x, q.(tree := None)), q.group, q.tree.value, Erase(d.trees[q.group][q.tree.value], x))
  }

  /** cfq_add_cfqq_rr for a queue that is not busy: key and tree t are where it belongs now. */
  function AddRr(d: Data, x: Qid, key: int, t: nat, c: Tunables): Data
    requires x in d.queues && d.queues[x].group in d.trees && t < |d.trees[d.queues[x].group]|
    requires forall y :: y in d.trees[d.queues[x].group][t].order ==> y in d.queues
    requires Members(d.groups) && d.queues[x].group in d.groups.group
  {
    var q := d.queues[x];
    var d1 := Link(SetQueue(d, x, q.(onRr := true)), x, key, t);
    d1.(busy := d.busy + 1, groups := NotifyAdd(d.groups, q.group, c.idleDelay))
  }

  /** cfq_del_cfqq_rr */
  function DelRr(d: Data, x: Qid): Data
    requires x in d.queues && d.queues[x].tree.Some? && d.queues[x].group in d.trees
    requires d.queues[x].tree.value < |d.trees[d.queues[x].group]|
    requires x in d.trees[d.queues[x].group][d.queues[x].tree.value].order
    requires d.queues[x].group in d.groups.group
  {
    var q := d.queues[x];
    var d1 := Unlink(SetQueue(d, x, q.(onRr := false)), x);
    d1.(busy := d.busy - 1, groups := NotifyDel(d.groups, q.group))
  }

  /** cfq_resort_rr_list for a busy queue. */
  function Resort(d: Data, x: Qid, key: int, t: nat): Data
    requires Sound(d) && x in d.queues && d.queues[x].onRr && t < TREES
  {
    var q := d.queues[x];
    assert IsIn(d.queues, q.group, q.tree.value, x);
    if q.key == key && q.tree == Some(t) then d
    else
      UnlinkMembers(d, x);
      Link(Unlink(d, x), x, key, t)
  }

  lemma UnlinkMembers(d: Data, x: Qid)
    requires Sound(d) && x in d.queues && d.queues[x].onRr
    ensures var q := d.queues[x]; q.tree.Some? && IsIn(d.queues, q.group, q.tree.value, x)
    ensures var u := Unlink(d, x);
            var g := d.queues[x].group;
            && u.queues.Keys == d.queues.Keys && u.queues[x].group == g && |u.trees[g]| == TREES
            && forall s, y :: 0 <= s < TREES && y in u.trees[g][s].order ==> y in d.queues
  {
    hide CountsOk, GroupCountsOk;
    var q := d.queues[x];
    assert IsIn(d.queues, q.group, q.tree.value, x);
    EraseOk(d.trees[q.group][q.tree.value], x);
    forall s, y | 0 <= s < TREES && y in Unlink(d, x).trees[q.group][s].order
      ensures y in d.queues
    {
      assert y in d.trees[q.group][s].order;
      assert IsIn(d.queues, q.group, s, y);
    }
  }

  // ---------- requests that come in ----------

  /** A queue with one more request: at the end of the fifo, and in its place in the sorted list. */
  function PutIn(q: Queue, r: Rq, last: nat, c: Tunables): Queue {
    q.(sort := SortInsert(q.sort, r), fifo := q.fifo + [r], next := Choose(q.next, Some(r), last, c.backMax, c.penalty))
  }

  /** cfq_insert_request; key and t are where the queue goes if it was not busy. */
  function Insert(d: Data, r: Rq, last: nat, key: int, t: nat, c: Tunables): Data
    requires Sound(d) && r.queue in d.queues && t < TREES
  {
    var x := r.queue;
    GroupMembers(d, x);
    var d1 := if d.queues[x].onRr then d else AddRr(d, x, key, t, c);
    SetQueue(d1, x, PutIn(d1.queues[x], r, last, c)).(rqQueued := d.rqQueued + 1)
  }

  lemma GroupMembers(d: Data, x: Qid)
    requires Sound(d) && x in d.queues
    ensures Members(d.groups) && d.queues[x].group in d.groups.group && d.queues[x].group in d.trees
    ensures |d.trees[d.queues[x].group]| == TREES
    ensures forall t, y :: 0 <= t < TREES && y in d.trees[d.queues[x].group][t].order ==> y in d.queues
  {
    hide CountsOk, GroupCountsOk;
    var g := d.queues[x].group;
    forall t, y | 0 <= t < TREES && y in d.trees[g][t].order
      ensures y in d.queues
    {
      assert IsIn(d.queues, g, t, y);
    }
  }

  /** cfq_reposition_rq_rb: a front merge has moved the start of a request to pos. */
  function Reposition(d: Data, r: Rq, pos: nat, last: nat, c: Tunables): Data
    requires r.queue in d.queues && r in d.queues[r.queue].sort && r in d.queues[r.queue].fifo
  {
    var q := d.queues[r.queue];
    var n := r.(pos := pos);
    var next := if q.next == Some(r) then Some(n) else q.next;
    SetQueue(d, r.queue, q.(sort := SortInsert(Without(q.sort, r), n), fifo := q.fifo[RqIndex(q.fifo, r) := n],
                            next := Choose(next, Some(n), last, c.backMax, c.penalty)))
  }

  /** The fifo when `gone` has become part of `rq`, which takes the place of `gone` if that is older. */
  function MergedFifo(fifo: seq<Rq>, rq: Rq, gone: Rq, older: bool): seq<Rq>
    requires gone in fifo
  {
    if older && rq in fifo && gone in Without(fifo, rq) then
      var l := Without(fifo, rq);
      l[RqIndex(l, gone) := rq]
    else Without(fifo, gone)
  }

  /** cfq_merged_requests for two requests of a queue. */
  function MergedWithin(d: Data, rq: Rq, gone: Rq, older: bool): Data
    requires rq.queue in d.queues && gone in d.queues[rq.queue].sort && gone in d.queues[rq.queue].fifo
  {
    var q := d.queues[rq.queue];
    SetQueue(d, rq.queue, q.(sort := Without(q.sort, gone), fifo := MergedFifo(q.fifo, rq, gone, older),
                             next := if q.next == Some(gone) then Some(rq) else q.next)).(rqQueued := d.rqQueued - 1)
  }

  /** The queue that loses `gone` to a request of another queue; with an older `gone` that one joins its fifo. */
  function Losing(q: Queue, rq: Rq, gone: Rq, older: bool, c: Tunables): Queue
    requires gone in q.sort && gone in q.fifo
  {
    q.(sort := Without(q.sort, gone),
       fifo := if older then q.fifo[RqIndex(q.fifo, gone) := rq] else Without(q.fifo, gone),
       next := if q.next == Some(gone) then FindNext(q.sort, gone, c.backMax, c.penalty) else q.next)
  }

  /** cfq_merged_requests for requests of two queues, up to its last step. */
  function Handed(d: Data, rq: Rq, gone: Rq, older: bool, c: Tunables): Data
    requires rq.queue in d.queues && rq in d.queues[rq.queue].fifo && rq.queue != gone.queue
    requires gone.queue in d.queues && gone in d.queues[gone.queue].sort && gone in d.queues[gone.queue].fifo
  {
    var q := d.queues[rq.queue];
    var d1 := if older then SetQueue(d, rq.queue, q.(fifo := Without(q.fifo, rq))) else d;
    SetQueue(d1, gone.queue, Losing(d.queues[gone.queue], rq, gone, older, c)).(rqQueued := d.rqQueued - 1)
  }

  /** cfq_merged_requests: `gone` has become part of `rq`; `older` tells that it would have expired first. */
  function Merged(d: Data, rq: Rq, gone: Rq, older: bool, c: Tunables): Data
    requires Sound(d) && rq.queue in d.queues && rq in d.queues[rq.queue].sort
    requires gone.queue in d.queues && gone in d.queues[gone.queue].sort
  {
    var y := gone.queue;
    if rq.queue == y then MergedWithin(d, rq, gone, older)
    else
      var d1 := Handed(d, rq, gone, older, c);
      HandedTree(d, rq, gone, older, c);
      if d1.queues[y].onRr && d1.queues[y].sort == [] && d.active != Some(y) then DelRr(d1, y) else d1
  }

  lemma HandedTree(d: Data, rq: Rq, gone: Rq, older: bool, c: Tunables)
    requires Sound(d) && rq.queue in d.queues && rq in d.queues[rq.queue].sort && rq.queue != gone.queue
    requires gone.queue in d.queues && gone in d.queues[gone.queue].sort
    ensures rq in d.queues[rq.queue].fifo && gone in d.queues[gone.queue].fifo
    ensures var e := Handed(d, rq, gone, older, c);
            var y := gone.queue;
            var q := e.queues[y];
            && q.tree.Some? && q.group in e.trees && q.tree.value < |e.trees[q.group]|
            && y in e.trees[q.group][q.tree.value].order && q.group in e.groups.group
  {
    hide CountsOk, GroupCountsOk, CfqGroups.Inv, FindNext, Without;
    var y := gone.queue;
    var q := d.queues[y];
    assert IsIn(d.queues, q.group, q.tree.value, y);
  }

  // ---------- the end of a slice ----------

  /** cfq_group_served on the group of a queue. */
  function Charge(d: Data, x: Qid, charge: nat): Data
    requires x in d.queues && Members(d.groups) && d.queues[x].group in d.groups.group
  {
    d.(groups := Served(d.groups, d.queues[x].group, charge))
  }

  /** __cfq_slice_expired: the group pays, an empty queue stops being busy, another one is put in its place. */
  function Expired(d: Data, x: Qid, charge: nat, key: int, t: nat): Data
    requires Sound(d) && x in d.queues && d.queues[x].onRr && t < TREES
    requires Sound(Charge(d, x, charge))
  {
    var d1 := Charge(d, x, charge);
    UnlinkMembers(d1, x);
    var d2 := if d.queues[x].sort == [] then DelRr(d1, x) else Resort(d1, x, key, t);
    if d.active == Some(x) then d2.(active := None) else d2
  }

  /** cfq_slice_expired: the same for the active queue, if there is one. */
  function ExpiredActive(d: Data, charge: nat, key: int, t: nat): Data
    requires InOrder(d) && t < TREES && (d.active.Some? ==> Sound(Charge(d, d.active.value, charge)))
  {
    if d.active.None? then d else Expired(d, d.active.value, charge, key, t)
  }

  // ---------- emptying the scheduler ----------

  /** The first tree, from tree t on, that has a queue. */
  function FirstTree(trees: seq<Tree>, t: nat): (k: nat)
    requires t <= |trees|
    ensures t <= k <= |trees| && (k < |trees| ==> First(trees[k]).Some?)
    ensures forall i :: t <= i < k ==> First(trees[i]).None?
    decreases |trees| - t
  {
    if t == |trees| || First(trees[t]).Some? then t else FirstTree(trees, t + 1)
  }

  /** cfq_get_next_queue_forced */
  function NextForced(d: Data): (Data, Option<Qid>)
    requires Sound(d)
  {
    if d.rqQueued == 0 then (d, None)
    else
      var (gs, g) := NextGroup(d.groups);
      var d1 := d.(groups := gs);
      if g.None? || g.value !in d.trees then (d1, None)
      else
        var trees := d.trees[g.value];
        var k := FirstTree(trees, 0);
        if k == |trees| then (d1, None)
        else (SetTree(d1, g.value, k, Cached(trees[k])), First(trees[k]))
  }
}
