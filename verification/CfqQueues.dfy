/**
The queues of block/cfq-iosched.c: the requests of a process, sorted and in order of arrival, the
request that is next, and the service trees of a group that hold its busy queues.
*/
module CfqQueues {
  import opened Common
  import opened CfqTree
  import opened CfqGroups

  type Qid = nat

  /** The trees of a group: three of best-effort, three of real-time, one of idle class. */
  const TREES: nat := 7

  /** A request with the queue it belongs to. */
  datatype Rq = Rq(id: nat, queue: Qid, pos: nat, sync: bool, prio: bool)

  datatype Queue = Queue(group: Gid, tree: Option<nat>, key: int, onRr: bool, sort: seq<Rq>, fifo: seq<Rq>, next: Option<Rq>)

  datatype Data = Data(queues: map<Qid, Queue>, trees: map<Gid, seq<Tree>>, groups: Groups, active: Option<Qid>,
                       rqQueued: int, busy: int, dispatched: seq<Rq>)

  // ---------- which request is next ----------

  datatype Distance = Ahead(d: int) | Wrapped

  function DistanceOf(pos: nat, last: nat, backMax: nat, penalty: nat): Distance {
    if pos >= last then Ahead(pos - last)
    else if pos + backMax * 2 >= last then Ahead((last - pos) * penalty)
    else Wrapped
  }

  /** cfq_choose_req */
  function Choose(rq1: Option<Rq>, rq2: Option<Rq>, last: nat, backMax: nat, penalty: nat): (r: Option<Rq>)
    ensures r == rq1 || r == rq2
    ensures r.None? <==> rq1.None? && rq2.None?
  {
    if rq1.None? || rq1 == rq2 then rq2
    else if rq2.None? then rq1
    else
      var a, b := rq1.value, rq2.value;
      if a.sync != b.sync then (if a.sync then rq1 else rq2)
      else if a.prio != b.prio then (if a.prio then rq1 else rq2)
      else
        var d1, d2 := DistanceOf(a.pos, last, backMax, penalty), DistanceOf(b.pos, last, backMax, penalty);
        if d1.Ahead? && d2.Ahead? then
          if d1.d < d2.d then rq1 else if d2.d < d1.d then rq2 else if a.pos >= b.pos then rq1 else rq2
        else if d1.Ahead? then rq1
        else if d2.Ahead? then rq2
        else if a.pos <= b.pos then rq1 else rq2
  }

  function RqIndex(s: seq<Rq>, r: Rq): (i: nat)
    requires r in s
    ensures i < |s| && s[i] == r
  {
    if s[0] == r then 0 else 1 + RqIndex(s[1..], r)
  }

  function Without(s: seq<Rq>, r: Rq): seq<Rq>
    requires r in s
  {
    var i := RqIndex(s, r);
    s[..i] + s[i + 1..]
  }

  /** cfq_find_next_rq: from the neighbours in the sorted list, going round at its end. */
  function FindNext(s: seq<Rq>, r: Rq, backMax: nat, penalty: nat): Option<Rq>
    requires r in s
  {
    var i := RqIndex(s, r);
    var prev := if i > 0 then Some(s[i - 1]) else None;
    var next := if i + 1 < |s| then Some(s[i + 1]) else if i > 0 then Some(s[0]) else None;
    Choose(next, prev, r.pos, backMax, penalty)
  }

  /** Where a request goes in the sorted list: behind those at the same position. */
  function SortPlace(s: seq<Rq>, pos: nat): (p: nat)
    ensures p <= |s|
  {
    if s == [] then 0 else if pos < s[|s| - 1].pos then SortPlace(s[..|s| - 1], pos) else |s|
  }

  function SortInsert(s: seq<Rq>, r: Rq): seq<Rq> {
    var p := SortPlace(s, r.pos);
    s[..p] + [r] + s[p..]
  }

  // ---------- the invariant ----------

  /** A queue by itself. */
  ghost predicate QueueOk(x: Qid, q: Queue) {
    && Distinct(q.sort) && Distinct(q.fifo)
    && (forall r :: r in q.sort <==> r in q.fifo)
    && (forall r :: r in q.sort ==> r.queue == x)
    && (q.next.None? <==> q.sort == []) && (q.next.Some? ==> q.next.value in q.sort)
    && (q.sort != [] ==> q.onRr)
    && (q.onRr <==> q.tree.Some?) && (q.tree.Some? ==> q.tree.value < TREES)
  }

  type Queues = map<Qid, Queue>

  ghost predicate QueuesOk(qs: Queues, gids: set<Gid>) {
    forall x :: x in qs ==> QueueOk(x, qs[x]) && qs[x].group in gids
  }

  ghost predicate IsIn(qs: Queues, g: Gid, t: nat, x: Qid) {
    x in qs && qs[x].group == g && qs[x].tree == Some(t)
  }

  /** A queue is in the tree that it says it is in, and in no other. */
  ghost predicate TreesOk(qs: Queues, trees: map<Gid, seq<Tree>>) {
    && (forall g :: g in trees ==> |trees[g]| == TREES)
    && (forall g, t :: g in trees && 0 <= t < TREES ==> TreeOk(trees[g][t]))
    && (forall g, t, x :: g in trees && 0 <= t < TREES ==> (x in trees[g][t].order <==> IsIn(qs, g, t, x)))
  }

  function OnRr(qs: Queues): set<Qid> {
    set x | x in qs && qs[x].onRr
  }

  function OnRrIn(qs: Queues, g: Gid): set<Qid> {
    set x | x in qs && qs[x].onRr && qs[x].group == g
  }

  function Queued(qs: Queues): set<Rq> {
    set x, r | x in qs && r in qs[x].sort :: r
  }

  /** The counters of the queues and requests count what they are meant to, and so do those of the groups. */
  ghost predicate CountsOk(qs: Queues, busy: int, rqQueued: int) {
    busy == |OnRr(qs)| && rqQueued == |Queued(qs)|
  }

  ghost predicate GroupCountsOk(qs: Queues, group: map<Gid, Group>) {
    forall g :: g in group ==> group[g].nr == |OnRrIn(qs, g)|
  }

  /** Only the active queue may be busy without a request, and it is busy. */
  ghost predicate ActiveOk(qs: Queues, active: Option<Qid>) {
    && (active.Some? ==> active.value in qs && qs[active.value].onRr)
    && forall x :: x in qs && qs[x].onRr && active != Some(x) ==> qs[x].sort != []
  }

  ghost predicate Sound(d: Data) {
    && d.trees.Keys == d.groups.group.Keys && QueuesOk(d.queues, d.trees.Keys) && TreesOk(d.queues, d.trees)
    && CountsOk(d.queues, d.busy, d.rqQueued) && GroupCountsOk(d.queues, d.groups.group) && CfqGroups.Inv(d.groups)
  }

  ghost predicate InOrder(d: Data) {
    Sound(d) && ActiveOk(d.queues, d.active)
  }
}
