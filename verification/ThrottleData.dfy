/**
Groups, service tree and dispatch rounds of block/blk-throttle.c.

Every throttle group queues the bios it may not send yet; the groups that hold bios sit on a service
tree ordered by the time they may next dispatch.  The tree is a sequence in key order with the
cached leftmost entry beside it.
*/
module ThrottleData {
  import opened Common
  import opened ThrottleSlice

  type Gid = nat

  datatype Group = Group(read: Dir, write: Dir, disptime: int, onRr: bool)

  /** A bio on its way to the driver, with the group and direction it came from. */
  datatype Sent = Sent(g: Gid, write: bool, bio: Bio)

  const READ_QUOTA: nat := 6    // throtl_grp_quantum * 3 / 4
  const WRITE_QUOTA: nat := 2   // throtl_grp_quantum - READ_QUOTA
  const QUANTUM: nat := 32      // throtl_quantum

  // ---------- one direction ----------

  /** Counters match, bios leave in the order they came, and a direction without limits queues none. */
  ghost predicate DirOk(d: Dir, now: nat, c: Clock) {
    && SliceInv(d, now, c)
    && d.nrQueued == |d.queue|
    && d.arrived == d.admitted + d.queue
    && (NoRule(d) ==> d.queue == [])
  }

  ghost predicate Refused(d: Dir, now: nat, c: Clock)
    requires SliceInv(d, now, c)
  {
    d.queue != [] && !MayDispatch(d, d.queue[0].size, now, c).ok
  }

  /** A bio refused once is refused again at the same jiffy. */
  lemma RefusedAgain(d: Dir, size: nat, now: nat, c: Clock)
    requires SliceInv(d, now, c) && !MayDispatch(d, size, now, c).ok
    ensures var e := MayDispatch(d, size, now, c).d;
            SliceInv(e, now, c) && !MayDispatch(e, size, now, c).ok
  {
    MayDispatchInv(d, size, now, c);
    OpenSliceInv(d, now, c);
    var e := OpenSlice(d, now, c);
    var f := MayDispatch(d, size, now, c).d;
    assert OpenSlice(f, now, c) == f;
    assert f == e.(sliceEnd := f.sliceEnd);
  }

  /** tg_dispatch_one_bio on the direction's own fields. */
  function Pop(d: Dir): Dir
    requires d.queue != [] && d.nrQueued > 0
  {
    d.(queue := d.queue[1..], nrQueued := d.nrQueued - 1)
  }

  lemma ReleaseFrame(d: Dir, bio: Bio, queue: seq<Bio>, nr: nat, now: nat, c: Clock)
    requires c.Ok() && d.sliceStart <= now && d.sliceStart <= d.sliceEnd
    ensures var e := Release(d, bio, now, c);
            && Release(d.(queue := queue, nrQueued := nr), bio, now, c) == e.(queue := queue, nrQueued := nr)
            && e.bps == d.bps && e.iops == d.iops && e.arrived == d.arrived
  {
  }

  lemma PopRelease(d: Dir, now: nat, c: Clock)
    requires DirOk(d, now, c) && d.queue != []
    requires MayDispatch(d, d.queue[0].size, now, c).ok
    ensures var v := MayDispatch(d, d.queue[0].size, now, c);
            && v.d.queue == d.queue && v.d.nrQueued == d.nrQueued && v.d.sliceStart <= now && v.d.sliceStart <= v.d.sliceEnd
            && var e := Release(Pop(v.d), d.queue[0], now, c);
            && DirOk(e, now, c)
            && e.admitted == d.admitted + [d.queue[0]] && e.queue == d.queue[1..] && e.arrived == d.arrived
            && e.bps == d.bps && e.iops == d.iops && (d.started ==> e.started && e.first == d.first)
  {
    hide MayDispatch, Release, SliceInv;
    var bio := d.queue[0];
    SliceFacts(d, now, c);
    MayDispatchInv(d, bio.size, now, c);
    SliceFacts(MayDispatch(d, bio.size, now, c).d, now, c);
    ReleaseInv(d, bio, now, c);
    var v := MayDispatch(d, bio.size, now, c);
    ReleaseFrame(v.d, bio, d.queue[1..], d.nrQueued - 1, now, c);
    ReleasedQueueless(Release(v.d, bio, now, c), d.queue[1..], d.nrQueued - 1, now, c);
    assert d.admitted + d.queue == d.admitted + [bio] + d.queue[1..];
  }

  lemma SliceFacts(d: Dir, now: nat, c: Clock)
    requires SliceInv(d, now, c)
    ensures c.Ok() && d.bps.Ok() && d.iops.Ok() && d.sliceStart <= now
  {
  }

  lemma ReleasedQueueless(d: Dir, queue: seq<Bio>, nr: nat, now: nat, c: Clock)
    requires SliceInv(d, now, c)
    ensures SliceInv(d.(queue := queue, nrQueued := nr), now, c)
  {
  }

  /** One of the two loops of throtl_dispatch_tg. */
  method DispatchDir(d0: Dir, quota: nat, now: nat, c: Clock) returns (d: Dir, sent: seq<Bio>)
    requires DirOk(d0, now, c)
    ensures DirOk(d, now, c)
    ensures d.arrived == d0.arrived && d.admitted == d0.admitted + sent
    ensures d.bps == d0.bps && d.iops == d0.iops && (d0.started ==> d.started && d.first == d0.first)
    ensures |sent| <= quota
    ensures |sent| == quota || d.queue == [] || Refused(d, now, c)
  {
    d, sent := d0, [];
    while |sent| < quota && d.queue != []
      invariant DirOk(d, now, c)
      invariant d.arrived == d0.arrived && d.admitted == d0.admitted + sent
      invariant d.bps == d0.bps && d.iops == d0.iops && (d0.started ==> d.started && d.first == d0.first)
      invariant |sent| <= quota
      decreases quota - |sent|
    {
      var bio := d.queue[0];
      assert d.nrQueued > 0 ==> bio == d.queue[0];  // BUG_ON of tg_may_dispatch
      var v := MayDispatch(d, bio.size, now, c);
      if !v.ok {
        RefusedAgain(d, bio.size, now, c);
        MayDispatchInv(d, bio.size, now, c);
        d := v.d;
        return;
      }
      PopRelease(d, now, c);
      d := Release(Pop(v.d), bio, now, c);
      sent := sent + [bio];
    }
  }

  // ---------- the service tree ----------

  type Groups = map<Gid, Group>

  ghost predicate Within(tree: seq<Gid>, groups: Groups) {
    forall g <- tree :: g in groups
  }

  ghost predicate Sorted(tree: seq<Gid>, groups: Groups)
    requires Within(tree, groups)
  {
    forall i, j :: 0 <= i < j < |tree| ==> groups[tree[i]].disptime <= groups[tree[j]].disptime
  }

  /** The tree holds exactly the groups marked on_rr, in key order, and the leftmost cache is right. */
  ghost predicate TreeOk(tree: seq<Gid>, groups: Groups, left: Option<Gid>, count: int) {
    && Within(tree, groups) && Distinct(tree) && Sorted(tree, groups)
    && (forall g <- groups :: groups[g].onRr <==> g in tree)
    && (left.Some? ==> tree != [] && left.value == tree[0])
    && count == |tree|
  }

  /** Where tg_service_tree_add puts a key: after all keys not greater. */
  function Slot(tree: seq<Gid>, groups: Groups, key: int): (p: nat)
    requires Within(tree, groups)
    ensures p <= |tree|
    ensures forall i :: 0 <= i < p ==> groups[tree[i]].disptime <= key
    ensures p < |tree| ==> key < groups[tree[p]].disptime
  {
    if tree == [] || key < groups[tree[0]].disptime then 0
    else
      assert forall i :: 0 <= i < |tree| - 1 ==> tree[1..][i] == tree[i + 1];
      1 + Slot(tree[1..], groups, key)
  }

  function IndexOf(tree: seq<Gid>, g: Gid): (i: nat)
    requires g in tree
    ensures i < |tree| && tree[i] == g
  {
    if tree[0] == g then 0 else 1 + IndexOf(tree[1..], g)
  }

  /** Per-group quantities that are added up over the tree. */
  datatype Measure = Reads | Writes | Ready(now: int)

  function Weight(m: Measure, group: Group): nat {
    match m
    case Reads => |group.read.queue|
    case Writes => |group.write.queue|
    case Ready(now) => if group.disptime <= now then 1 else 0
  }

  function Sum(m: Measure, tree: seq<Gid>, groups: Groups): nat
    requires Within(tree, groups)
  {
    if tree == [] then 0 else Weight(m, groups[tree[0]]) + Sum(m, tree[1..], groups)
  }

  lemma {:induction false} SumConcat(m: Measure, a: seq<Gid>, b: seq<Gid>, groups: Groups)
    requires Within(a, groups) && Within(b, groups)
    ensures Within(a + b, groups)
    ensures Sum(m, a + b, groups) == Sum(m, a, groups) + Sum(m, b, groups)
  {
    if a == [] {
      assert a + b == b;
    } else {
      assert (a + b)[1..] == a[1..] + b;
      SumConcat(m, a[1..], b, groups);
    }
  }

  lemma {:induction false} SumFrame(m: Measure, tree: seq<Gid>, groups: Groups, g: Gid, group: Group)
    requires Within(tree, groups) && g !in tree
    ensures Sum(m, tree, groups[g := group]) == Sum(m, tree, groups)
  {
    if tree != [] {
      SumFrame(m, tree[1..], groups, g, group);
    }
  }

  function Insert(tree: seq<Gid>, p: nat, g: Gid): seq<Gid>
    requires p <= |tree|
  {
    tree[..p] + [g] + tree[p..]
  }

  function Remove(tree: seq<Gid>, i: nat): seq<Gid>
    requires i < |tree|
  {
    tree[..i] + tree[i + 1..]
  }

  lemma SumInsert(m: Measure, tree: seq<Gid>, groups: Groups, p: nat, g: Gid)
    requires Within(tree, groups) && p <= |tree| && g in groups
    ensures Within(Insert(tree, p, g), groups)
    ensures Sum(m, Insert(tree, p, g), groups) == Sum(m, tree, groups) + Weight(m, groups[g])
  {
    SumConcat(m, tree[..p] + [g], tree[p..], groups);
    SumConcat(m, tree[..p], [g], groups);
    SumConcat(m, tree[..p], tree[p..], groups);
    assert tree[..p] + tree[p..] == tree;
    assert Sum(m, [g], groups) == Weight(m, groups[g]) + Sum(m, [g][1..], groups);
  }

  lemma SumRemove(m: Measure, tree: seq<Gid>, groups: Groups, i: nat)
    requires Within(tree, groups) && i < |tree|
    ensures Within(Remove(tree, i), groups)
    ensures Sum(m, tree, groups) == Sum(m, Remove(tree, i), groups) + Weight(m, groups[tree[i]])
  {
    assert tree == Insert(Remove(tree, i), i, tree[i]);
    SumInsert(m, Remove(tree, i), groups, i, tree[i]);
  }

  lemma InsertFacts(tree: seq<Gid>, p: nat, g: Gid)
    requires p <= |tree| && Distinct(tree) && g !in tree
    ensures var t := Insert(tree, p, g);
            && Distinct(t)
            && (forall x :: x in t <==> x in tree || x == g)
            && (forall i :: 0 <= i < |t| ==> t[i] == if i < p then tree[i] else if i == p then g else tree[i - 1])
  {
    assert tree == tree[..p] + tree[p..];
  }

  lemma RemoveFacts(tree: seq<Gid>, i: nat)
    requires i < |tree| && Distinct(tree)
    ensures var t := Remove(tree, i);
            && Distinct(t)
            && (forall x :: x in t <==> x in tree && x != tree[i])
            && (forall k :: 0 <= k < |t| ==> t[k] == if k < i then tree[k] else tree[k + 1])
  {
    assert tree == tree[..i] + [tree[i]] + tree[i + 1..];
  }

  /** The same keys under two views of the groups. */
  ghost predicate SameKeys(tree: seq<Gid>, groups: Groups, h: Groups) {
    && Within(tree, groups) && Within(tree, h)
    && forall i :: 0 <= i < |tree| ==> h[tree[i]].disptime == groups[tree[i]].disptime
  }

  lemma InsertSorted(tree: seq<Gid>, groups: Groups, h: Groups, g: Gid)
    requires SameKeys(tree, groups, h) && Sorted(tree, groups) && Distinct(tree) && g !in tree && g in h
    ensures var t := Insert(tree, Slot(tree, groups, h[g].disptime), g);
            Within(t, h) && Sorted(t, h)
  {
    hide Slot;
    var p := Slot(tree, groups, h[g].disptime);
    var t := Insert(tree, p, g);
    InsertFacts(tree, p, g);
    forall i, j | 0 <= i < j < |t|
      ensures h[t[i]].disptime <= h[t[j]].disptime
    {
      if i == p {
        assert p == j - 1 || groups[tree[p]].disptime <= groups[tree[j - 1]].disptime;
      }
    }
  }

  lemma RemoveSorted(tree: seq<Gid>, groups: Groups, h: Groups, i: nat)
    requires SameKeys(tree, groups, h) && Sorted(tree, groups) && Distinct(tree) && i < |tree|
    ensures Within(Remove(tree, i), h) && Sorted(Remove(tree, i), h)
  {
    RemoveFacts(tree, i);
  }

  lemma InsertTreeOk(tree: seq<Gid>, groups: Groups, left: Option<Gid>, count: int, g: Gid)
    requires TreeOk(tree, groups, left, count) && g in groups && !groups[g].onRr
    ensures var p := Slot(tree, groups, groups[g].disptime);
            TreeOk(Insert(tree, p, g), groups[g := groups[g].(onRr := true)],
                   if p == 0 then Some(g) else left, count + 1)
  {
    var p := Slot(tree, groups, groups[g].disptime);
    var h := groups[g := groups[g].(onRr := true)];
    InsertSorted(tree, groups, h, g);
    hide Sorted, Slot;
    InsertFacts(tree, p, g);
  }

  lemma RemoveTreeOk(tree: seq<Gid>, groups: Groups, left: Option<Gid>, count: int, i: nat)
    requires TreeOk(tree, groups, left, count) && i < |tree|
    ensures var g := tree[i];
            TreeOk(Remove(tree, i), groups[g := groups[g].(onRr := false)],
                   if left == Some(g) then None else left, count - 1)
    ensures tree[i] !in Remove(tree, i)
  {
    var g := tree[i];
    RemoveSorted(tree, groups, groups[g := groups[g].(onRr := false)], i);
    hide Sorted;
    RemoveFacts(tree, i);
  }

  /** A group off the tree may change freely. */
  lemma OffTreeUpdate(tree: seq<Gid>, groups: Groups, left: Option<Gid>, count: int, g: Gid, group: Group)
    requires TreeOk(tree, groups, left, count) && g in groups && !groups[g].onRr && !group.onRr
    ensures TreeOk(tree, groups[g := group], left, count)
  {
    assert g !in tree;
  }
}
