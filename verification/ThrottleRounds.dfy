/**
The throttle of one request queue: bios coming in (blk_throtl_bio) and rounds of dispatch
(throtl_select_dispatch), as the object whose fields the source updates in place.
*/
module ThrottleRounds {
  import opened Common
  import opened ThrottleSlice
  import opened ThrottleData

  ghost predicate HasBios(group: Group) {
    group.read.queue != [] || group.write.queue != []
  }

  ghost predicate GroupOk(group: Group, now: nat, c: Clock) {
    DirOk(group.read, now, c) && DirOk(group.write, now, c)
  }

  /** The fields of struct throtl_data, and whether some BUG_ON fired. */
  datatype State = State(
    groups: Groups,
    tree: seq<Gid>,
    left: Option<Gid>,
    count: int,
    nrReads: int,
    nrWrites: int,
    bug: bool)

  /**
  Between steps a group is on the tree iff it holds bios and the queue counters equal what the
  lists hold.  While a group `out` is being served it is off the tree.
  */
  ghost predicate Inv(s: State, now: nat, c: Clock, out: int) {
    && c.Ok() && !s.bug
    && TreeOk(s.tree, s.groups, s.left, s.count)
    && (forall g <- s.groups :: GroupOk(s.groups[g], now, c))
    && (forall g <- s.groups :: g != out ==> (s.groups[g].onRr <==> HasBios(s.groups[g])))
    && (out >= 0 ==> out in s.groups && !s.groups[out].onRr)
    && s.nrReads == Sum(Reads, s.tree, s.groups) + (if out >= 0 then |s.groups[out].read.queue| else 0)
    && s.nrWrites == Sum(Writes, s.tree, s.groups) + (if out >= 0 then |s.groups[out].write.queue| else 0)
  }

  /** The bios of direction (g, write) among those sent. */
  function Of(sent: seq<Sent>, g: Gid, write: bool): seq<Bio> {
    if sent == [] then []
    else
      var l := sent[|sent| - 1];
      Of(sent[..|sent| - 1], g, write) + if l.g == g && l.write == write then [l.bio] else []
  }

  function Tagged(g: Gid, write: bool, bios: seq<Bio>): (sent: seq<Sent>)
    ensures |sent| == |bios|
  {
    if bios == [] then [] else Tagged(g, write, bios[..|bios| - 1]) + [Sent(g, write, bios[|bios| - 1])]
  }

  lemma {:induction false} OfTagged(g: Gid, write: bool, bios: seq<Bio>, h: Gid, dir: bool)
    ensures Of(Tagged(g, write, bios), h, dir) == if h == g && dir == write then bios else []
  {
    if bios != [] {
      var n := |bios| - 1;
      OfTagged(g, write, bios[..n], h, dir);
      var t := Tagged(g, write, bios);
      assert t[..n] == Tagged(g, write, bios[..n]) && t[n] == Sent(g, write, bios[n]);
      assert bios == bios[..n] + [bios[n]];
    }
  }

  lemma {:induction false} OfConcat(a: seq<Sent>, b: seq<Sent>, g: Gid, write: bool)
    ensures Of(a + b, g, write) == Of(a, g, write) + Of(b, g, write)
  {
    if b == [] {
      assert a + b == a;
    } else {
      var n := |b| - 1;
      assert (a + b)[..|a + b| - 1] == a + b[..n];
      OfConcat(a, b[..n], g, write);
    }
  }

  /** The limits and arrivals of a direction are untouched and exactly `sent` left it, in order. */
  ghost predicate DirAdvanced(d: Dir, e: Dir, sent: seq<Bio>) {
    && e.bps == d.bps && e.iops == d.iops && e.arrived == d.arrived
    && e.admitted == d.admitted + sent
    && (d.started ==> e.started && e.first == d.first)
  }

  ghost predicate Advanced(before: Groups, after: Groups, sent: seq<Sent>) {
    && after.Keys == before.Keys
    && forall g <- before ::
         && DirAdvanced(before[g].read, after[g].read, Of(sent, g, false))
         && DirAdvanced(before[g].write, after[g].write, Of(sent, g, true))
  }

  lemma DirAdvancedTwice(a: Dir, b: Dir, c: Dir, s: seq<Bio>, t: seq<Bio>)
    requires DirAdvanced(a, b, s) && DirAdvanced(b, c, t)
    ensures DirAdvanced(a, c, s + t)
  {
    assert a.admitted + s + t == a.admitted + (s + t);
  }

  lemma AdvancedTwice(a: Groups, b: Groups, c: Groups, s: seq<Sent>, t: seq<Sent>)
    requires Advanced(a, b, s) && Advanced(b, c, t)
    ensures Advanced(a, c, s + t)
  {
    hide Of, DirAdvanced;
    forall g | g in a
      ensures DirAdvanced(a[g].read, c[g].read, Of(s + t, g, false))
      ensures DirAdvanced(a[g].write, c[g].write, Of(s + t, g, true))
    {
      DirAdvancedTwice(a[g].read, b[g].read, c[g].read, Of(s, g, false), Of(t, g, false));
      DirAdvancedTwice(a[g].write, b[g].write, c[g].write, Of(s, g, true), Of(t, g, true));
      OfConcat(s, t, g, false);
      OfConcat(s, t, g, true);
    }
  }

  /** A group that is being served may change; the counters follow its queues. */
  lemma OutUpdate(s: State, now: nat, c: Clock, g: Gid, group: Group)
    requires Inv(s, now, c, g) && GroupOk(group, now, c) && !group.onRr
    ensures var t := s.(groups := s.groups[g := group],
                        nrReads := s.nrReads - |s.groups[g].read.queue| + |group.read.queue|,
                        nrWrites := s.nrWrites - |s.groups[g].write.queue| + |group.write.queue|);
            Inv(t, now, c, g) && Sum(Ready(now), t.tree, t.groups) == Sum(Ready(now), s.tree, s.groups)
  {
    assert g !in s.tree;
    SumFrame(Reads, s.tree, s.groups, g, group);
    SumFrame(Writes, s.tree, s.groups, g, group);
    SumFrame(Ready(now), s.tree, s.groups, g, group);
    OffTreeUpdate(s.tree, s.groups, s.left, s.count, g, group);
    hide TreeOk, Sum, DirOk;
  }

  /** A direction with nothing to send, or whose first bio must wait. */
  ghost predicate Stuck(d: Dir, now: nat, c: Clock)
    requires SliceInv(d, now, c)
  {
    d.queue == [] || Refused(d, now, c)
  }

  /** tg_may_dispatch on the first bio, as tg_update_disptime does. */
  function Poll(d: Dir, now: nat, c: Clock): Verdict
    requires c.Ok() && d.bps.Ok() && d.iops.Ok() && d.sliceStart <= now && d.queue != []
  {
    MayDispatch(d, d.queue[0].size, now, c)
  }

  lemma PollOk(d: Dir, now: nat, c: Clock)
    requires DirOk(d, now, c) && d.queue != []
    ensures var v := Poll(d, now, c);
            && DirOk(v.d, now, c) && DirAdvanced(d, v.d, []) && v.d.queue == d.queue
            && (v.ok <==> v.wait == 0) && (Refused(d, now, c) ==> !v.ok)
  {
    MayDispatchInv(d, d.queue[0].size, now, c);
  }

  /** The waiting half of tg_update_disptime: when may the group send its next bio? */
  method PollGroup(group0: Group, now: nat, c: Clock) returns (group: Group)
    requires GroupOk(group0, now, c) && HasBios(group0)
    ensures GroupOk(group, now, c) && group.onRr == group0.onRr
    ensures DirAdvanced(group0.read, group.read, []) && group.read.queue == group0.read.queue
    ensures DirAdvanced(group0.write, group.write, []) && group.write.queue == group0.write.queue
    ensures group.disptime >= now
    ensures Stuck(group0.read, now, c) && Stuck(group0.write, now, c) ==> group.disptime > now
    ensures group.disptime == now <==>
              || (group0.read.queue != [] && Poll(group0.read, now, c).ok)
              || (group0.write.queue != [] && Poll(group0.write, now, c).ok)
  {
    hide MayDispatch, Budget;
    group := group0;
    var minWait: Option<nat> := None;
    if group.read.queue != [] {
      PollOk(group.read, now, c);
      var v := Poll(group.read, now, c);
      group := group.(read := v.d);
      minWait := Some(v.wait);
    }
    if group.write.queue != [] {
      PollOk(group.write, now, c);
      var v := Poll(group.write, now, c);
      group := group.(write := v.d);
      minWait := if minWait.Some? && minWait.value < v.wait then minWait else Some(v.wait);
    }
    group := group.(disptime := now + minWait.value);
  }

  class ThrottleQueue {
    const clock: Clock
    var groups: Groups
    var tree: seq<Gid>
    var left: Option<Gid>
    var count: int
    var nrReads: int
    var nrWrites: int
    var bug: bool

    ghost function View(): State
      reads this
    {
      State(groups, tree, left, count, nrReads, nrWrites, bug)
    }

    constructor (clock: Clock)
      requires clock.Ok()
      ensures this.clock == clock && groups == map[]
      ensures forall now: nat :: Inv(View(), now, clock, -1)
    {
      this.clock := clock;
      groups, tree, left, count, nrReads, nrWrites, bug := map[], [], None, 0, 0, 0, false;
    }

    /** throtl_rb_first */
    method First() returns (g: Option<Gid>)
      requires TreeOk(tree, groups, left, count)
      modifies this`left
      ensures TreeOk(tree, groups, left, count)
      ensures g == if tree == [] then None else Some(tree[0])
    {
      if count == 0 {
        return None;
      }
      if left.None? {
        left := Some(tree[0]);
      }
      return left;
    }

    /** throtl_dequeue_tg */
    method Dequeue(g: Gid, ghost now: nat)
      requires Inv(View(), now, clock, -1) && g in tree
      modifies this
      ensures Inv(View(), now, clock, g)
      ensures groups == old(groups)[g := old(groups)[g].(onRr := false)]
      ensures Sum(Ready(now), tree, groups) + Weight(Ready(now), groups[g]) == Sum(Ready(now), old(tree), old(groups))
    {
      hide TreeOk, Sum, DirOk;
      var i := IndexOf(tree, g);
      RemoveTreeOk(tree, groups, left, count, i);
      SumsRemove(tree, groups, left, count, i, now);
      if left == Some(g) {
        left := None;
      }
      tree := Remove(tree, i);
      count := count - 1;
      groups := groups[g := groups[g].(onRr := false)];
    }

    /** throtl_enqueue_tg for a group that is off the tree. */
    method Enqueue(g: Gid, ghost now: nat)
      requires Inv(View(), now, clock, g) && g >= 0 && HasBios(groups[g])
      modifies this
      ensures Inv(View(), now, clock, -1)
      ensures groups == old(groups)[g := old(groups)[g].(onRr := true)]
      ensures Sum(Ready(now), tree, groups) == Sum(Ready(now), old(tree), old(groups)) + Weight(Ready(now), groups[g])
    {
      hide Inv, Sum, Slot, Insert, HasBios;
      InvWithin(View(), now, clock, g);
      var p := Slot(tree, groups, groups[g].disptime);
      EnqueueOk(View(), now, clock, g);
      tree := Insert(tree, p, g);
      if p == 0 {
        left := Some(g);
      }
      count := count + 1;
      groups := groups[g := groups[g].(onRr := true)];
    }

    /** throtl_dispatch_tg: up to 6 reads and 2 writes of a group. */
    method DispatchGroup(g: Gid, now: nat) returns (sent: seq<Sent>)
      requires Inv(View(), now, clock, g)
      modifies this
      ensures Inv(View(), now, clock, g)
      ensures |sent| <= READ_QUOTA + WRITE_QUOTA
      ensures Advanced(old(groups), groups, sent)
      ensures sent == [] ==> Stuck(groups[g].read, now, clock) && Stuck(groups[g].write, now, clock)
      ensures Sum(Ready(now), tree, groups) == Sum(Ready(now), old(tree), old(groups))
    {
      hide TreeOk, Sum, DirOk, SliceInv, MayDispatch, Of, Tagged;
      var group := groups[g];
      var r, readBios := DispatchDir(group.read, READ_QUOTA, now, clock);
      var w, writeBios := DispatchDir(group.write, WRITE_QUOTA, now, clock);
      QueueShrinks(group.read, r, readBios, now, clock);
      QueueShrinks(group.write, w, writeBios, now, clock);
      OutUpdate(View(), now, clock, g, group.(read := r, write := w));
      bug := bug || nrReads < |readBios| || nrWrites < |writeBios|;
      nrReads := nrReads - |readBios|;
      nrWrites := nrWrites - |writeBios|;
      groups := groups[g := group.(read := r, write := w)];
      sent := Tagged(g, false, readBios) + Tagged(g, true, writeBios);
      SentAdvanced(old(groups), g, r, w, readBios, writeBios);
    }

    /** tg_update_disptime for a group that is off the tree: compute its next dispatch time and enqueue it. */
    method UpdateDisptime(g: Gid, now: nat)
      requires Inv(View(), now, clock, g) && HasBios(groups[g])
      modifies this
      ensures Inv(View(), now, clock, -1)
      ensures Advanced(old(groups), groups, [])
      ensures groups[g].disptime >= now && groups[g].onRr
      ensures groups[g].read.queue == old(groups)[g].read.queue && groups[g].write.queue == old(groups)[g].write.queue
      ensures forall h <- groups :: h != g ==> groups[h] == old(groups)[h]
      ensures old(Stuck(groups[g].read, now, clock) && Stuck(groups[g].write, now, clock)) ==> groups[g].disptime > now
      ensures Sum(Ready(now), tree, groups) == Sum(Ready(now), old(tree), old(groups)) + Weight(Ready(now), groups[g])
    {
      hide TreeOk, Sum, DirOk, SliceInv, MayDispatch;
      var group := PollGroup(groups[g], now, clock);
      OutUpdate(View(), now, clock, g, group);
      groups := groups[g := group];
      Enqueue(g, now);
      PolledAdvanced(old(groups), groups, g);
    }

    /** One turn of throtl_select_dispatch: serve the leftmost group. */
    method ServeFirst(now: nat) returns (sent: seq<Sent>)
      requires Inv(View(), now, clock, -1) && tree != [] && groups[tree[0]].disptime <= now
      modifies this
      ensures Inv(View(), now, clock, -1)
      ensures |sent| <= READ_QUOTA + WRITE_QUOTA
      ensures Advanced(old(groups), groups, sent)
      ensures sent == [] ==> Sum(Ready(now), tree, groups) < Sum(Ready(now), old(tree), old(groups))
    {
      hide TreeOk, Sum, DirOk, SliceInv, MayDispatch, Advanced, Stuck;
      var g := tree[0];
      ghost var before := groups;
      FirstHolds(View(), now, clock);
      Dequeue(g, now);
      ghost var off := groups;
      Marked(before, off, g, false);
      sent := DispatchGroup(g, now);
      AdvancedTwice(before, off, groups, [], sent);
      assert [] + sent == sent;
      Starving(View(), before, now, clock, g, sent);
      if groups[g].read.nrQueued > 0 || groups[g].write.nrQueued > 0 {
        ghost var served := groups;
        UpdateDisptime(g, now);
        AdvancedTwice(before, served, groups, sent, []);
        assert sent + [] == sent;
      } else {
        OutDone(View(), now, clock, g);
      }
    }

    /**
    throtl_select_dispatch: a round of dispatch at one jiffy.  It terminates, releases at most 39
    bios, and stops early only when no group on the tree may dispatch any more.
    */
    method SelectDispatch(now: nat) returns (sent: seq<Sent>)
      requires Inv(View(), now, clock, -1)
      modifies this
      ensures Inv(View(), now, clock, -1)
      ensures |sent| <= QUANTUM - 1 + READ_QUOTA + WRITE_QUOTA
      ensures Advanced(old(groups), groups, sent)
      ensures |sent| < QUANTUM ==> forall g <- tree :: groups[g].disptime > now
    {
      hide Sum, DirOk, SliceInv, MayDispatch;
      sent := [];
      NoneAdvanced(groups);
      while true
        invariant Inv(View(), now, clock, -1)
        invariant Advanced(old(groups), groups, sent)
        invariant |sent| < QUANTUM
        decreases QUANTUM - |sent|, Sum(Ready(now), tree, groups)
      {
        var first := First();
        if first.None? {
          break;
        }
        if now < groups[first.value].disptime {
          break;
        }
        ghost var before := groups;
        var more := ServeFirst(now);
        AdvancedTwice(old(groups), before, groups, sent, more);
        sent := sent + more;
        if |sent| >= QUANTUM {
          break;
        }
      }
    }

    /** The group of a task issues its first bio: throtl_get_tg. */
    method AddGroup(g: Gid, readBps: Limit, readIops: Limit, writeBps: Limit, writeIops: Limit, ghost now: nat)
      requires Inv(View(), now, clock, -1) && g !in groups
      requires readBps.Ok() && readIops.Ok() && writeBps.Ok() && writeIops.Ok()
      modifies this`groups
      ensures Inv(View(), now, clock, -1)
      ensures groups == old(groups)[g := Group(NewDir(readBps, readIops), NewDir(writeBps, writeIops), 0, false)]
    {
      var group := Group(NewDir(readBps, readIops), NewDir(writeBps, writeIops), 0, false);
      NewGroupOk(View(), now, clock, g, group);
      groups := groups[g := group];
    }

    /** Store a changed group and enqueue it if it holds bios: the tail of throtl_add_bio_tg. */
    method Store(g: Gid, group: Group, ghost now: nat)
      requires Inv(View(), now, clock, -1) && g in groups && GroupOk(group, now, clock)
      requires group.disptime == groups[g].disptime && group.onRr == groups[g].onRr
      requires groups[g].onRr ==> HasBios(group)
      modifies this
      ensures Inv(View(), now, clock, -1)
      ensures groups == old(groups)[g := group.(onRr := HasBios(group))]
    {
      hide TreeOk, Sum, DirOk;
      ghost var s := View();
      if groups[g].onRr {
        OnTreeUpdate(s, now, clock, g, group);
      } else {
        Idle(s, now, clock, g);
        OutUpdate(s, now, clock, g, group);
      }
      nrReads := nrReads - |groups[g].read.queue| + |group.read.queue|;
      nrWrites := nrWrites - |groups[g].write.queue| + |group.write.queue|;
      groups := groups[g := group];
      if !group.onRr {
        if group.read.queue != [] || group.write.queue != [] {
          Enqueue(g, now);
        } else {
          OutDone(View(), now, clock, g);
        }
      }
    }

    /**
    blk_throtl_bio: a bio comes in.  `again` is REQ_THROTTLED: the bio was throttled before and is
    merely passing by.  The bio is let through exactly if nothing waits before it and the limits
    allow it; otherwise it waits behind all that came before.
    */
    method ThrottleBio(g: Gid, write: bool, bio: Bio, again: bool, now: nat) returns (throttled: bool)
      requires Inv(View(), now, clock, -1) && g in groups
      modifies this
      ensures Inv(View(), now, clock, -1) && groups.Keys == old(groups.Keys)
      ensures again || NoRule(Side(old(groups)[g], write)) ==> !throttled && View() == old(View())
      ensures !again && !NoRule(Side(old(groups)[g], write)) ==>
                && Arrival(Side(old(groups)[g], write), Side(groups[g], write), bio, throttled)
                && DirAdvanced(Side(old(groups)[g], !write), Side(groups[g], !write), [])
                && (!throttled <==> old(Side(groups[g], write).queue == [] && Passes(Side(groups[g], write), bio, now, clock)))
      ensures forall h <- groups :: h != g ==> groups[h] == old(groups)[h]
    {
      hide Inv, MayDispatch, DirOk, Release, SliceInv, Arrival, DirAdvanced;
      var d := Side(groups[g], write);
      if again || NoRule(d) {
        return false;
      }
      Unmoved(Side(groups[g], !write));
      SideOk(View(), now, clock, g, write);
      if d.nrQueued > 0 {
        QueuedOk(d, bio, now, clock);
        StoreSide(g, write, Queued(d, bio), now);
        return true;
      }
      assert d.nrQueued == 0;  // BUG_ON of tg_may_dispatch
      var v := MayDispatch(d, bio.size, now, clock);
      if v.ok {
        PassedOk(d, bio, now, clock);
        StoreSide(g, write, Passed(v.d, bio, now, clock), now);
        return false;
      }
      HeldOk(d, bio, now, clock);
      Hold(g, write, Queued(v.d, bio), now);
      ArrivalPolled(d, Queued(v.d, bio), Side(groups[g], write), bio);
      return true;
    }

    method StoreSide(g: Gid, write: bool, d: Dir, ghost now: nat)
      requires Inv(View(), now, clock, -1) && g in groups && DirOk(d, now, clock)
      requires Side(groups[g], write).queue == [] || d.queue != []
      modifies this
      ensures Inv(View(), now, clock, -1) && groups.Keys == old(groups.Keys)
      ensures Side(groups[g], write) == d && Side(groups[g], !write) == Side(old(groups)[g], !write)
      ensures groups[g].onRr == HasBios(groups[g])
      ensures forall h <- groups :: h != g ==> groups[h] == old(groups)[h]
    {
      hide Inv, GroupOk;
      WithSideOk(View(), now, clock, g, write, d);
      Store(g, WithSide(groups[g], write, d), now);
    }

    /** A refused bio is queued and the dispatch time of its group recomputed. */
    method Hold(g: Gid, write: bool, d: Dir, now: nat)
      requires Inv(View(), now, clock, -1) && g in groups
      requires DirOk(d, now, clock) && d.queue != []
      modifies this
      ensures Inv(View(), now, clock, -1) && groups.Keys == old(groups.Keys)
      ensures DirAdvanced(d, Side(groups[g], write), []) && Side(groups[g], write).queue == d.queue
      ensures DirAdvanced(Side(old(groups)[g], !write), Side(groups[g], !write), [])
      ensures forall h <- groups :: h != g ==> groups[h] == old(groups)[h]
      ensures groups[g].onRr && groups[g].disptime >= now
    {
      hide Inv, GroupOk;
      StoreSide(g, write, d, now);
      OnTree(View(), now, clock, g);
      Dequeue(g, now);
      UpdateDisptime(g, now);
    }

    /**
    throtl_schedule_next_dispatch: while bios wait, the next round is scheduled for the moment the
    first group may dispatch (at once if that has passed); with nothing queued there is nothing to do.
    */
    method ScheduleNext(now: nat) returns (delay: Option<nat>)
      requires Inv(View(), now, clock, -1)
      modifies this`left, this`bug
      ensures Inv(View(), now, clock, -1)
      ensures delay.Some? <==> exists g :: g in groups && HasBios(groups[g])
      ensures delay.Some? ==>
                && (forall g <- groups :: HasBios(groups[g]) ==> now + delay.value <= groups[g].disptime || delay.value == 0)
                && (exists g :: g in groups && HasBios(groups[g]) && groups[g].disptime <= now + delay.value)
    {
      if nrReads + nrWrites == 0 {
        NothingQueued(View(), now, clock);
        return None;
      }
      SomethingQueued(View(), now, clock);
      bug := bug || count == 0;
      hide Sum, DirOk;
      var first := First();
      var t := groups[first.value].disptime;
      assert first.value == tree[0] && HasBios(groups[tree[0]]);
      if t <= now {
        return Some(0);
      } else {
        return Some(t - now);
      }
    }
  }

  function Side(group: Group, write: bool): Dir {
    if write then group.write else group.read
  }

  function WithSide(group: Group, write: bool, d: Dir): Group {
    if write then group.(write := d) else group.(read := d)
  }

  ghost predicate Passes(d: Dir, bio: Bio, now: nat, c: Clock)
    requires SliceInv(d, now, c)
  {
    MayDispatch(d, bio.size, now, c).ok
  }

  /** bio_list_add */
  function Queued(d: Dir, bio: Bio): Dir {
    d.(queue := d.queue + [bio], nrQueued := d.nrQueued + 1, arrived := d.arrived + [bio])
  }

  function Passed(d: Dir, bio: Bio, now: nat, c: Clock): Dir
    requires c.Ok() && d.sliceStart <= now && d.sliceStart <= d.sliceEnd
  {
    Release(d, bio, now, c).(arrived := d.arrived + [bio])
  }

  /** The bio has come in: it is last in line, or went through at once. */
  ghost predicate Arrival(d: Dir, e: Dir, bio: Bio, held: bool) {
    && e.bps == d.bps && e.iops == d.iops && e.arrived == d.arrived + [bio]
    && (d.started ==> e.started && e.first == d.first)
    && (held ==> e.admitted == d.admitted && e.queue == d.queue + [bio])
    && (!held ==> e.admitted == d.admitted + [bio] && e.queue == d.queue == [])
  }

  lemma QueuedOk(d: Dir, bio: Bio, now: nat, c: Clock)
    requires DirOk(d, now, c) && !NoRule(d)
    ensures DirOk(Queued(d, bio), now, c) && Arrival(d, Queued(d, bio), bio, true)
  {
    assert d.admitted + d.queue + [bio] == d.admitted + (d.queue + [bio]);
  }

  lemma HeldOk(d: Dir, bio: Bio, now: nat, c: Clock)
    requires DirOk(d, now, c) && !NoRule(d)
    ensures var e := Queued(MayDispatch(d, bio.size, now, c).d, bio);
            DirOk(e, now, c) && Arrival(d, e, bio, true)
  {
    MayDispatchInv(d, bio.size, now, c);
    QueuedOk(MayDispatch(d, bio.size, now, c).d, bio, now, c);
  }

  lemma SliceArrived(d: Dir, arrived: seq<Bio>, now: nat, c: Clock)
    requires SliceInv(d, now, c)
    ensures SliceInv(d.(arrived := arrived), now, c)
  {
  }

  lemma InvWithin(s: State, now: nat, c: Clock, off: int)
    requires Inv(s, now, c, off)
    ensures Within(s.tree, s.groups) && (off >= 0 ==> off in s.groups)
  {
  }

  /** A group that holds bios goes back on the tree. */
  lemma EnqueueOk(s: State, now: nat, c: Clock, g: Gid)
    requires Inv(s, now, c, g) && g >= 0 && HasBios(s.groups[g]) && Within(s.tree, s.groups)
    ensures var p := Slot(s.tree, s.groups, s.groups[g].disptime);
            var groups := s.groups[g := s.groups[g].(onRr := true)];
            var tree := Insert(s.tree, p, g);
            && Inv(s.(tree := tree, left := if p == 0 then Some(g) else s.left, count := s.count + 1, groups := groups), now, c, -1)
            && Within(tree, groups)
            && Sum(Ready(now), tree, groups) == Sum(Ready(now), s.tree, s.groups) + Weight(Ready(now), groups[g])
  {
    hide Sum, DirOk, Sorted, Distinct, Slot;
    var p := Slot(s.tree, s.groups, s.groups[g].disptime);
    InsertTreeOk(s.tree, s.groups, s.left, s.count, g);
    SumsInsert(s.tree, s.groups, s.left, s.count, p, g, now);
  }

  lemma PassedOk(d: Dir, bio: Bio, now: nat, c: Clock)
    requires DirOk(d, now, c) && d.queue == [] && !NoRule(d)
    requires MayDispatch(d, bio.size, now, c).ok
    ensures var v := MayDispatch(d, bio.size, now, c);
            && v.d.sliceStart <= now && v.d.sliceStart <= v.d.sliceEnd
            && DirOk(Passed(v.d, bio, now, c), now, c) && Arrival(d, Passed(v.d, bio, now, c), bio, false)
  {
    hide MayDispatch, Release, SliceInv;
    SliceFacts(d, now, c);
    MayDispatchInv(d, bio.size, now, c);
    SliceFacts(MayDispatch(d, bio.size, now, c).d, now, c);
    ReleaseInv(d, bio, now, c);
    var v := MayDispatch(d, bio.size, now, c);
    ReleaseFrame(v.d, bio, d.queue, d.nrQueued, now, c);
    SliceArrived(Release(v.d, bio, now, c), d.arrived + [bio], now, c);
    assert v.d == v.d.(queue := d.queue, nrQueued := d.nrQueued);
    assert d.admitted + [] == d.admitted;
    assert d.admitted + [bio] + [] == d.admitted + [bio];
  }

  lemma SideOk(s: State, now: nat, c: Clock, g: Gid, write: bool)
    requires Inv(s, now, c, -1) && g in s.groups
    ensures c.Ok() && DirOk(Side(s.groups[g], write), now, c)
    ensures Side(s.groups[g], write).nrQueued == |Side(s.groups[g], write).queue|
    ensures SliceInv(Side(s.groups[g], write), now, c)
  {
  }

  lemma WithSideOk(s: State, now: nat, c: Clock, g: Gid, write: bool, d: Dir)
    requires Inv(s, now, c, -1) && g in s.groups && DirOk(d, now, c)
    requires Side(s.groups[g], write).queue == [] || d.queue != []
    ensures GroupOk(WithSide(s.groups[g], write, d), now, c)
    ensures s.groups[g].onRr ==> HasBios(WithSide(s.groups[g], write, d))
  {
  }

  lemma Unmoved(d: Dir)
    ensures DirAdvanced(d, d, [])
  {
  }

  lemma ArrivalPolled(d: Dir, e: Dir, f: Dir, bio: Bio)
    requires Arrival(d, e, bio, true) && DirAdvanced(e, f, []) && f.queue == e.queue
    ensures Arrival(d, f, bio, true)
  {
  }

  lemma {:induction false} SumPositive(m: Measure, tree: seq<Gid>, groups: Groups, g: Gid)
    requires Within(tree, groups) && g in tree
    ensures Sum(m, tree, groups) >= Weight(m, groups[g])
  {
    if tree[0] != g {
      SumPositive(m, tree[1..], groups, g);
    }
  }

  lemma NothingQueued(s: State, now: nat, c: Clock)
    requires Inv(s, now, c, -1) && s.nrReads + s.nrWrites == 0
    ensures forall g <- s.groups :: !HasBios(s.groups[g])
  {
    forall g | g in s.groups ensures !HasBios(s.groups[g]) {
      if HasBios(s.groups[g]) {
        SumPositive(Reads, s.tree, s.groups, g);
        SumPositive(Writes, s.tree, s.groups, g);
        assert false;
      }
    }
  }

  lemma SomethingQueued(s: State, now: nat, c: Clock)
    requires Inv(s, now, c, -1) && s.nrReads + s.nrWrites != 0
    ensures s.tree != []
  {
  }

  lemma NewGroupOk(s: State, now: nat, c: Clock, g: Gid, group: Group)
    requires Inv(s, now, c, -1) && g !in s.groups && GroupOk(group, now, c) && !group.onRr && !HasBios(group)
    ensures Inv(s.(groups := s.groups[g := group]), now, c, -1)
  {
    SumFrame(Reads, s.tree, s.groups, g, group);
    SumFrame(Writes, s.tree, s.groups, g, group);
  }

  lemma Idle(s: State, now: nat, c: Clock, g: Gid)
    requires Inv(s, now, c, -1) && g in s.groups && !s.groups[g].onRr
    ensures Inv(s, now, c, g)
  {
  }

  lemma OnTree(s: State, now: nat, c: Clock, g: Gid)
    requires Inv(s, now, c, -1) && g in s.groups && s.groups[g].onRr
    ensures g in s.tree
  {
  }

  lemma {:induction false} SumUpdate(m: Measure, tree: seq<Gid>, groups: Groups, g: Gid, group: Group)
    requires Within(tree, groups) && Distinct(tree) && g in tree
    ensures Sum(m, tree, groups[g := group]) == Sum(m, tree, groups) - Weight(m, groups[g]) + Weight(m, group)
  {
    assert forall x <- tree[1..] :: x in tree;
    if tree[0] == g {
      SumFrame(m, tree[1..], groups, g, group);
    } else {
      SumUpdate(m, tree[1..], groups, g, group);
    }
  }

  lemma OnTreeUpdate(s: State, now: nat, c: Clock, g: Gid, group: Group)
    requires Inv(s, now, c, -1) && g in s.groups && s.groups[g].onRr && GroupOk(group, now, c)
    requires group.onRr && group.disptime == s.groups[g].disptime && HasBios(group)
    ensures Inv(s.(groups := s.groups[g := group],
                   nrReads := s.nrReads - |s.groups[g].read.queue| + |group.read.queue|,
                   nrWrites := s.nrWrites - |s.groups[g].write.queue| + |group.write.queue|), now, c, -1)
  {
    hide Sum, DirOk;
    SumUpdate(Reads, s.tree, s.groups, g, group);
    SumUpdate(Writes, s.tree, s.groups, g, group);
  }

  lemma FirstHolds(s: State, now: nat, c: Clock)
    requires Inv(s, now, c, -1) && s.tree != []
    ensures s.tree[0] in s.groups && HasBios(s.groups[s.tree[0]])
  {
  }

  lemma Marked(before: Groups, after: Groups, g: Gid, on: bool)
    requires g in before && after == before[g := before[g].(onRr := on)]
    ensures Advanced(before, after, [])
  {
  }

  lemma NoneAdvanced(groups: Groups)
    ensures Advanced(groups, groups, [])
  {
  }

  /** A group that sent nothing still holds what it held, and was turned down on both sides. */
  lemma Starving(s: State, before: Groups, now: nat, c: Clock, g: Gid, sent: seq<Sent>)
    requires Inv(s, now, c, g) && g in before && HasBios(before[g]) && Advanced(before, s.groups, sent)
    requires GroupOk(before[g], now, c)
    ensures sent == [] ==> HasBios(s.groups[g])
    ensures s.groups[g].read.nrQueued == |s.groups[g].read.queue|
    ensures s.groups[g].write.nrQueued == |s.groups[g].write.queue|
  {
    if sent == [] {
      QueueShrinks(before[g].read, s.groups[g].read, [], now, c);
      QueueShrinks(before[g].write, s.groups[g].write, [], now, c);
    }
  }

  /** Time passes between steps. */
  lemma Later(s: State, now: nat, then_: nat, c: Clock)
    requires Inv(s, now, c, -1) && now <= then_
    ensures Inv(s, then_, c, -1)
  {
  }

  /**
  The rate bound for every group and direction of a throttled queue, in every state the methods
  above can reach: what was let through since the first slice start fits the limits, and bios go
  through in the order in which they came.
  */
  lemma QueueRateBound(s: State, now: nat, c: Clock, g: Gid, write: bool)
    requires Inv(s, now, c, -1) && g in s.groups
    ensures Side(s.groups[g], write).arrived == Side(s.groups[g], write).admitted + Side(s.groups[g], write).queue
    ensures var d := Side(s.groups[g], write);
            d.started ==>
              && (d.bps.AtMost? ==> Bytes(d.admitted) <= d.bps.rate * (now - d.first + c.slice) / c.hz)
              && (d.iops.AtMost? ==> |d.admitted| <= d.iops.rate * (now - d.first + c.slice) / c.hz)
  {
    SideOk(s, now, c, g, write);
    hide Inv;
    var d := Side(s.groups[g], write);
    if d.started {
      BudgetBound(d, now, c);
    }
  }

  /** A group left without bios stays off the tree. */
  lemma OutDone(s: State, now: nat, c: Clock, g: Gid)
    requires Inv(s, now, c, g) && !HasBios(s.groups[g])
    ensures Inv(s, now, c, -1)
  {
  }

  lemma QueueShrinks(d: Dir, e: Dir, sent: seq<Bio>, now: nat, c: Clock)
    requires DirOk(d, now, c) && DirOk(e, now, c) && e.arrived == d.arrived && e.admitted == d.admitted + sent
    ensures |e.queue| == |d.queue| - |sent|
  {
    assert |d.arrived| == |d.admitted| + |d.queue| && |e.arrived| == |e.admitted| + |e.queue|;
  }

  lemma SentAdvanced(groups: Groups, g: Gid, r: Dir, w: Dir, readBios: seq<Bio>, writeBios: seq<Bio>)
    requires g in groups
    requires DirAdvanced(groups[g].read, r, readBios) && DirAdvanced(groups[g].write, w, writeBios)
    ensures Advanced(groups, groups[g := groups[g].(read := r, write := w)],
                     Tagged(g, false, readBios) + Tagged(g, true, writeBios))
  {
    var sent := Tagged(g, false, readBios) + Tagged(g, true, writeBios);
    hide Of, Tagged;
    var h := groups[g := groups[g].(read := r, write := w)];
    forall x | x in groups
      ensures DirAdvanced(groups[x].read, h[x].read, Of(sent, x, false))
      ensures DirAdvanced(groups[x].write, h[x].write, Of(sent, x, true))
    {
      OfConcat(Tagged(g, false, readBios), Tagged(g, true, writeBios), x, false);
      OfConcat(Tagged(g, false, readBios), Tagged(g, true, writeBios), x, true);
      OfTagged(g, false, readBios, x, false);
      OfTagged(g, false, readBios, x, true);
      OfTagged(g, true, writeBios, x, false);
      OfTagged(g, true, writeBios, x, true);
      assert readBios + [] == readBios && [] + writeBios == writeBios;
    }
  }

  lemma PolledAdvanced(before: Groups, after: Groups, g: Gid)
    requires g in before && after.Keys == before.Keys
    requires forall x <- before :: x != g ==> after[x] == before[x]
    requires DirAdvanced(before[g].read, after[g].read, []) && DirAdvanced(before[g].write, after[g].write, [])
    ensures Advanced(before, after, [])
  {
  }

  lemma SumsRemove(tree: seq<Gid>, groups: Groups, left: Option<Gid>, count: int, i: nat, now: nat)
    requires TreeOk(tree, groups, left, count) && i < |tree|
    ensures tree[i] in groups
    ensures var h := groups[tree[i] := groups[tree[i]].(onRr := false)];
            && Within(Remove(tree, i), h)
            && Sum(Reads, tree, groups) == Sum(Reads, Remove(tree, i), h) + |groups[tree[i]].read.queue|
            && Sum(Writes, tree, groups) == Sum(Writes, Remove(tree, i), h) + |groups[tree[i]].write.queue|
            && Sum(Ready(now), tree, groups) == Sum(Ready(now), Remove(tree, i), h) + Weight(Ready(now), groups[tree[i]])
  {
    RemoveFacts(tree, i);
    var group := groups[tree[i]].(onRr := false);
    SumRemove(Reads, tree, groups, i);
    SumFrame(Reads, Remove(tree, i), groups, tree[i], group);
    SumRemove(Writes, tree, groups, i);
    SumFrame(Writes, Remove(tree, i), groups, tree[i], group);
    SumRemove(Ready(now), tree, groups, i);
    SumFrame(Ready(now), Remove(tree, i), groups, tree[i], group);
  }

  lemma SumsInsert(tree: seq<Gid>, groups: Groups, left: Option<Gid>, count: int, p: nat, g: Gid, now: nat)
    requires TreeOk(tree, groups, left, count) && p <= |tree| && g in groups && !groups[g].onRr
    ensures var h := groups[g := groups[g].(onRr := true)];
            && Within(Insert(tree, p, g), h)
            && Sum(Reads, Insert(tree, p, g), h) == Sum(Reads, tree, groups) + |groups[g].read.queue|
            && Sum(Writes, Insert(tree, p, g), h) == Sum(Writes, tree, groups) + |groups[g].write.queue|
            && Sum(Ready(now), Insert(tree, p, g), h) == Sum(Ready(now), tree, groups) + Weight(Ready(now), groups[g])
  {
    var group := groups[g].(onRr := true);
    var h := groups[g := group];
    SumFrame(Reads, tree, groups, g, group);
    SumFrame(Writes, tree, groups, g, group);
    SumFrame(Ready(now), tree, groups, g, group);
    SumInsert(Reads, tree, h, p, g);
    SumInsert(Writes, tree, h, p, g);
    SumInsert(Ready(now), tree, h, p, g);
  }
}
