/**
No request of the deadline scheduler waits for ever: invariants of its lists and the bound on how
many dispatches an expired request can be kept waiting.
*/
module DeadlineProofs {
  import opened Common
  import opened DeadlineSpec

  // ---------- lists ----------

  lemma {:induction false} InsertFacts(sort: seq<Rq>, rq: Rq)
    ensures multiset(Insert(sort, rq)) == multiset(sort) + multiset{rq}
    ensures forall x :: x in Insert(sort, rq) <==> x in sort || x == rq
  {
    if sort != [] && rq.pos >= sort[0].pos {
      InsertFacts(sort[1..], rq);
      assert sort == [sort[0]] + sort[1..];
    }
  }

  ghost predicate SortedBySector(l: seq<Rq>) {
    forall i, j :: 0 <= i < j < |l| ==> l[i].pos <= l[j].pos
  }

  lemma {:induction false} InsertSorted(sort: seq<Rq>, rq: Rq)
    requires SortedBySector(sort)
    ensures SortedBySector(Insert(sort, rq))
  {
    if sort != [] && rq.pos >= sort[0].pos {
      InsertSorted(sort[1..], rq);
      InsertFacts(sort[1..], rq);
      var t := Insert(sort[1..], rq);
      assert forall i :: 0 <= i < |t| ==> t[i] in t;
    }
  }

  /** Taking a request off a list leaves the others, in order. */
  lemma {:induction false} WithoutMembers(l: seq<Rq>, rq: Rq)
    requires Distinct(l)
    ensures forall x :: x in Without(l, rq) <==> x in l && x != rq
    ensures Distinct(Without(l, rq))
    ensures rq in l ==> |Without(l, rq)| == |l| - 1
  {
    if l != [] {
      assert Distinct(l[1..]);
      assert l == [l[0]] + l[1..];
      assert l[0] !in l[1..];
      WithoutMembers(l[1..], rq);
    }
  }

  lemma {:induction false} WithoutSorted(l: seq<Rq>, rq: Rq)
    requires Distinct(l) && SortedBySector(l)
    ensures SortedBySector(Without(l, rq))
  {
    if l != [] && l[0] != rq {
      WithoutSorted(l[1..], rq);
      WithoutMembers(l[1..], rq);
      var t := Without(l[1..], rq);
      assert Without(l, rq) == [l[0]] + t;
      hide Without;
      forall i | 0 <= i < |t|
        ensures l[0].pos <= t[i].pos
      {
        assert t[i] in l[1..];
      }
    }
  }

  lemma WithoutFacts(l: seq<Rq>, rq: Rq)
    requires Distinct(l)
    ensures forall x :: x in Without(l, rq) <==> x in l && x != rq
    ensures Distinct(Without(l, rq))
    ensures rq in l ==> |Without(l, rq)| == |l| - 1
    ensures SortedBySector(l) ==> SortedBySector(Without(l, rq))
  {
    WithoutMembers(l, rq);
    if SortedBySector(l) {
      WithoutSorted(l, rq);
    }
  }

  /** Where an element ends up when another one is taken off. */
  lemma {:induction false} WithoutAt(l: seq<Rq>, rq: Rq, k: nat)
    requires Distinct(l) && k < |l| && l[k] != rq
    ensures exists j :: 0 <= j <= k && j < |Without(l, rq)| && Without(l, rq)[j] == l[k]
    ensures rq == l[0] ==> k > 0 && |Without(l, rq)| > k - 1 && Without(l, rq)[k - 1] == l[k]
  {
    if l[0] != rq {
      if k > 0 {
        assert Distinct(l[1..]);
        WithoutAt(l[1..], rq, k - 1);
        var j :| 0 <= j <= k - 1 && j < |Without(l[1..], rq)| && Without(l[1..], rq)[j] == l[k];
        assert Without(l, rq)[j + 1] == l[k];
      } else {
        assert Without(l, rq)[0] == l[0];
      }
    } else {
      assert Without(l, rq)[k - 1] == l[k];
    }
  }

  lemma {:induction false} LatterFacts(sort: seq<Rq>, rq: Rq)
    requires Distinct(sort)
    ensures Latter(sort, rq).Some? ==> Latter(sort, rq).value in Without(sort, rq)
  {
    if |sort| >= 2 {
      assert Distinct(sort[1..]);
      if sort[0] == rq {
        assert sort[1] == sort[1..][0];
      } else {
        LatterFacts(sort[1..], rq);
      }
    }
  }

  // ---------- the invariant ----------

  ghost predicate Deadlines(d: Side, latest: int) {
    && (forall i, j :: 0 <= i < j < |d.fifo| ==> d.fifo[i].expires <= d.fifo[j].expires)
    && (forall i :: 0 <= i < |d.fifo| ==> d.fifo[i].expires <= latest)
  }

  /** Both lists hold the same requests, in deadline order and in sector order; next_rq is one of them. */
  ghost predicate SideOk(d: Side, latest: int) {
    && Distinct(d.fifo) && Distinct(d.sort) && SortedBySector(d.sort)
    && (forall x :: x in d.fifo <==> x in d.sort)
    && (d.next.Some? ==> d.next.value in d.sort)
    && Deadlines(d, latest)
  }

  ghost predicate Inv(s: State, now: nat) {
    && SideOk(s.reading, now + s.readExpire) && SideOk(s.writing, now + s.writeExpire)
    && (s.reading.next.None? || s.writing.next.None?)
    && (s.reading.next.Some? || s.writing.next.Some? ==> 1 <= s.batching)
    && s.starved <= s.writesStarved
  }

  /** No request with this id is queued or was ever dispatched. */
  ghost predicate FreshId(s: State, id: nat) {
    && (forall x <- s.reading.fifo :: x.id != id) && (forall x <- s.writing.fifo :: x.id != id)
    && (forall x <- s.dispatched :: x.rq.id != id)
  }

  lemma Later(s: State, now: nat, then_: nat)
    requires Inv(s, now) && now <= then_
    ensures Inv(s, then_)
  {
  }

  lemma SideAdd(d: Side, latest: int, rq: Rq)
    requires SideOk(d, latest) && rq !in d.fifo && rq.expires == latest
    ensures SideOk(d.(fifo := d.fifo + [rq], sort := Insert(d.sort, rq)), latest)
  {
    InsertFacts(d.sort, rq);
    InsertSorted(d.sort, rq);
    InsertDistinct(d.sort, rq);
  }

  lemma {:induction false} InsertDistinct(sort: seq<Rq>, rq: Rq)
    requires Distinct(sort) && rq !in sort
    ensures Distinct(Insert(sort, rq))
  {
    if sort != [] && rq.pos >= sort[0].pos {
      assert Distinct(sort[1..]);
      InsertDistinct(sort[1..], rq);
      InsertFacts(sort[1..], rq);
      var t := Insert(sort[1..], rq);
      assert forall i :: 0 <= i < |t| ==> t[i] in t;
    }
  }

  lemma FreshRq(s: State, write: bool, rq: Rq)
    requires FreshId(s, rq.id)
    ensures rq !in Dir(s, write).fifo
  {
  }

  lemma AddInv(s: State, write: bool, id: nat, pos: nat, end: nat, now: nat)
    requires Inv(s, now) && FreshId(s, id)
    ensures Inv(Add(s, write, id, pos, end, now), now)
  {
    hide SideOk, Insert;
    var latest := now + if write then s.writeExpire else s.readExpire;
    FreshRq(s, write, Rq(id, pos, end, latest));
    SideAdd(Dir(s, write), latest, Rq(id, pos, end, latest));
  }

  lemma {:induction false} WithoutDeadlines(d: Side, latest: int, rq: Rq)
    requires Deadlines(d, latest) && Distinct(d.fifo)
    ensures Deadlines(d.(fifo := Without(d.fifo, rq)), latest)
    decreases |d.fifo|
  {
    if d.fifo != [] && d.fifo[0] != rq {
      var e := d.(fifo := d.fifo[1..]);
      assert Distinct(e.fifo);
      WithoutDeadlines(e, latest, rq);
      WithoutFacts(e.fifo, rq);
      var t := Without(e.fifo, rq);
      assert Without(d.fifo, rq) == [d.fifo[0]] + t;
      hide Without;
      forall i | 0 <= i < |t|
        ensures d.fifo[0].expires <= t[i].expires
      {
        assert t[i] in e.fifo;
      }
    }
  }

  lemma SideMove(d: Side, latest: int, rq: Rq)
    requires SideOk(d, latest)
    ensures SideOk(Side(Without(d.fifo, rq), Without(d.sort, rq), Latter(d.sort, rq)), latest)
    ensures SideOk(d.(next := None), latest)
  {
    WithoutFacts(d.fifo, rq);
    WithoutFacts(d.sort, rq);
    LatterFacts(d.sort, rq);
    WithoutDeadlines(d, latest, rq);
  }

  lemma MoveInv(s: State, write: bool, rq: Rq, now: nat)
    requires SideOk(s.reading, now + s.readExpire) && SideOk(s.writing, now + s.writeExpire)
    requires s.starved <= s.writesStarved && s.batching >= 1
    ensures Inv(Move(s, write, rq), now)
  {
    hide SideOk, Without, Latter;
    SideMove(s.reading, now + s.readExpire, rq);
    SideMove(s.writing, now + s.writeExpire, rq);
  }

  lemma DispatchInv(s: State, now: nat)
    requires Inv(s, now)
    ensures Inv(Dispatch(s, now), now)
  {
    hide SideOk, Move;
    var b := InBatch(s);
    if b.Some? && s.batching < s.fifoBatch {
      MoveInv(s.(batching := s.batching + 1), b.value.write, b.value.rq, now);
    } else if s.reading.fifo != [] {
      if s.writing.fifo != [] {
        if s.starved >= s.writesStarved {
          MoveInv(s.(starved := 0, batching := 1), true, BatchStart(s.writing, now), now);
        } else {
          MoveInv(s.(starved := s.starved + 1, batching := 1), false, BatchStart(s.reading, now), now);
        }
      } else {
        MoveInv(s.(batching := 1), false, BatchStart(s.reading, now), now);
      }
    } else if s.writing.fifo != [] {
      MoveInv(s.(starved := 0, batching := 1), true, BatchStart(s.writing, now), now);
    }
  }

  // ---------- the starvation bound ----------

  /** What is left of the running batch. */
  function Remaining(s: State): nat {
    if InBatch(s).None? || s.batching >= s.fifoBatch then 0 else s.fifoBatch - s.batching
  }

  /** The dispatches one place in the fifo can cost: all read batches that may pass, and its own. */
  function Round(s: State): nat {
    Times(s.writesStarved + 1, s.fifoBatch)
  }

  function Times(a: nat, b: nat): nat {
    a * b
  }

  /** How many dispatches the expired request at place k of its fifo can still be kept waiting. */
  function Patience(s: State, write: bool, k: nat): nat
    requires s.starved <= s.writesStarved
  {
    Times(k, Round(s)) + Remaining(s) + 1 +
    if write then Times(s.writesStarved - s.starved, s.fifoBatch)
    else if s.starved >= s.writesStarved then s.fifoBatch else 0
  }

  lemma {:induction false} MulLe(a: int, b: int, k: nat)
    requires a <= b
    ensures a * k <= b * k
  {
  }

  /** In a state a dispatch can leave behind, patience is at most k + 1 rounds. */
  lemma PatienceBound(s: State, now: nat, write: bool, k: nat)
    requires Inv(s, now) && s.fifoBatch >= 1 && s.writesStarved >= 1
    ensures Patience(s, write, k) <= (k + 1) * Round(s)
  {
    hide SideOk;
    assert Remaining(s) <= s.fifoBatch - 1;
    assert (k + 1) * Round(s) == k * Round(s) + Round(s);
    assert Round(s) == s.writesStarved * s.fifoBatch + s.fifoBatch;
    MulLe(s.writesStarved - s.starved, s.writesStarved, s.fifoBatch);
    MulLe(1, s.writesStarved, s.fifoBatch);
  }

  ghost predicate At(s: State, write: bool, rq: Rq, k: nat) {
    k < |Dir(s, write).fifo| && Dir(s, write).fifo[k] == rq
  }

  /** Moving a request: either it is ours, or ours is where it was or further ahead. */
  lemma MoveKeeps(s: State, dir: bool, r: Rq, write: bool, rq: Rq, k: nat)
    requires Distinct(Dir(s, write).fifo) && At(s, write, rq, k)
    ensures var t := Move(s, dir, r);
            || (dir == write && r == rq && Sent(write, rq) in t.dispatched)
            || exists j :: 0 <= j <= k && At(t, write, rq, j)
    ensures dir == write && r == Dir(s, write).fifo[0] && k > 0 ==> At(Move(s, dir, r), write, rq, k - 1)
  {
    var t := Move(s, dir, r);
    if dir == write {
      if r == rq {
        assert t.dispatched[|s.dispatched|] == Sent(write, rq);
      } else {
        WithoutAt(Dir(s, write).fifo, r, k);
        var j :| 0 <= j <= k && j < |Without(Dir(s, write).fifo, r)| && Without(Dir(s, write).fifo, r)[j] == rq;
        assert At(t, write, rq, j);
      }
      if r == Dir(s, write).fifo[0] && k > 0 {
        WithoutAt(Dir(s, write).fifo, r, k);
      }
    } else {
      assert At(t, write, rq, k);
    }
  }

  /** Served, or closer to being served. */
  ghost predicate Served(t: State, write: bool, rq: Rq) {
    Sent(write, rq) in t.dispatched
  }

  ghost predicate Closer(t: State, write: bool, rq: Rq, limit: int) {
    t.starved <= t.writesStarved && exists k: nat :: At(t, write, rq, k) && Patience(t, write, k) < limit
  }

  /** After a Move the batch can have at most this left. */
  lemma MoveRemaining(s: State, dir: bool, r: Rq)
    ensures Remaining(Move(s, dir, r)) <= if s.batching >= s.fifoBatch then 0 else s.fifoBatch - s.batching
    ensures Move(s, dir, r).starved == s.starved && Move(s, dir, r).writesStarved == s.writesStarved
    ensures Move(s, dir, r).fifoBatch == s.fifoBatch
  {
  }

  /** The batch goes on. */
  lemma BatchProgress(s: State, now: nat, write: bool, rq: Rq, k: nat)
    requires Inv(s, now) && At(s, write, rq, k)
    requires InBatch(s).Some? && s.batching < s.fifoBatch
    ensures var t := Dispatch(s, now);
            Served(t, write, rq) || Closer(t, write, rq, Patience(s, write, k))
  {
    var b := InBatch(s).value;
    var u := s.(batching := s.batching + 1);
    var t := Move(u, b.write, b.rq);
    MoveKeeps(u, b.write, b.rq, write, rq, k);
    MoveRemaining(u, b.write, b.rq);
    hide Move, SideOk;
    if !Served(t, write, rq) {
      var j :| 0 <= j <= k && At(t, write, rq, j);
      MulLe(j, k, Round(s));
      assert Patience(t, write, j) < Patience(s, write, k);
    }
  }

  /** A batch starts in the other direction. */
  lemma OtherProgress(s: State, now: nat, write: bool, rq: Rq, k: nat, r: Rq, starved: nat)
    requires Inv(s, now) && At(s, write, rq, k) && s.fifoBatch >= 1 && s.writesStarved >= 1
    requires if write then s.starved < s.writesStarved && starved == s.starved + 1
             else s.starved >= s.writesStarved && starved == 0
    ensures var t := Move(s.(starved := starved, batching := 1), !write, r);
            Closer(t, write, rq, Patience(s, write, k))
  {
    var u := s.(starved := starved, batching := 1);
    var t := Move(u, !write, r);
    MoveRemaining(u, !write, r);
    assert At(t, write, rq, k);
    hide Move, SideOk;
    assert (s.writesStarved - s.starved) * s.fifoBatch ==
           (s.writesStarved - (s.starved + 1)) * s.fifoBatch + s.fifoBatch;
    assert Patience(t, write, k) < Patience(s, write, k);
  }

  /** One place further ahead is worth more than a batch. */
  lemma OwnLess(s: State, t: State, write: bool, k: nat)
    requires k > 0 && s.fifoBatch >= 1 && s.writesStarved >= 1 && s.starved <= s.writesStarved && t.starved <= s.writesStarved
    requires t.fifoBatch == s.fifoBatch && t.writesStarved == s.writesStarved && Remaining(t) <= s.fifoBatch - 1
    requires write ==> t.starved == 0
    ensures Patience(t, write, k - 1) < Patience(s, write, k)
  {
    hide Remaining;
    assert k * Round(s) == (k - 1) * Round(s) + Round(s);
    assert Round(s) == s.writesStarved * s.fifoBatch + s.fifoBatch;
    MulLe(1, s.writesStarved, s.fifoBatch);
    MulLe(0, s.writesStarved - s.starved, s.fifoBatch);
  }

  lemma HeadFirst(s: State, now: nat, write: bool, rq: Rq, k: nat)
    requires Inv(s, now) && At(s, write, rq, k)
    ensures var d := Dir(s, write); d.fifo != [] && Distinct(d.fifo) && d.fifo[0].expires <= rq.expires
  {
  }

  /** A batch starts in our direction: with the head of our fifo, for it has expired. */
  lemma OwnProgress(s: State, now: nat, write: bool, rq: Rq, k: nat, starved: nat)
    requires Inv(s, now) && At(s, write, rq, k) && s.fifoBatch >= 1 && s.writesStarved >= 1
    requires now > rq.expires && starved <= s.writesStarved && (write ==> starved == 0)
    ensures var t := StartBatch(s.(starved := starved), write, now);
            Served(t, write, rq) || Closer(t, write, rq, Patience(s, write, k))
  {
    hide Move, SideOk, Patience, Remaining;
    HeadFirst(s, now, write, rq, k);
    var head := Dir(s, write).fifo[0];
    var u := s.(starved := starved, batching := 1);
    var t := Move(u, write, head);
    assert StartBatch(s.(starved := starved), write, now) == t;
    MoveKeeps(u, write, head, write, rq, k);
    MoveRemaining(u, write, head);
    if k > 0 {
      OwnLess(s, t, write, k);
    } else {
      MoveSends(u, write, rq);
    }
  }

  lemma MoveSends(s: State, write: bool, rq: Rq)
    ensures Sent(write, rq) in Move(s, write, rq).dispatched
  {
    var t := Move(s, write, rq);
    assert t.dispatched[|s.dispatched|] == Sent(write, rq);
  }

  /** Every dispatch brings an expired request closer to being served. */
  lemma DispatchProgress(s: State, now: nat, write: bool, rq: Rq, k: nat)
    requires Inv(s, now) && At(s, write, rq, k) && s.fifoBatch >= 1 && s.writesStarved >= 1 && now > rq.expires
    ensures var t := Dispatch(s, now);
            Served(t, write, rq) || Closer(t, write, rq, Patience(s, write, k))
  {
    hide SideOk, Move;
    if InBatch(s).Some? && s.batching < s.fifoBatch {
      BatchProgress(s, now, write, rq, k);
    } else if s.reading.fifo != [] && s.writing.fifo != [] {
      if s.starved >= s.writesStarved {
        if write {
          OwnProgress(s, now, write, rq, k, 0);
        } else {
          OtherProgress(s, now, write, rq, k, BatchStart(s.writing, now), 0);
        }
      } else if write {
        OtherProgress(s, now, write, rq, k, BatchStart(s.reading, now), s.starved + 1);
      } else {
        OwnProgress(s, now, write, rq, k, s.starved + 1);
      }
    } else {
      OwnProgress(s, now, write, rq, k, if write then 0 else s.starved);
    }
  }

  lemma AddKeeps(s: State, dir: bool, id: nat, pos: nat, end: nat, now: nat, write: bool, rq: Rq, k: nat)
    requires At(s, write, rq, k) && s.starved <= s.writesStarved
    ensures var t := Add(s, dir, id, pos, end, now);
            At(t, write, rq, k) && t.starved <= t.writesStarved && Patience(t, write, k) == Patience(s, write, k)
  {
  }
}
