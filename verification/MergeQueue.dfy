/**
The merge state of a queue as an object: the searches and the updates of block/elevator.c,
block/blk-core.c and block/blk-merge.c in place.
*/
module MergeQueue {
  import opened Common
  import opened MergeSpec
  import opened MergeProofs

  datatype Where = NoMerge | Back(x: Rid) | Front(x: Rid)

  /** elv_try_merge */
  function TryMerge(x: Rid, r: Req, b: Bio): Where {
    if !Fits(r, b) then NoMerge
    else if r.sector + r.sectors == b.sector then Back(x)
    else if r.sector - b.sectors == b.sector then Front(x)
    else NoMerge
  }

  /** The one-hit cache has a merge for the bio. */
  predicate CacheHit(s: State, b: Bio)
    requires s.lastMerge.Some? ==> s.lastMerge.value in s.reqs
  {
    s.lastMerge.Some? && TryMerge(s.lastMerge.value, s.reqs[s.lastMerge.value], b) != NoMerge
  }

  /** elv_merge, without the scheduler's own search: the one-hit cache and then the hash. */
  function MergeOf(s: State, b: Bio, noMerges: bool, noXMerges: bool, hash: int -> nat): (State, Where)
    requires s.lastMerge.Some? ==> s.lastMerge.value in s.reqs
    requires forall x :: x in Bucket(s.buckets, hash(b.sector)) ==> x in s.reqs
  {
    if noMerges then (s, NoMerge)
    else if CacheHit(s, b) then (s, TryMerge(s.lastMerge.value, s.reqs[s.lastMerge.value], b))
    else if noXMerges then (s, NoMerge)
    else
      var (t, found) := Search(s, b.sector, hash);
      (t, if found.Some? && found.value in s.reqs && Fits(s.reqs[found.value], b) then Back(found.value) else NoMerge)
  }

  class Queue {
    var reqs: map<Rid, Req>
    var buckets: Buckets
    var lastMerge: Option<Rid>
    var passed: seq<Bio>

    ghost function Merges(): State
      reads this
    {
      State(reqs, buckets, lastMerge, passed)
    }

    constructor ()
      ensures Merges() == State(map[], map[], None, []) && forall hash: int -> nat :: Inv(Merges(), hash)
    {
      reqs, buckets, lastMerge, passed := map[], map[], None, [];
    }

    /** The part of __elv_add_request that concerns merging. */
    method AddRequest(x: Rid, r: Req, hash: int -> nat)
      requires Inv(Merges(), hash) && x !in reqs && ReqOk(r) && Distinct(r.bios) && Bios(r.bios) !! Everything(Merges())
      modifies this
      ensures Merges() == Insert(old(Merges()), x, r, hash)
      ensures Inv(Merges(), hash) && Everything(Merges()) == old(Everything(Merges())) + Bios(r.bios)
    {
      hide Inv, Everything, HashAdd, Extent;
      InsertInv(Merges(), DoInsert(x, r), hash);
      reqs := reqs[x := r];
      if !r.noMerge {
        buckets := HashAdd(buckets, x, hash(End(r)));
        if lastMerge.None? {
          lastMerge := Some(x);
        }
      }
    }

    /** elv_rqhash_find */
    method RqHashFind(off: int, hash: int -> nat) returns (found: Option<Rid>)
      requires forall x :: x in Bucket(buckets, hash(off)) ==> x in reqs
      modifies this`buckets
      ensures (Merges(), found) == Search(old(Merges()), off, hash)
    {
      var k := hash(off);
      var l := Bucket(buckets, k);
      var kept := [];
      var i := 0;
      found := None;
      assert l[0..] == l;
      while i < |l|
        invariant 0 <= i <= |l| && found == None
        invariant Scan(l, reqs, off).0 == kept + Scan(l[i..], reqs, off).0
        invariant Scan(l, reqs, off).1 == Scan(l[i..], reqs, off).1
      {
        var x := l[i];
        assert l[i..][0] == x && l[i..][1..] == l[i + 1..];
        assert kept + ([x] + Scan(l[i + 1..], reqs, off).0) == kept + [x] + Scan(l[i + 1..], reqs, off).0;
        if reqs[x].noMerge {
          i := i + 1;
        } else if End(reqs[x]) == off {
          found := Some(x);
          break;
        } else {
          kept := kept + [x];
          i := i + 1;
        }
      }
      buckets := buckets[k := kept + l[i..]];
    }

    /** elv_merge */
    method ElvMerge(b: Bio, noMerges: bool, noXMerges: bool, hash: int -> nat) returns (w: Where)
      requires Inv(Merges(), hash)
      modifies this`buckets
      ensures forall x :: x in Bucket(old(buckets), hash(b.sector)) ==> x in reqs
      ensures (Merges(), w) == MergeOf(old(Merges()), b, noMerges, noXMerges, hash)
      ensures Inv(Merges(), hash) && Merges() == old(Merges()).(buckets := buckets)
      ensures w.Back? ==> w.x in reqs && Continues(reqs[w.x], b)
      ensures w.Front? ==> w.x in reqs && Precedes(reqs[w.x], b)
    {
      hide Extent, Once, HashOk, Search;
      SearchIff(Merges(), b.sector, hash);
      if noMerges {
        return NoMerge;
      }
      if lastMerge.Some? {
        w := TryMerge(lastMerge.value, reqs[lastMerge.value], b);
        if w != NoMerge {
          return;
        }
      }
      if noXMerges {
        return NoMerge;
      }
      ghost var s := Merges();
      var found := RqHashFind(b.sector, hash);
      Frame(s, Merges());
      if found.Some? && Fits(reqs[found.value], b) {
        return Back(found.value);
      }
      return NoMerge;
    }

    /** bio_attempt_back_merge and elv_merged_request, when the segment limits allow it. */
    method AttemptBackMerge(x: Rid, b: Bio, room: bool, hash: int -> nat) returns (ok: bool)
      requires Inv(Merges(), hash) && x in reqs && Continues(reqs[x], b) && b !in Everything(Merges())
      modifies this
      ensures ok == room
      ensures Merges() == if room then BackMerge(old(Merges()), x, b, hash) else old(Merges())
      ensures Inv(Merges(), hash) && Everything(Merges()) == old(Everything(Merges())) + if room then {b} else {}
    {
      hide Inv, Everything, HashAdd, HashDel;
      BackInv(Merges(), DoBack(x, b), hash);
      if !room {
        return false;
      }
      var r := reqs[x];
      r := r.(bios := r.bios + [b]);
      r := r.(sectors := r.sectors + b.sectors);
      reqs := reqs[x := r];
      buckets := HashAdd(HashDel(buckets, x), x, hash(End(r)));
      lastMerge := Some(x);
      ok := true;
    }

    /** bio_attempt_front_merge and elv_merged_request. */
    method AttemptFrontMerge(x: Rid, b: Bio, room: bool, ghost hash: int -> nat) returns (ok: bool)
      requires Inv(Merges(), hash) && x in reqs && Precedes(reqs[x], b) && b !in Everything(Merges())
      modifies this
      ensures ok == room
      ensures Merges() == if room then FrontMerge(old(Merges()), x, b) else old(Merges())
      ensures Inv(Merges(), hash) && Everything(Merges()) == old(Everything(Merges())) + if room then {b} else {}
    {
      hide Inv, Everything;
      FrontInv(Merges(), DoFront(x, b), hash);
      if !room {
        return false;
      }
      var r := reqs[x];
      r := r.(bios := [b] + r.bios);
      r := r.(sector := b.sector);
      r := r.(sectors := r.sectors + b.sectors);
      reqs := reqs[x := r];
      lastMerge := Some(x);
      ok := true;
    }

    /** attempt_merge */
    method AttemptMerge(x: Rid, y: Rid, room: bool, hash: int -> nat) returns (ok: bool)
      requires Inv(Merges(), hash) && x in reqs && y in reqs && x != y
      modifies this
      ensures ok <==> Adjoins(old(reqs[x]), old(reqs[y])) && room
      ensures Merges() == if ok then MergeRequests(old(Merges()), x, y, hash) else old(Merges())
      ensures Inv(Merges(), hash) && Everything(Merges()) == old(Everything(Merges()))
    {
      hide HashAdd, HashDel, Inv, Everything;
      var r, n := reqs[x], reqs[y];
      if r.noMerge || n.noMerge {
        return false;
      }
      if r.kind != n.kind {
        return false;
      }
      if r.sector + r.sectors != n.sector {
        return false;
      }
      if r.write != n.write {
        return false;
      }
      if !room {
        return false;
      }
      NothingNew(Merges(), DoMerge(x, y));
      MergeInv(Merges(), DoMerge(x, y), hash);
      r := r.(bios := r.bios + n.bios);
      r := r.(sectors := r.sectors + n.sectors);
      reqs := reqs[x := r] - {y};
      buckets := HashAdd(HashDel(buckets, x), x, hash(End(r)));
      buckets := HashDel(buckets, y);
      lastMerge := Some(x);
      ok := true;
    }

    /** The request joins x; nothing but the segment limits can still be in the way. */
    method TryAbsorb(x: Rid, r: Req, room: Rid -> bool, hash: int -> nat) returns (ok: bool)
      requires Inv(Merges(), hash) && x in reqs && ReqOk(r) && Distinct(r.bios) && Bios(r.bios) !! Everything(Merges())
      modifies this
      ensures ok <==> Adjoins(old(reqs[x]), r) && room(x)
      ensures Merges() == if ok then Absorb(old(Merges()), x, r, hash) else old(Merges())
      ensures Inv(Merges(), hash) && Everything(Merges()) == old(Everything(Merges())) + if ok then Bios(r.bios) else {}
    {
      hide Inv, Everything, HashAdd, HashDel, Extent;
      ok := Adjoins(reqs[x], r) && room(x);
      if ok {
        AbsorbInv(Merges(), DoAbsorb(x, r), hash);
        var m := Joined(reqs[x], r);
        reqs := reqs[x := m];
        buckets := HashAdd(HashDel(buckets, x), x, hash(End(m)));
        lastMerge := Some(x);
      }
    }

    /** elv_attempt_insert_merge: a plugged request joins one of the queue, or is left alone. */
    method AttemptInsertMerge(r: Req, noMerges: bool, noXMerges: bool, room: Rid -> bool, hash: int -> nat) returns (ok: bool)
      requires Inv(Merges(), hash) && ReqOk(r) && Distinct(r.bios) && Bios(r.bios) !! Everything(Merges())
      modifies this
      ensures Inv(Merges(), hash) && Everything(Merges()) == old(Everything(Merges())) + if ok then Bios(r.bios) else {}
      ensures ok ==> exists x :: x in old(reqs) && Adjoins(old(reqs)[x], r) && reqs == old(reqs)[x := Joined(old(reqs)[x], r)]
      ensures !ok ==> Merges() == old(Merges()).(buckets := buckets)
      ensures noMerges ==> !ok
      ensures !ok && !noMerges && !noXMerges ==>
                forall x :: x in reqs && Adjoins(reqs[x], r) && room(x) ==>
                  exists y :: y in reqs && y != x && Ends(reqs[y], r.sector) && !(Adjoins(reqs[y], r) && room(y))
    {
      hide Extent, Once, HashOk, Search, Everything, Absorb;
      if noMerges {
        return false;
      }
      if lastMerge.Some? {
        var x := lastMerge.value;
        ok := TryAbsorb(x, r, room, hash);
        if ok {
          AbsorbReqs(old(Merges()), x, r, hash);
          return;
        }
      }
      if noXMerges {
        return false;
      }
      SearchIff(Merges(), r.sector, hash);
      ghost var s := Merges();
      var found := RqHashFind(r.sector, hash);
      Frame(s, Merges());
      ok := false;
      if found.Some? {
        ghost var t := Merges();
        ok := TryAbsorb(found.value, r, room, hash);
        if ok {
          AbsorbReqs(t, found.value, r, hash);
        }
      }
    }
  }

  lemma AbsorbReqs(s: State, x: Rid, r: Req, hash: int -> nat)
    requires x in s.reqs
    ensures Absorb(s, x, r, hash).reqs == s.reqs[x := Joined(s.reqs[x], r)] && Absorb(s, x, r, hash).lastMerge == Some(x)
  {
  }

  lemma NothingNew(s: State, a: Step)
    requires Added(a) == {}
    ensures Added(a) !! Everything(s)
  {
  }

  /**
    elv_merge looks at one request of the hash only.  Where merging is allowed and the cache has nothing, a
    bio is sent away exactly when no request ends at its sector or the first that does is one it does not fit ...
  */
  lemma MissedIff(s: State, b: Bio, hash: int -> nat)
    requires Inv(s, hash) && !CacheHit(s, b)
    ensures forall x :: x in Bucket(s.buckets, hash(b.sector)) ==> x in s.reqs
    ensures MergeOf(s, b, false, false, hash).1 == NoMerge <==>
            forall x :: x in s.reqs && IsFirst(Bucket(s.buckets, hash(b.sector)), s.reqs, b.sector, x) ==> !Fits(s.reqs[x], b)
    ensures (exists x :: x in s.reqs && Continues(s.reqs[x], b)) ==>
              (MergeOf(s, b, false, false, hash).1 == NoMerge <==>
               exists x :: x in s.reqs && IsFirst(Bucket(s.buckets, hash(b.sector)), s.reqs, b.sector, x) && !Fits(s.reqs[x], b))
  {
    hide Extent, Once, HashOk, Scan;
    SearchIff(s, b.sector, hash);
    var l := Bucket(s.buckets, hash(b.sector));
    forall x: Rid
      ensures Search(s, b.sector, hash).1 == Some(x) <==> IsFirst(l, s.reqs, b.sector, x)
    {
      ScanFirst(l, s.reqs, b.sector, x);
    }
  }

  /** A request that is the only one to end at a sector is found there ... */
  lemma AloneFound(s: State, x: Rid, off: int, hash: int -> nat)
    requires HashOk(s.reqs, s.buckets, hash) && x in s.reqs && !s.reqs[x].noMerge && End(s.reqs[x]) == off
    requires forall y :: y in s.reqs && !s.reqs[y].noMerge && End(s.reqs[y]) == off ==> y == x
    ensures forall y :: y in Bucket(s.buckets, hash(off)) ==> y in s.reqs
    ensures Search(s, off, hash).1 == Some(x)
  {
    hide Search;
    SearchIff(s, off, hash);
  }

  /** ... and there are such runs: three requests, two of which end where a write would be continued. */
  function Steps(): seq<Step> {
    [DoInsert(2, FromBio(Bio(2, 100, 8, true, Plain), false)), DoInsert(0, FromBio(Bio(0, 0, 8, true, Plain), false)),
     DoInsert(1, FromBio(Bio(1, 0, 8, false, Plain), false))]
  }

  function Reached(hash: int -> nat, i: nat): State
    requires i <= 3
  {
    if i == 0 then State(map[], map[], None, []) else Insert(Reached(hash, i - 1), Steps()[i - 1].x, Steps()[i - 1].r, hash)
  }

  lemma ReachedRuns(hash: int -> nat)
    ensures Run([Reached(hash, 0), Reached(hash, 1), Reached(hash, 2), Reached(hash, 3)], Steps(), hash)
  {
    hide Insert, Inv;
    StartInv(hash);
    OneExtent(Steps()[0].r.bios[0]);
    OneExtent(Steps()[1].r.bios[0]);
    OneExtent(Steps()[2].r.bios[0]);
    InsertInv(Reached(hash, 0), Steps()[0], hash);
    InsertedReqs(hash);
    InsertInv(Reached(hash, 1), Steps()[1], hash);
    InsertInv(Reached(hash, 2), Steps()[2], hash);
  }

  lemma InsertedReqs(hash: int -> nat)
    ensures Reached(hash, 1).reqs.Keys == {2} && Reached(hash, 2).reqs.Keys == {0, 2} && Reached(hash, 3).reqs.Keys == {0, 1, 2}
  {
    assert Reached(hash, 1) == Insert(Reached(hash, 0), 2, Steps()[0].r, hash);
    assert Reached(hash, 2) == Insert(Reached(hash, 1), 0, Steps()[1].r, hash);
    assert Reached(hash, 3) == Insert(Reached(hash, 2), 1, Steps()[2].r, hash);
  }

  /** The write ends at 8 and could be continued, but the read that ends there comes first in the bucket. */
  lemma MissedMerge(hash: int -> nat)
    ensures var b := Bio(3, 8, 8, true, Plain);
            var run := [Reached(hash, 0), Reached(hash, 1), Reached(hash, 2), Reached(hash, 3)];
            var s := run[3];
            && Run(run, Steps(), hash) && Inv(s, hash)
            && 0 in s.reqs && Continues(s.reqs[0], b)
            && (forall x :: x in Bucket(s.buckets, hash(8)) ==> x in s.reqs)
            && MergeOf(s, b, false, false, hash).1 == NoMerge
  {
    hide Run, Inv, HashOk, Scan, Search;
    ReachedRuns(hash);
    var b := Bio(3, 8, 8, true, Plain);
    var run := [Reached(hash, 0), Reached(hash, 1), Reached(hash, 2), Reached(hash, 3)];
    RunInv(run, Steps(), hash, 3);
    ReadFirst(hash);
    MissedIff(Reached(hash, 3), b, hash);
  }

  lemma ReadFirst(hash: int -> nat)
    ensures var s := Reached(hash, 3);
            && 0 in s.reqs && s.reqs[0] == Steps()[1].r && 1 in s.reqs && s.reqs[1] == Steps()[2].r
            && 2 in s.reqs && s.reqs[2] == Steps()[0].r && s.lastMerge == Some(2)
            && Bucket(s.buckets, hash(8)) != [] && Bucket(s.buckets, hash(8))[0] == 1
  {
    assert Reached(hash, 1) == Insert(Reached(hash, 0), 2, Steps()[0].r, hash);
    assert Reached(hash, 2) == Insert(Reached(hash, 1), 0, Steps()[1].r, hash);
    assert Reached(hash, 3) == Insert(Reached(hash, 2), 1, Steps()[2].r, hash);
  }
}
