/**
Merging keeps what was submitted and keeps the hash exact, over every run.
*/
module MergeProofs {
  import opened Common
  import opened MergeSpec

  // ---------- extents ----------

  lemma {:induction false} ExtentJoin(a: seq<Bio>, b: seq<Bio>, sector: int, n: nat, m: nat, write: bool, kind: Kind)
    requires Extent(a, sector, n, write, kind) && Extent(b, sector + n, m, write, kind)
    ensures Extent(a + b, sector, n + m, write, kind)
  {
    if a == [] {
      assert a + b == b;
    } else {
      ExtentJoin(a[1..], b, sector + a[0].sectors, n - a[0].sectors, m, write, kind);
      assert (a + b)[1..] == a[1..] + b;
    }
  }

  lemma OneExtent(b: Bio)
    ensures Extent([b], b.sector, b.sectors, b.write, b.kind)
  {
  }

  // ---------- the hash ----------

  lemma {:induction false} RemoveOk(l: seq<Rid>, x: Rid)
    ensures forall y :: y in Remove(l, x) <==> y in l && y != x
  {
    if l != [] {
      RemoveOk(l[1..], x);
    }
  }

  lemma DelOk(b: Buckets, x: Rid)
    ensures HashDel(b, x).Keys == b.Keys
    ensures forall k, y :: y in Bucket(HashDel(b, x), k) <==> y in Bucket(b, k) && y != x
  {
    forall k, y
      ensures y in Bucket(HashDel(b, x), k) <==> y in Bucket(b, k) && y != x
    {
      if k in b {
        RemoveOk(b[k], x);
      }
    }
  }

  lemma AddOk(b: Buckets, x: Rid, n: nat)
    ensures forall k, y :: y in Bucket(HashAdd(b, x, n), k) <==> y in Bucket(b, k) || (k == n && y == x)
  {
  }

  /** The hash by membership. */
  lemma HashIff(reqs: map<Rid, Req>, b: Buckets, hash: int -> nat)
    ensures HashOk(reqs, b, hash) <==>
            && (forall k, x :: x in Bucket(b, k) ==> x in reqs && k == hash(End(reqs[x])))
            && (forall x :: x in reqs && !reqs[x].noMerge ==> x in Bucket(b, hash(End(reqs[x]))))
  {
    if HashOk(reqs, b, hash) {
      forall k, x | x in Bucket(b, k)
        ensures x in reqs && k == hash(End(reqs[x]))
      {
        assert k in b && x in b[k];
      }
    }
    if forall k, x :: x in Bucket(b, k) ==> x in reqs && k == hash(End(reqs[x])) {
      forall k, x | k in b && x in b[k]
        ensures x in reqs && k == hash(End(reqs[x]))
      {
        assert x in Bucket(b, k);
      }
    }
  }

  /** A request on the hash, moved to where it ends now. */
  lemma Rehash(reqs: map<Rid, Req>, b: Buckets, x: Rid, r: Req, hash: int -> nat)
    requires HashOk(reqs, b, hash)
    ensures HashOk(reqs[x := r], HashAdd(HashDel(b, x), x, hash(End(r))), hash)
  {
    hide HashOk, HashDel, HashAdd, Bucket;
    HashIff(reqs, b, hash);
    DelOk(b, x);
    AddOk(HashDel(b, x), x, hash(End(r)));
    HashIff(reqs[x := r], HashAdd(HashDel(b, x), x, hash(End(r))), hash);
  }

  lemma Unhash(reqs: map<Rid, Req>, b: Buckets, x: Rid, hash: int -> nat)
    requires HashOk(reqs, b, hash)
    ensures HashOk(reqs - {x}, HashDel(b, x), hash)
  {
    hide HashOk, HashDel, Bucket;
    HashIff(reqs, b, hash);
    DelOk(b, x);
    HashIff(reqs - {x}, HashDel(b, x), hash);
  }

  /** A request that ends where it did, or that may not be merged any more, can stay where it is. */
  lemma SameHash(reqs: map<Rid, Req>, b: Buckets, x: Rid, r: Req, hash: int -> nat)
    requires HashOk(reqs, b, hash) && x in reqs && End(r) == End(reqs[x]) && (reqs[x].noMerge ==> r.noMerge)
    ensures HashOk(reqs[x := r], b, hash)
  {
  }

  lemma NewHash(reqs: map<Rid, Req>, b: Buckets, x: Rid, r: Req, hash: int -> nat)
    requires HashOk(reqs, b, hash) && x !in reqs
    ensures r.noMerge ==> HashOk(reqs[x := r], b, hash)
    ensures HashOk(reqs[x := r], HashAdd(b, x, hash(End(r))), hash)
  {
    hide HashOk, HashAdd, Bucket;
    HashIff(reqs, b, hash);
    AddOk(b, x, hash(End(r)));
    HashIff(reqs[x := r], b, hash);
    HashIff(reqs[x := r], HashAdd(b, x, hash(End(r))), hash);
  }

  // ---------- searching ----------

  /** A search of a bucket drops only requests that may not be merged, and finds one that ends at off iff there is one. */
  lemma {:induction false} ScanOk(l: seq<Rid>, reqs: map<Rid, Req>, off: int)
    requires forall x :: x in l ==> x in reqs
    ensures var (rest, found) := Scan(l, reqs, off);
            && (forall x :: x in rest ==> x in l) && (forall x :: x in l && !reqs[x].noMerge ==> x in rest)
            && (found.Some? ==> found.value in l && !reqs[found.value].noMerge && End(reqs[found.value]) == off)
            && (found.None? ==> forall x :: x in l && !reqs[x].noMerge ==> End(reqs[x]) != off)
  {
    if l != [] {
      ScanOk(l[1..], reqs, off);
      assert l == [l[0]] + l[1..];
    }
  }

  /** x is the first request of a bucket that may be merged and ends at off. */
  predicate IsFirst(l: seq<Rid>, reqs: map<Rid, Req>, off: int, x: Rid)
    requires forall y :: y in l ==> y in reqs
  {
    exists i :: 0 <= i < |l| && l[i] == x && Ends(reqs[x], off) && forall j :: 0 <= j < i ==> !Ends(reqs[l[j]], off)
  }

  predicate Ends(r: Req, off: int) {
    !r.noMerge && End(r) == off
  }

  lemma {:induction false} ScanFirst(l: seq<Rid>, reqs: map<Rid, Req>, off: int, x: Rid)
    requires forall y :: y in l ==> y in reqs
    ensures Scan(l, reqs, off).1 == Some(x) <==> IsFirst(l, reqs, off, x)
  {
    if l != [] {
      var t := l[1..];
      ScanFirst(t, reqs, off, x);
      if Ends(reqs[l[0]], off) {
        if x == l[0] {
          assert IsFirst(l, reqs, off, x);
        }
      } else {
        if IsFirst(t, reqs, off, x) {
          var i :| 0 <= i < |t| && t[i] == x && Ends(reqs[x], off) && forall j :: 0 <= j < i ==> !Ends(reqs[t[j]], off);
          assert l[i + 1] == x;
          assert forall j :: 0 <= j < i + 1 ==> !Ends(reqs[l[j]], off) by {
            forall j | 0 < j < i + 1 ensures l[j] == t[j - 1] {}
          }
        }
        if IsFirst(l, reqs, off, x) {
          var i :| 0 <= i < |l| && l[i] == x && Ends(reqs[x], off) && forall j :: 0 <= j < i ==> !Ends(reqs[l[j]], off);
          assert t[i - 1] == x;
          assert forall j :: 0 <= j < i - 1 ==> t[j] == l[j + 1];
        }
      }
    }
  }

  /** The hash finds a request that ends at off exactly when a search of all requests would. */
  lemma SearchIff(s: State, off: int, hash: int -> nat)
    requires HashOk(s.reqs, s.buckets, hash)
    ensures forall x :: x in Bucket(s.buckets, hash(off)) ==> x in s.reqs
    ensures var (t, found) := Search(s, off, hash);
            && HashOk(t.reqs, t.buckets, hash) && t == s.(buckets := t.buckets)
            && (found.Some? <==> exists x :: x in s.reqs && !s.reqs[x].noMerge && End(s.reqs[x]) == off)
            && (found.Some? ==> found.value in s.reqs && !s.reqs[found.value].noMerge && End(s.reqs[found.value]) == off)
  {
    hide Scan;
    HashIff(s.reqs, s.buckets, hash);
    var k := hash(off);
    var l := Bucket(s.buckets, k);
    ScanOk(l, s.reqs, off);
    var (t, found) := Search(s, off, hash);
    HashIff(t.reqs, t.buckets, hash);
    forall j, x | x in Bucket(t.buckets, j)
      ensures x in Bucket(s.buckets, j)
    {
    }
  }

  // ---------- nothing is lost or doubled ----------

  lemma HeldIff(reqs: map<Rid, Req>, b: Bio)
    ensures b in Held(reqs) <==> exists x :: x in reqs && b in reqs[x].bios
  {
  }

  lemma EverythingIff(s: State, b: Bio)
    ensures b in Everything(s) <==> b in s.passed || exists x :: x in s.reqs && b in s.reqs[x].bios
  {
    HeldIff(s.reqs, b);
  }

  /** The bios that request x has, if it is there. */
  function BiosOf(s: State, x: Rid): seq<Bio> {
    if x in s.reqs then s.reqs[x].bios else []
  }

  /** New bios join request x. */
  lemma OnceAdd(s: State, x: Rid, r: Req, n: set<Bio>)
    requires Once(s) && n !! Everything(s) && Distinct(r.bios)
    requires forall y :: y in r.bios <==> y in n || y in BiosOf(s, x)
    ensures Once(s.(reqs := s.reqs[x := r])) && Everything(s.(reqs := s.reqs[x := r])) == Everything(s) + n
  {
    var e := s.(reqs := s.reqs[x := r]);
    forall b | b in n
      ensures b !in s.passed && forall z :: z in s.reqs ==> b !in s.reqs[z].bios
    {
      EverythingIff(s, b);
    }
    forall y
      ensures y in Everything(e) <==> y in Everything(s) || y in n
    {
      EverythingIff(s, y);
      EverythingIff(e, y);
      assert x in e.reqs && (y in e.reqs[x].bios <==> y in n || y in BiosOf(s, x));
      if z :| z in s.reqs && y in s.reqs[z].bios {
        assert z in e.reqs && y in e.reqs[z].bios;
      }
      if z :| z in e.reqs && y in e.reqs[z].bios {
        assert z == x || z in s.reqs;
      }
    }
    OnceAddOnce(s, x, r, n);
  }

  lemma OnceAddOnce(s: State, x: Rid, r: Req, n: set<Bio>)
    requires Once(s) && Distinct(r.bios)
    requires forall b :: b in n ==> b !in s.passed && forall z :: z in s.reqs ==> b !in s.reqs[z].bios
    requires forall y :: y in r.bios <==> y in n || y in BiosOf(s, x)
    ensures Once(s.(reqs := s.reqs[x := r]))
  {
  }

  lemma DistinctJoin(a: seq<Bio>, b: seq<Bio>)
    requires Distinct(a) && Distinct(b) && forall y :: y in a ==> y !in b
    ensures Distinct(a + b) && forall y :: y in a + b <==> y in a || y in b
  {
    var s := a + b;
    forall i, j | 0 <= i < j < |s|
      ensures s[i] != s[j]
    {
      if i < |a| <= j {
        assert s[i] in a && s[j] == b[j - |a|];
      }
    }
  }

  /** Request y becomes part of x. */
  lemma OnceMerge(s: State, x: Rid, y: Rid, r: Req)
    requires Once(s) && x in s.reqs && y in s.reqs && x != y && r.bios == s.reqs[x].bios + s.reqs[y].bios
    ensures Once(s.(reqs := s.reqs[x := r] - {y})) && Everything(s.(reqs := s.reqs[x := r] - {y})) == Everything(s)
  {
    var e := s.(reqs := s.reqs[x := r] - {y});
    DistinctJoin(s.reqs[x].bios, s.reqs[y].bios);
    forall b
      ensures b in Everything(e) <==> b in Everything(s)
    {
      EverythingIff(s, b);
      EverythingIff(e, b);
      assert x in e.reqs && e.reqs[x].bios == r.bios;
      if z :| z in s.reqs && b in s.reqs[z].bios {
        var w := if z == y then x else z;
        assert w in e.reqs && b in e.reqs[w].bios;
      }
      if z :| z in e.reqs && b in e.reqs[z].bios {
        assert z in s.reqs;
        assert z == x ==> b in s.reqs[x].bios || b in s.reqs[y].bios;
      }
    }
  }

  /** Request x leaves with its bios. */
  lemma OncePass(s: State, x: Rid)
    requires Once(s) && x in s.reqs
    ensures var e := s.(reqs := s.reqs - {x}, passed := s.passed + s.reqs[x].bios);
            Once(e) && Everything(e) == Everything(s)
  {
    var e := s.(reqs := s.reqs - {x}, passed := s.passed + s.reqs[x].bios);
    assert forall b :: b in s.passed ==> b !in s.reqs[x].bios;
    DistinctJoin(s.passed, s.reqs[x].bios);
    forall b
      ensures b in Everything(e) <==> b in Everything(s)
    {
      EverythingIff(s, b);
      EverythingIff(e, b);
      if z :| z in s.reqs && b in s.reqs[z].bios {
        assert z == x || z in e.reqs;
      }
    }
  }

  // ---------- the steps ----------

  datatype Step =
    | DoInsert(x: Rid, r: Req)
    | DoAbsorb(x: Rid, r: Req)
    | DoBack(x: Rid, b: Bio)
    | DoFront(x: Rid, b: Bio)
    | DoMerge(x: Rid, y: Rid)
    | DoForbid(x: Rid)
    | DoPass(x: Rid)
    | DoSearch(off: int)

  function Bios(l: seq<Bio>): set<Bio> {
    set b | b in l
  }

  /** The bios that a step brings. */
  function Added(a: Step): set<Bio> {
    match a
    case DoInsert(x, r) => Bios(r.bios)
    case DoAbsorb(x, r) => Bios(r.bios)
    case DoBack(x, b) => {b}
    case DoFront(x, b) => {b}
    case _ => {}
  }

  /** Bios are submitted once, and joined only where the checks of the source allow it. */
  ghost predicate Enabled(s: State, a: Step) {
    && Added(a) !! Everything(s)
    && match a
       case DoInsert(x, r) => x !in s.reqs && ReqOk(r) && Distinct(r.bios)
       case DoAbsorb(x, r) => x in s.reqs && ReqOk(r) && Distinct(r.bios) && Adjoins(s.reqs[x], r)
       case DoBack(x, b) => x in s.reqs && Continues(s.reqs[x], b)
       case DoFront(x, b) => x in s.reqs && Precedes(s.reqs[x], b)
       case DoMerge(x, y) => x in s.reqs && y in s.reqs && x != y && Adjoins(s.reqs[x], s.reqs[y])
       case DoForbid(x) => x in s.reqs
       case DoPass(x) => x in s.reqs
       case DoSearch(off) => true
  }

  /** A search that ran into a request that is gone would not be defined; anything might follow. */
  ghost predicate Takes(s: State, a: Step, t: State, hash: int -> nat) {
    && Enabled(s, a)
    && match a
       case DoInsert(x, r) => t == Insert(s, x, r, hash)
       case DoAbsorb(x, r) => t == Absorb(s, x, r, hash)
       case DoBack(x, b) => t == BackMerge(s, x, b, hash)
       case DoFront(x, b) => t == FrontMerge(s, x, b)
       case DoMerge(x, y) => t == MergeRequests(s, x, y, hash)
       case DoForbid(x) => t == Forbid(s, x)
       case DoPass(x) => t == Pass(s, x)
       case DoSearch(off) =>
         (forall x :: x in Bucket(s.buckets, hash(off)) ==> x in s.reqs) ==> t == Search(s, off, hash).0
  }

  lemma InsertInv(s: State, a: Step, hash: int -> nat)
    requires Inv(s, hash) && a.DoInsert? && Enabled(s, a)
    ensures var t := Insert(s, a.x, a.r, hash); Inv(t, hash) && Everything(t) == Everything(s) + Added(a)
  {
    hide HashOk, Once, Everything, HashAdd, Extent;
    NewHash(s.reqs, s.buckets, a.x, a.r, hash);
    OnceAdd(s, a.x, a.r, Bios(a.r.bios));
    Frame(s.(reqs := s.reqs[a.x := a.r]), Insert(s, a.x, a.r, hash));
  }

  lemma AbsorbInv(s: State, a: Step, hash: int -> nat)
    requires Inv(s, hash) && a.DoAbsorb? && Enabled(s, a)
    ensures var t := Absorb(s, a.x, a.r, hash); Inv(t, hash) && Everything(t) == Everything(s) + Added(a)
  {
    hide HashOk, Once, Everything, HashAdd, HashDel, Extent;
    var r := s.reqs[a.x];
    var m := Joined(r, a.r);
    ExtentJoin(r.bios, a.r.bios, r.sector, r.sectors, a.r.sectors, r.write, r.kind);
    Rehash(s.reqs, s.buckets, a.x, m, hash);
    forall b | b in r.bios
      ensures b !in a.r.bios
    {
      EverythingIff(s, b);
      assert b in Everything(s) && (b in a.r.bios ==> b in Added(a));
    }
    OnceDistinct(s, a.x);
    DistinctJoin(r.bios, a.r.bios);
    OnceAdd(s, a.x, m, Bios(a.r.bios));
    Frame(s.(reqs := s.reqs[a.x := m]), Absorb(s, a.x, a.r, hash));
  }

  lemma OnceDistinct(s: State, x: Rid)
    requires Once(s) && x in s.reqs
    ensures Distinct(s.reqs[x].bios)
  {
  }

  /** A request that gathers bios on a plug list stays one extent. */
  lemma PlugOk(r: Req, b: Bio)
    requires ReqOk(r)
    ensures Continues(r, b) ==> ReqOk(Joined(r, FromBio(b, r.noMerge)))
    ensures Precedes(r, b) ==> ReqOk(Joined(FromBio(b, r.noMerge), r))
  {
    hide Extent;
    OneExtent(b);
    if Continues(r, b) {
      ExtentJoin(r.bios, [b], r.sector, r.sectors, b.sectors, r.write, r.kind);
    }
    if Precedes(r, b) {
      ExtentJoin([b], r.bios, b.sector, b.sectors, r.sectors, r.write, r.kind);
    }
  }

  /** Being once, and what there is, do not depend on the hash. */
  lemma Frame(s: State, t: State)
    requires s.reqs == t.reqs && s.passed == t.passed
    ensures Once(s) ==> Once(t)
    ensures Everything(s) == Everything(t)
  {
  }

  lemma BackInv(s: State, a: Step, hash: int -> nat)
    requires Inv(s, hash) && a.DoBack? && Enabled(s, a)
    ensures var t := BackMerge(s, a.x, a.b, hash); Inv(t, hash) && Everything(t) == Everything(s) + Added(a)
  {
    hide HashOk, Once, Everything, HashAdd, HashDel, Extent;
    var r := s.reqs[a.x];
    var n := r.(bios := r.bios + [a.b], sectors := r.sectors + a.b.sectors);
    OneExtent(a.b);
    ExtentJoin(r.bios, [a.b], r.sector, r.sectors, a.b.sectors, r.write, r.kind);
    Rehash(s.reqs, s.buckets, a.x, n, hash);
    FreshIn(s, a.x, a.b);
    DistinctJoin(r.bios, [a.b]);
    OnceAdd(s, a.x, n, {a.b});
    Frame(s.(reqs := s.reqs[a.x := n]), BackMerge(s, a.x, a.b, hash));
  }

  lemma FrontInv(s: State, a: Step, hash: int -> nat)
    requires Inv(s, hash) && a.DoFront? && Enabled(s, a)
    ensures var t := FrontMerge(s, a.x, a.b); Inv(t, hash) && Everything(t) == Everything(s) + Added(a)
  {
    hide HashOk, Once, Everything, Extent;
    var r := s.reqs[a.x];
    var n := r.(bios := [a.b] + r.bios, sector := a.b.sector, sectors := r.sectors + a.b.sectors);
    OneExtent(a.b);
    ExtentJoin([a.b], r.bios, a.b.sector, a.b.sectors, r.sectors, r.write, r.kind);
    SameHash(s.reqs, s.buckets, a.x, n, hash);
    FreshIn(s, a.x, a.b);
    DistinctJoin([a.b], r.bios);
    OnceAdd(s, a.x, n, {a.b});
    Frame(s.(reqs := s.reqs[a.x := n]), FrontMerge(s, a.x, a.b));
  }

  lemma FreshIn(s: State, x: Rid, b: Bio)
    requires Once(s) && x in s.reqs && b !in Everything(s)
    ensures b !in s.reqs[x].bios && Distinct(s.reqs[x].bios)
  {
    EverythingIff(s, b);
  }

  lemma MergeInv(s: State, a: Step, hash: int -> nat)
    requires Inv(s, hash) && a.DoMerge? && Enabled(s, a)
    ensures var t := MergeRequests(s, a.x, a.y, hash); Inv(t, hash) && Everything(t) == Everything(s)
  {
    hide HashOk, Once, Everything, HashAdd, HashDel, Extent;
    var r, n := s.reqs[a.x], s.reqs[a.y];
    var m := Joined(r, n);
    ExtentJoin(r.bios, n.bios, r.sector, r.sectors, n.sectors, r.write, r.kind);
    Rehash(s.reqs, s.buckets, a.x, m, hash);
    Unhash(s.reqs[a.x := m], HashAdd(HashDel(s.buckets, a.x), a.x, hash(End(m))), a.y, hash);
    OnceMerge(s, a.x, a.y, m);
    Frame(s.(reqs := s.reqs[a.x := m] - {a.y}), MergeRequests(s, a.x, a.y, hash));
  }

  lemma OtherInv(s: State, a: Step, t: State, hash: int -> nat)
    requires Inv(s, hash) && (a.DoForbid? || a.DoPass? || a.DoSearch?) && Takes(s, a, t, hash)
    ensures Inv(t, hash) && Everything(t) == Everything(s)
  {
    hide HashOk, Once, Everything, HashDel, Extent, Search;
    match a
    case DoForbid(x) =>
      SameHash(s.reqs, s.buckets, x, s.reqs[x].(noMerge := true), hash);
      ForbidFrame(s, x);
    case DoPass(x) =>
      Unhash(s.reqs, s.buckets, x, hash);
      OncePass(s, x);
      Frame(s.(reqs := s.reqs - {x}, passed := s.passed + s.reqs[x].bios), t);
    case DoSearch(off) =>
      SearchIff(s, off, hash);
      Frame(s, t);
  }

  lemma ForbidFrame(s: State, x: Rid)
    requires Once(s) && x in s.reqs
    ensures Once(Forbid(s, x)) && Everything(Forbid(s, x)) == Everything(s)
  {
    var t := Forbid(s, x);
    forall b
      ensures b in Everything(t) <==> b in Everything(s)
    {
      EverythingIff(s, b);
      EverythingIff(t, b);
      assert forall z :: z in s.reqs <==> z in t.reqs;
      assert forall z :: z in s.reqs ==> t.reqs[z].bios == s.reqs[z].bios;
    }
  }

  lemma StepInv(s: State, a: Step, t: State, hash: int -> nat)
    requires Inv(s, hash) && Takes(s, a, t, hash)
    ensures Inv(t, hash) && Everything(t) == Everything(s) + Added(a)
  {
    hide Inv, Everything, Insert, Absorb, BackMerge, FrontMerge, MergeRequests;
    match a
    case DoInsert(x, r) => InsertInv(s, a, hash);
    case DoAbsorb(x, r) => AbsorbInv(s, a, hash);
    case DoBack(x, b) => BackInv(s, a, hash);
    case DoFront(x, b) => FrontInv(s, a, hash);
    case DoMerge(x, y) => MergeInv(s, a, hash);
    case _ => OtherInv(s, a, t, hash);
  }

  // ---------- runs ----------

  ghost predicate Run(run: seq<State>, steps: seq<Step>, hash: int -> nat) {
    && |run| == |steps| + 1 && run[0] == State(map[], map[], None, [])
    && forall i :: 0 <= i < |steps| ==> Takes(run[i], steps[i], run[i + 1], hash)
  }

  /** All bios submitted in the first i steps. */
  function Submitted(steps: seq<Step>, i: nat): set<Bio>
    requires i <= |steps|
  {
    if i == 0 then {} else Submitted(steps, i - 1) + Added(steps[i - 1])
  }

  /** At every point of every run, each submitted bio is in one place, and none other is anywhere. */
  lemma {:induction false} RunInv(run: seq<State>, steps: seq<Step>, hash: int -> nat, i: nat)
    requires Run(run, steps, hash) && i < |run|
    ensures Inv(run[i], hash) && Everything(run[i]) == Submitted(steps, i)
  {
    hide Inv, Takes, Everything;
    if i > 0 {
      RunInv(run, steps, hash, i - 1);
      assert Takes(run[i - 1], steps[i - 1], run[i - 1 + 1], hash);
      StepInv(run[i - 1], steps[i - 1], run[i], hash);
    } else {
      StartInv(hash);
    }
  }

  lemma StartInv(hash: int -> nat)
    ensures var s := State(map[], map[], None, []); Inv(s, hash) && Everything(s) == {}
  {
  }

  /** In every run, a search by hash finds a request to continue exactly when there is one. */
  lemma FindExact(run: seq<State>, steps: seq<Step>, hash: int -> nat, i: nat, off: int)
    requires Run(run, steps, hash) && i < |run|
    ensures var s := run[i];
            && (forall x :: x in Bucket(s.buckets, hash(off)) ==> x in s.reqs)
            && (Search(s, off, hash).1.Some? <==> exists x :: x in s.reqs && !s.reqs[x].noMerge && End(s.reqs[x]) == off)
  {
    hide Search;
    RunInv(run, steps, hash, i);
    SearchIff(run[i], off, hash);
  }
}
