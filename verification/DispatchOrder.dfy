/**
elv_dispatch_sort of block/elevator.c: a request goes into the dispatch list from the back, past
requests that it may overtake.
*/
module DispatchOrder {
  /** `stop` is REQ_SOFTBARRIER or REQ_STARTED. */
  datatype Rq = Rq(id: nat, pos: nat, write: bool, discard: bool, stop: bool)

  /** Requests that are ordered among each other. */
  predicate Alike(a: Rq, b: Rq) {
    a.write == b.write && a.discard == b.discard
  }

  /** The order of one sweep of the head: from the boundary up, then from the start of the disk. */
  predicate Before(a: Rq, b: Rq, boundary: nat) {
    if (a.pos < boundary) == (b.pos < boundary) then a.pos <= b.pos else b.pos < boundary
  }

  /** A new request goes past one in the list when they are alike and it belongs before it. */
  predicate Passes(r: Rq, p: Rq, boundary: nat) {
    Alike(r, p) && !p.stop && !Before(p, r, boundary)
  }

  /** Neighbours that are alike and not stopped are in order; so is every run of such requests. */
  ghost predicate Ordered(l: seq<Rq>, boundary: nat) {
    forall i :: 0 <= i < |l| - 1 ==> InTurn(l, i, boundary)
  }

  predicate InTurn(l: seq<Rq>, i: nat, boundary: nat)
    requires i + 1 < |l|
  {
    Alike(l[i], l[i + 1]) && !l[i].stop && !l[i + 1].stop ==> Before(l[i], l[i + 1], boundary)
  }

  /** A stretch of the list whose requests are all alike and not stopped. */
  ghost predicate Stretch(l: seq<Rq>, i: nat, j: nat)
    requires i <= j < |l|
  {
    forall k :: i <= k <= j ==> Alike(l[i], l[k]) && !l[k].stop
  }

  /** In such a stretch the order holds between any two requests, not only neighbours. */
  lemma {:induction false} StretchOrdered(l: seq<Rq>, boundary: nat, i: nat, j: nat)
    requires Ordered(l, boundary) && i <= j < |l| && Stretch(l, i, j)
    ensures Before(l[i], l[j], boundary)
    decreases j
  {
    if i < j {
      StretchOrdered(l, boundary, i, j - 1);
      assert InTurn(l, j - 1, boundary);
    }
  }

  /** The place where the walk from the back stops. */
  function Place(l: seq<Rq>, r: Rq, boundary: nat): (p: nat)
    ensures p <= |l|
    ensures p > 0 ==> !Passes(r, l[p - 1], boundary)
    ensures forall i :: p <= i < |l| ==> Passes(r, l[i], boundary)
  {
    if l == [] || !Passes(r, l[|l| - 1], boundary) then |l|
    else Place(l[..|l| - 1], r, boundary)
  }

  function Sorted(l: seq<Rq>, r: Rq, boundary: nat): seq<Rq> {
    var p := Place(l, r, boundary);
    l[..p] + [r] + l[p..]
  }

  /** elv_dispatch_sort */
  method DispatchSort(l: seq<Rq>, r: Rq, boundary: nat) returns (out: seq<Rq>)
    ensures out == Sorted(l, r, boundary)
  {
    hide Place;
    var entry := |l|;
    assert l[..|l|] == l;
    while entry > 0
      invariant 0 <= entry <= |l|
      invariant forall i :: entry <= i < |l| ==> Passes(r, l[i], boundary)
      invariant Place(l, r, boundary) == Place(l[..entry], r, boundary)
    {
      var pos := l[entry - 1];
      PlaceStep(l, r, boundary, entry);
      if r.discard != pos.discard {
        break;
      }
      if r.write != pos.write {
        break;
      }
      if pos.stop {
        break;
      }
      if r.pos >= boundary {
        if pos.pos < boundary {
          entry := entry - 1;
          continue;
        }
      } else {
        if pos.pos >= boundary {
          break;
        }
      }
      if r.pos >= pos.pos {
        break;
      }
      entry := entry - 1;
    }
    PlaceNowhere(r, boundary);
    out := l[..entry] + [r] + l[entry..];
  }

  /** One step from the back: past a request, or behind it. */
  lemma PlaceStep(l: seq<Rq>, r: Rq, boundary: nat, n: nat)
    requires 0 < n <= |l|
    ensures Place(l[..n], r, boundary) == if Passes(r, l[n - 1], boundary) then Place(l[..n - 1], r, boundary) else n
  {
    assert l[..n][..n - 1] == l[..n - 1];
  }

  lemma PlaceNowhere(r: Rq, boundary: nat)
    ensures Place([], r, boundary) == 0
  {
  }

  /** Nothing in the list moves, and a request that is stopped stays ahead of the new one. */
  lemma SortedAdds(l: seq<Rq>, r: Rq, boundary: nat)
    ensures multiset(Sorted(l, r, boundary)) == multiset(l) + multiset{r}
    ensures var p := Place(l, r, boundary);
            var out := Sorted(l, r, boundary);
            && out[p] == r && out[..p] == l[..p] && out[p + 1..] == l[p..]
            && forall i :: 0 <= i < |l| && l[i].stop ==> i < p && out[i] == l[i]
  {
    var p := Place(l, r, boundary);
    assert l == l[..p] + l[p..];
  }

  /** The list stays in order. */
  lemma SortedOrdered(l: seq<Rq>, r: Rq, boundary: nat)
    requires Ordered(l, boundary)
    ensures Ordered(Sorted(l, r, boundary), boundary)
  {
    var p := Place(l, r, boundary);
    var out := Sorted(l, r, boundary);
    forall i | 0 <= i < |out| - 1
      ensures InTurn(out, i, boundary)
    {
      if i + 1 < p {
        assert InTurn(l, i, boundary);
      } else if i + 1 == p {
        assert out[i] == l[i] && out[i + 1] == r;
      } else if i == p {
        assert out[i] == r && out[i + 1] == l[p];
      } else {
        assert InTurn(l, i - 1, boundary);
      }
    }
  }

  function SortedAll(l: seq<Rq>, rs: seq<Rq>, boundary: nat): seq<Rq>
    decreases |rs|
  {
    if rs == [] then l else SortedAll(Sorted(l, rs[0], boundary), rs[1..], boundary)
  }

  /** However many requests are dispatched, with one boundary: the list is in order and has each of them once. */
  lemma {:induction false} AllOrdered(l: seq<Rq>, rs: seq<Rq>, boundary: nat)
    requires Ordered(l, boundary)
    ensures Ordered(SortedAll(l, rs, boundary), boundary)
    ensures multiset(SortedAll(l, rs, boundary)) == multiset(l) + multiset(rs)
    decreases |rs|
  {
    hide Ordered, Sorted;
    if rs != [] {
      SortedOrdered(l, rs[0], boundary);
      SortedAdds(l, rs[0], boundary);
      AllOrdered(Sorted(l, rs[0], boundary), rs[1..], boundary);
      assert rs == [rs[0]] + rs[1..];
    } else {
      assert multiset(rs) == multiset{};
    }
  }

  /** A stopped request and all that is ahead of it stay where they are, whatever is dispatched. */
  lemma {:induction false} StoppedStay(l: seq<Rq>, rs: seq<Rq>, boundary: nat, i: nat)
    requires i < |l| && l[i].stop
    ensures |SortedAll(l, rs, boundary)| == |l| + |rs|
    ensures SortedAll(l, rs, boundary)[..i + 1] == l[..i + 1]
    decreases |rs|
  {
    hide Sorted;
    if rs != [] {
      var out := Sorted(l, rs[0], boundary);
      SortedAdds(l, rs[0], boundary);
      LengthOf(l, rs[0], boundary);
      StoppedStay(out, rs[1..], boundary, i);
      assert out[..i + 1] == out[..Place(l, rs[0], boundary)][..i + 1];
      assert l[..i + 1] == l[..Place(l, rs[0], boundary)][..i + 1];
    }
  }

  lemma LengthOf(l: seq<Rq>, r: Rq, boundary: nat)
    ensures |Sorted(l, r, boundary)| == |l| + 1
  {
  }
}
