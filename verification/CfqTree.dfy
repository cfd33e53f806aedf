/**
The ordered trees of block/cfq-iosched.c as sequences: sorted by key, with a cached leftmost entry
that is dropped when that entry goes and looked up again when it is needed.
*/
module CfqTree {
  import opened Common

  datatype Tree = Tree(order: seq<nat>, left: Option<nat>)

  const EMPTY: Tree := Tree([], None)

  ghost predicate Sorted(ks: seq<int>) {
    forall i, j :: 0 <= i < j < |ks| ==> ks[i] <= ks[j]
  }

  /** No entry twice, and the cache holds nothing or the first entry. */
  ghost predicate TreeOk(t: Tree) {
    && Distinct(t.order)
    && (t.left.Some? ==> t.order != [] && t.left.value == t.order[0])
  }

  /** The keys of a sequence of entries. */
  function Keys(order: seq<nat>, key: map<nat, int>): (ks: seq<int>)
    requires forall x :: x in order ==> x in key
    ensures |ks| == |order|
    ensures forall i :: 0 <= i < |order| ==> ks[i] == key[order[i]]
  {
    seq(|order|, i requires 0 <= i < |order| => key[order[i]])
  }

  /** Where an entry with key k goes: to the right of all entries with keys up to k. */
  function Place(ks: seq<int>, k: int): (p: nat)
    ensures p <= |ks|
    ensures p > 0 ==> ks[p - 1] <= k
    ensures forall i :: p <= i < |ks| ==> k < ks[i]
  {
    if ks == [] then 0
    else if k < ks[|ks| - 1] then Place(ks[..|ks| - 1], k)
    else |ks|
  }

  function InsertAt(t: Tree, x: nat, p: nat): Tree
    requires p <= |t.order|
  {
    Tree(t.order[..p] + [x] + t.order[p..], if p == 0 then Some(x) else t.left)
  }

  function IndexOf(s: seq<nat>, x: nat): (i: nat)
    requires x in s
    ensures i < |s| && s[i] == x
  {
    if s[0] == x then 0 else 1 + IndexOf(s[1..], x)
  }

  /** cfq_rb_erase */
  function Erase(t: Tree, x: nat): Tree
    requires x in t.order
  {
    var i := IndexOf(t.order, x);
    Tree(t.order[..i] + t.order[i + 1..], if t.left == Some(x) then None else t.left)
  }

  /** The first entry, through the cache. */
  function First(t: Tree): Option<nat> {
    if t.left.Some? then t.left else if t.order == [] then None else Some(t.order[0])
  }

  /** Looking at the first entry fills the cache. */
  function Cached(t: Tree): Tree {
    t.(left := First(t))
  }

  lemma InsertOk(t: Tree, x: nat, p: nat)
    requires TreeOk(t) && x !in t.order && p <= |t.order|
    ensures TreeOk(InsertAt(t, x, p))
    ensures forall y :: y in InsertAt(t, x, p).order <==> y == x || y in t.order
  {
    var order := InsertAt(t, x, p).order;
    forall y
      ensures y in order <==> y == x || y in t.order
    {
      assert t.order == t.order[..p] + t.order[p..];
    }
  }

  lemma EraseOk(t: Tree, x: nat)
    requires TreeOk(t) && x in t.order
    ensures TreeOk(Erase(t, x)) && |Erase(t, x).order| == |t.order| - 1
    ensures forall y :: y in Erase(t, x).order <==> y != x && y in t.order
  {
    var i := IndexOf(t.order, x);
    var order := Erase(t, x).order;
    assert t.order == t.order[..i] + [x] + t.order[i + 1..];
    forall y
      ensures y in order <==> y != x && y in t.order
    {
    }
  }

  lemma FirstOk(t: Tree)
    requires TreeOk(t)
    ensures First(t) == if t.order == [] then None else Some(t.order[0])
    ensures TreeOk(Cached(t))
  {
  }

  lemma PlaceSorted(ks: seq<int>, k: int)
    requires Sorted(ks)
    ensures var p := Place(ks, k); Sorted(ks[..p] + [k] + ks[p..])
  {
    var p := Place(ks, k);
    assert forall i :: 0 <= i < p ==> ks[i] <= k;
  }

  /** Inserting at the place for its key keeps the order. */
  lemma InsertSorted(order: seq<nat>, x: nat, key: map<nat, int>)
    requires x in key && (forall y :: y in order ==> y in key) && Sorted(Keys(order, key))
    ensures var p := Place(Keys(order, key), key[x]);
            var o := order[..p] + [x] + order[p..];
            (forall y :: y in o ==> y in key) && Sorted(Keys(o, key))
  {
    hide Place, Sorted, Keys;
    var ks := Keys(order, key);
    PlaceSorted(ks, key[x]);
    KeysInsert(order, x, key, Place(ks, key[x]));
  }

  lemma KeysInsert(order: seq<nat>, x: nat, key: map<nat, int>, p: nat)
    requires x in key && (forall y :: y in order ==> y in key) && p <= |order|
    ensures var o := order[..p] + [x] + order[p..];
            (forall y :: y in o ==> y in key) && Keys(o, key) == Keys(order, key)[..p] + [key[x]] + Keys(order, key)[p..]
  {
  }

  lemma EraseSorted(order: seq<nat>, i: nat, key: map<nat, int>)
    requires i < |order| && (forall y :: y in order ==> y in key) && Sorted(Keys(order, key))
    ensures var o := order[..i] + order[i + 1..];
            (forall y :: y in o ==> y in key) && Sorted(Keys(o, key))
  {
  }
}
