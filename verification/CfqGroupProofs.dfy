/**
Every operation on the groups keeps the group tree in order; and while the same groups stay busy,
none of them gets ahead of another by more than one charge.
*/
module CfqGroupProofs {
  import opened Common
  import opened CfqTree
  import opened CfqGroups

  lemma {:induction false} SumConcat(a: seq<nat>, b: seq<nat>, w: map<nat, int>)
    requires forall g :: g in a + b ==> g in w
    ensures (forall g :: g in a ==> g in w) && (forall g :: g in b ==> g in w)
    ensures WeightSum(a + b, w) == WeightSum(a, w) + WeightSum(b, w)
  {
    forall g | g in a
      ensures g in w
    {
      assert g in a + b;
    }
    forall g | g in b
      ensures g in w
    {
      assert g in a + b;
    }
    if a == [] {
      assert a + b == b;
    } else {
      assert (a + b)[1..] == a[1..] + b;
      SumConcat(a[1..], b, w);
    }
  }

  lemma {:induction false} SumSame(order: seq<nat>, w: map<nat, int>, v: map<nat, int>)
    requires forall g :: g in order ==> g in w && g in v && w[g] == v[g]
    ensures WeightSum(order, w) == WeightSum(order, v)
  {
    if order != [] {
      SumSame(order[1..], w, v);
    }
  }

  /** Group g is off the tree; all else is as it should be. */
  ghost predicate Off(s: Groups, g: Gid) {
    && Members(s) && g in s.group && g !in s.tree.order
    && (forall x :: x in s.group ==> s.group[x].nr >= 0 && (x != g ==> (x in s.tree.order <==> s.group[x].nr > 0)))
    && Sorted(Keys(s.tree.order, VTimes(s)))
    && s.total == WeightSum(s.tree.order, Weights(s))
  }

  lemma SumErase(o: seq<nat>, i: nat, w: map<nat, int>)
    requires i < |o| && forall g :: g in o ==> g in w
    ensures (forall g :: g in o[..i] + o[i + 1..] ==> g in w) && o[i] in w
    ensures WeightSum(o, w) == WeightSum(o[..i] + o[i + 1..], w) + w[o[i]]
  {
    var g := o[i];
    assert o == o[..i] + ([g] + o[i + 1..]);
    SumConcat(o[..i], [g] + o[i + 1..], w);
    SumConcat(o[..i], o[i + 1..], w);
    assert ([g] + o[i + 1..])[1..] == o[i + 1..];
  }

  lemma DelOff(s: Groups, g: Gid)
    requires Inv(s) && g in s.tree.order
    ensures Off(Del(s, g), g)
  {
    hide WeightSum, Sorted, TreeOk;
    EraseMembers(s, g);
    var i := IndexOf(s.tree.order, g);
    EraseSorted(s.tree.order, i, VTimes(s));
    SumErase(s.tree.order, i, Weights(s));
  }

  /** What is off the tree may change. */
  lemma OffChange(s: Groups, g: Gid, n: Group)
    requires Off(s, g) && n.weight > 0 && n.newWeight > 0 && n.nr >= 0
    ensures Off(s.(group := s.group[g := n]), g)
  {
    var v := s.(group := s.group[g := n]);
    assert Keys(s.tree.order, VTimes(v)) == Keys(s.tree.order, VTimes(s));
    SumSame(s.tree.order, Weights(s), Weights(v));
  }

  function Inserted(s: Groups, g: Gid): Groups
    requires Members(s) && g in s.group
  {
    var p := Place(Keys(s.tree.order, VTimes(s)), s.group[g].vdisktime);
    s.(tree := InsertAt(s.tree, g, p), total := s.total + s.group[g].weight)
  }

  lemma InsertedMembers(s: Groups, g: Gid)
    requires Members(s) && g in s.group && g !in s.tree.order
    ensures Members(Inserted(s, g)) && forall y :: y in Inserted(s, g).tree.order <==> y == g || y in s.tree.order
  {
    hide Place;
    InsertOk(s.tree, g, Place(Keys(s.tree.order, VTimes(s)), s.group[g].vdisktime));
  }

  lemma InsertedOrder(s: Groups, g: Gid)
    requires Off(s, g) && Members(Inserted(s, g))
    ensures Sorted(Keys(Inserted(s, g).tree.order, VTimes(s)))
    ensures Inserted(s, g).total == WeightSum(Inserted(s, g).tree.order, Weights(s))
  {
    hide WeightSum, Sorted, TreeOk, Place;
    var key := VTimes(s);
    var o := s.tree.order;
    var p := Place(Keys(o, key), key[g]);
    var n := o[..p] + [g] + o[p..];
    InsertSorted(o, g, key);
    SumErase(n, p, Weights(s));
    assert n[..p] + n[p + 1..] == o;
  }

  lemma AddPlace(s: Groups, g: Gid)
    requires Off(s, g) && !s.group[g].needsUpdate && s.group[g].nr > 0
    ensures Inv(Add(s, g))
  {
    hide WeightSum, Sorted, TreeOk, Place, Keys;
    InsertedMembers(s, g);
    InsertedOrder(s, g);
    assert s.group[g := s.group[g]] == s.group;
    assert Add(s, g) == Inserted(s, g);
  }

  lemma AddOn(s: Groups, g: Gid)
    requires Off(s, g) && s.group[g].nr > 0
    ensures Inv(Add(s, g))
  {
    hide Inv, Off;
    OffOf(s, g);
    var n := Reweighed(s.group[g]);
    var v := s.(group := s.group[g := n]);
    OffChange(s, g, n);
    OffOf(v, g);
    AddPlace(v, g);
    AddSame(s, v, g);
  }

  lemma AddSame(s: Groups, v: Groups, g: Gid)
    requires Members(s) && Members(v) && g in s.group && g !in s.tree.order
    requires v == s.(group := s.group[g := Reweighed(s.group[g])])
    ensures Add(v, g) == Add(s, g)
  {
    hide TreeOk;
    assert Keys(s.tree.order, VTimes(v)) == Keys(s.tree.order, VTimes(s));
    assert v.group[g := v.group[g]] == v.group;
  }

  lemma ServedInv(s: Groups, g: Gid, charge: nat)
    requires Inv(s) && g in s.tree.order
    ensures Inv(Served(s, g, charge))
  {
    hide Inv, Off, Scale, Add;
    InvMembers(s);
    DelOff(s, g);
    OffOf(Del(s, g), g);
    InvOf(s, g);
    var s1 := Del(s, g);
    var n := s1.group[g].(vdisktime := s1.group[g].vdisktime + Scale(charge, s1.group[g].weight));
    OffChange(s1, g, n);
    AddOn(s1.(group := s1.group[g := n]), g);
  }

  lemma OffOf(s: Groups, g: Gid)
    requires Off(s, g)
    ensures Members(s) && g in s.group && g !in s.tree.order
    ensures s.group[g].nr >= 0 && s.group[g].weight > 0 && s.group[g].newWeight > 0
  {
  }

  lemma InvOf(s: Groups, g: Gid)
    requires Inv(s) && g in s.group
    ensures s.group[g].nr >= 0 && s.group[g].weight > 0 && s.group[g].newWeight > 0
    ensures g in s.tree.order <==> s.group[g].nr > 0
  {
  }

  /** The number of busy queues of a group may change as long as it stays positive. */
  lemma CountChange(s: Groups, g: Gid, nr: int)
    requires Inv(s) && g in s.tree.order && nr > 0
    ensures Inv(s.(group := s.group[g := s.group[g].(nr := nr)]))
  {
    hide WeightSum, Sorted, TreeOk;
    var v := s.(group := s.group[g := s.group[g].(nr := nr)]);
    assert Keys(s.tree.order, VTimes(v)) == Keys(s.tree.order, VTimes(s));
    SumSame(s.tree.order, Weights(s), Weights(v));
  }

  lemma OffInv(s: Groups, g: Gid)
    requires Members(s) && g in s.group && g !in s.tree.order
    ensures Inv(s) <==> Off(s, g) && s.group[g].nr == 0
  {
    hide WeightSum, Sorted, TreeOk;
  }

  lemma NotifyAddInv(s: Groups, g: Gid, idleDelay: nat)
    requires Inv(s) && g in s.group
    ensures Inv(NotifyAdd(s, g, idleDelay))
  {
    hide Add, Inv, Off;
    InvMembers(s);
    InvOf(s, g);
    var n := s.group[g].(nr := s.group[g].nr + 1);
    if g in s.tree.order {
      CountChange(s, g, n.nr);
    } else {
      var o := s.tree.order;
      var time := if o == [] then s.minV else s.group[o[|o| - 1]].vdisktime + idleDelay;
      OffInv(s, g);
      OffChange(s, g, n.(vdisktime := time));
      AddOn(s.(group := s.group[g := n.(vdisktime := time)]), g);
    }
  }

  lemma InvMembers(s: Groups)
    requires Inv(s)
    ensures Members(s)
  {
  }

  lemma NotifyDelInv(s: Groups, g: Gid)
    requires Inv(s) && g in s.tree.order
    ensures Inv(NotifyDel(s, g))
  {
    hide Inv, Off, Members;
    InvMembers(s);
    assert g in s.group by { MembersOf(s, g); }
    InvOf(s, g);
    var n := s.group[g].(nr := s.group[g].nr - 1);
    if n.nr != 0 {
      CountChange(s, g, n.nr);
    } else {
      DelOff(s, g);
      OffOf(Del(s, g), g);
      OffChange(Del(s, g), g, n);
      var v := Del(s, g).(group := Del(s, g).group[g := n]);
      OffOf(v, g);
      OffInv(v, g);
    }
  }

  lemma MembersOf(s: Groups, g: Gid)
    requires Members(s) && g in s.tree.order
    ensures g in s.group
  {
  }

  lemma NextGroupInv(s: Groups)
    requires Inv(s)
    ensures Inv(NextGroup(s).0)
    ensures NextGroup(s).1 == if s.tree.order == [] then None else Some(s.tree.order[0])
    ensures NextGroup(s).0.group == s.group && NextGroup(s).0.tree.order == s.tree.order
  {
    FirstOk(s.tree);
  }

  /** Who is on the tree after an insertion. */
  lemma AddIs(s: Groups, g: Gid)
    requires Members(s) && g in s.group && g !in s.tree.order
    ensures Add(s, g).group == s.group[g := Reweighed(s.group[g])]
    ensures forall y :: y in Add(s, g).tree.order <==> y == g || y in s.tree.order
  {
    hide Place, TreeOk;
    InsertOk(s.tree, g, Place(Keys(s.tree.order, VTimes(s)), Reweighed(s.group[g]).vdisktime));
  }

  /** Being served changes the virtual time of a group and, when one was asked for, its weight. */
  lemma ServedIs(s: Groups, g: Gid, charge: nat)
    requires Members(s) && g in s.tree.order
    ensures g in s.group && s.group[g].weight > 0
    ensures Served(s, g, charge).group ==
            s.group[g := Reweighed(s.group[g].(vdisktime := s.group[g].vdisktime + Scale(charge, s.group[g].weight)))]
    ensures forall y :: y in Served(s, g, charge).tree.order <==> y in s.tree.order
  {
    hide Add, Scale, TreeOk;
    EraseMembers(s, g);
    var d := Del(s, g);
    var e := d.group[g].(vdisktime := d.group[g].vdisktime + Scale(charge, d.group[g].weight));
    AddIs(d.(group := d.group[g := e]), g);
  }

  /** The counts after a queue became busy, or stopped being so. */
  lemma NotifyCounts(s: Groups, g: Gid, idleDelay: nat)
    requires Members(s) && g in s.group
    ensures NotifyAdd(s, g, idleDelay).group.Keys == s.group.Keys == NotifyDel(s, g).group.Keys
    ensures NotifyAdd(s, g, idleDelay).group[g].nr == s.group[g].nr + 1
    ensures NotifyDel(s, g).group[g].nr == s.group[g].nr - 1
    ensures forall h :: h in s.group && h != g ==>
              NotifyAdd(s, g, idleDelay).group[h] == s.group[h] && NotifyDel(s, g).group[h] == s.group[h]
  {
    hide Place, TreeOk;
  }
}
