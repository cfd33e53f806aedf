/**
The groups of block/cfq-iosched.c and their service tree: a group is charged for the disk time that
it used, scaled by its weight, and the group with the least virtual time is served next.
*/
module CfqGroups {
  import opened Common
  import opened CfqTree

  const SERVICE_SHIFT_FACTOR: nat := 4096
  const WEIGHT_DEFAULT: nat := 500

  type Gid = nat

  datatype Group = Group(vdisktime: int, weight: nat, newWeight: nat, needsUpdate: bool, nr: int)

  datatype Groups = Groups(group: map<Gid, Group>, tree: Tree, total: int, minV: int)

  function VTimes(s: Groups): map<Gid, int> {
    map g | g in s.group :: s.group[g].vdisktime
  }

  function Weights(s: Groups): map<Gid, int> {
    map g | g in s.group :: s.group[g].weight
  }

  ghost predicate Members(s: Groups) {
    && TreeOk(s.tree) && (forall g :: g in s.tree.order ==> g in s.group)
    && (forall g :: g in s.group ==> s.group[g].weight > 0 && s.group[g].newWeight > 0)
  }

  // ---------- the operations ----------

  /** cfq_scale_slice */
  function Scale(charge: nat, weight: nat): nat
    requires weight > 0
  {
    charge * SERVICE_SHIFT_FACTOR * WEIGHT_DEFAULT / weight
  }

  /** cfq_group_service_tree_del */
  function Del(s: Groups, g: Gid): Groups
    requires g in s.group
  {
    s.(total := s.total - s.group[g].weight, tree := if g in s.tree.order then Erase(s.tree, g) else s.tree)
  }

  /** cfq_update_group_weight */
  function Reweighed(g: Group): Group {
    if g.needsUpdate then g.(weight := g.newWeight, needsUpdate := false) else g
  }

  /** cfq_group_service_tree_add */
  function Add(s: Groups, g: Gid): Groups
    requires Members(s) && g in s.group
  {
    var n := Reweighed(s.group[g]);
    var p := Place(Keys(s.tree.order, VTimes(s)), n.vdisktime);
    s.(group := s.group[g := n], tree := InsertAt(s.tree, g, p), total := s.total + n.weight)
  }

  /** cfq_group_notify_queue_add: a group that was idle goes to the end. */
  function NotifyAdd(s: Groups, g: Gid, idleDelay: nat): Groups
    requires Members(s) && g in s.group
  {
    var n := s.group[g].(nr := s.group[g].nr + 1);
    if g in s.tree.order then s.(group := s.group[g := n])
    else
      var o := s.tree.order;
      var v := if o == [] then s.minV else s.group[o[|o| - 1]].vdisktime + idleDelay;
      Add(s.(group := s.group[g := n.(vdisktime := v)]), g)
  }

  /** cfq_group_notify_queue_del */
  function NotifyDel(s: Groups, g: Gid): Groups
    requires g in s.group
  {
    var n := s.group[g].(nr := s.group[g].nr - 1);
    var s1 := s.(group := s.group[g := n]);
    if n.nr != 0 then s1 else Del(s1, g)
  }

  /** cfq_group_served, for the charge that it decides on. */
  function Served(s: Groups, g: Gid, charge: nat): Groups
    requires Members(s) && g in s.group
  {
    EraseMembers(s, g);
    var s1 := Del(s, g);
    var n := s1.group[g].(vdisktime := s1.group[g].vdisktime + Scale(charge, s1.group[g].weight));
    Add(s1.(group := s1.group[g := n]), g)
  }

  lemma EraseMembers(s: Groups, g: Gid)
    requires Members(s) && g in s.group
    ensures Members(Del(s, g)) && g !in Del(s, g).tree.order
    ensures forall x :: x in Del(s, g).tree.order <==> x != g && x in s.tree.order
  {
    if g in s.tree.order {
      EraseOk(s.tree, g);
    }
  }

  /** cfq_get_next_cfqg: the group with the least virtual time, which pulls the minimum along. */
  function NextGroup(s: Groups): (Groups, Option<Gid>)
    requires Members(s)
  {
    if s.tree.order == [] then (s, None)
    else
      var t := Cached(s.tree);
      var v := s.group[t.order[0]].vdisktime;
      (s.(tree := t, minV := if v > s.minV then v else s.minV), First(t))
  }

  // ---------- what they keep ----------

  function WeightSum(order: seq<nat>, w: map<nat, int>): int
    requires forall g :: g in order ==> g in w
  {
    if order == [] then 0 else w[order[0]] + WeightSum(order[1..], w)
  }

  /** A group is on the tree exactly when it has busy queues, in the order of virtual time, and the weights add up. */
  ghost predicate Inv(s: Groups) {
    && Members(s)
    && (forall g :: g in s.group ==> s.group[g].nr >= 0 && (g in s.tree.order <==> s.group[g].nr > 0))
    && Sorted(Keys(s.tree.order, VTimes(s)))
    && s.total == WeightSum(s.tree.order, Weights(s))
  }
}
