/**
Fairness between groups of block/cfq-iosched.c: while the same groups stay busy with the same
weights, their virtual times stay together, and so do their weighted shares of the disk.
*/
module CfqFairness {
  import opened CfqTree
  import opened CfqGroups
  import opened CfqGroupProofs

  const FACTOR: nat := SERVICE_SHIFT_FACTOR * WEIGHT_DEFAULT

  /** A state in which some group is busy and no weight is about to change. */
  ghost predicate Steady(s: Groups) {
    Inv(s) && s.tree.order != [] && forall g :: g in s.group ==> !s.group[g].needsUpdate
  }

  /** The group whose turn it is. */
  function Turn(s: Groups): Gid
    requires s.tree.order != []
  {
    s.tree.order[0]
  }

  /** One turn: the first group is served and charged. */
  function Round(s: Groups, charge: nat): Groups
    requires Steady(s)
  {
    NextGroupInv(s);
    Served(NextGroup(s).0, Turn(s), charge)
  }

  function V(s: Groups, g: Gid): int
    requires g in s.group
  {
    s.group[g].vdisktime
  }

  /** Busy groups are within b of each other. */
  ghost predicate Within(s: Groups, b: int)
    requires Members(s)
  {
    forall g, h :: g in s.tree.order && h in s.tree.order ==> V(s, g) - V(s, h) <= b
  }

  /** A turn changes the virtual time of the group served and nothing else about the groups. */
  lemma RoundIs(s: Groups, charge: nat)
    requires Steady(s)
    ensures var g := Turn(s);
            var r := Round(s, charge);
            && g in s.group && s.group[g].weight > 0
            && r.group == s.group[g := s.group[g].(vdisktime := V(s, g) + Scale(charge, s.group[g].weight))]
            && forall x :: x in r.tree.order <==> x in s.tree.order
  {
    hide Served, Scale, Sorted, WeightSum;
    NextGroupInv(s);
    ServedIs(NextGroup(s).0, Turn(s), charge);
  }

  lemma RoundSteady(s: Groups, charge: nat)
    requires Steady(s)
    ensures Steady(Round(s, charge))
  {
    hide Served, Inv, NextGroup;
    InvMembers(s);
    NextGroupInv(s);
    ServedInv(NextGroup(s).0, Turn(s), charge);
    RoundIs(s, charge);
    var r := Round(s, charge);
    assert Turn(s) in r.tree.order;
  }

  /** The group whose turn it is has the least virtual time. */
  lemma TurnIsLeast(s: Groups, g: Gid)
    requires Steady(s) && g in s.tree.order
    ensures V(s, Turn(s)) <= V(s, g)
  {
    var ks := Keys(s.tree.order, VTimes(s));
    var i :| 0 <= i < |s.tree.order| && s.tree.order[i] == g;
    assert ks[0] <= ks[i];
  }

  /** No turn spreads the groups further than its own charge. */
  lemma RoundWithin(s: Groups, charge: nat, b: nat)
    requires Steady(s) && Within(s, b)
    requires Turn(s) in s.group && s.group[Turn(s)].weight > 0 && Scale(charge, s.group[Turn(s)].weight) <= b
    ensures Members(Round(s, charge)) && Within(Round(s, charge), b)
  {
    hide Served, NextGroup, Scale;
    RoundIs(s, charge);
    RoundSteady(s, charge);
    var r := Round(s, charge);
    forall g, h | g in r.tree.order && h in r.tree.order
      ensures V(r, g) - V(r, h) <= b
    {
      TurnIsLeast(s, g);
      TurnIsLeast(s, h);
    }
  }

  // ---------- runs ----------

  /** Where the tree is not in order a turn is not defined, and anything may follow. */
  ghost predicate Takes(s: Groups, charge: nat, r: Groups) {
    Steady(s) ==> r == Round(s, charge)
  }

  ghost predicate Run(run: seq<Groups>, charges: seq<nat>) {
    && |run| == |charges| + 1 && Steady(run[0])
    && forall i :: 0 <= i < |charges| ==> Takes(run[i], charges[i], run[i + 1])
  }

  lemma {:induction false} RunSteady(run: seq<Groups>, charges: seq<nat>, i: nat)
    requires Run(run, charges) && i < |run|
    ensures Steady(run[i])
    ensures i > 0 ==> Steady(run[i - 1]) && run[i] == Round(run[i - 1], charges[i - 1])
  {
    hide Round, Steady;
    if i > 0 {
      RunSteady(run, charges, i - 1);
      assert Takes(run[i - 1], charges[i - 1], run[i - 1 + 1]);
      RoundSteady(run[i - 1], charges[i - 1]);
    }
  }

  /** Whose turn turn i is. */
  function TurnAt(run: seq<Groups>, charges: seq<nat>, i: nat): Gid
    requires Run(run, charges) && i < |run|
  {
    RunSteady(run, charges, i);
    Turn(run[i])
  }

  function ScaledCharge(run: seq<Groups>, charges: seq<nat>, i: nat): nat
    requires Run(run, charges) && i < |charges|
  {
    RunSteady(run, charges, i);
    RoundIs(run[i], charges[i]);
    Scale(charges[i], run[i].group[TurnAt(run, charges, i)].weight)
  }

  /** b bounds every scaled charge of the run. */
  ghost predicate Charged(run: seq<Groups>, charges: seq<nat>, b: nat)
    requires Run(run, charges)
  {
    forall i :: 0 <= i < |charges| ==> ScaledCharge(run, charges, i) <= b
  }

  /** Throughout a run the busy groups stay within the larger of where they started and the largest charge. */
  lemma {:induction false} Spread(run: seq<Groups>, charges: seq<nat>, b: nat, i: nat)
    requires Run(run, charges) && Charged(run, charges, b) && i < |run|
    requires Members(run[0]) && Within(run[0], b)
    ensures Members(run[i]) && Within(run[i], b)
  {
    hide Round, Scale, Within, Members;
    if i > 0 {
      Spread(run, charges, b, i - 1);
      RunSteady(run, charges, i);
      assert ScaledCharge(run, charges, i - 1) <= b;
      RoundIs(run[i - 1], charges[i - 1]);
      RoundWithin(run[i - 1], charges[i - 1], b);
    }
  }

  /** The same groups stay busy. */
  lemma {:induction false} SameGroups(run: seq<Groups>, charges: seq<nat>, i: nat, g: Gid)
    requires Run(run, charges) && i < |run|
    ensures g in run[i].tree.order <==> g in run[0].tree.order
  {
    hide Round, Steady;
    if i > 0 {
      SameGroups(run, charges, i - 1, g);
      RunSteady(run, charges, i);
      RoundIs(run[i - 1], charges[i - 1]);
    }
  }

  // ---------- shares ----------

  /** The disk time that group g was charged for in the first i turns. */
  ghost function Service(run: seq<Groups>, charges: seq<nat>, g: Gid, i: nat): nat
    requires Run(run, charges) && i <= |charges|
  {
    if i == 0 then 0
    else Service(run, charges, g, i - 1) + if TurnAt(run, charges, i - 1) == g then charges[i - 1] else 0
  }

  /** The number of turns that group g had. */
  ghost function Turns(run: seq<Groups>, charges: seq<nat>, g: Gid, i: nat): nat
    requires Run(run, charges) && i <= |charges|
  {
    if i == 0 then 0
    else Turns(run, charges, g, i - 1) + if TurnAt(run, charges, i - 1) == g then 1 else 0
  }

  lemma ScaleBounds(c: nat, w: nat)
    requires w > 0
    ensures w * Scale(c, w) <= FACTOR * c < w * Scale(c, w) + w
  {
    var x := c * SERVICE_SHIFT_FACTOR * WEIGHT_DEFAULT;
    assert x == w * (x / w) + x % w;
  }

  /** The virtual time of a group has grown by its service over its weight, up to one unit a turn. */
  lemma {:induction false} Growth(run: seq<Groups>, charges: seq<nat>, g: Gid, i: nat)
    requires Run(run, charges) && i <= |charges| && g in run[0].group && run[0].group[g].weight > 0
    ensures g in run[i].group && run[i].group[g].weight == run[0].group[g].weight
    ensures var w := run[0].group[g].weight;
            var grown := V(run[i], g) - V(run[0], g);
            w * grown <= FACTOR * Service(run, charges, g, i) <= w * grown + w * Turns(run, charges, g, i)
  {
    hide Round, Scale, Steady;
    if i > 0 {
      Growth(run, charges, g, i - 1);
      RunSteady(run, charges, i);
      RoundIs(run[i - 1], charges[i - 1]);
      var w := run[0].group[g].weight;
      if TurnAt(run, charges, i - 1) == g {
        var c := charges[i - 1];
        ScaleBounds(c, w);
        GrowthStep(w, V(run[i - 1], g) - V(run[0], g), Scale(c, w), c,
                   Service(run, charges, g, i - 1), Turns(run, charges, g, i - 1));
      }
    }
  }

  lemma GrowthStep(w: nat, grown: int, d: nat, c: nat, s: nat, n: nat)
    requires w * grown <= FACTOR * s <= w * grown + w * n
    requires w * d <= FACTOR * c < w * d + w
    ensures w * (grown + d) <= FACTOR * (s + c) <= w * (grown + d) + w * (n + 1)
  {
    assert w * (grown + d) == w * grown + w * d;
    assert w * (n + 1) == w * n + w;
    assert FACTOR * (s + c) == FACTOR * s + FACTOR * c;
  }

  /** The shares of two busy groups, each weighed by the other's weight, never drift far apart. */
  lemma Fairness(run: seq<Groups>, charges: seq<nat>, b: nat, g: Gid, h: Gid, i: nat)
    requires Run(run, charges) && Charged(run, charges, b) && i <= |charges|
    requires Members(run[0]) && Within(run[0], b)
    requires g in run[0].tree.order && h in run[0].tree.order
    ensures var wg, wh := run[0].group[g].weight, run[0].group[h].weight;
            FACTOR * Service(run, charges, g, i) * wh <=
            FACTOR * Service(run, charges, h, i) * wg + wg * wh * (2 * b + Turns(run, charges, g, i))
  {
    hide Round, Scale, Steady;
    Spread(run, charges, b, i);
    SameGroups(run, charges, i, g);
    SameGroups(run, charges, i, h);
    Growth(run, charges, g, i);
    Growth(run, charges, h, i);
    var wg, wh := run[0].group[g].weight, run[0].group[h].weight;
    Shares(wg, wh, V(run[i], g) - V(run[0], g), V(run[i], h) - V(run[0], h), Service(run, charges, g, i),
           Service(run, charges, h, i), Turns(run, charges, g, i), b);
  }

  lemma Shares(wg: nat, wh: nat, dg: int, dh: int, sg: nat, sh: nat, n: nat, b: nat)
    requires FACTOR * sg <= wg * dg + wg * n && wh * dh <= FACTOR * sh && dg - dh <= 2 * b
    ensures FACTOR * sg * wh <= FACTOR * sh * wg + wg * wh * (2 * b + n)
  {
    var x := wg * wh;
    Times(FACTOR * sg, wg * dg + wg * n, wh);
    Times(wh * dh, FACTOR * sh, wg);
    Times(dg - dh, 2 * b, x);
    assert (wg * dg + wg * n) * wh == x * dg + x * n;
    assert wh * dh * wg == x * dh;
    assert (dg - dh) * x == x * dg - x * dh;
    assert x * (2 * b + n) == 2 * b * x + x * n;
  }

  lemma Times(a: int, b: int, w: nat)
    requires a <= b
    ensures a * w <= b * w
  {
  }
}
