/**
The algorithms with their users' lists, and crypto_remove_spawns on them.
*/
module SpawnRegistry {
  import opened Common
  import opened SpawnWalk
  import opened SpawnWalkProofs

  /** A spawn follows its algorithm when the new type agrees in the bits that matter to it. */
  predicate Matches(flags: bv32, newType: bv32, mask: bv32) {
    (flags ^ newType) & mask == 0
  }

  // ---------- choosing the spawns ----------

  /** The spawns of a list that are taken; list_move turns their order around. */
  function Taken(l: seq<Spawn>, chosen: set<Spawn>): seq<Spawn> {
    if l == [] then []
    else if l[|l| - 1] in chosen then [l[|l| - 1]] + Taken(l[..|l| - 1], chosen)
    else Taken(l[..|l| - 1], chosen)
  }

  function Left(l: seq<Spawn>, chosen: set<Spawn>): seq<Spawn> {
    if l == [] then []
    else if l[|l| - 1] in chosen then Left(l[..|l| - 1], chosen)
    else Left(l[..|l| - 1], chosen) + [l[|l| - 1]]
  }

  lemma {:induction false} TakenOk(l: seq<Spawn>, chosen: set<Spawn>)
    requires Distinct(l)
    ensures Distinct(Taken(l, chosen)) && Distinct(Left(l, chosen))
    ensures forall s :: s in Taken(l, chosen) <==> s in l && s in chosen
    ensures forall s :: s in Left(l, chosen) <==> s in l && s !in chosen
  {
    if l != [] {
      var n := |l| - 1;
      TakenOk(l[..n], chosen);
      assert l == l[..n] + [l[n]];
      assert l[n] !in l[..n];
    }
  }

  function Start(f: Forest, chosen: set<Spawn>): Forest
    requires f.alg in f.users
  {
    var l := f.users[f.alg];
    f.(users := f.users[f.alg := Left(l, chosen)], top := Taken(l, chosen))
  }

  /** The same spawns in the same lists, with the chosen ones of the algorithm in a list of their own. */
  ghost predicate Chosen(f: Forest, g: Forest)
    requires f.alg in f.users
  {
    && g.users.Keys == f.users.Keys && g == f.(users := g.users, top := g.top)
    && Distinct(g.top) && Distinct(g.users[f.alg])
    && (forall a :: a in f.users && a != f.alg ==> g.users[a] == f.users[a])
    && (forall s :: s in f.users[f.alg] <==> s in g.top || s in g.users[f.alg])
    && (forall s :: s in g.top ==> s !in g.users[f.alg])
  }

  lemma StartIs(f: Forest, chosen: set<Spawn>)
    requires f.alg in f.users && Distinct(f.users[f.alg])
    ensures Chosen(f, Start(f, chosen))
  {
    hide Taken, Left;
    TakenOk(f.users[f.alg], chosen);
  }

  lemma StartOk(f: Forest, g: Forest)
    requires WellFormed(f) && f.alg in f.users && f.top == [] && Chosen(f, g)
    ensures WellFormed(g)
  {
    hide Ranked;
    forall a, s | a in g.users && s in g.users[a]
      ensures s in g.inst && g.owner[s] == a && s !in g.top
    {
      assert s in f.users[a];
    }
  }

  lemma StartLinked(f: Forest, g: Forest)
    requires f.inst.Keys == f.owner.Keys && f.alg in f.users && f.top == [] && Linked(f) && Chosen(f, g)
    ensures Linked(g)
  {
  }

  lemma BeginOk(f: Forest, algOf: map<Spawn, Option<Alg>>)
    requires WellFormed(f) && algOf.Keys == f.inst.Keys && forall s :: s in f.inst ==> algOf[s] == Some(f.owner[s])
    ensures Inv(f, Walk(f.users, f.top, [], [], algOf))
  {
  }

  // ---------- bounding the walk ----------

  lemma {:induction false} DistinctSize(l: seq<Spawn>)
    requires Distinct(l)
    ensures |Members(l)| == |l|
  {
    if l != [] {
      var n := |l| - 1;
      DistinctSize(l[..n]);
      assert Members(l) == Members(l[..n]) + {l[n]};
      assert l[n] !in Members(l[..n]);
    }
  }

  lemma SubsetSize<T>(a: set<T>, b: set<T>)
    requires a <= b
    ensures |a| <= |b|
  {
    assert b == a + (b - a);
  }

  /** What is on the stack or done are different spawns. */
  lemma Bounded(f: Forest, w: Walk)
    requires Inv(f, w)
    ensures |w.stack| + |w.done| <= |f.inst|
  {
    hide WellFormed, Chain, Shrunk, TopKept, KidsKept, DoneBelow, DoneOrder, Honest, RestMarked, Complete, TwinsDone, TwinOnTop, Least;
    var a, b := Members(w.stack), Members(w.done);
    DistinctSize(w.stack);
    DistinctSize(w.done);
    assert a !! b;
    assert |a + b| == |a| + |b|;
    SubsetSize(a + b, f.inst.Keys);
  }

  // ---------- after the walk ----------

  /** Everything that is reached ranks below the algorithm, so it is not the algorithm itself. */
  lemma ReachedBelow(f: Forest, w: Walk, s: Spawn)
    requires Inv(f, w) && (s in w.stack || s in w.done)
    ensures s in f.inst && f.inst[s] != f.alg
  {
    hide Chain, Apart, Shrunk, TopKept, KidsKept, DoneBelow, DoneOrder, Honest, RestMarked, Complete, TwinsDone, TwinOnTop;
    var x := set t | t in f.inst && f.alg in f.rank && f.rank[f.inst[t]] < f.rank[f.alg];
    assert Closed(f, x);
  }

  /** The lists have lost exactly what is done. */
  lemma EndLists(f: Forest, w: Walk, a: Alg, s: Spawn)
    requires Inv(f, w) && w.stack == [] && a in f.users
    ensures s in w.users[a] <==> s in f.users[a] && s !in w.done
  {
    hide WellFormed, Chain, TopKept, KidsKept, DoneOrder, Honest, RestMarked, Complete, TwinsDone, TwinOnTop, Least;
    if w.users[a] != f.users[a] {
      var t :| (t in w.stack || t in w.done) && t in f.inst && f.inst[t] == a && !Stops(f, t);
      assert DoneKids(f, w, t);
    }
  }

  /** What the lists hold when the first k of the spawns that are done have been dealt with. */
  ghost predicate Settled(f: Forest, w: Walk, users: map<Alg, seq<Spawn>>, k: nat)
    requires Known(f, w) && k <= |w.done|
  {
    && users.Keys == f.users.Keys
    && (forall a, s :: a in users ==> (s in users[a] <==> InList(f, w, k, a, s)))
    && (forall a :: a in users ==> Distinct(users[a]))
  }

  ghost predicate InList(f: Forest, w: Walk, k: nat, a: Alg, s: Spawn)
    requires Known(f, w) && k <= |w.done| && a in f.users
  {
    s in w.users[a] || (s in w.done[..k] && w.algOf[s].Some? && f.owner[s] == a)
  }

  lemma SettledFirst(f: Forest, w: Walk)
    requires Inv(f, w)
    ensures Known(f, w) && Settled(f, w, w.users, 0)
  {
    hide Chain, Shrunk, TopKept, KidsKept, DoneBelow, DoneOrder, Honest, RestMarked, Complete, TwinsDone, TwinOnTop, Least;
  }

  lemma SettledKept(f: Forest, w: Walk, users: map<Alg, seq<Spawn>>, k: nat)
    requires Known(f, w) && Apart(f, w) && k < |w.done| && Settled(f, w, users, k)
    requires w.algOf[w.done[k]].Some? && f.owner[w.done[k]] in users
    ensures var s := w.done[k]; Settled(f, w, users[f.owner[s] := [s] + users[f.owner[s]]], k + 1)
  {
    hide Ranked, Lists;
    var s := w.done[k];
    assert w.done[..k + 1] == w.done[..k] + [s];
    assert s !in w.done[..k];
    SettledIs(f, w, users, k, f.owner[s], s);
    NotListed(f, w, f.owner[s], s);
    HeadOk(s, users[f.owner[s]]);
  }

  lemma NotListed(f: Forest, w: Walk, a: Alg, s: Spawn)
    requires Apart(f, w) && s in w.done && a in w.users
    ensures s !in w.users[a]
  {
  }

  lemma SettledGone(f: Forest, w: Walk, users: map<Alg, seq<Spawn>>, k: nat)
    requires Known(f, w) && k < |w.done| && Settled(f, w, users, k) && w.algOf[w.done[k]].None?
    ensures Settled(f, w, users, k + 1)
  {
    hide WellFormed;
    assert w.done[..k + 1] == w.done[..k] + [w.done[k]];
  }

  /** The users of an instance are put back after it was dealt with, if at all. */
  lemma NoUsersLeft(f: Forest, w: Walk, users: map<Alg, seq<Spawn>>, k: nat)
    requires Inv(f, w) && Linked(f) && w.stack == [] && k < |w.done| && Settled(f, w, users, k) && w.algOf[w.done[k]].None?
    ensures f.inst[w.done[k]] in users && users[f.inst[w.done[k]]] == []
  {
    hide Chain, Shrunk, TopKept, KidsKept, Honest, RestMarked, Complete, TwinsDone, TwinOnTop, Least, Settled, InList, Lists, Leads;
    var s := w.done[k];
    var a := f.inst[s];
    ReachedBelow(f, w, s);
    SettledKeys(f, w, users, k);
    NotStopped(f, w, s);
    HeadIn(users[a]);
    forall c
      ensures c !in users[a]
    {
      SettledIs(f, w, users, k, a, c);
      NotYet(f, w, k, a, c);
    }
  }

  lemma SettledIs(f: Forest, w: Walk, users: map<Alg, seq<Spawn>>, k: nat, a: Alg, c: Spawn)
    requires Known(f, w) && k <= |w.done| && Settled(f, w, users, k) && a in users
    ensures a in f.users && (c in users[a] <==> InList(f, w, k, a, c))
  {
  }

  /** Only a spawn of the replacement keeps its field without being asked. */
  lemma NotStopped(f: Forest, w: Walk, s: Spawn)
    requires Inv(f, w) && s in w.done && w.algOf[s].None?
    ensures !Stops(f, s)
  {
    hide WellFormed, Chain, Apart, Shrunk, TopKept, KidsKept, DoneBelow, DoneOrder, RestMarked, Complete, TwinsDone, TwinOnTop, Least;
  }

  lemma NotYet(f: Forest, w: Walk, k: nat, a: Alg, c: Spawn)
    requires Inv(f, w) && Linked(f) && w.stack == [] && k < |w.done| && a == f.inst[w.done[k]] && a in f.users && a != f.alg
    requires !Stops(f, w.done[k])
    ensures !InList(f, w, k, a, c)
  {
    hide Chain, Apart, Shrunk, TopKept, KidsKept, DoneOrder, Honest, RestMarked, Complete, TwinsDone, TwinOnTop, Least, Leads;
    assert DoneKids(f, w, w.done[k]);
    ApartOf(f, w);
    OrderOf(f, w);
    LaterKid(f, w, k, c);
  }

  /** Users of an instance were done before it, so they come after it. */
  lemma LaterKid(f: Forest, w: Walk, k: nat, c: Spawn)
    requires Known(f, w) && Apart(f, w) && DoneOrder(f, w) && Linked(f) && k < |w.done| && !Stops(f, w.done[k])
    requires f.inst[w.done[k]] in f.users && f.inst[w.done[k]] != f.alg
    ensures !(c in w.done[..k] && f.owner[c] == f.inst[w.done[k]])
  {
    if c in w.done[..k] {
      assert c in f.inst;
      KidOf(f, w.done[k], c);
      Halves(w.done, k, c);
    }
  }

  lemma KidOf(f: Forest, s: Spawn, c: Spawn)
    requires WellFormed(f) && Linked(f) && s in f.inst && c in f.inst && !Stops(f, s) && f.inst[s] != f.alg
    ensures f.owner[c] == f.inst[s] ==> c in Kids(f, s)
  {
  }

  lemma OrderOf(f: Forest, w: Walk)
    requires Inv(f, w)
    ensures Known(f, w) && DoneOrder(f, w)
  {
    hide Known, Apart, Chain, Shrunk, TopKept, KidsKept, DoneBelow, DoneOrder, Honest, RestMarked, Complete, TwinsDone, TwinOnTop, Least;
  }

  lemma Halves(l: seq<Spawn>, k: nat, c: Spawn)
    requires Distinct(l) && k < |l|
    ensures !(c in l[..k] && c in l[k + 1..])
  {
  }

  lemma HeadIn(l: seq<Spawn>)
    ensures l != [] ==> l[0] in l
  {
  }

  lemma HasList(f: Forest, s: Spawn)
    requires WellFormed(f) && Linked(f) && f.alg in f.users && s in f.inst
    ensures f.owner[s] in f.users
  {
  }

  /** The spawns that lose their algorithm. */
  predicate Gone(reached: set<Spawn>, algOf: map<Spawn, Option<Alg>>, s: Spawn) {
    s in reached && s in algOf && algOf[s].None?
  }

  /** In the end the lists are what they were without the spawns that are gone. */
  lemma SettledAll(f: Forest, g: Forest, w: Walk, users: map<Alg, seq<Spawn>>, a: Alg, s: Spawn)
    requires WellFormed(f) && f.alg in f.users && Chosen(f, g) && Linked(f) && f.top == []
    requires Inv(g, w) && w.stack == [] && w.top == [] && Settled(g, w, users, |w.done|) && a in f.users
    ensures s in users[a] <==> s in f.users[a] && !Gone(Members(w.done), w.algOf, s)
  {
    hide Ranked, Chain, Apart, Shrunk, KidsKept, DoneBelow, DoneOrder, Honest, RestMarked, Complete, TwinsDone, TwinOnTop, Least;
    EndLists(g, w, a, s);
    assert w.done[..|w.done|] == w.done;
    assert s in users[a] <==> InList(g, w, |w.done|, a, s);
    if s in w.done {
      assert s in f.users[f.owner[s]];
    }
  }

  class Registry {
    /** The users' lists, and the algorithm field of every spawn that is in one. */
    var users: map<Alg, seq<Spawn>>
    var algOf: map<Spawn, Option<Alg>>
    var inst: map<Spawn, Alg>
    const flags: map<Alg, bv32>
    const mask: map<Spawn, bv32>
    var dead: set<Alg>
    /** Instances on the list of their template, those whose template can be pinned, and those taken off. */
    var hashed: set<Alg>
    const pinned: set<Alg>
    var unlinked: seq<Alg>

    constructor (users: map<Alg, seq<Spawn>>, algOf: map<Spawn, Option<Alg>>, inst: map<Spawn, Alg>,
                 flags: map<Alg, bv32>, mask: map<Spawn, bv32>, hashed: set<Alg>, pinned: set<Alg>)
      ensures this.users == users && this.algOf == algOf && this.inst == inst && this.flags == flags && this.mask == mask
      ensures dead == {} && this.hashed == hashed && this.pinned == pinned && unlinked == []
    {
      this.users, this.algOf, this.inst, this.flags, this.mask := users, algOf, inst, flags, mask;
      this.dead, this.hashed, this.pinned, this.unlinked := {}, hashed, pinned, [];
    }

    /** The spawns of an algorithm that go with it, for the type of what replaces it. */
    function Following(alg: Alg, nalg: Option<Alg>): set<Spawn>
      reads this
      requires alg in users && alg in flags && (nalg.Some? ==> nalg.value in flags)
      requires forall s :: s in users[alg] ==> s in mask
    {
      var newType := flags[if nalg.Some? then nalg.value else alg];
      set s | s in users[alg] && Matches(flags[alg], newType, mask[s])
    }

    /** The instances that went are destroyed in time, and their spawns with them. */
    method DropDead(ghost owner: map<Spawn, Alg>)
      requires algOf.Keys == inst.Keys == owner.Keys
      requires forall s :: s in inst && algOf[s].Some? ==> algOf[s] == Some(owner[s])
      modifies this`inst, this`algOf
      ensures inst == Live(old(inst), old(algOf)) && algOf.Keys == inst.Keys
      ensures forall s :: s in inst ==> s in Live(owner, old(algOf)) && algOf[s] == Some(Live(owner, old(algOf))[s])
    {
      inst := Live(inst, algOf);
      algOf := map s | s in algOf && algOf[s].Some? :: algOf[s];
    }

    /** crypto_remove_spawn */
    method RemoveSpawn(s: Spawn)
      requires s in inst && inst[s] in users && users[inst[s]] == []
      modifies this`dead, this`hashed, this`unlinked
      ensures dead == old(dead) + {inst[s]}
      ensures var a := inst[s];
              if a !in old(dead) && a in old(hashed) && a in pinned
              then hashed == old(hashed) - {a} && unlinked == [a] + old(unlinked)
              else hashed == old(hashed) && unlinked == old(unlinked)
    {
      var a := inst[s];
      if a in dead {
        return;
      }
      dead := dead + {a};
      if a !in hashed {
        return;
      }
      if a !in pinned {
        return;
      }
      unlinked := [a] + unlinked;
      hashed := hashed - {a};
      assert users[a] == [];
    }

    /** The loop of crypto_remove_spawns that takes the spawns to follow off the algorithm's list. */
    method Select(alg: Alg, nalg: Option<Alg>) returns (top: seq<Spawn>)
      requires alg in users && alg in flags && (nalg.Some? ==> nalg.value in flags)
      requires forall s :: s in users[alg] ==> s in mask
      modifies this`users
      ensures top == Taken(old(users[alg]), old(Following(alg, nalg)))
      ensures users == old(users)[alg := Left(old(users[alg]), old(Following(alg, nalg)))]
    {
      hide Matches;
      var newType := flags[if nalg.Some? then nalg.value else alg];
      var l := users[alg];
      ghost var chosen := Following(alg, nalg);
      var kept := [];
      top := [];
      for i := 0 to |l|
        invariant users == old(users) && top == Taken(l[..i], chosen) && kept == Left(l[..i], chosen)
      {
        assert l[..i + 1][..i] == l[..i];
        if Matches(flags[alg], newType, mask[l[i]]) {
          top := [l[i]] + top;
        } else {
          kept := kept + [l[i]];
        }
      }
      assert l[..|l|] == l;
      users := users[alg := kept];
    }

    /** crypto_more_spawns for a stack that is not empty. */
    method MoreSpawns(alg: Alg, stack: seq<Spawn>, ghost f: Forest, ghost w: Walk) returns (stack': seq<Spawn>)
      requires stack != [] && w.stack == stack && w.algOf == algOf && f.inst == inst && f.alg == alg
      requires forall s :: s in stack ==> s in algOf && s in inst
      modifies this`algOf
      ensures stack' == Pop(f, w).stack && algOf == Pop(f, w).algOf
    {
      var s := stack[0];
      if algOf[s].Some? && |stack| > 1 && algOf[stack[1]].None? {
        algOf := algOf[stack[1] := Some(if |stack| == 2 then alg else inst[stack[2]])];
      }
      stack' := stack[1..];
    }

    /** The inner loop: down from the list that is next, until a list is empty or the replacement is met. */
    method Descend(alg: Alg, nalg: Option<Alg>, top: seq<Spawn>, stack: seq<Spawn>, done: seq<Spawn>, ghost f: Forest)
      returns (top': seq<Spawn>, stack': seq<Spawn>)
      requires f.inst == inst && f.alg == alg && f.nalg == nalg
      requires Inv(f, Walk(users, top, stack, done, algOf))
      requires stack == [] || (stack[0] in f.inst && !Stops(f, stack[0]))
      modifies this`users, this`algOf
      ensures Inv(f, Walk(users, top', stack', done, algOf))
      ensures |stack'| >= |stack|
      ensures stack' == [] ==> top' == []
      ensures stack' != [] ==> CanPop(f, Walk(users, top', stack', done, algOf))
    {
      hide Inv, Stops, CanPop;
      top', stack' := top, stack;
      Basics(f, Walk(users, top', stack', done, algOf));
      while true
        invariant Inv(f, Walk(users, top', stack', done, algOf)) && |stack'| >= |stack|
        invariant stack' == [] || (stack'[0] in f.inst && !Stops(f, stack'[0]))
        decreases |f.inst| - |stack'| - |done|
      {
        ghost var w := Walk(users, top', stack', done, algOf);
        Basics(f, w);
        var l := if stack' == [] then top' else users[inst[stack'[0]]];
        if l == [] {
          break;
        }
        PushStep(f, w, l);
        var s := l[0];
        assert inst[s] != alg;
        if stack' == [] {
          top' := l[1..];
        } else {
          users := users[inst[stack'[0]] := l[1..]];
        }
        stack' := [s] + stack';
        assert Stops(f, s) <==> nalg == Some(inst[s]) by { StopsIs(f, s); }
        if nalg == Some(inst[s]) {
          break;
        }
        algOf := algOf[s := None];
      }
      Basics(f, Walk(users, top', stack', done, algOf));
      if stack' != [] {
        PopReady(f, Walk(users, top', stack', done, algOf));
      }
    }

    /** The walk: down, one back, and down again, until the stack and the selected spawns are used up. */
    method WalkAll(alg: Alg, nalg: Option<Alg>, chosen: seq<Spawn>, ghost f: Forest) returns (done: seq<Spawn>)
      requires f.inst == inst && f.alg == alg && f.nalg == nalg
      requires Inv(f, Walk(users, chosen, [], [], algOf))
      modifies this`users, this`algOf
      ensures Inv(f, Walk(users, [], [], done, algOf))
    {
      hide Inv, Stops, CanPop, Pop;
      var top, stack := chosen, [];
      done := [];
      while true
        invariant Inv(f, Walk(users, top, stack, done, algOf))
        invariant stack == [] || (stack[0] in f.inst && !Stops(f, stack[0]))
        decreases |f.inst| - |done|
      {
        top, stack := Descend(alg, nalg, top, stack, done, f);
        if stack == [] {
          break;
        }
        ghost var w := Walk(users, top, stack, done, algOf);
        PopStep(f, w);
        Bounded(f, w);
        var s := stack[0];
        stack := MoreSpawns(alg, stack, f, w);
        done := [s] + done;
      }
    }

    /** The instances of the spawns of a list that have no algorithm. */
    function Instances(l: seq<Spawn>): set<Alg>
      reads this`algOf, this`inst
    {
      set s | s in l && s in inst && s in algOf && algOf[s].None? :: inst[s]
    }

    /** The last loop: kept spawns go back to their list, the instances of the others go. */
    method Settle(done: seq<Spawn>, ghost f: Forest, ghost w: Walk)
      requires f.inst == inst && Inv(f, w) && Linked(f) && f.alg in f.users
      requires w.stack == [] && w.top == [] && w.done == done && w.users == users && w.algOf == algOf
      modifies this`users, this`dead, this`hashed, this`unlinked
      ensures Settled(f, w, users, |done|)
      ensures dead == old(dead) + Instances(done)
    {
      hide Inv, Settled, WellFormed, Linked;
      KnownOf(f, w);
      SettledFirst(f, w);
      for k := 0 to |done|
        invariant Settled(f, w, users, k)
        invariant dead == old(dead) + Instances(done[..k])
      {
        var s := done[k];
        MarkOf(f, w, s);
        SettledKeys(f, w, users, k);
        assert done[..k + 1] == done[..k] + [s];
        if algOf[s].Some? {
          ApartOf(f, w);
          SettledKept(f, w, users, k);
          users := users[algOf[s].value := [s] + users[algOf[s].value]];
        } else {
          NoUsersLeft(f, w, users, k);
          SettledGone(f, w, users, k);
          RemoveSpawn(s);
        }
      }
      assert done[..|done|] == done;
    }

    /**
      crypto_remove_spawns.  `reached` is the smallest set with the chosen spawns and, for each of its
      spawns other than the replacement's, all users of the instance.  Spawns that keep their algorithm
      lead to the replacement; they are all that do exactly unless twins were reached.
    */
    method RemoveSpawns(alg: Alg, nalg: Option<Alg>, ghost owner: map<Spawn, Alg>, ghost rank: map<Alg, nat>)
      returns (ghost f: Forest, ghost reached: set<Spawn>)
      requires var f0 := Forest(users, [], inst, owner, alg, nalg, rank); WellFormed(f0) && Linked(f0)
      requires alg in users && alg in flags && (nalg.Some? ==> nalg.value in flags)
      requires forall s :: s in users[alg] ==> s in mask
      requires algOf.Keys == inst.Keys && forall s :: s in inst ==> algOf[s] == Some(owner[s])
      modifies this
      ensures f == Start(Forest(old(users), [], inst, owner, alg, nalg, rank), old(Following(alg, nalg)))
      ensures WellFormed(f) && Closed(f, reached) && forall x :: Closed(f, x) ==> reached <= x
      ensures inst == old(inst) && FieldsAfter(f, reached, algOf)
      ensures dead == old(dead) + set s | s in inst && Gone(reached, algOf, s) :: inst[s]
      ensures ListsAfter(reached, algOf, old(users), users)
      ensures KeptRight(f, reached, algOf) <==> Single(f)
      ensures forall a: Alg, n: Option<Alg> :: Startable(LiveForest(users, inst, algOf, owner, rank, a, n))
    {
      hide Inv, Stops, Taken, Left, Closed, Leads, Settled, Linked, Matches, WellFormed, ListsAfter, FieldsAfter, Single, KeptRight, Chosen, Known;
      ghost var f0 := Forest(users, [], inst, owner, alg, nalg, rank);
      var top := Select(alg, nalg);
      f := Start(f0, old(Following(alg, nalg)));
      StartAll(f0, old(Following(alg, nalg)), algOf);
      var done := WalkAll(alg, nalg, top, f);
      ghost var w := Walk(users, [], [], done, algOf);
      EndOk(f, w);
      reached := Members(done);
      Settle(done, f, w);
      ListsEnd(f0, f, w, users);
      FieldsOf(f, reached, algOf);
      LiveAll(f0, reached, algOf, users);
    }
  }

  /** The spawns that still have an algorithm, as the start of another walk. */
  ghost function LiveForest(users: map<Alg, seq<Spawn>>, inst: map<Spawn, Alg>, algOf: map<Spawn, Option<Alg>>,
                            owner: map<Spawn, Alg>, rank: map<Alg, nat>, alg: Alg, nalg: Option<Alg>): Forest
  {
    Forest(users, [], Live(inst, algOf), Live(owner, algOf), alg, nalg, rank)
  }

  function Live(m: map<Spawn, Alg>, algOf: map<Spawn, Option<Alg>>): map<Spawn, Alg> {
    map s | s in m && s in algOf && algOf[s].Some? :: m[s]
  }

  ghost predicate Startable(f: Forest) {
    WellFormed(f) && Linked(f)
  }

  lemma FieldsOf(f: Forest, reached: set<Spawn>, algOf: map<Spawn, Option<Alg>>)
    requires WellFormed(f) && FieldsAfter(f, reached, algOf)
    ensures algOf.Keys == f.inst.Keys && forall s :: s in f.inst && s !in reached ==> algOf[s].Some?
  {
  }

  lemma LiveRanked(f0: Forest, algOf: map<Spawn, Option<Alg>>)
    requires f0.inst.Keys == f0.owner.Keys && Ranked(f0.users.Keys, f0.inst, f0.owner, f0.rank)
    ensures Live(f0.inst, algOf).Keys == Live(f0.owner, algOf).Keys
    ensures Ranked(f0.users.Keys, Live(f0.inst, algOf), Live(f0.owner, algOf), f0.rank)
  {
  }

  lemma LiveListed(f0: Forest, g: Forest, reached: set<Spawn>, algOf: map<Spawn, Option<Alg>>, b: Alg, s: Spawn)
    requires f0.inst.Keys == f0.owner.Keys == algOf.Keys && Lists(f0) && b in g.users && s in g.users[b]
    requires ListsAfter(reached, algOf, f0.users, g.users)
    requires g.inst == Live(f0.inst, algOf) && g.owner == Live(f0.owner, algOf) && g.inst.Keys == g.owner.Keys
    requires forall t :: t in f0.inst && t !in reached ==> algOf[t].Some?
    ensures s in g.inst && g.owner[s] == b
  {
    ListsAt(reached, algOf, f0.users, g.users, b, s);
  }

  lemma ListsAt(reached: set<Spawn>, algOf: map<Spawn, Option<Alg>>, before: map<Alg, seq<Spawn>>, after: map<Alg, seq<Spawn>>,
                a: Alg, s: Spawn)
    requires ListsAfter(reached, algOf, before, after) && a in before
    ensures a in after && (s in after[a] <==> s in before[a] && !Gone(reached, algOf, s))
  {
    assert s in after[a] <==> Kept(reached, algOf, before[a], s);
  }

  lemma LiveLinked(f0: Forest, g: Forest, reached: set<Spawn>, algOf: map<Spawn, Option<Alg>>, s: Spawn)
    requires f0.inst.Keys == f0.owner.Keys == algOf.Keys && Linked(f0) && f0.top == []
    requires ListsAfter(reached, algOf, f0.users, g.users)
    requires g.inst == Live(f0.inst, algOf) && g.owner == Live(f0.owner, algOf) && g.inst.Keys == g.owner.Keys && s in g.inst
    ensures g.owner[s] in g.users && s in g.users[g.owner[s]]
  {
    ListsAt(reached, algOf, f0.users, g.users, f0.owner[s], s);
  }

  lemma LiveDistinct(reached: set<Spawn>, algOf: map<Spawn, Option<Alg>>, before: map<Alg, seq<Spawn>>, after: map<Alg, seq<Spawn>>)
    requires ListsAfter(reached, algOf, before, after)
    ensures forall a :: a in after ==> Distinct(after[a])
  {
  }

  lemma LiveLists(f0: Forest, g: Forest, reached: set<Spawn>, algOf: map<Spawn, Option<Alg>>)
    requires f0.inst.Keys == f0.owner.Keys == algOf.Keys && Lists(f0) && g.top == []
    requires ListsAfter(reached, algOf, f0.users, g.users)
    requires g.inst == Live(f0.inst, algOf) && g.owner == Live(f0.owner, algOf) && g.inst.Keys == g.owner.Keys
    requires forall s :: s in f0.inst && s !in reached ==> algOf[s].Some?
    ensures Lists(g)
  {
    hide ListsAfter, Live, Distinct;
    LiveDistinct(reached, algOf, f0.users, g.users);
    EmptyDistinct();
    forall b, s | b in g.users && s in g.users[b]
      ensures s in g.inst && g.owner[s] == b
    {
      LiveListed(f0, g, reached, algOf, b, s);
    }
  }

  lemma LiveLinks(f0: Forest, g: Forest, reached: set<Spawn>, algOf: map<Spawn, Option<Alg>>)
    requires f0.inst.Keys == f0.owner.Keys == algOf.Keys && Linked(f0) && f0.top == []
    requires ListsAfter(reached, algOf, f0.users, g.users)
    requires g.inst == Live(f0.inst, algOf) && g.owner == Live(f0.owner, algOf) && g.inst.Keys == g.owner.Keys
    ensures Linked(g)
  {
    hide ListsAfter, Live;
    forall s | s in g.inst
      ensures g.owner[s] in g.users && s in g.users[g.owner[s]]
    {
      LiveLinked(f0, g, reached, algOf, s);
    }
  }

  lemma EmptyDistinct()
    ensures Distinct<Spawn>([])
  {
  }

  /** After a removal the spawns that are left are in order, and another one can follow. */
  lemma LiveAll(f0: Forest, reached: set<Spawn>, algOf: map<Spawn, Option<Alg>>, users: map<Alg, seq<Spawn>>)
    requires WellFormed(f0) && Linked(f0) && f0.top == [] && algOf.Keys == f0.inst.Keys
    requires ListsAfter(reached, algOf, f0.users, users)
    requires forall s :: s in f0.inst && s !in reached ==> algOf[s].Some?
    ensures forall a: Alg, n: Option<Alg> :: Startable(LiveForest(users, f0.inst, algOf, f0.owner, f0.rank, a, n))
  {
    hide Linked, ListsAfter, Lists, Ranked, Live;
    LiveRanked(f0, algOf);
    SameKeys(reached, algOf, f0.users, users);
    forall a: Alg, n: Option<Alg>
      ensures Startable(LiveForest(users, f0.inst, algOf, f0.owner, f0.rank, a, n))
    {
      var g := LiveForest(users, f0.inst, algOf, f0.owner, f0.rank, a, n);
      LiveLists(f0, g, reached, algOf);
      LiveLinks(f0, g, reached, algOf);
    }
  }

  lemma SameKeys(reached: set<Spawn>, algOf: map<Spawn, Option<Alg>>, before: map<Alg, seq<Spawn>>, after: map<Alg, seq<Spawn>>)
    requires ListsAfter(reached, algOf, before, after)
    ensures after.Keys == before.Keys
  {
  }

  lemma ApartOf(f: Forest, w: Walk)
    requires Inv(f, w)
    ensures Known(f, w) && Apart(f, w)
  {
    hide Known, Apart, Chain, Shrunk, TopKept, KidsKept, DoneBelow, DoneOrder, Honest, RestMarked, Complete, TwinsDone, TwinOnTop, Least;
  }

  /** The lists are what they were without the spawns that are gone. */
  ghost predicate ListsAfter(reached: set<Spawn>, algOf: map<Spawn, Option<Alg>>,
                             before: map<Alg, seq<Spawn>>, after: map<Alg, seq<Spawn>>)
  {
    && after.Keys == before.Keys
    && (forall a, s :: a in after ==> (s in after[a] <==> Kept(reached, algOf, before[a], s)))
    && (forall a :: a in after ==> Distinct(after[a]))
  }

  predicate Kept(reached: set<Spawn>, algOf: map<Spawn, Option<Alg>>, l: seq<Spawn>, s: Spawn) {
    s in l && !Gone(reached, algOf, s)
  }

  /** All others have their algorithm, and of those that were reached only such as lead to the replacement. */
  ghost predicate FieldsAfter(f: Forest, reached: set<Spawn>, algOf: map<Spawn, Option<Alg>>)
    requires WellFormed(f)
  {
    && algOf.Keys == f.inst.Keys
    && forall s :: s in f.inst && !Gone(reached, algOf, s) ==> algOf[s] == Some(f.owner[s]) && (s in reached ==> Leads(f, s))
  }

  /** The spawns that keep their algorithm are those that lead to the replacement. */
  ghost predicate KeptRight(f: Forest, reached: set<Spawn>, algOf: map<Spawn, Option<Alg>>)
    requires WellFormed(f)
  {
    forall s :: s in reached ==> s in algOf && s in f.inst && (algOf[s].Some? <==> Leads(f, s))
  }

  lemma StartAll(f0: Forest, chosen: set<Spawn>, algOf: map<Spawn, Option<Alg>>)
    requires WellFormed(f0) && Linked(f0) && f0.alg in f0.users && f0.top == []
    requires algOf.Keys == f0.inst.Keys && forall s :: s in f0.inst ==> algOf[s] == Some(f0.owner[s])
    ensures var f := Start(f0, chosen);
            WellFormed(f) && Linked(f) && Chosen(f0, f) && Inv(f, Walk(f.users, f.top, [], [], algOf))
  {
    hide Inv, Taken, Left, Linked, Chosen;
    var f := Start(f0, chosen);
    StartIs(f0, chosen);
    StartOk(f0, f);
    StartLinked(f0, f);
    BeginOk(f, algOf);
  }

  lemma ListsEnd(f0: Forest, f: Forest, w: Walk, users: map<Alg, seq<Spawn>>)
    requires WellFormed(f0) && f0.alg in f0.users && Chosen(f0, f) && Linked(f0) && f0.top == [] && WellFormed(f)
    requires Inv(f, w) && w.stack == [] && w.top == [] && Settled(f, w, users, |w.done|)
    ensures ListsAfter(Members(w.done), w.algOf, f0.users, users)
  {
    KnownOf(f, w);
    SettledKeys(f, w, users, |w.done|);
    forall a, s | a in users
      ensures s in users[a] <==> Kept(Members(w.done), w.algOf, f0.users[a], s)
    {
      SettledAll(f0, f, w, users, a, s);
    }
  }

  lemma PopStep(f: Forest, w: Walk)
    requires CanPop(f, w)
    ensures WellFormed(f) && forall s :: s in w.stack ==> s in w.algOf && s in f.inst
    ensures var v := Pop(f, w);
            && Inv(f, v) && (v.stack == [] || (v.stack[0] in f.inst && !Stops(f, v.stack[0])))
            && v == Walk(w.users, w.top, w.stack[1..], [w.stack[0]] + w.done, v.algOf)
  {
    hide Known, Chain, Apart, Shrunk, TopKept, KidsKept, DoneBelow, DoneOrder, Honest, RestMarked, Complete, TwinsDone, TwinOnTop, Least, Stops;
    Basics(f, w);
    PopOk(f, w);
  }

  lemma FieldsEnd(f: Forest, w: Walk)
    requires Inv(f, w) && w.stack == []
    ensures WellFormed(f) && FieldsAfter(f, Members(w.done), w.algOf)
  {
    hide Leads, Chain, Apart, Shrunk, TopKept, KidsKept, DoneBelow, DoneOrder, Complete, TwinsDone, TwinOnTop, Least;
  }

  /** What the walk has found out, in one place. */
  lemma EndOk(f: Forest, w: Walk)
    requires Inv(f, w) && w.stack == [] && w.top == []
    ensures WellFormed(f) && Closed(f, Members(w.done)) && forall x :: Closed(f, x) ==> Members(w.done) <= x
    ensures FieldsAfter(f, Members(w.done), w.algOf) && (KeptRight(f, Members(w.done), w.algOf) <==> Single(f))
  {
    hide Inv, Closed, FieldsAfter, KeptRight, Single, WellFormed;
    KnownOf(f, w);
    WalkEnds(f, w);
    FieldsEnd(f, w);
    KeptEnd(f, w);
  }

  lemma KeptEnd(f: Forest, w: Walk)
    requires Inv(f, w) && w.stack == [] && w.top == []
    ensures WellFormed(f) && (KeptRight(f, Members(w.done), w.algOf) <==> Single(f))
  {
    hide Leads, Single, Chain, Apart, Shrunk, TopKept, KidsKept, DoneBelow, DoneOrder, Honest, RestMarked, Complete, TwinsDone, TwinOnTop, Least;
    KeptIff(f, w);
  }

  lemma KnownOf(f: Forest, w: Walk)
    requires Inv(f, w)
    ensures WellFormed(f) && Known(f, w) && f.inst.Keys == f.owner.Keys
  {
    hide Chain, Apart, Shrunk, TopKept, KidsKept, DoneBelow, DoneOrder, Honest, RestMarked, Complete, TwinsDone, TwinOnTop, Least;
  }

  /** What the algorithm field of a spawn says after the walk. */
  lemma MarkOf(f: Forest, w: Walk, s: Spawn)
    requires Inv(f, w) && Linked(f) && f.alg in f.users && s in w.done
    ensures s in f.inst && s in f.owner && s in w.algOf && f.owner[s] in f.users
    ensures w.algOf[s] == None || w.algOf[s] == Some(f.owner[s])
  {
    hide Leads, Chain, Apart, Shrunk, TopKept, KidsKept, DoneBelow, DoneOrder, RestMarked, Complete, TwinsDone, TwinOnTop, Least;
    HasList(f, s);
  }

  lemma SettledKeys(f: Forest, w: Walk, users: map<Alg, seq<Spawn>>, k: nat)
    requires Known(f, w) && k <= |w.done| && Settled(f, w, users, k)
    ensures users.Keys == f.users.Keys
  {
  }

  lemma StopsIs(f: Forest, s: Spawn)
    requires s in f.inst
    ensures Stops(f, s) <==> f.nalg == Some(f.inst[s])
  {
  }

  lemma PopReady(f: Forest, w: Walk)
    requires Inv(f, w) && w.stack != [] && w.stack[0] in f.inst && f.inst[w.stack[0]] in w.users
    ensures CanPop(f, w) <==> Stops(f, w.stack[0]) || w.users[f.inst[w.stack[0]]] == []
  {
    hide Known, Chain, Apart, Shrunk, TopKept, KidsKept, DoneBelow, DoneOrder, Honest, RestMarked, Complete, TwinsDone, TwinOnTop, Least;
  }

  /** Taking the first spawn of the list that is next. */
  lemma PushStep(f: Forest, w: Walk, l: seq<Spawn>)
    requires Inv(f, w) && l != [] && (w.stack == [] || (w.stack[0] in f.inst && !Stops(f, w.stack[0])))
    requires w.stack != [] ==> f.inst[w.stack[0]] in w.users
    requires l == if w.stack == [] then w.top else w.users[f.inst[w.stack[0]]]
    ensures var s := l[0];
            && s in f.inst && f.inst[s] != f.alg && |w.stack| + 1 + |w.done| <= |f.inst|
            && Inv(f, Walk(if w.stack == [] then w.users else w.users[f.inst[w.stack[0]] := l[1..]],
                           if w.stack == [] then l[1..] else w.top, [s] + w.stack, w.done,
                           if Stops(f, s) then w.algOf else w.algOf[s := None]))
  {
    hide Known, Chain, Apart, Shrunk, TopKept, KidsKept, DoneBelow, DoneOrder, Honest, RestMarked, Complete, TwinsDone, TwinOnTop, Least;
    Basics(f, w);
    PushOk(f, w);
    var v := Push(f, w, Next(f, w.stack));
    ReachedBelow(f, v, l[0]);
    Bounded(f, v);
  }

  lemma Basics(f: Forest, w: Walk)
    requires Inv(f, w)
    ensures WellFormed(f) && w.users.Keys == f.users.Keys && w.algOf.Keys == f.inst.Keys
    ensures forall s :: s in w.stack ==> s in f.inst && f.inst[s] in w.users
    ensures PtrOk(w, Next(f, w.stack))
  {
    hide Apart, Shrunk, TopKept, KidsKept, DoneBelow, DoneOrder, Honest, RestMarked, Complete, TwinsDone, TwinOnTop, Least;
  }

  /** Instance 1 has spawns 0 and 1 on algorithm 0; 2, the replacement, is built on instance 1 by spawn 2. */
  function Twins(top: seq<Spawn>): Forest {
    Forest(map[0 := [], 1 := [2], 2 := []], top, map[0 := 1, 1 := 1, 2 := 2], map[0 := 0, 1 := 0, 2 := 1],
           0, Some(2), map[0 := 2, 1 := 1, 2 := 0])
  }

  lemma TwinsWellFormed(top: seq<Spawn>)
    requires top == [0, 1] || top == [1, 0]
    ensures WellFormed(Twins(top)) && Linked(Twins(top)) && Twin(Twins(top), 0, 1)
  {
    assert 0 in top && 1 in top;
  }

  lemma TwinsLead(f: Forest)
    requires WellFormed(f) && f.inst == Twins([]).inst && f.nalg == Some(2) && f.users == Twins([]).users
    ensures Leads(f, 0)
  {
    assert Leads(f, 2) && 2 in Kids(f, 0);
  }

  /** Twins do occur, and whichever of the two comes second finds no users and loses its algorithm. */
  lemma TwinsLost(top: seq<Spawn>)
    requires top == [0, 1] || top == [1, 0]
    ensures WellFormed(Twins(top)) && Linked(Twins(top)) && !Single(Twins(top))
  {
    hide WellFormed, Leads, Kids;
    TwinsWellFormed(top);
    TwinsLead(Twins(top));
    assert 0 in top && 1 in top;
    assert Reached(Twins(top), 0) && Reached(Twins(top), 1);
  }
}
