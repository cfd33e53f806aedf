/**
Both moves of the walk keep its invariant.  Where it ends everything that was reached is done, and the
spawns are kept that lead to the replacement, exactly unless an instance was reached twice.
*/
module SpawnWalkProofs {
  import opened Common
  import opened SpawnWalk

  ghost predicate CanPush(f: Forest, w: Walk) {
    && Inv(f, w) && (w.stack == [] || !Stops(f, w.stack[0]))
    && PtrOk(w, Next(f, w.stack)) && List(w, Next(f, w.stack)) != []
  }

  ghost predicate CanPop(f: Forest, w: Walk) {
    && Inv(f, w) && w.stack != []
    && (Stops(f, w.stack[0]) || w.users[f.inst[w.stack[0]]] == [])
  }

  lemma TailOk(l: seq<Spawn>)
    requires l != [] && Distinct(l)
    ensures Distinct(l[1..]) && l[0] !in l[1..]
    ensures forall c :: c in l <==> c == l[0] || c in l[1..]
  {
    assert l == [l[0]] + l[1..];
  }

  lemma HeadOk(s: Spawn, l: seq<Spawn>)
    requires Distinct(l) && s !in l
    ensures Distinct([s] + l)
    ensures forall c :: c in [s] + l <==> c == s || c in l
  {
  }

  // ---------- going down ----------

  /** s is a user of the instance on top of the stack, or a selected spawn, and new. */
  ghost predicate Fresh(f: Forest, w: Walk, s: Spawn)
    requires Known(f, w)
  {
    && s in f.inst && s !in w.stack && s !in w.done
    && (if w.stack == [] then s in f.top && s in w.top
        else s in Kids(f, w.stack[0]) && s in w.users[f.inst[w.stack[0]]] && s !in f.top)
  }

  /** What a push changes. */
  ghost predicate Pushed(f: Forest, w: Walk, v: Walk, s: Spawn)
    requires Known(f, w) && s in f.inst
  {
    && v.stack == [s] + w.stack && v.done == w.done && v.users.Keys == w.users.Keys
    && v.algOf == (if Stops(f, s) then w.algOf else w.algOf[s := None])
    && (if w.stack == [] then Lost(w.top, v.top, s) else v.top == w.top)
    && (forall a :: a in w.users && (w.stack == [] || a != f.inst[w.stack[0]]) ==> v.users[a] == w.users[a])
    && (w.stack != [] ==> Lost(w.users[f.inst[w.stack[0]]], v.users[f.inst[w.stack[0]]], s))
  }

  /** A list lost one spawn. */
  ghost predicate Lost(l: seq<Spawn>, m: seq<Spawn>, s: Spawn) {
    (Distinct(l) ==> Distinct(m)) && forall c :: c in m <==> c in l && c != s
  }

  lemma FirstOk(f: Forest, w: Walk)
    requires CanPush(f, w)
    ensures Fresh(f, w, List(w, Next(f, w.stack))[0])
  {
    hide TopKept, KidsKept, DoneBelow, DoneOrder, Honest, RestMarked, Complete, TwinsDone, TwinOnTop, Least;
    var s := List(w, Next(f, w.stack))[0];
  }

  lemma PushIs(f: Forest, w: Walk)
    requires CanPush(f, w) && List(w, Next(f, w.stack))[0] in f.inst
    ensures Pushed(f, w, Push(f, w, Next(f, w.stack)), List(w, Next(f, w.stack))[0])
  {
    hide WellFormed, Lists, Chain, Shrunk, TopKept, KidsKept, DoneBelow, DoneOrder, Honest, RestMarked, Complete, TwinsDone, TwinOnTop, Least;
    TailOk(List(w, Next(f, w.stack)));
  }

  lemma PushChain(f: Forest, w: Walk, v: Walk, s: Spawn)
    requires Known(f, w) && Chain(f, w.stack) && Fresh(f, w, s) && Pushed(f, w, v, s)
    ensures Chain(f, v.stack) && Known(f, v)
  {
  }

  lemma PushListsApart(f: Forest, w: Walk, v: Walk, s: Spawn)
    requires Known(f, w) && Apart(f, w) && Shrunk(f, w) && Fresh(f, w, s) && Pushed(f, w, v, s)
    ensures forall a, c :: a in v.users && c in v.users[a] ==> c !in v.stack && c !in v.done
    ensures forall a :: a in v.users ==> Distinct(v.users[a])
  {
    hide Lists, Ranked, Apart, Shrunk, Fresh;
    forall a, c | a in v.users && c in v.users[a]
      ensures c !in v.stack && c !in v.done
    {
      PushListed(f, w, v, s, a, c);
    }
    forall a | a in v.users
      ensures Distinct(v.users[a])
    {
      ListDistinct(f, w, a);
    }
  }

  lemma ListDistinct(f: Forest, w: Walk, a: Alg)
    requires Apart(f, w) && a in w.users
    ensures Distinct(w.users[a])
  {
  }

  lemma PushListed(f: Forest, w: Walk, v: Walk, s: Spawn, a: Alg, c: Spawn)
    requires Known(f, w) && Apart(f, w) && Shrunk(f, w) && Fresh(f, w, s) && Pushed(f, w, v, s)
    requires a in v.users && c in v.users[a]
    ensures c !in v.stack && c !in v.done
  {
    hide WellFormed, Leads;
    assert c in w.users[a];
    OwnerOf(f, a, c);
    if w.stack != [] {
      LeadsUp(f, w.stack[0], s);
    }
  }

  lemma OwnerOf(f: Forest, a: Alg, c: Spawn)
    requires WellFormed(f) && a in f.users && c in f.users[a]
    ensures c in f.inst && f.owner[c] == a && c !in f.top
  {
  }

  lemma PushApart(f: Forest, w: Walk, v: Walk, s: Spawn)
    requires Known(f, w) && Apart(f, w) && Shrunk(f, w) && Fresh(f, w, s) && Pushed(f, w, v, s)
    ensures Apart(f, v)
  {
    hide WellFormed, Lists;
    PushListsApart(f, w, v, s);
    HeadOk(s, w.stack);
  }

  lemma PushShrunk(f: Forest, w: Walk, v: Walk, s: Spawn)
    requires Known(f, w) && Shrunk(f, w) && Fresh(f, w, s) && Pushed(f, w, v, s)
    ensures Shrunk(f, v)
  {
    forall a | a in v.users
      ensures v.users[a] == f.users[a] ||
              exists c :: (c in v.stack || c in v.done) && c in f.inst && f.inst[c] == a && !Stops(f, c)
    {
      if w.stack != [] && a == f.inst[w.stack[0]] {
        assert w.stack[0] in v.stack;
      } else if w.users[a] != f.users[a] {
        var c :| (c in w.stack || c in w.done) && c in f.inst && f.inst[c] == a && !Stops(f, c);
        assert c in v.stack || c in v.done;
      }
    }
  }

  lemma PushTopKept(f: Forest, w: Walk, v: Walk, s: Spawn)
    requires Known(f, w) && TopKept(f, w) && Fresh(f, w, s) && Pushed(f, w, v, s)
    ensures TopKept(f, v)
  {
  }

  /** Instances go down in rank from the bottom of the stack to the top. */
  lemma {:induction false} StackRanked(f: Forest, stack: seq<Spawn>, i: nat, j: nat)
    requires WellFormed(f) && Chain(f, stack) && i < j < |stack|
    ensures f.rank[f.inst[stack[i]]] < f.rank[f.inst[stack[j]]]
    decreases j
  {
    assert stack[j - 1] in Kids(f, stack[j - 1 + 1]);
    if i < j - 1 {
      StackRanked(f, stack, i, j - 1);
    }
  }

  /** A new spawn has no twin on the stack. */
  lemma NoTwinBelow(f: Forest, w: Walk, s: Spawn, j: nat)
    requires Known(f, w) && Chain(f, w.stack) && Fresh(f, w, s) && j < |w.stack|
    ensures f.inst[w.stack[j]] != f.inst[s]
  {
    assert s in Kids(f, w.stack[0]);
    if j > 0 {
      StackRanked(f, w.stack, 0, j);
    }
  }

  /** If it is the first of its instance, nothing was taken from the users' list; else all was, and they are done. */
  lemma Untouched(f: Forest, w: Walk, s: Spawn)
    requires Known(f, w) && Chain(f, w.stack) && Shrunk(f, w) && DoneBelow(f, w) && Fresh(f, w, s) && !Stops(f, s)
    ensures f.inst[s] in f.users && f.inst[s] in w.users
    ensures || w.users[f.inst[s]] == f.users[f.inst[s]]
            || (exists t :: t in w.done && Twin(f, s, t) && forall c :: c in Kids(f, s) ==> c in w.done)
  {
    var a := f.inst[s];
    if w.users[a] != f.users[a] {
      var t :| (t in w.stack || t in w.done) && t in f.inst && f.inst[t] == a && !Stops(f, t);
      if t in w.stack {
        var j :| 0 <= j < |w.stack| && w.stack[j] == t;
        NoTwinBelow(f, w, s, j);
      } else {
        assert DoneKids(f, w, t);
        assert Twin(f, s, t);
      }
    }
  }

  lemma PushKidNew(f: Forest, w: Walk, v: Walk, s: Spawn, c: Spawn)
    requires Known(f, w) && Known(f, v) && Fresh(f, w, s) && Pushed(f, w, v, s)
    requires Chain(f, w.stack) && Shrunk(f, w) && DoneBelow(f, w) && c in Kids(f, s)
    ensures KidKept(f, v, 0, c)
  {
    hide WellFormed, Lists, Chain, Shrunk, DoneBelow;
    Untouched(f, w, s);
    if w.stack != [] {
      NoTwinBelow(f, w, s, 0);
    }
  }

  lemma PushKidOld(f: Forest, w: Walk, v: Walk, s: Spawn, i: nat, c: Spawn)
    requires Known(f, w) && Known(f, v) && Fresh(f, w, s) && Pushed(f, w, v, s)
    requires Chain(f, w.stack) && i < |w.stack| && f.inst[w.stack[i]] in w.users && KidKept(f, w, i, c)
    ensures KidKept(f, v, i + 1, c)
  {
    hide WellFormed, Lists, Chain;
    if i > 0 {
      StackRanked(f, w.stack, 0, i);
    }
  }

  lemma PushKidsKept(f: Forest, w: Walk, v: Walk, s: Spawn)
    requires Known(f, w) && Known(f, v) && KidsKept(f, w) && Fresh(f, w, s) && Pushed(f, w, v, s)
    requires Chain(f, w.stack) && Shrunk(f, w) && DoneBelow(f, w)
    ensures KidsKept(f, v)
  {
    hide Lists, Chain, Shrunk, DoneBelow, KidKept, Fresh;
    forall i, c | 0 <= i < |v.stack| && c in Kids(f, v.stack[i])
      ensures KidKept(f, v, i, c)
    {
      if i == 0 {
        PushKidNew(f, w, v, s, c);
      } else {
        assert v.stack[i] == w.stack[i - 1];
        assert KidKept(f, w, i - 1, c);
        PushKidOld(f, w, v, s, i - 1, c);
      }
    }
  }

  lemma PushDoneOrder(f: Forest, w: Walk, v: Walk)
    requires Known(f, w) && Known(f, v) && v.done == w.done && DoneOrder(f, w)
    ensures DoneOrder(f, v)
  {
  }

  lemma PushDoneBelow(f: Forest, w: Walk, v: Walk, s: Spawn)
    requires Known(f, w) && Known(f, v) && DoneBelow(f, w) && Fresh(f, w, s) && Pushed(f, w, v, s)
    ensures DoneBelow(f, v)
  {
    forall c | c in v.done
      ensures DoneKids(f, v, c)
    {
      assert DoneKids(f, w, c);
    }
  }

  lemma PushHonest(f: Forest, w: Walk, v: Walk, s: Spawn)
    requires Known(f, w) && Known(f, v) && Fresh(f, w, s) && Pushed(f, w, v, s) && Honest(f, w) && RestMarked(f, w)
    ensures Honest(f, v) && RestMarked(f, v)
  {
    hide WellFormed, Lists;
  }

  /** No user of a new spawn is done and leads to the replacement: else a twin would have come first. */
  lemma NotSaved(f: Forest, w: Walk, s: Spawn)
    requires Known(f, w) && Chain(f, w.stack) && Apart(f, w) && Shrunk(f, w) && DoneBelow(f, w) && Fresh(f, w, s)
    requires Single(f) && Reached(f, s) && (forall t :: t in w.done ==> Reached(f, t)) && !Stops(f, s)
    ensures !Saved(f, w.done, s)
  {
    hide WellFormed, Lists, Chain, Shrunk, DoneBelow, Leads, Reached;
    Untouched(f, w, s);
    forall c | c in Kids(f, s)
      ensures !(c in w.done && Leads(f, c))
    {
      LeadsUp(f, s, c);
    }
  }

  lemma PushComplete(f: Forest, w: Walk, v: Walk, s: Spawn)
    requires Known(f, w) && Known(f, v) && Chain(f, w.stack) && Apart(f, w) && Shrunk(f, w) && DoneBelow(f, w)
    requires Fresh(f, w, s) && Pushed(f, w, v, s) && Complete(f, w) && RestMarked(f, w) && Least(f, v)
    ensures Complete(f, v)
  {
    hide WellFormed, Lists, Chain, Shrunk, DoneBelow, Leads, Reached, Single, Saved;
    if Single(f) && !Stops(f, s) {
      NotSaved(f, w, s);
    }
  }

  lemma LeadsUp(f: Forest, s: Spawn, c: Spawn)
    requires WellFormed(f) && s in f.inst && c in Kids(f, s)
    ensures c in f.inst && f.owner[c] == f.inst[s]
    ensures Leads(f, c) ==> Leads(f, s)
  {
  }

  lemma PushTwins(f: Forest, w: Walk, v: Walk, s: Spawn)
    requires Known(f, w) && Known(f, v) && Chain(f, w.stack) && DoneBelow(f, w) && Fresh(f, w, s) && Pushed(f, w, v, s)
    requires TwinsDone(f, w) && TwinOnTop(f, w)
    ensures TwinsDone(f, v) && TwinOnTop(f, v)
  {
    hide WellFormed, Lists, Chain, DoneBelow;
    forall i, t | 0 <= i < |v.stack| && t in v.done && Twin(f, v.stack[i], t)
      ensures i == 0 && v.algOf[v.stack[i]].None?
    {
      if i > 0 {
        assert v.stack[i] == w.stack[i - 1];
        assert i - 1 == 0;
        NotEmptied(f, w, s, t);
      }
    }
  }

  /** The list a spawn is taken from is not one whose users are all done. */
  lemma NotEmptied(f: Forest, w: Walk, s: Spawn, t: Spawn)
    requires Known(f, w) && DoneBelow(f, w) && Fresh(f, w, s) && w.stack != [] && t in w.done
    ensures !Twin(f, w.stack[0], t)
  {
    assert DoneKids(f, w, t);
  }

  lemma PushLeast(f: Forest, w: Walk, v: Walk, s: Spawn)
    requires Known(f, w) && Least(f, w) && Fresh(f, w, s) && Pushed(f, w, v, s)
    ensures Least(f, v)
  {
    hide WellFormed, Lists;
    if w.stack != [] {
      assert Reached(f, w.stack[0]);
    }
  }

  lemma PushOk(f: Forest, w: Walk)
    requires CanPush(f, w)
    ensures Fresh(f, w, List(w, Next(f, w.stack))[0])
    ensures Inv(f, Push(f, w, Next(f, w.stack)))
  {
    var s := List(w, Next(f, w.stack))[0];
    FirstOk(f, w);
    PushIs(f, w);
    PushedOk(f, w, Push(f, w, Next(f, w.stack)), s);
  }

  lemma PushedOk(f: Forest, w: Walk, v: Walk, s: Spawn)
    requires Inv(f, w) && Fresh(f, w, s) && Pushed(f, w, v, s)
    ensures Inv(f, v)
  {
    hide WellFormed, Chain, Shrunk, TopKept, KidsKept, DoneBelow, DoneOrder, Honest, RestMarked, Complete, TwinsDone, TwinOnTop, Least;
    PushChain(f, w, v, s);
    PushApart(f, w, v, s);
    PushShrunk(f, w, v, s);
    PushTopKept(f, w, v, s);
    PushKidsKept(f, w, v, s);
    PushDoneBelow(f, w, v, s);
    PushDoneOrder(f, w, v);
    PushLeast(f, w, v, s);
    PushHonest(f, w, v, s);
    PushComplete(f, w, v, s);
    PushTwins(f, w, v, s);
  }

  // ---------- going back ----------

  /** What the field of the spawn below becomes when the one above is done. */
  function HandedDown(f: Forest, w: Walk, above: Spawn, below: Spawn): Option<Alg>
    requires above in w.algOf && below in w.algOf && below in f.owner
  {
    if w.algOf[above].Some? && w.algOf[below].None? then Some(f.owner[below]) else w.algOf[below]
  }

  ghost predicate Popped(f: Forest, w: Walk, v: Walk)
    requires w.stack != [] && w.algOf.Keys == f.inst.Keys == f.owner.Keys && forall s :: s in w.stack ==> s in f.inst
  {
    && v.stack == w.stack[1..] && v.done == [w.stack[0]] + w.done && v.users == w.users && v.top == w.top
    && v.algOf.Keys == w.algOf.Keys
    && (forall s :: s in w.algOf && (|w.stack| == 1 || s != w.stack[1]) ==> v.algOf[s] == w.algOf[s])
    && (|w.stack| > 1 ==> v.algOf[w.stack[1]] == HandedDown(f, w, w.stack[0], w.stack[1]))
  }

  /** The algorithm that is written back is the one in whose list the spawn was. */
  lemma PopIs(f: Forest, w: Walk)
    requires Known(f, w) && Chain(f, w.stack) && w.stack != []
    ensures Popped(f, w, Pop(f, w))
  {
    if |w.stack| == 2 {
      assert w.stack[1] in f.top;
    } else if |w.stack| > 2 {
      assert w.stack[1] in Kids(f, w.stack[2]);
    }
  }

  lemma PopChain(f: Forest, w: Walk, v: Walk)
    requires Known(f, w) && Chain(f, w.stack) && w.stack != [] && Popped(f, w, v)
    ensures Chain(f, v.stack) && Known(f, v)
    ensures |w.stack| > 1 ==> !Stops(f, w.stack[1]) && w.stack[0] in Kids(f, w.stack[1])
  {
  }

  lemma PopApart(f: Forest, w: Walk, v: Walk)
    requires Known(f, w) && Apart(f, w) && w.stack != [] && Popped(f, w, v)
    ensures Apart(f, v)
  {
    hide WellFormed, Lists;
    TailOk(w.stack);
    HeadOk(w.stack[0], w.done);
  }

  lemma PopShrunk(f: Forest, w: Walk, v: Walk)
    requires Known(f, w) && Shrunk(f, w) && w.stack != [] && Popped(f, w, v)
    ensures Shrunk(f, v)
  {
    hide WellFormed, Lists;
    assert w.stack == [w.stack[0]] + w.stack[1..];
    forall a | a in v.users
      ensures v.users[a] == f.users[a] ||
              exists c :: (c in v.stack || c in v.done) && c in f.inst && f.inst[c] == a && !Stops(f, c)
    {
      if w.users[a] != f.users[a] {
        var c :| (c in w.stack || c in w.done) && c in f.inst && f.inst[c] == a && !Stops(f, c);
        assert c in v.stack || c in v.done;
      }
    }
  }

  lemma PopTopKept(f: Forest, w: Walk, v: Walk)
    requires Known(f, w) && TopKept(f, w) && w.stack != [] && Popped(f, w, v)
    ensures TopKept(f, v)
  {
  }

  lemma PopKidsKept(f: Forest, w: Walk, v: Walk)
    requires Known(f, w) && Known(f, v) && KidsKept(f, w) && w.stack != [] && Popped(f, w, v)
    ensures KidsKept(f, v)
  {
    hide WellFormed;
    forall i, c | 0 <= i < |v.stack| && c in Kids(f, v.stack[i])
      ensures KidKept(f, v, i, c)
    {
      assert v.stack[i] == w.stack[i + 1];
      assert KidKept(f, w, i + 1, c);
    }
  }

  /** All users of the spawn are done. */
  lemma PopDoneBelow(f: Forest, w: Walk, v: Walk)
    requires Known(f, w) && Known(f, v) && CanPop(f, w) && Popped(f, w, v)
    ensures DoneBelow(f, v)
  {
    hide WellFormed, Chain, Apart, Shrunk, TopKept, DoneOrder, Honest, RestMarked, Complete, TwinsDone, TwinOnTop, Least;
    forall s | s in v.done
      ensures DoneKids(f, v, s)
    {
      if s == w.stack[0] {
        forall c | c in Kids(f, s)
          ensures c in v.done
        {
          assert KidKept(f, w, 0, c);
        }
      } else {
        assert DoneKids(f, w, s);
      }
    }
  }

  /** So whether it leads to the replacement is known. */
  lemma PopSaved(f: Forest, w: Walk)
    requires CanPop(f, w)
    ensures Saved(f, w.done, w.stack[0]) <==> Leads(f, w.stack[0])
    ensures forall c :: c in Kids(f, w.stack[0]) ==> c in w.done
  {
    hide WellFormed, Chain, Apart, Shrunk, TopKept, DoneBelow, DoneOrder, Honest, RestMarked, Complete, TwinsDone, TwinOnTop, Least;
    var s := w.stack[0];
    forall c | c in Kids(f, s)
      ensures c in w.done
    {
      assert KidKept(f, w, 0, c);
    }
  }

  lemma PopDoneOrder(f: Forest, w: Walk, v: Walk)
    requires Known(f, w) && Known(f, v) && DoneOrder(f, w) && w.stack != [] && Popped(f, w, v)
    requires forall c :: c in Kids(f, w.stack[0]) ==> c in w.done
    ensures DoneOrder(f, v)
  {
    hide WellFormed;
    forall k, c | 0 <= k < |v.done| && c in Kids(f, v.done[k])
      ensures c in v.done[k + 1..]
    {
      if k == 0 {
        assert v.done[1..] == w.done;
      } else {
        assert v.done[k] == w.done[k - 1] && v.done[k + 1..] == w.done[k - 1 + 1..];
      }
    }
  }

  /** A field is only written back when the spawn above leads to the replacement. */
  lemma PopHonest(f: Forest, w: Walk, v: Walk)
    requires Known(f, w) && Known(f, v) && Chain(f, w.stack) && Distinct(w.stack) && w.stack != [] && Popped(f, w, v)
    requires Honest(f, w) && RestMarked(f, w)
    ensures Honest(f, v) && RestMarked(f, v)
  {
    hide WellFormed, Leads, Chain;
    assert w.stack == [w.stack[0]] + w.stack[1..];
    if |w.stack| > 1 {
      NextBelow(f, w.stack);
      LeadsUp(f, w.stack[1], w.stack[0]);
    }
  }

  lemma NextBelow(f: Forest, stack: seq<Spawn>)
    requires WellFormed(f) && Chain(f, stack) && |stack| > 1
    ensures stack[1] in f.inst && stack[0] in Kids(f, stack[1])
  {
    assert stack[0] in Kids(f, stack[0 + 1]);
  }

  /** The fate of the spawn on top counts for the one below it and for no other. */
  lemma PopComplete(f: Forest, w: Walk, v: Walk)
    requires Known(f, w) && Known(f, v) && Chain(f, w.stack) && Distinct(w.stack) && w.stack != [] && Popped(f, w, v)
    requires forall s :: s in w.stack ==> s !in w.done
    requires Complete(f, w) && (Saved(f, w.done, w.stack[0]) <==> Leads(f, w.stack[0]))
    ensures Complete(f, v)
  {
    hide Leads, WellFormed, Saved, Chain, Single;
    assert w.stack == [w.stack[0]] + w.stack[1..];
    if Single(f) {
      forall m | m in v.stack && Saved(f, v.done, m)
        ensures v.algOf[m].Some?
      {
        assert m in w.stack && m != w.stack[0];
        if m == w.stack[1] {
          PopSavedBelow(f, w, v, m);
        } else {
          PopSavedOther(f, w, v, m);
        }
      }
      forall s | s in v.done && Leads(f, s)
        ensures v.algOf[s].Some?
      {
        assert |w.stack| > 1 ==> w.stack[1] in v.stack;
      }
    }
  }

  lemma PopSavedBelow(f: Forest, w: Walk, v: Walk, m: Spawn)
    requires Known(f, w) && Chain(f, w.stack) && |w.stack| > 1 && Popped(f, w, v) && m == w.stack[1]
    ensures Saved(f, v.done, m) <==> Saved(f, w.done, m) || Leads(f, w.stack[0])
  {
    hide Leads;
    assert w.stack[0] in Kids(f, m);
  }

  lemma PopSavedOther(f: Forest, w: Walk, v: Walk, m: Spawn)
    requires Known(f, w) && Chain(f, w.stack) && Distinct(w.stack) && |w.stack| > 1 && Popped(f, w, v)
    requires m in w.stack && m != w.stack[0] && m != w.stack[1]
    ensures Saved(f, v.done, m) <==> Saved(f, w.done, m)
  {
    hide Leads;
    var j :| 0 <= j < |w.stack| && w.stack[j] == m;
    StackRanked(f, w.stack, 1, j);
    LeadsUp(f, w.stack[1], w.stack[0]);
    if w.stack[0] in Kids(f, m) {
      LeadsUp(f, m, w.stack[0]);
    }
  }

  /** What comes to the top of the stack has no twin that is done. */
  lemma NoTwinDone(f: Forest, w: Walk, i: nat, t: Spawn)
    requires Known(f, w) && Chain(f, w.stack) && TwinOnTop(f, w) && 0 < i < |w.stack| && (t in w.done || t == w.stack[0])
    ensures !Twin(f, w.stack[i], t)
  {
    hide WellFormed, Chain;
    StackRanked(f, w.stack, 0, i);
  }

  lemma PopTwins(f: Forest, w: Walk, v: Walk)
    requires Known(f, w) && Known(f, v) && Chain(f, w.stack) && Distinct(w.stack) && w.stack != [] && Popped(f, w, v)
    requires forall s :: s in w.stack ==> s !in w.done
    requires TwinsDone(f, w) && TwinOnTop(f, w)
    ensures TwinsDone(f, v) && TwinOnTop(f, v)
  {
    hide WellFormed, Chain;
    var top := w.stack[0];
    assert w.stack == [top] + w.stack[1..];
    forall i, t | 0 <= i < |v.stack| && t in v.done
      ensures !Twin(f, v.stack[i], t)
    {
      NoTwinDone(f, w, i + 1, t);
    }
    forall s, t | s in v.done && t in v.done && Twin(f, s, t)
      ensures v.algOf[s].None? || v.algOf[t].None?
    {
      assert |w.stack| > 1 ==> w.stack[1] in v.stack;
      if s == top {
        assert Twin(f, w.stack[0], t);
      } else if t == top {
        assert Twin(f, w.stack[0], s);
      }
    }
  }

  lemma PopLeast(f: Forest, w: Walk, v: Walk)
    requires Known(f, w) && Least(f, w) && w.stack != [] && Popped(f, w, v)
    ensures Least(f, v)
  {
    hide WellFormed, Reached;
  }

  lemma PopOk(f: Forest, w: Walk)
    requires CanPop(f, w)
    ensures Inv(f, Pop(f, w))
    ensures |w.stack| > 1 ==> !Stops(f, w.stack[1])
  {
    hide WellFormed, Chain, Shrunk, TopKept, KidsKept, DoneBelow, DoneOrder, Honest, RestMarked, Complete, TwinsDone, TwinOnTop, Least, Pop, Saved, Leads;
    var v := Pop(f, w);
    PopIs(f, w);
    PopChain(f, w, v);
    PopApart(f, w, v);
    PopShrunk(f, w, v);
    PopTopKept(f, w, v);
    PopKidsKept(f, w, v);
    PopDoneBelow(f, w, v);
    PopSaved(f, w);
    PopDoneOrder(f, w, v);
    PopHonest(f, w, v);
    PopComplete(f, w, v);
    PopTwins(f, w, v);
    PopLeast(f, w, v);
  }

  // ---------- the end of the walk ----------

  /** Where nothing is left, exactly the smallest closed set of spawns is done. */
  lemma WalkEnds(f: Forest, w: Walk)
    requires Inv(f, w) && w.stack == [] && w.top == []
    ensures Closed(f, Members(w.done))
    ensures forall x :: Closed(f, x) ==> Members(w.done) <= x
  {
    hide WellFormed, Leads, Single, Apart, Shrunk, Honest, RestMarked, Complete, TwinsDone, TwinOnTop, DoneOrder;
    forall s | s in w.done
      ensures forall c :: c in Kids(f, s) ==> c in w.done
    {
      assert DoneKids(f, w, s);
    }
  }

  /** What a spawn leads to is a matter of its instance. */
  lemma LeadsSame(f: Forest, s: Spawn, t: Spawn)
    requires WellFormed(f) && s in f.inst && t in f.inst && f.inst[s] == f.inst[t]
    ensures Leads(f, s) <==> Leads(f, t)
  {
    assert Kids(f, s) == Kids(f, t);
  }

  /** Exactly the spawns that lead to the replacement are kept. */
  ghost predicate Right(f: Forest, w: Walk)
    requires Known(f, w)
  {
    forall s :: s in w.done ==> (w.algOf[s].Some? <==> Leads(f, s))
  }

  /**
    The walk keeps exactly the spawns that lead to the replacement if and only if no instance that
    the replacement was built on is reached through two spawns.
  */
  lemma KeptIff(f: Forest, w: Walk)
    requires Inv(f, w) && w.stack == [] && w.top == []
    ensures Right(f, w) <==> Single(f)
  {
    hide WellFormed, Leads, Apart, Shrunk, Chain, TopKept, KidsKept, DoneBelow, DoneOrder, RestMarked, TwinOnTop;
    WalkEnds(f, w);
    if Right(f, w) {
      forall s, t | Twin(f, s, t) && Reached(f, s) && Reached(f, t)
        ensures !Leads(f, s)
      {
        assert s in Members(w.done) && t in Members(w.done);
        LeadsSame(f, s, t);
      }
    }
  }

  /** Without a replacement nothing leads to it ... */
  lemma {:induction false} NothingLeads(f: Forest, s: Spawn)
    requires WellFormed(f) && f.nalg == None && s in f.inst
    ensures !Leads(f, s)
    decreases f.rank[f.inst[s]]
  {
    forall c | c in Kids(f, s)
      ensures !Leads(f, c)
    {
      NothingLeads(f, c);
    }
  }

  /** ... so every way of building instances on instances is taken down right. */
  lemma RemovalSingle(f: Forest)
    requires WellFormed(f) && f.nalg == None
    ensures Single(f)
  {
    hide Leads, Reached;
    forall s, t | Twin(f, s, t) && Reached(f, s) && Reached(f, t)
      ensures !Leads(f, s)
    {
      NothingLeads(f, s);
    }
  }
}
