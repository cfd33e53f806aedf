/**
crypto_remove_spawns of crypto/algapi.c: the walk over everything that was built on an algorithm.
An algorithm has a list of users; a user is a spawn, which stands for an instance, an algorithm with
users of its own.  The walk keeps the way down on an explicit stack and cuts the spawns loose from
their lists as it goes; a spawn is put back at the end if the algorithm that replaces the old one
was built on it.
*/
module SpawnWalk {
  import opened Common

  type Alg = nat
  type Spawn = nat

  /**
    What the walk starts from: `users` are the users' lists without the selected spawns, which are
    in `top`; `owner` is the algorithm in whose list a spawn was; `rank` orders the algorithms, an
    instance below what it is built on.
  */
  datatype Forest = Forest(users: map<Alg, seq<Spawn>>, top: seq<Spawn>, inst: map<Spawn, Alg>,
                           owner: map<Spawn, Alg>, alg: Alg, nalg: Option<Alg>, rank: map<Alg, nat>)

  function Members(l: seq<Spawn>): set<Spawn> {
    set s | s in l
  }

  ghost predicate Lists(f: Forest)
    requires f.inst.Keys == f.owner.Keys
  {
    && (forall a :: a in f.users ==> Distinct(f.users[a]))
    && (forall a, s :: a in f.users && s in f.users[a] ==> s in f.inst && f.owner[s] == a && s !in f.top)
    && Distinct(f.top)
    && (forall s :: s in f.top ==> s in f.inst && f.owner[s] == f.alg)
  }

  /** Instances are built on other algorithms, and not in circles. */
  ghost predicate Ranked(algs: set<Alg>, inst: map<Spawn, Alg>, owner: map<Spawn, Alg>, rank: map<Alg, nat>)
    requires inst.Keys == owner.Keys
  {
    && (forall s :: s in inst ==> inst[s] in algs && inst[s] in rank && owner[s] in rank)
    && (forall s :: s in inst ==> rank[inst[s]] < rank[owner[s]])
  }

  ghost predicate WellFormed(f: Forest) {
    && f.inst.Keys == f.owner.Keys && Ranked(f.users.Keys, f.inst, f.owner, f.rank) && Lists(f)
  }

  /** Every spawn is in a list. */
  ghost predicate Linked(f: Forest)
    requires f.inst.Keys == f.owner.Keys
  {
    forall s :: s in f.inst ==> s in f.top || (f.owner[s] in f.users && s in f.users[f.owner[s]])
  }

  /** The walk does not go below the replacement. */
  predicate Stops(f: Forest, s: Spawn)
    requires s in f.inst
  {
    f.nalg == Some(f.inst[s])
  }

  function Kids(f: Forest, s: Spawn): seq<Spawn>
    requires WellFormed(f) && s in f.inst
  {
    if Stops(f, s) then [] else f.users[f.inst[s]]
  }

  /** The replacement was built on this spawn's instance, or is it. */
  ghost predicate Leads(f: Forest, s: Spawn)
    requires WellFormed(f) && s in f.inst
    decreases f.rank[f.inst[s]]
  {
    Stops(f, s) || exists c :: c in Kids(f, s) && Leads(f, c)
  }

  /** A set of spawns that has the selected ones and, with a spawn, the users of its instance. */
  ghost predicate Closed(f: Forest, x: set<Spawn>)
    requires WellFormed(f)
  {
    && (forall s :: s in f.top ==> s in x)
    && (forall s :: s in x ==> s in f.inst && forall c :: c in Kids(f, s) ==> c in x)
  }

  ghost predicate Reached(f: Forest, s: Spawn)
    requires WellFormed(f)
  {
    forall x :: Closed(f, x) ==> s in x
  }

  /** Two spawns of one instance, which is not the replacement. */
  ghost predicate Twin(f: Forest, s: Spawn, t: Spawn) {
    s in f.inst && t in f.inst && s != t && f.inst[s] == f.inst[t] && !Stops(f, s)
  }

  /** What the replacement was built on is reached through one spawn each. */
  ghost predicate Single(f: Forest)
    requires WellFormed(f)
  {
    forall s, t :: Twin(f, s, t) && Reached(f, s) && Reached(f, t) ==> !Leads(f, s)
  }

  // ---------- the walk ----------

  /** The lists during the walk, the stack with its top first, and the spawn's algorithm fields. */
  datatype Walk = Walk(users: map<Alg, seq<Spawn>>, top: seq<Spawn>, stack: seq<Spawn>, done: seq<Spawn>,
                       algOf: map<Spawn, Option<Alg>>)

  /** The list that is next: the users of the instance on top of the stack, or the selected spawns. */
  datatype Ptr = Top | Users(a: Alg)

  predicate PtrOk(w: Walk, p: Ptr) {
    p.Users? ==> p.a in w.users
  }

  function List(w: Walk, p: Ptr): seq<Spawn>
    requires PtrOk(w, p)
  {
    if p.Top? then w.top else w.users[p.a]
  }

  /** Takes the first spawn of the list onto the stack. */
  function Push(f: Forest, w: Walk, p: Ptr): Walk
    requires PtrOk(w, p) && List(w, p) != [] && List(w, p)[0] in f.inst
  {
    var s := List(w, p)[0];
    var w1 := if p.Top? then w.(top := w.top[1..]) else w.(users := w.users[p.a := w.users[p.a][1..]]);
    var w2 := w1.(stack := [s] + w.stack);
    if Stops(f, s) then w2 else w2.(algOf := w.algOf[s := None])
  }

  /** crypto_more_spawns: the top of the stack is done; its fate is handed down the stack. */
  function Pop(f: Forest, w: Walk): Walk
    requires w.stack != [] && forall s :: s in w.stack ==> s in w.algOf && s in f.inst
  {
    var s := w.stack[0];
    var algOf :=
      if |w.stack| > 1 && w.algOf[s].Some? && w.algOf[w.stack[1]].None? then
        w.algOf[w.stack[1] := Some(if |w.stack| == 2 then f.alg else f.inst[w.stack[2]])]
      else w.algOf;
    w.(stack := w.stack[1..], done := [s] + w.done, algOf := algOf)
  }

  function Next(f: Forest, stack: seq<Spawn>): Ptr
    requires forall s :: s in stack ==> s in f.inst
  {
    if stack == [] then Top else Users(f.inst[stack[0]])
  }

  // ---------- the invariant ----------

  /** The stack is a way down from a selected spawn. */
  ghost predicate Chain(f: Forest, stack: seq<Spawn>)
    requires WellFormed(f)
  {
    && (forall s :: s in stack ==> s in f.inst)
    && (stack != [] ==> stack[|stack| - 1] in f.top)
    && (forall i :: 0 <= i < |stack| - 1 ==> stack[i] in Kids(f, stack[i + 1]))
  }

  /** No spawn is in two places. */
  ghost predicate Apart(f: Forest, w: Walk) {
    && Distinct(w.stack) && Distinct(w.done) && Distinct(w.top)
    && (forall s :: s in w.stack ==> s !in w.done && s !in w.top)
    && (forall s :: s in w.done ==> s !in w.top)
    && (forall a, s :: a in w.users && s in w.users[a] ==> s !in w.stack && s !in w.done)
    && (forall a :: a in w.users ==> Distinct(w.users[a]))
  }

  /** Lists only lose spawns, and only those of instances that have been reached. */
  ghost predicate Shrunk(f: Forest, w: Walk)
    requires WellFormed(f)
  {
    && w.users.Keys == f.users.Keys
    && (forall s :: s in w.top ==> s in f.top)
    && (forall a, s :: a in w.users && s in w.users[a] ==> s in f.users[a])
    && (forall a :: a in w.users ==>
          w.users[a] == f.users[a] || exists s :: (s in w.stack || s in w.done) && s in f.inst && f.inst[s] == a && !Stops(f, s))
  }

  /** All spawns and lists are those of the forest. */
  ghost predicate Known(f: Forest, w: Walk) {
    && WellFormed(f) && w.users.Keys == f.users.Keys && w.algOf.Keys == f.inst.Keys
    && (forall s :: s in w.stack ==> s in f.inst) && (forall s :: s in w.done ==> s in f.inst)
  }

  /** A selected spawn is still to come, done, or at the bottom of the stack. */
  ghost predicate TopKept(f: Forest, w: Walk) {
    forall s :: s in f.top ==> s in w.top || s in w.done || (w.stack != [] && s == w.stack[|w.stack| - 1])
  }

  /** A user of an instance on the stack is still to come, done, or next on the stack. */
  ghost predicate KidsKept(f: Forest, w: Walk)
    requires Known(f, w)
  {
    forall i, c :: 0 <= i < |w.stack| && c in Kids(f, w.stack[i]) ==> KidKept(f, w, i, c)
  }

  ghost predicate KidKept(f: Forest, w: Walk, i: nat, c: Spawn)
    requires Known(f, w) && i < |w.stack|
  {
    c in w.users[f.inst[w.stack[i]]] || c in w.done || (i > 0 && c == w.stack[i - 1])
  }

  /** The users of what is done are done, and their lists are empty. */
  ghost predicate DoneBelow(f: Forest, w: Walk)
    requires Known(f, w)
  {
    forall s :: s in w.done ==> DoneKids(f, w, s)
  }

  ghost predicate DoneKids(f: Forest, w: Walk, s: Spawn)
    requires Known(f, w) && s in f.inst
  {
    (forall c :: c in Kids(f, s) ==> c in w.done) && (!Stops(f, s) ==> w.users[f.inst[s]] == [])
  }

  /** Some user that is done leads to the replacement, or the spawn is it. */
  ghost predicate Saved(f: Forest, done: seq<Spawn>, s: Spawn)
    requires WellFormed(f) && s in f.inst
  {
    Stops(f, s) || exists c :: c in Kids(f, s) && c in done && Leads(f, c)
  }

  /** Users are done before the spawn whose instance they use; what is done last comes first. */
  ghost predicate DoneOrder(f: Forest, w: Walk)
    requires Known(f, w)
  {
    forall k, c :: 0 <= k < |w.done| && c in Kids(f, w.done[k]) ==> c in w.done[k + 1..]
  }

  /** A spawn that was reached has no algorithm, or its own again and leads to the replacement ... */
  ghost predicate Honest(f: Forest, w: Walk)
    requires Known(f, w)
  {
    forall s :: s in w.done || s in w.stack ==>
      if w.algOf[s] == None then !Stops(f, s) else w.algOf[s] == Some(f.owner[s]) && Leads(f, s)
  }

  /** ... and all others have it. */
  ghost predicate RestMarked(f: Forest, w: Walk)
    requires Known(f, w)
  {
    forall s :: s in f.inst && s !in w.done && s !in w.stack ==> w.algOf[s] == Some(f.owner[s])
  }

  /** Where twins do not matter, nothing that leads to the replacement is missed. */
  ghost predicate Complete(f: Forest, w: Walk)
    requires Known(f, w)
  {
    Single(f) ==>
      && (forall s :: s in w.done && Leads(f, s) ==> w.algOf[s].Some?)
      && (forall s :: s in w.stack && Saved(f, w.done, s) ==> w.algOf[s].Some?)
  }

  /** Of two twins, only the one that came first can have its algorithm back ... */
  ghost predicate TwinsDone(f: Forest, w: Walk)
    requires Known(f, w)
  {
    forall s, t :: s in w.done && t in w.done && Twin(f, s, t) ==> w.algOf[s].None? || w.algOf[t].None?
  }

  /** ... as the second one finds no users: it stays on top of the stack, without an algorithm. */
  ghost predicate TwinOnTop(f: Forest, w: Walk)
    requires Known(f, w)
  {
    forall i, t :: 0 <= i < |w.stack| && t in w.done && Twin(f, w.stack[i], t) ==> i == 0 && w.algOf[w.stack[i]].None?
  }

  /** Only what every closed set has is reached. */
  ghost predicate Least(f: Forest, w: Walk)
    requires WellFormed(f)
  {
    forall s :: s in w.stack || s in w.done ==> Reached(f, s)
  }

  ghost predicate Inv(f: Forest, w: Walk) {
    && Known(f, w) && Chain(f, w.stack)
    && Apart(f, w) && Shrunk(f, w) && TopKept(f, w) && KidsKept(f, w) && DoneBelow(f, w) && DoneOrder(f, w)
    && Honest(f, w) && RestMarked(f, w) && Complete(f, w) && TwinsDone(f, w) && TwinOnTop(f, w) && Least(f, w)
  }
}
