/**
Merging in the block layer (block/elevator.c, block/blk-core.c, block/blk-merge.c): bios join the
front or back of a request, neighbouring requests become one, and a hash over where requests end
finds the one that a bio continues.
*/
module MergeSpec {
  import opened Common

  type Rid = nat

  datatype Kind = Plain | Discard | SecureDiscard

  /** A submitted piece: where it starts and how many sectors it has; `id` tells bios apart. */
  datatype Bio = Bio(id: nat, sector: int, sectors: nat, write: bool, kind: Kind)

  /** A request with its chain of bios; `noMerge` is any of the flags that rule merging out. */
  datatype Req = Req(bios: seq<Bio>, sector: int, sectors: nat, write: bool, kind: Kind, noMerge: bool)

  /** The sector behind a request: its key in the hash. */
  function End(r: Req): int {
    r.sector + r.sectors
  }

  type Buckets = map<nat, seq<Rid>>

  /**
    The requests that the scheduler holds, the hash over them, and what it has passed on.  `hash` is
    ELV_HASH_FN; which bucket it gives does not matter.
  */
  datatype State = State(reqs: map<Rid, Req>, buckets: Buckets, lastMerge: Option<Rid>, passed: seq<Bio>)

  function Bucket(b: Buckets, k: nat): seq<Rid> {
    if k in b then b[k] else []
  }

  function Remove(l: seq<Rid>, x: Rid): seq<Rid> {
    if l == [] then [] else if l[0] == x then Remove(l[1..], x) else [l[0]] + Remove(l[1..], x)
  }

  /** Takes a request off the hash, wherever it is. */
  function HashDel(b: Buckets, x: Rid): Buckets {
    map k | k in b :: Remove(b[k], x)
  }

  function HashAdd(b: Buckets, x: Rid, k: nat): Buckets {
    b[k := [x] + Bucket(b, k)]
  }

  // ---------- what may be joined ----------

  /** elv_rq_merge_ok, as far as it is about the two; the rest is up to the scheduler and the device. */
  predicate Fits(r: Req, b: Bio) {
    !r.noMerge && r.kind == b.kind && r.write == b.write
  }

  predicate Continues(r: Req, b: Bio) {
    Fits(r, b) && End(r) == b.sector
  }

  predicate Precedes(r: Req, b: Bio) {
    Fits(r, b) && End(r) != b.sector && r.sector - b.sectors == b.sector
  }

  /** What attempt_merge asks of two requests. */
  predicate Adjoins(r: Req, n: Req) {
    !r.noMerge && !n.noMerge && r.kind == n.kind && r.write == n.write && End(r) == n.sector
  }

  // ---------- the steps ----------

  /** A request made from one bio. */
  function FromBio(b: Bio, noMerge: bool): Req {
    Req([b], b.sector, b.sectors, b.write, b.kind, noMerge)
  }

  /** __elv_add_request with ELEVATOR_INSERT_SORT: a request may have gathered bios while it was plugged. */
  function Insert(s: State, x: Rid, r: Req, hash: int -> nat): State {
    var s1 := s.(reqs := s.reqs[x := r]);
    if r.noMerge then s1
    else s1.(buckets := HashAdd(s.buckets, x, hash(End(r))), lastMerge := if s.lastMerge.None? then Some(x) else s.lastMerge)
  }

  /** Two requests one behind the other. */
  function Joined(r: Req, n: Req): Req {
    r.(bios := r.bios + n.bios, sectors := r.sectors + n.sectors)
  }

  /** elv_attempt_insert_merge: a request that is not in the queue yet becomes part of x. */
  function Absorb(s: State, x: Rid, n: Req, hash: int -> nat): State
    requires x in s.reqs
  {
    var m := Joined(s.reqs[x], n);
    s.(reqs := s.reqs[x := m], buckets := HashAdd(HashDel(s.buckets, x), x, hash(End(m))), lastMerge := Some(x))
  }

  /** bio_attempt_back_merge and elv_merged_request: the request ends later, so it is hashed anew. */
  function BackMerge(s: State, x: Rid, b: Bio, hash: int -> nat): State
    requires x in s.reqs
  {
    var r := s.reqs[x];
    var n := r.(bios := r.bios + [b], sectors := r.sectors + b.sectors);
    s.(reqs := s.reqs[x := n], buckets := HashAdd(HashDel(s.buckets, x), x, hash(End(n))), lastMerge := Some(x))
  }

  /** bio_attempt_front_merge: the request starts earlier and ends where it did, so it stays where it is. */
  function FrontMerge(s: State, x: Rid, b: Bio): State
    requires x in s.reqs
  {
    var r := s.reqs[x];
    s.(reqs := s.reqs[x := r.(bios := [b] + r.bios, sector := b.sector, sectors := r.sectors + b.sectors)],
       lastMerge := Some(x))
  }

  /** attempt_merge and elv_merge_requests: y becomes part of x. */
  function MergeRequests(s: State, x: Rid, y: Rid, hash: int -> nat): State
    requires x in s.reqs && y in s.reqs
  {
    var m := Joined(s.reqs[x], s.reqs[y]);
    s.(reqs := s.reqs[x := m] - {y},
       buckets := HashDel(HashAdd(HashDel(s.buckets, x), x, hash(End(m))), y),
       lastMerge := Some(x))
  }

  /** A request becomes unfit for merging; it may stay on the hash until a search runs into it. */
  function Forbid(s: State, x: Rid): State
    requires x in s.reqs
  {
    s.(reqs := s.reqs[x := s.reqs[x].(noMerge := true)])
  }

  /** The scheduler passes a request on. */
  function Pass(s: State, x: Rid): State
    requires x in s.reqs
  {
    s.(reqs := s.reqs - {x}, buckets := HashDel(s.buckets, x),
       lastMerge := if s.lastMerge == Some(x) then None else s.lastMerge, passed := s.passed + s.reqs[x].bios)
  }

  /** elv_rqhash_find within a bucket: what is left of the bucket, and the request found. */
  function Scan(l: seq<Rid>, reqs: map<Rid, Req>, off: int): (seq<Rid>, Option<Rid>)
    requires forall x :: x in l ==> x in reqs
  {
    if l == [] then ([], None)
    else if reqs[l[0]].noMerge then Scan(l[1..], reqs, off)
    else if End(reqs[l[0]]) == off then (l, Some(l[0]))
    else
      var (rest, found) := Scan(l[1..], reqs, off);
      ([l[0]] + rest, found)
  }

  function Search(s: State, off: int, hash: int -> nat): (State, Option<Rid>)
    requires forall x :: x in Bucket(s.buckets, hash(off)) ==> x in s.reqs
  {
    var (l, found) := Scan(Bucket(s.buckets, hash(off)), s.reqs, off);
    (s.(buckets := s.buckets[hash(off) := l]), found)
  }

  // ---------- the invariant ----------

  /** Bios one behind the other, of one kind, with the given first sector and number of sectors. */
  ghost predicate Extent(bios: seq<Bio>, sector: int, sectors: nat, write: bool, kind: Kind) {
    if bios == [] then sectors == 0
    else
      && bios[0].sector == sector && bios[0].write == write && bios[0].kind == kind && bios[0].sectors <= sectors
      && Extent(bios[1..], sector + bios[0].sectors, sectors - bios[0].sectors, write, kind)
  }

  ghost predicate ReqOk(r: Req) {
    r.bios != [] && Extent(r.bios, r.sector, r.sectors, r.write, r.kind)
  }

  /** Every request on the hash is in the bucket for its end, and every one that may be merged is on it. */
  ghost predicate HashOk(reqs: map<Rid, Req>, b: Buckets, hash: int -> nat) {
    && (forall k, x :: k in b && x in b[k] ==> x in reqs && k == hash(End(reqs[x])))
    && (forall x :: x in reqs && !reqs[x].noMerge ==> x in Bucket(b, hash(End(reqs[x]))))
  }

  /** The bios of all requests. */
  function Held(reqs: map<Rid, Req>): set<Bio> {
    set x, b | x in reqs && b in reqs[x].bios :: b
  }

  function Everything(s: State): set<Bio> {
    Held(s.reqs) + set b | b in s.passed
  }

  /** No bio is in two places. */
  ghost predicate Once(s: State) {
    && (forall x :: x in s.reqs ==> Distinct(s.reqs[x].bios))
    && (forall x, y, b :: x in s.reqs && y in s.reqs && b in s.reqs[x].bios && b in s.reqs[y].bios ==> x == y)
    && Distinct(s.passed) && (forall x, b :: x in s.reqs && b in s.reqs[x].bios ==> b !in s.passed)
  }

  ghost predicate Inv(s: State, hash: int -> nat) {
    && (forall x :: x in s.reqs ==> ReqOk(s.reqs[x])) && HashOk(s.reqs, s.buckets, hash) && Once(s)
    && (s.lastMerge.Some? ==> s.lastMerge.value in s.reqs)
  }
}
