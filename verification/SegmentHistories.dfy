/**
Every way a data request can come about: bios put in front or behind, requests merged, merges that
were declined after the end sizes had been touched, end bios recounted, whole chains recounted, bytes
completed.
Whatever the history, the map of the result fits its count.
*/
module SegmentHistories {
  import opened Segments
  import opened SegmentRequests

  datatype History =
    | Fresh(bio: Bio)                                // blk_rq_bio_prep
    | Back(r: History, bio: Bio)                     // a bio merged behind
    | InFront(r: History, bio: Bio)                  // a bio merged in front
    | Merged(r: History, next: History)              // attempt_merge
    | DeclinedFirst(r: History, next: History)       // r after ll_merge_requests_fn gave up
    | DeclinedSecond(r: History, next: History)      // next after ll_merge_requests_fn gave up
    | EndsRecounted(r: History, front: nat, back: nat) // an end bio was recounted: its sizes grew
    | Recounted(r: History)                          // blk_recalc_rq_segments
    | Advanced(r: History, bytes: nat)               // blk_update_request completed part of it

  datatype Chain = Chain(bios: seq<Bio>, nr: nat)

  /** A bio after bio_phys_segments. */
  function WithCount(q: Limits, b: Bio): Bio {
    if b.segValid then b
    else
      var g := Greedy(q, b.vecs, false);
      WithEnds([b], g)[0].(physSegments := |g|, segValid := true)
  }

  ghost predicate Proper(q: Limits, h: History) {
    match h
    case Fresh(b) => BioOk(q, b)
    case Back(r, b) => Proper(q, r) && BioOk(q, b)
    case InFront(r, b) => Proper(q, r) && BioOk(q, b)
    case Merged(r, n) => Proper(q, r) && Proper(q, n)
    case DeclinedFirst(r, n) => Proper(q, r) && Proper(q, n)
    case DeclinedSecond(r, n) => Proper(q, r) && Proper(q, n)
    case EndsRecounted(r, _, _) => Proper(q, r)
    case Recounted(r) => Proper(q, r)
    case Advanced(r, _) => Proper(q, r)
  }

  ghost predicate ChainOk(q: Limits, c: Chain) {
    c.bios != [] && AllData(c.bios) && c.nr > 0 && Counted(q, c.bios, c.nr)
  }

  ghost function FreshChain(q: Limits, b: Bio): (c: Chain)
    requires BioOk(q, b)
    ensures ChainOk(q, c)
  {
    CountOne(q, b);
    Chain([WithCount(q, b)], WithCount(q, b).physSegments)
  }

  ghost function Concat(q: Limits, c: Chain, d: Chain): (e: Chain)
    requires ChainOk(q, c) && ChainOk(q, d)
    ensures ChainOk(q, e)
  {
    CountedConcat(q, c.bios, c.nr, d.bios, d.nr);
    Chain(c.bios + d.bios, c.nr + d.nr)
  }

  ghost function Merge(q: Limits, c: Chain, d: Chain): (e: Chain)
    requires ChainOk(q, c) && ChainOk(q, d)
    ensures ChainOk(q, e)
  {
    if Contiguous(q, Last(c.bios), d.bios[0]) then
      CountedMerge(q, c, d);
      Touched(c, d)
    else
      Concat(q, c, d)
  }

  /** Two chains that touch, as one. */
  function Touched(c: Chain, d: Chain): Chain
    requires c.bios != [] && d.bios != [] && c.nr > 0
  {
    var (x, y) := Touching(c.bios, c.nr, d.bios, d.nr);
    Chain(x + y, c.nr + d.nr - 1)
  }

  ghost function Decline(q: Limits, c: Chain, d: Chain): (e: (Chain, Chain))
    requires ChainOk(q, c) && ChainOk(q, d)
    ensures ChainOk(q, e.0) && ChainOk(q, e.1)
  {
    if Contiguous(q, Last(c.bios), d.bios[0]) then
      CountedTouch(q, c, d);
      var (x, y) := Touching(c.bios, c.nr, d.bios, d.nr);
      (Chain(x, c.nr), Chain(y, d.nr))
    else (c, d)
  }

  ghost function Grow(q: Limits, c: Chain, front: nat, back: nat): (e: Chain)
    requires ChainOk(q, c)
    ensures ChainOk(q, e)
  {
    CountedGrow(q, c, front, back);
    Chain(Grown(c.bios, front, back), c.nr)
  }

  ghost function Recounting(q: Limits, c: Chain): (e: Chain)
    requires ChainOk(q, c)
    ensures ChainOk(q, e)
  {
    CountedAnew(q, c);
    var g := Greedy(q, AllVecs(c.bios), false);
    Chain(WithEnds(c.bios, g), |g|)
  }

  /** What is left after some bytes, counted anew; a request that is finished is not advanced. */
  ghost function Advancing(q: Limits, c: Chain, bytes: nat): (e: Chain)
    requires ChainOk(q, c)
    ensures ChainOk(q, e)
  {
    if bytes >= Size(AllVecs(c.bios)) then c
    else
      CountedRest(q, c, bytes);
      var rest := CutChain(c.bios, bytes);
      var g := Greedy(q, AllVecs(rest), false);
      Chain(WithEnds(rest, g), |g|)
  }

  lemma CountedRest(q: Limits, c: Chain, bytes: nat)
    requires ChainOk(q, c) && bytes < Size(AllVecs(c.bios))
    ensures var rest := CutChain(c.bios, bytes);
            && rest != []
            && var g := Greedy(q, AllVecs(rest), false);
            ChainOk(q, Chain(WithEnds(rest, g), |g|))
  {
    hide Counted;
    CutChainOk(c.bios, bytes);
    var rest := CutChain(c.bios, bytes);
    var g := Greedy(q, AllVecs(rest), false);
    RecountCounts(q, rest);
    assert Counted(q, WithEnds(rest, g), |g|) by {
      Evidence(q, WithEnds(rest, g), |g|, g);
    }
    KindKept(rest, WithEnds(rest, g));
  }

  lemma Evidence(q: Limits, bios: seq<Bio>, nr: nat, w: seq<Run>)
    requires Witness(q, bios, nr, w)
    ensures Counted(q, bios, nr)
  {
  }

  /** The chain and the count a history leads to. */
  ghost function Outcome(q: Limits, h: History): (c: Chain)
    requires Proper(q, h)
    ensures ChainOk(q, c)
  {
    hide ChainOk;
    match h
    case Fresh(b) => FreshChain(q, b)
    case Back(r, b) => Concat(q, Outcome(q, r), FreshChain(q, b))
    case InFront(r, b) => Concat(q, FreshChain(q, b), Outcome(q, r))
    case Merged(r, n) => Merge(q, Outcome(q, r), Outcome(q, n))
    case DeclinedFirst(r, n) => Decline(q, Outcome(q, r), Outcome(q, n)).0
    case DeclinedSecond(r, n) => Decline(q, Outcome(q, r), Outcome(q, n)).1
    case EndsRecounted(r, front, back) => Grow(q, Outcome(q, r), front, back)
    case Recounted(r) => Recounting(q, Outcome(q, r))
    case Advanced(r, bytes) => Advancing(q, Outcome(q, r), bytes)
  }

  function Grown(bios: seq<Bio>, front: nat, back: nat): seq<Bio>
    requires bios != []
  {
    var n := |bios| - 1;
    var b := bios[0 := bios[0].(frontSize := Max(bios[0].frontSize, front))];
    b[n := b[n].(backSize := Max(b[n].backSize, back))]
  }

  lemma CountOne(q: Limits, b: Bio)
    requires BioOk(q, b)
    ensures var c := WithCount(q, b);
            c.vecs == b.vecs && c.physSegments > 0 && Counted(q, [c], c.physSegments)
  {
    RecountOne(q, b);
    var c := WithCount(q, b);
    assert Witness(q, [c], c.physSegments, Greedy(q, b.vecs, false));
  }

  lemma CountedConcat(q: Limits, a: seq<Bio>, m: nat, b: seq<Bio>, n: nat)
    requires Counted(q, a, m) && Counted(q, b, n)
    ensures Counted(q, a + b, m + n)
  {
    hide Witness;
    var w :| Witness(q, a, m, w);
    var x :| Witness(q, b, n, x);
    WitnessConcat(q, a, m, w, b, n, x);
  }

  lemma CountedAnew(q: Limits, c: Chain)
    requires ChainOk(q, c)
    ensures var g := Greedy(q, AllVecs(c.bios), false);
            Counted(q, WithEnds(c.bios, g), |g|) && AllData(WithEnds(c.bios, g)) && g != []
  {
    RecountCounts(q, c.bios);
  }

  lemma CountedMerge(q: Limits, c: Chain, d: Chain)
    requires ChainOk(q, c) && ChainOk(q, d) && Contiguous(q, Last(c.bios), d.bios[0])
    ensures ChainOk(q, Touched(c, d))
  {
    hide Counted, Contiguous, AllData, Touching;
    TouchedPair(q, c.bios, c.nr, d.bios, d.nr);
  }

  lemma CountedTouch(q: Limits, c: Chain, d: Chain)
    requires ChainOk(q, c) && ChainOk(q, d)
    ensures var (x, y) := Touching(c.bios, c.nr, d.bios, d.nr);
            Counted(q, x, c.nr) && Counted(q, y, d.nr) && AllData(x) && AllData(y)
  {
    hide Witness;
    var w :| Witness(q, c.bios, c.nr, w);
    var v :| Witness(q, d.bios, d.nr, v);
    TouchingCounts(q, c.bios, c.nr, w, d.bios, d.nr, v);
  }

  lemma CountedGrow(q: Limits, c: Chain, front: nat, back: nat)
    requires ChainOk(q, c)
    ensures Counted(q, Grown(c.bios, front, back), c.nr) && AllData(Grown(c.bios, front, back))
  {
    hide Witness;
    var w :| Witness(q, c.bios, c.nr, w);
    WitnessGrows(q, c.bios, Grown(c.bios, front, back), c.nr, w);
  }

  /**
  For every data request, however it was built, blk_rq_map_sg needs at most nr_phys_segments entries,
  and their lengths add up to the request.
  */
  lemma MapFitsCount(q: Limits, h: History)
    requires Proper(q, h)
    ensures var c := Outcome(q, h);
            && |Greedy(q, AllVecs(c.bios), true)| <= c.nr
            && Total(Greedy(q, AllVecs(c.bios), true)) == Size(AllVecs(c.bios))
  {
    var c := Outcome(q, h);
    var w :| Witness(q, c.bios, c.nr, w);
    MapFits(q, AllVecs(c.bios), w);
    GreedyValid(q, AllVecs(c.bios), true);
    SizeFlatten(Greedy(q, AllVecs(c.bios), true));
  }
}
