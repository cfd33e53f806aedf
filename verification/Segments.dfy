/**
Counting physical segments and mapping them, block/blk-merge.c.

A request is a chain of bios, each a list of memory vectors.  Vectors that are adjacent in memory
may share a segment as long as the segment stays within the queue's limits.  The block layer keeps
an incremental count of segments (`nr_phys_segments`), updated by merges from cached sizes at the
ends of each bio; when the request is issued, blk_rq_map_sg makes its own greedy pass over all
vectors.  The driver sizes its scatterlist by the count, so the map must never need more.

A split cuts the vectors into runs that could each be one segment.  The count always belongs to
some valid split (the witness), and the map's split is the smallest valid split there is.
*/
module Segments {

  /** bio_vec; `high` tells whether the page lies above the queue's bounce limit. */
  datatype Vec = Vec(phys: int, len: nat, high: bool)

  /**
  The queue limits that matter here; `mergeable` and `boundary` stand for BIOVEC_PHYS_MERGEABLE and
  BIOVEC_SEG_BOUNDARY, which architectures may redefine.
  */
  datatype Limits = Limits(
    cluster: bool,
    maxSegmentSize: nat,
    maxSegments: nat,
    maxSectors: nat,
    mergeable: (Vec, Vec) -> bool,
    boundary: (Vec, Vec) -> bool)

  type Run = seq<Vec>

  function Size(r: seq<Vec>): nat {
    if r == [] then 0 else Size(r[..|r| - 1]) + r[|r| - 1].len
  }

  function Flatten(split: seq<Run>): seq<Vec> {
    if split == [] then [] else Flatten(split[..|split| - 1]) + split[|split| - 1]
  }

  function Last<T>(s: seq<T>): T
    requires s != []
  {
    s[|s| - 1]
  }

  function Front<T>(s: seq<T>): seq<T>
    requires s != []
  {
    s[..|s| - 1]
  }

  predicate Joins(q: Limits, a: Vec, b: Vec) {
    q.mergeable(a, b) && q.boundary(a, b)
  }

  /** A run that may be one hardware segment. */
  ghost predicate ValidRun(q: Limits, r: Run) {
    && r != []
    && (|r| > 1 ==> q.cluster && Size(r) <= q.maxSegmentSize)
    && (forall i :: 0 <= i < |r| - 1 ==> Joins(q, r[i], r[i + 1]))
  }

  ghost predicate ValidSplit(q: Limits, vecs: seq<Vec>, split: seq<Run>) {
    Flatten(split) == vecs && forall r <- split :: ValidRun(q, r)
  }

  /** The test blk_rq_map_sg makes before it lengthens the current entry. */
  predicate MapExtends(q: Limits, r: Run, v: Vec)
    requires r != []
  {
    q.cluster && Size(r) + v.len <= q.maxSegmentSize && Joins(q, Last(r), v)
  }

  /** The test __blk_recalc_rq_segments makes: pages above the bounce limit never share a segment. */
  predicate CountExtends(q: Limits, r: Run, v: Vec)
    requires r != []
  {
    !v.high && !Last(r).high && MapExtends(q, r, v)
  }

  predicate Extends(q: Limits, split: seq<Run>, v: Vec, map_: bool) {
    split != [] && Last(split) != [] &&
    if map_ then MapExtends(q, Last(split), v) else CountExtends(q, Last(split), v)
  }

  /** One more vector: lengthen the current segment or start a new one. */
  function Next(q: Limits, split: seq<Run>, v: Vec, map_: bool): seq<Run> {
    if Extends(q, split, v, map_) then Front(split) + [Last(split) + [v]] else split + [[v]]
  }

  /** The greedy splits of the two passes. */
  function Greedy(q: Limits, vecs: seq<Vec>, map_: bool): seq<Run> {
    if vecs == [] then [] else Next(q, Greedy(q, Front(vecs), map_), Last(vecs), map_)
  }

  // ---------- facts about splits ----------

  lemma {:induction false} SizeConcat(a: seq<Vec>, b: seq<Vec>)
    ensures Size(a + b) == Size(a) + Size(b)
  {
    if b == [] {
      assert a + b == a;
    } else {
      assert Front(a + b) == a + Front(b);
      SizeConcat(a, Front(b));
    }
  }

  lemma {:induction false} FlattenConcat(a: seq<Run>, b: seq<Run>)
    ensures Flatten(a + b) == Flatten(a) + Flatten(b)
  {
    if b == [] {
      assert a + b == a;
    } else {
      assert Front(a + b) == a + Front(b) && Last(a + b) == Last(b);
      FlattenConcat(a, Front(b));
      Regroup(Flatten(a), Flatten(Front(b)), Last(b));
    }
  }

  lemma Regroup<T>(x: seq<T>, y: seq<T>, z: seq<T>)
    ensures x + y + z == x + (y + z)
  {
  }

  lemma FlattenOne(r: Run)
    ensures Flatten([r]) == r
  {
    assert Front([r]) == [];
  }

  lemma ConcatValid(q: Limits, a: seq<Vec>, s: seq<Run>, b: seq<Vec>, t: seq<Run>)
    requires ValidSplit(q, a, s) && ValidSplit(q, b, t)
    ensures ValidSplit(q, a + b, s + t)
  {
    FlattenConcat(s, t);
  }

  lemma ExtendValid(q: Limits, r: Run, v: Vec)
    requires ValidRun(q, r) && MapExtends(q, r, v)
    ensures ValidRun(q, r + [v])
  {
    SizeSnoc(r, v);
  }

  lemma SplitLast(q: Limits, vecs: seq<Vec>, split: seq<Run>)
    requires ValidSplit(q, vecs, split) && split != []
    ensures ValidSplit(q, Flatten(Front(split)), Front(split)) && ValidRun(q, Last(split))
    ensures vecs == Flatten(Front(split)) + Last(split)
  {
  }

  lemma AppendRun(q: Limits, vecs: seq<Vec>, split: seq<Run>, r: Run)
    requires ValidSplit(q, vecs, split) && ValidRun(q, r)
    ensures ValidSplit(q, vecs + r, split + [r])
  {
    FlattenConcat(split, [r]);
    FlattenOne(r);
  }

  lemma NextValid(q: Limits, vecs: seq<Vec>, split: seq<Run>, v: Vec, map_: bool)
    requires ValidSplit(q, vecs, split)
    ensures ValidSplit(q, vecs + [v], Next(q, split, v, map_))
  {
    hide ValidSplit, ValidRun, Flatten;
    if Extends(q, split, v, map_) {
      SplitLast(q, vecs, split);
      ExtendValid(q, Last(split), v);
      AppendRun(q, Flatten(Front(split)), Front(split), Last(split) + [v]);
      assert Flatten(Front(split)) + Last(split) + [v] == Flatten(Front(split)) + (Last(split) + [v]);
    } else {
      SingleValid(q, v);
      AppendRun(q, vecs, split, [v]);
    }
  }

  lemma SingleValid(q: Limits, v: Vec)
    ensures ValidRun(q, [v])
  {
  }

  /** Both greedy passes cut validly, so every vector is in exactly one segment. */
  lemma {:induction false} GreedyValid(q: Limits, vecs: seq<Vec>, map_: bool)
    ensures ValidSplit(q, vecs, Greedy(q, vecs, map_))
  {
    if vecs != [] {
      GreedyValid(q, Front(vecs), map_);
      NextValid(q, Front(vecs), Greedy(q, Front(vecs), map_), Last(vecs), map_);
      assert vecs == Front(vecs) + [Last(vecs)];
    }
  }

  /** Taking the last vector off a split. */
  function Chop(split: seq<Run>): seq<Run>
    requires split != [] && Last(split) != []
  {
    if |Last(split)| == 1 then Front(split) else Front(split) + [Front(Last(split))]
  }

  lemma ChopValid(q: Limits, vecs: seq<Vec>, split: seq<Run>)
    requires ValidSplit(q, vecs, split) && vecs != []
    ensures split != [] && Last(split) != [] && Last(Last(split)) == Last(vecs)
    ensures ValidSplit(q, Front(vecs), Chop(split))
  {
    hide ValidRun, ValidSplit, Flatten;
    LastRun(q, vecs, split);
    var r := Last(split);
    if |r| == 1 {
      assert Front(vecs) == Flatten(Front(split));
    } else {
      FrontRun(q, r);
      AppendRun(q, Flatten(Front(split)), Front(split), Front(r));
      assert Front(vecs) == Flatten(Front(split)) + Front(r);
    }
  }

  lemma LastRun(q: Limits, vecs: seq<Vec>, split: seq<Run>)
    requires ValidSplit(q, vecs, split) && vecs != []
    ensures split != [] && Last(split) != [] && ValidRun(q, Last(split))
    ensures vecs == Flatten(Front(split)) + Last(split) && Last(Last(split)) == Last(vecs)
    ensures ValidSplit(q, Flatten(Front(split)), Front(split))
  {
    SplitLast(q, vecs, split);
  }

  lemma FrontRun(q: Limits, r: Run)
    requires ValidRun(q, r) && |r| > 1
    ensures ValidRun(q, Front(r))
  {
    assert r == Front(r) + [Last(r)];
    SizeConcat(Front(r), [Last(r)]);
  }

  /**
  The map's greedy split is minimal: no valid split of the same vectors has fewer runs, and one with
  as many runs leaves at least as much in its last run.
  */
  lemma {:induction false} GreedyMinimal(q: Limits, vecs: seq<Vec>, split: seq<Run>)
    requires ValidSplit(q, vecs, split)
    ensures var g := Greedy(q, vecs, true);
            && |g| <= |split|
            && (g != [] && |g| == |split| ==> Size(Last(g)) <= Size(Last(split)))
  {
    if vecs != [] {
      ChopValid(q, vecs, split);
      var v := Last(vecs);
      var s := Chop(split);
      GreedyMinimal(q, Front(vecs), s);
      GreedyStep(q, vecs, split);
    }
  }

  lemma GreedyStep(q: Limits, vecs: seq<Vec>, split: seq<Run>)
    requires vecs != [] && ValidSplit(q, vecs, split)
    requires split != [] && Last(split) != [] && Last(Last(split)) == Last(vecs)
    requires var g := Greedy(q, Front(vecs), true);
             && |g| <= |Chop(split)|
             && (g != [] && |g| == |Chop(split)| ==> Size(Last(g)) <= Size(Last(Chop(split))))
    ensures var g := Greedy(q, vecs, true);
            |g| <= |split| && (|g| == |split| ==> Size(Last(g)) <= Size(Last(split)))
  {
    var v := Last(vecs);
    var g := Greedy(q, Front(vecs), true);
    var r := Last(split);
    if |r| > 1 && |g| == |Chop(split)| {
      GreedyExtends(q, vecs, split, g);
    }
    NextSize(q, g, v);
    RunSize(r);
    hide Greedy, Size, ValidSplit, MapExtends;
    assert Greedy(q, vecs, true) == Next(q, g, v, true) by { GreedyNext(q, vecs); }
  }

  lemma GreedyNext(q: Limits, vecs: seq<Vec>)
    requires vecs != []
    ensures Greedy(q, vecs, true) == Next(q, Greedy(q, Front(vecs), true), Last(vecs), true)
  {
  }

  lemma RunSize(r: Run)
    requires r != []
    ensures Size(r) == Size(Front(r)) + Last(r).len
  {
  }

  lemma NextSize(q: Limits, g: seq<Run>, v: Vec)
    ensures var n := Next(q, g, v, true);
            && n != []
            && if Extends(q, g, v, true) then |n| == |g| && Size(Last(n)) == Size(Last(g)) + v.len
               else |n| == |g| + 1 && Size(Last(n)) == v.len
  {
    SizeSnoc([], v);
    assert [] + [v] == [v];
    if Extends(q, g, v, true) {
      SizeSnoc(Last(g), v);
    }
  }

  /** Where the split has the last vector in a longer run, the greedy one has room for it too. */
  lemma GreedyExtends(q: Limits, vecs: seq<Vec>, split: seq<Run>, g: seq<Run>)
    requires vecs != [] && ValidSplit(q, vecs, split) && split != [] && |Last(split)| > 1
    requires g == Greedy(q, Front(vecs), true) && |g| == |split|
    requires g != [] ==> Size(Last(g)) <= Size(Front(Last(split)))
    ensures g != [] && Last(g) != [] && MapExtends(q, Last(g), Last(vecs))
  {
    hide ValidRun, ValidSplit, Flatten, Greedy, Size;
    var r := Last(split);
    LastRun(q, vecs, split);
    GreedyValid(q, Front(vecs), true);
    LastRun(q, Front(vecs), g);
    RunEnd(q, r);
    assert r == Front(r) + [Last(r)];
    SizeSnoc(Front(r), Last(r));
    assert Last(Last(g)) == Last(Front(vecs)) == r[|r| - 2];
  }

  lemma SizeSnoc(r: seq<Vec>, v: Vec)
    ensures Size(r + [v]) == Size(r) + v.len
  {
    assert Front(r + [v]) == r;
  }

  lemma RunEnd(q: Limits, r: Run)
    requires ValidRun(q, r) && |r| > 1
    ensures q.cluster && Size(r) <= q.maxSegmentSize && Joins(q, r[|r| - 2], Last(r))
  {
    assert Joins(q, r[|r| - 2], r[|r| - 2 + 1]);
  }

  /** The scatterlist never needs more entries than any valid count of segments. */
  lemma MapFits(q: Limits, vecs: seq<Vec>, split: seq<Run>)
    requires ValidSplit(q, vecs, split)
    ensures |Greedy(q, vecs, true)| <= |split|
  {
    GreedyMinimal(q, vecs, split);
  }

  lemma {:induction false} SizeFlatten(split: seq<Run>)
    ensures Size(Flatten(split)) == Total(split)
  {
    if split != [] {
      SizeFlatten(Front(split));
      SizeConcat(Flatten(Front(split)), Last(split));
    }
  }

  function Total(split: seq<Run>): nat {
    if split == [] then 0 else Total(Front(split)) + Size(Last(split))
  }
}
