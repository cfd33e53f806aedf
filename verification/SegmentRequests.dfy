/**
Requests and their segment counts through merges and recounts, block/blk-merge.c.
*/
module SegmentRequests {
  import opened Segments

  /** The parts of struct bio that segment accounting reads and writes. */
  datatype Bio = Bio(vecs: seq<Vec>, frontSize: nat, backSize: nat, physSegments: nat, segValid: bool)

  function AllVecs(bios: seq<Bio>): seq<Vec> {
    if bios == [] then [] else AllVecs(Front(bios)) + Last(bios).vecs
  }

  lemma {:induction false} AllVecsConcat(a: seq<Bio>, b: seq<Bio>)
    ensures AllVecs(a + b) == AllVecs(a) + AllVecs(b)
  {
    if b == [] {
      assert a + b == a;
    } else {
      var f := Front(b);
      assert Front(a + b) == a + f && Last(a + b) == Last(b);
      AllVecsConcat(a, f);
      Regroup(AllVecs(a), AllVecs(f), Last(b).vecs);
    }
  }

  lemma AllVecsOne(b: Bio)
    ensures AllVecs([b]) == b.vecs
  {
    assert Front([b]) == [];
    assert AllVecs([b]) == [] + b.vecs;
  }

  /** Bios that differ in bookkeeping only. */
  ghost predicate SameVecs(a: seq<Bio>, b: seq<Bio>) {
    |a| == |b| && forall i :: 0 <= i < |a| ==> a[i].vecs == b[i].vecs
  }

  lemma {:induction false} SameVecsAll(a: seq<Bio>, b: seq<Bio>)
    requires SameVecs(a, b)
    ensures AllVecs(a) == AllVecs(b)
  {
    if a != [] {
      SameVecsAll(Front(a), Front(b));
    }
  }

  function Max(x: nat, y: nat): nat {
    if y > x then y else x
  }

  /** The cached end sizes after a pass over the chain that produced the split g. */
  function WithEnds(bios: seq<Bio>, g: seq<Run>): seq<Bio>
    requires bios != []
  {
    if g == [] then bios
    else
      var n := |bios| - 1;
      var front := bios[0 := bios[0].(frontSize := Max(bios[0].frontSize, Size(g[0])))];
      front[n := front[n].(backSize := Max(front[n].backSize, Size(Last(g))))]
  }

  /** __blk_recalc_rq_segments: the loop over all vectors of all bios. */
  method RecalcSegments(q: Limits, bios0: seq<Bio>) returns (bios: seq<Bio>, nr: nat)
    ensures nr == |Greedy(q, AllVecs(bios0), false)|
    ensures bios0 == [] ==> bios == []
    ensures bios0 != [] ==> bios == WithEnds(bios0, Greedy(q, AllVecs(bios0), false))
  {
    hide Pass, Greedy, WithEnds;
    bios, nr := bios0, 0;
    if bios0 == [] {
      NothingPassed(q, 0);
      return;
    }
    var segSize: nat, front := 0, bios0[0].frontSize;
    var prev := Vec(0, 0, false);
    var highPrev := true;
    ghost var done: seq<Vec> := [];
    NothingPassed(q, front);
    for i := 0 to |bios0|
      invariant done == AllVecs(bios0[..i])
      invariant Pass(q, done, nr, segSize, bios0[0].frontSize, front, prev, highPrev)
    {
      var vecs := bios0[i].vecs;
      ghost var base := done;
      for j := 0 to |vecs|
        invariant done == base + vecs[..j]
        invariant Pass(q, done, nr, segSize, bios0[0].frontSize, front, prev, highPrev)
      {
        var v := vecs[j];
        PassStep(q, done, nr, segSize, bios0[0].frontSize, front, prev, highPrev, v);
        if StartsNew(q, segSize, prev, highPrev, v) {
          if nr == 1 && segSize > front {
            front := segSize;
          }
          nr := nr + 1;
          segSize := v.len;
        } else {
          segSize := segSize + v.len;
        }
        prev := v;
        highPrev := v.high;
        done := done + [v];
        assert vecs[..j + 1] == vecs[..j] + [v];
      }
      assert bios0[..i + 1] == bios0[..i] + [bios0[i]];
      assert vecs[..|vecs|] == vecs;
      assert Front(bios0[..i + 1]) == bios0[..i];
    }
    assert bios0[..|bios0|] == bios0;
    PassOver(q, bios0, nr, segSize, front, prev, highPrev);
    if nr == 1 && segSize > front {
      front := segSize;
    }
    bios := bios[0 := bios[0].(frontSize := front)];
    var n := |bios| - 1;
    if segSize > bios[n].backSize {
      bios := bios[n := bios[n].(backSize := segSize)];
    }
  }

  /** What the variables of the pass stand for after the vectors `done`. */
  ghost predicate Pass(q: Limits, done: seq<Vec>, nr: nat, segSize: nat, front0: nat, front: nat,
                       prev: Vec, highPrev: bool)
  {
    Scan(Greedy(q, done, false), nr, segSize, front0, front, prev, highPrev)
  }

  /** ... in terms of the split g made so far. */
  ghost predicate Scan(g: seq<Run>, nr: nat, segSize: nat, front0: nat, front: nat, prev: Vec, highPrev: bool) {
    && nr == |g|
    && segSize == (if g == [] then 0 else Size(Last(g)))
    && front == (if |g| >= 2 then Max(front0, Size(g[0])) else front0)
    && (g == [] ==> highPrev)
    && (g != [] ==> Last(g) != [] && Last(Last(g)) == prev && highPrev == prev.high)
  }

  predicate StartsNew(q: Limits, segSize: nat, prev: Vec, highPrev: bool, v: Vec) {
    v.high || highPrev || !q.cluster || segSize + v.len > q.maxSegmentSize || !Joins(q, prev, v)
  }

  lemma NothingPassed(q: Limits, front: nat)
    ensures Greedy(q, [], false) == []
    ensures Pass(q, [], 0, 0, front, front, Vec(0, 0, false), true)
    ensures AllVecs([]) == []
  {
  }

  lemma PassStep(q: Limits, done: seq<Vec>, nr: nat, segSize: nat, front0: nat, front: nat, prev: Vec,
                 highPrev: bool, v: Vec)
    requires Pass(q, done, nr, segSize, front0, front, prev, highPrev)
    ensures var new_ := StartsNew(q, segSize, prev, highPrev, v);
            Pass(q, done + [v], if new_ then nr + 1 else nr, if new_ then v.len else segSize + v.len, front0,
                 if new_ && nr == 1 then Max(front, segSize) else front, v, v.high)
  {
    assert Front(done + [v]) == done && Last(done + [v]) == v;
    var g := Greedy(q, done, false);
    if StartsNew(q, segSize, prev, highPrev, v) {
      ScanNew(q, g, nr, segSize, front0, front, prev, highPrev, v);
    } else {
      ScanMore(q, g, nr, segSize, front0, front, prev, highPrev, v);
    }
  }

  lemma ScanNew(q: Limits, g: seq<Run>, nr: nat, segSize: nat, front0: nat, front: nat, prev: Vec, highPrev: bool, v: Vec)
    requires Scan(g, nr, segSize, front0, front, prev, highPrev) && StartsNew(q, segSize, prev, highPrev, v)
    ensures Scan(Next(q, g, v, false), nr + 1, v.len, front0, if nr == 1 then Max(front, segSize) else front, v, v.high)
  {
    assert !Extends(q, g, v, false);
    var h := g + [[v]];
    assert Last(h) == [v] && Last(Last(h)) == v;
    SizeSnoc([], v);
    assert [] + [v] == [v];
  }

  lemma ScanMore(q: Limits, g: seq<Run>, nr: nat, segSize: nat, front0: nat, front: nat, prev: Vec, highPrev: bool, v: Vec)
    requires Scan(g, nr, segSize, front0, front, prev, highPrev) && !StartsNew(q, segSize, prev, highPrev, v)
    ensures Scan(Next(q, g, v, false), nr, segSize + v.len, front0, front, v, v.high)
  {
    assert Extends(q, g, v, false);
    var h := Front(g) + [Last(g) + [v]];
    assert Last(h) == Last(g) + [v] && Last(Last(h)) == v;
    assert |g| >= 2 ==> h[0] == g[0];
    SizeSnoc(Last(g), v);
  }

  lemma PassOver(q: Limits, bios: seq<Bio>, nr: nat, segSize: nat, front: nat, prev: Vec, highPrev: bool)
    requires bios != [] && Pass(q, AllVecs(bios), nr, segSize, bios[0].frontSize, front, prev, highPrev)
    ensures nr == |Greedy(q, AllVecs(bios), false)|
    ensures var f := if nr == 1 then Max(front, segSize) else front;
            var n := |bios| - 1;
            var b := bios[0 := bios[0].(frontSize := f)];
            WithEnds(bios, Greedy(q, AllVecs(bios), false)) == b[n := b[n].(backSize := Max(b[n].backSize, segSize))]
  {
    var g := Greedy(q, AllVecs(bios), false);
    if |g| == 1 {
      assert g[0] == Last(g);
    }
  }

  // ---------- what a count stands for ----------

  /** w is a valid split of the chain with nr runs, and the cached end sizes bound its end runs. */
  ghost predicate Witness(q: Limits, bios: seq<Bio>, nr: nat, w: seq<Run>) {
    && bios != [] && w != [] && |w| == nr
    && ValidSplit(q, AllVecs(bios), w)
    && Size(w[0]) <= bios[0].frontSize && Size(Last(w)) <= Last(bios).backSize
  }

  ghost predicate Counted(q: Limits, bios: seq<Bio>, nr: nat) {
    exists w :: Witness(q, bios, nr, w)
  }

  ghost predicate AllData(bios: seq<Bio>) {
    forall b <- bios :: b.vecs != []
  }

  /** A bio with data whose cached count, if marked valid, is right. */
  ghost predicate BioOk(q: Limits, b: Bio) {
    && b.vecs != []
    && (b.segValid ==> Witness(q, [b], b.physSegments, Greedy(q, b.vecs, false)))
  }

  lemma {:induction false} AllVecsNonEmpty(bios: seq<Bio>)
    requires bios != [] && AllData(bios)
    ensures AllVecs(bios) != []
  {
  }

  lemma GreedyNonEmpty(q: Limits, vecs: seq<Vec>, map_: bool)
    requires vecs != []
    ensures Greedy(q, vecs, map_) != []
  {
  }

  /** A full recount of a chain is its own witness. */
  lemma RecountCounts(q: Limits, bios: seq<Bio>)
    requires bios != [] && AllData(bios)
    ensures var g := Greedy(q, AllVecs(bios), false);
            Witness(q, WithEnds(bios, g), |g|, g) && SameVecs(bios, WithEnds(bios, g))
  {
    hide Greedy, AllVecs, ValidSplit, Size, WithEnds;
    var g := Greedy(q, AllVecs(bios), false);
    AllVecsNonEmpty(bios);
    GreedyNonEmpty(q, AllVecs(bios), false);
    GreedyValid(q, AllVecs(bios), false);
    EndsOk(bios, g);
    SameVecsAll(bios, WithEnds(bios, g));
  }

  lemma EndsOk(bios: seq<Bio>, g: seq<Run>)
    requires bios != [] && g != []
    ensures var e := WithEnds(bios, g);
            && SameVecs(bios, e) && Size(g[0]) <= e[0].frontSize && Size(Last(g)) <= Last(e).backSize
            && bios[0].frontSize <= e[0].frontSize && Last(bios).backSize <= Last(e).backSize
  {
    hide Size;
  }

  /** Growing the cached end sizes loses nothing. */
  lemma WitnessGrows(q: Limits, a: seq<Bio>, b: seq<Bio>, nr: nat, w: seq<Run>)
    requires Witness(q, a, nr, w) && SameVecs(a, b)
    requires a[0].frontSize <= b[0].frontSize && Last(a).backSize <= Last(b).backSize
    ensures Witness(q, b, nr, w)
  {
    SameVecsAll(a, b);
  }

  lemma WitnessConcat(q: Limits, a: seq<Bio>, m: nat, w: seq<Run>, b: seq<Bio>, n: nat, x: seq<Run>)
    requires Witness(q, a, m, w) && Witness(q, b, n, x)
    ensures Witness(q, a + b, m + n, w + x)
  {
    AllVecsConcat(a, b);
    ConcatValid(q, AllVecs(a), w, AllVecs(b), x);
    assert Last(a + b) == Last(b) && Last(w + x) == Last(x);
  }

  // ---------- after a partial completion ----------

  /** What is left of vectors when n bytes from their start are done. */
  function CutVecs(vecs: seq<Vec>, n: nat): seq<Vec> {
    if vecs == [] then []
    else if n >= vecs[0].len then CutVecs(vecs[1..], n - vecs[0].len)
    else [vecs[0].(phys := vecs[0].phys + n, len := vecs[0].len - n)] + vecs[1..]
  }

  /** What is left of a chain; the cached end sizes of the bios stay as they are. */
  function CutChain(bios: seq<Bio>, n: nat): seq<Bio> {
    if bios == [] then []
    else if n >= Size(bios[0].vecs) then CutChain(bios[1..], n - Size(bios[0].vecs))
    else [bios[0].(vecs := CutVecs(bios[0].vecs, n))] + bios[1..]
  }

  lemma SizeHead(vecs: seq<Vec>)
    requires vecs != []
    ensures Size(vecs) == vecs[0].len + Size(vecs[1..])
  {
    assert vecs == [vecs[0]] + vecs[1..];
    SizeConcat([vecs[0]], vecs[1..]);
    SizeSnoc([], vecs[0]);
    assert [] + [vecs[0]] == [vecs[0]];
  }

  lemma {:induction false} CutVecsSize(vecs: seq<Vec>, n: nat)
    requires n < Size(vecs)
    ensures CutVecs(vecs, n) != [] && Size(CutVecs(vecs, n)) == Size(vecs) - n
  {
    hide Size;
    SizeEmpty();
    SizeHead(vecs);
    if n >= vecs[0].len {
      CutVecsSize(vecs[1..], n - vecs[0].len);
    } else {
      var v := vecs[0].(phys := vecs[0].phys + n, len := vecs[0].len - n);
      assert ([v] + vecs[1..])[1..] == vecs[1..];
      SizeHead([v] + vecs[1..]);
    }
  }

  lemma SizeEmpty()
    ensures Size([]) == 0
  {
  }

  lemma ChainHead(bios: seq<Bio>)
    requires bios != []
    ensures AllVecs(bios) == bios[0].vecs + AllVecs(bios[1..])
    ensures Size(AllVecs(bios)) == Size(bios[0].vecs) + Size(AllVecs(bios[1..]))
  {
    assert bios == [bios[0]] + bios[1..];
    AllVecsConcat([bios[0]], bios[1..]);
    AllVecsOne(bios[0]);
    SizeConcat(bios[0].vecs, AllVecs(bios[1..]));
  }

  /** A chain with bytes left is again a chain with data, shorter by what is done. */
  lemma {:induction false} CutChainOk(bios: seq<Bio>, n: nat)
    requires AllData(bios) && n < Size(AllVecs(bios))
    ensures CutChain(bios, n) != [] && AllData(CutChain(bios, n))
    ensures Size(AllVecs(CutChain(bios, n))) == Size(AllVecs(bios)) - n
  {
    hide Size, AllVecs;
    NoBytes();
    ChainHead(bios);
    if n >= Size(bios[0].vecs) {
      CutChainOk(bios[1..], n - Size(bios[0].vecs));
    } else {
      CutVecsSize(bios[0].vecs, n);
      var c := CutChain(bios, n);
      assert c[1..] == bios[1..];
      ChainHead(c);
    }
  }

  lemma NoBytes()
    ensures Size(AllVecs([])) == 0
  {
  }

  // ---------- joining two chains ----------

  /** blk_phys_contig_segment; a bio without data touches anything. */
  predicate Contiguous(q: Limits, a: Bio, b: Bio) {
    && q.cluster
    && a.backSize + b.frontSize <= q.maxSegmentSize
    && (a.vecs == [] || (b.vecs != [] && Joins(q, Last(a.vecs), b.vecs[0])))
  }

  function Joined(w: seq<Run>, x: seq<Run>): seq<Run>
    requires w != [] && x != []
  {
    Front(w) + [Last(w) + x[0]] + x[1..]
  }

  lemma JoinedRun(q: Limits, r: Run, t: Run)
    requires ValidRun(q, r) && ValidRun(q, t) && q.cluster && Size(r) + Size(t) <= q.maxSegmentSize
    requires Joins(q, Last(r), t[0])
    ensures ValidRun(q, r + t) && Size(r + t) == Size(r) + Size(t)
  {
    SizeConcat(r, t);
    forall i | 0 <= i < |r + t| - 1 ensures Joins(q, (r + t)[i], (r + t)[i + 1]) {
      if i < |r| - 1 {
        assert Joins(q, r[i], r[i + 1]);
      } else if i >= |r| {
        assert Joins(q, t[i - |r|], t[i - |r| + 1]);
      }
    }
  }

  lemma HeadTail(q: Limits, vecs: seq<Vec>, x: seq<Run>)
    requires ValidSplit(q, vecs, x) && x != []
    ensures ValidRun(q, x[0]) && x[0] != [] && vecs == x[0] + Flatten(x[1..]) && ValidSplit(q, Flatten(x[1..]), x[1..])
  {
    assert x == [x[0]] + x[1..];
    FlattenConcat([x[0]], x[1..]);
    FlattenOne(x[0]);
  }

  lemma JoinedValid(q: Limits, a: seq<Vec>, w: seq<Run>, b: seq<Vec>, x: seq<Run>)
    requires ValidSplit(q, a, w) && ValidSplit(q, b, x) && w != [] && x != []
    requires q.cluster && Size(Last(w)) + Size(x[0]) <= q.maxSegmentSize
    requires a != [] && b != [] && Joins(q, Last(a), b[0])
    ensures ValidSplit(q, a + b, Joined(w, x))
  {
    hide ValidSplit, ValidRun, Flatten;
    LastRun(q, a, w);
    HeadTail(q, b, x);
    JoinedRun(q, Last(w), x[0]);
    AppendRun(q, Flatten(Front(w)), Front(w), Last(w) + x[0]);
    ConcatValid(q, Flatten(Front(w)) + (Last(w) + x[0]), Front(w) + [Last(w) + x[0]], Flatten(x[1..]), x[1..]);
    assert a + b == Flatten(Front(w)) + (Last(w) + x[0]) + Flatten(x[1..]);
  }

  /** The end sizes ll_merge_requests_fn caches when the two requests touch. */
  function Touching(a: seq<Bio>, m: nat, b: seq<Bio>, n: nat): (seq<Bio>, seq<Bio>)
    requires a != [] && b != []
  {
    var segSize := Last(a).backSize + b[0].frontSize;
    (if m == 1 then a[0 := a[0].(frontSize := segSize)] else a,
     if n == 1 then b[|b| - 1 := b[|b| - 1].(backSize := segSize)] else b)
  }

  /** Touching keeps both counts meaningful, whether or not the merge goes ahead. */
  lemma TouchingCounts(q: Limits, a: seq<Bio>, m: nat, w: seq<Run>, b: seq<Bio>, n: nat, x: seq<Run>)
    requires Witness(q, a, m, w) && Witness(q, b, n, x)
    ensures var (c, d) := Touching(a, m, b, n);
            Witness(q, c, m, w) && Witness(q, d, n, x) && SameVecs(a, c) && SameVecs(b, d)
  {
    hide Touching, Witness;
    NotEmpty(q, a, m, w);
    NotEmpty(q, b, n, x);
    FrontTouched(q, a, m, w, b, n);
    BackTouched(q, a, m, b, n, x);
  }

  lemma NotEmpty(q: Limits, bios: seq<Bio>, nr: nat, w: seq<Run>)
    requires Witness(q, bios, nr, w)
    ensures bios != []
  {
  }

  lemma TouchedFront(a: seq<Bio>, m: nat, b: seq<Bio>, n: nat)
    requires a != [] && b != []
    ensures var c := Touching(a, m, b, n).0;
            && c != [] && SameVecs(a, c) && Last(c).backSize == Last(a).backSize
            && c[0].frontSize == if m == 1 then Last(a).backSize + b[0].frontSize else a[0].frontSize
  {
  }

  lemma TouchedBack(a: seq<Bio>, m: nat, b: seq<Bio>, n: nat)
    requires a != [] && b != []
    ensures var d := Touching(a, m, b, n).1;
            && d != [] && SameVecs(b, d) && d[0].frontSize == b[0].frontSize
            && Last(d).backSize == if n == 1 then Last(a).backSize + b[0].frontSize else Last(b).backSize
  {
  }

  lemma FrontTouched(q: Limits, a: seq<Bio>, m: nat, w: seq<Run>, b: seq<Bio>, n: nat)
    requires Witness(q, a, m, w) && b != []
    ensures var c := Touching(a, m, b, n).0; Witness(q, c, m, w) && SameVecs(a, c)
  {
    hide ValidSplit, Touching, SameVecs, AllVecs, Size;
    TouchedFront(a, m, b, n);
    SameVecsAll(a, Touching(a, m, b, n).0);
  }

  lemma BackTouched(q: Limits, a: seq<Bio>, m: nat, b: seq<Bio>, n: nat, x: seq<Run>)
    requires Witness(q, b, n, x) && a != []
    ensures var d := Touching(a, m, b, n).1; Witness(q, d, n, x) && SameVecs(b, d)
  {
    hide ValidSplit, Touching, SameVecs, AllVecs, Size;
    TouchedBack(a, m, b, n);
    SameVecsAll(b, Touching(a, m, b, n).1);
  }

  /** Two chains that touch, with the end sizes touched: separately, and as one. */
  lemma TouchedPair(q: Limits, a: seq<Bio>, m: nat, b: seq<Bio>, n: nat)
    requires a != [] && b != [] && AllData(a) && AllData(b) && Counted(q, a, m) && Counted(q, b, n)
    requires Contiguous(q, Last(a), b[0])
    ensures var (c, d) := Touching(a, m, b, n);
            && c != [] && d != [] && AllData(c) && AllData(d) && AllData(c + d)
            && AllVecs(c) == AllVecs(a) && AllVecs(d) == AllVecs(b)
            && Counted(q, c, m) && Counted(q, d, n) && m + n >= 1 && Counted(q, c + d, m + n - 1)
  {
    hide Contiguous, AllVecs;
    var w :| Witness(q, a, m, w);
    var x :| Witness(q, b, n, x);
    TouchingCounts(q, a, m, w, b, n, x);
    assert Last(a) in a;
    MergeCounts(q, a, m, w, b, n, x);
    var (c, d) := Touching(a, m, b, n);
    SameVecsAll(a, c);
    SameVecsAll(b, d);
  }

  lemma ApartPair(q: Limits, a: seq<Bio>, m: nat, b: seq<Bio>, n: nat)
    requires AllData(a) && AllData(b) && Counted(q, a, m) && Counted(q, b, n)
    ensures Counted(q, a + b, m + n) && AllData(a + b)
  {
    hide Witness;
    var w :| Witness(q, a, m, w);
    var x :| Witness(q, b, n, x);
    WitnessConcat(q, a, m, w, b, n, x);
  }

  lemma EndVecs(bios: seq<Bio>)
    requires bios != []
    ensures Last(bios).vecs != [] ==> AllVecs(bios) != [] && Last(AllVecs(bios)) == Last(Last(bios).vecs)
    ensures bios[0].vecs != [] ==> AllVecs(bios) != [] && AllVecs(bios)[0] == bios[0].vecs[0]
  {
    assert bios == [bios[0]] + bios[1..];
    AllVecsConcat([bios[0]], bios[1..]);
    AllVecsOne(bios[0]);
  }

  /** Two requests whose data touches merge into one segment fewer. */
  lemma MergeCounts(q: Limits, a: seq<Bio>, m: nat, w: seq<Run>, b: seq<Bio>, n: nat, x: seq<Run>)
    requires Witness(q, a, m, w) && Witness(q, b, n, x)
    requires Contiguous(q, Last(a), b[0]) && Last(a).vecs != []
    ensures var (c, d) := Touching(a, m, b, n);
            Witness(q, c + d, m + n - 1, Joined(w, x))
  {
    hide Touching, SameVecs, AllVecs, ValidSplit;
    var (c, d) := Touching(a, m, b, n);
    TouchedFront(a, m, b, n);
    TouchedBack(a, m, b, n);
    SameVecsAll(a, c);
    SameVecsAll(b, d);
    AllVecsConcat(c, d);
    EndVecs(a);
    EndVecs(b);
    JoinedValid(q, AllVecs(a), w, AllVecs(b), x);
    JoinedEnds(w, x);
    hide Size;
    assert (c + d)[0] == c[0] && Last(c + d) == Last(d);
  }

  lemma JoinedEnds(w: seq<Run>, x: seq<Run>)
    requires w != [] && x != []
    ensures var y := Joined(w, x);
            && |y| == |w| + |x| - 1
            && Size(y[0]) == (if |w| == 1 then Size(Last(w)) + Size(x[0]) else Size(w[0]))
            && Size(Last(y)) == (if |x| == 1 then Size(Last(w)) + Size(x[0]) else Size(Last(x)))
  {
    SizeConcat(Last(w), x[0]);
    var y := Joined(w, x);
    assert |w| > 1 ==> y[0] == w[0];
    assert |w| == 1 ==> y[0] == Last(w) + x[0];
    assert |x| > 1 ==> Last(y) == Last(x);
    assert |x| == 1 ==> Last(y) == Last(w) + x[0];
  }

  ghost predicate NoData(bios: seq<Bio>) {
    forall b <- bios :: b.vecs == []
  }

  /** A chain and its count: data throughout and counted, or no data at all and no segments (a discard). */
  ghost predicate Sound(q: Limits, bios: seq<Bio>, nr: nat) {
    bios != [] && if NoData(bios) then nr == 0 else AllData(bios) && Counted(q, bios, nr)
  }

  /** total_phys_segments of ll_merge_requests_fn. */
  function MergedCount(q: Limits, a: seq<Bio>, m: nat, b: seq<Bio>, n: nat): int
    requires a != [] && b != []
  {
    m + n - if Contiguous(q, Last(a), b[0]) then 1 else 0
  }

  /** nr_phys_segments has 16 bits. */
  function Stored(total: int): nat {
    total % 0x10000
  }

  lemma {:induction false} NoVecs(bios: seq<Bio>)
    requires NoData(bios)
    ensures AllVecs(bios) == []
  {
    if bios != [] {
      NoVecs(Front(bios));
    }
  }

  /** A sound count is enough for the map. */
  lemma SoundFits(q: Limits, bios: seq<Bio>, nr: nat)
    requires Sound(q, bios, nr)
    ensures |Greedy(q, AllVecs(bios), true)| <= nr
  {
    if NoData(bios) {
      NoVecs(bios);
    } else {
      var w :| Witness(q, bios, nr, w);
      MapFits(q, AllVecs(bios), w);
    }
  }

  /** The first request's last bio has no data, which blk_phys_contig_segment takes for contiguous. */
  predicate EmptyTail(q: Limits, a: seq<Bio>, b: seq<Bio>)
    requires a != [] && b != []
  {
    Contiguous(q, Last(a), b[0]) && Last(a).vecs == []
  }

  lemma EmptyTailFits(q: Limits, a: seq<Bio>, m: nat, b: seq<Bio>, n: nat)
    requires Sound(q, a, m) && b != [] && EmptyTail(q, a, b)
    ensures AllVecs(a) + AllVecs(b) == AllVecs(b) && m == 0
  {
    assert Last(a) in a;
    NoVecs(a);
  }

  lemma FullTailFits(q: Limits, a: seq<Bio>, m: nat, b: seq<Bio>, n: nat)
    requires Sound(q, a, m) && Sound(q, b, n) && !EmptyTail(q, a, b)
    ensures |Greedy(q, AllVecs(a) + AllVecs(b), true)| <= MergedCount(q, a, m, b, n)
  {
    hide Greedy, Contiguous, Witness, Touching;
    if NoData(a) {
      NoVecs(a);
      SoundFits(q, b, n);
      assert AllVecs(a) + AllVecs(b) == AllVecs(b);
      assert Last(a) in a;
    } else if NoData(b) {
      NoVecs(b);
      SoundFits(q, a, m);
      assert AllVecs(a) + AllVecs(b) == AllVecs(a);
      DataThenNone(q, Last(a), b);
      assert Last(a) in a;
    } else {
      var w :| Witness(q, a, m, w);
      var x :| Witness(q, b, n, x);
      WitnessSize(q, a, m, w);
      WitnessSize(q, b, n, x);
      DataFits(q, a, m, w, b, n, x);
    }
  }

  lemma WitnessSize(q: Limits, bios: seq<Bio>, nr: nat, w: seq<Run>)
    requires Witness(q, bios, nr, w)
    ensures w != [] && nr >= 1
  {
  }

  lemma DataThenNone(q: Limits, a: Bio, b: seq<Bio>)
    requires b != [] && NoData(b) && a.vecs != []
    ensures !Contiguous(q, a, b[0])
  {
    assert b[0] in b;
  }

  lemma WitnessFits(q: Limits, bios: seq<Bio>, nr: nat, w: seq<Run>)
    requires Witness(q, bios, nr, w)
    ensures |Greedy(q, AllVecs(bios), true)| <= nr
  {
    MapFits(q, AllVecs(bios), w);
  }

  lemma DataFits(q: Limits, a: seq<Bio>, m: nat, w: seq<Run>, b: seq<Bio>, n: nat, x: seq<Run>)
    requires a != [] && b != [] && w != [] && x != [] && m + n >= 1
    requires Witness(q, a, m, w) && Witness(q, b, n, x) && !EmptyTail(q, a, b)
    ensures |Greedy(q, AllVecs(a) + AllVecs(b), true)| <= MergedCount(q, a, m, b, n)
  {
    hide Greedy, Witness, AllVecs, Touching, SameVecs;
    if Contiguous(q, Last(a), b[0]) {
      var (c, d) := Touching(a, m, b, n);
      TouchingCounts(q, a, m, w, b, n, x);
      MergeCounts(q, a, m, w, b, n, x);
      SameVecsAll(a, c);
      SameVecsAll(b, d);
      AllVecsConcat(c, d);
      WitnessFits(q, c + d, m + n - 1, Joined(w, x));
    } else {
      WitnessConcat(q, a, m, w, b, n, x);
      AllVecsConcat(a, b);
      WitnessFits(q, a + b, m + n, w + x);
    }
  }

  /**
  When the merged count is enough for the map: unless the first request ends in a bio without data that
  passes for contiguous, and the second has no segment to spare.
  */
  lemma MergeFitsIff(q: Limits, a: seq<Bio>, m: nat, b: seq<Bio>, n: nat)
    requires Sound(q, a, m) && Sound(q, b, n)
    ensures var need := |Greedy(q, AllVecs(a) + AllVecs(b), true)|;
            need <= MergedCount(q, a, m, b, n) <==> !EmptyTail(q, a, b) || |Greedy(q, AllVecs(b), true)| < n
  {
    hide Greedy, Counted;
    if EmptyTail(q, a, b) {
      EmptyTailFits(q, a, m, b, n);
    } else {
      FullTailFits(q, a, m, b, n);
    }
  }

  /** A bio without data, and one with a single vector. */
  const HOLE := Bio([], 0, 0, 0, true)

  function Small(v: Vec): Bio {
    Bio([v], v.len, v.len, 1, true)
  }

  lemma SmallSound(q: Limits, v: Vec)
    ensures Sound(q, [HOLE], 0) && Sound(q, [Small(v)], 1)
    ensures AllVecs([Small(v)]) == [v] && |Greedy(q, [v], true)| == 1
  {
    AllVecsOne(Small(v));
    FlattenOne([v]);
    SizeSnoc([], v);
    assert [] + [v] == [v] && Front([v]) == [];
    assert Witness(q, [Small(v)], 1, [[v]]);
    assert Small(v) in [Small(v)];
  }

  /** Two requests without data: the merged count is -1, which is stored as 65535. */
  lemma DatalessMergeMiscounts(q: Limits)
    requires q.cluster
    ensures Sound(q, [HOLE], 0) && Touching([HOLE], 0, [HOLE], 0) == ([HOLE], [HOLE])
    ensures MergedCount(q, [HOLE], 0, [HOLE], 0) == -1 && Stored(-1) == 65535
  {
    SmallSound(q, Vec(0, 0, false));
  }

  /** A request without data before one with data: the count is 0 and the map needs an entry. */
  lemma DatalessFirstMiscounts(q: Limits, v: Vec)
    requires q.cluster && v.len <= q.maxSegmentSize
    ensures Sound(q, [HOLE], 0) && Sound(q, [Small(v)], 1)
    ensures var (c, d) := Touching([HOLE], 0, [Small(v)], 1);
            && MergedCount(q, [HOLE], 0, [Small(v)], 1) == 0
            && |Greedy(q, AllVecs(c + d), true)| == 1
  {
    SmallSound(q, v);
    var (c, d) := Touching([HOLE], 0, [Small(v)], 1);
    AllVecsConcat(c, d);
    SameVecsAll(d, [Small(v)]);
    NoVecs(c);
    assert [] + [v] == [v];
  }

  lemma ByIndex(a: seq<Bio>)
    ensures NoData(a) <==> forall i :: 0 <= i < |a| ==> a[i].vecs == []
    ensures AllData(a) <==> forall i :: 0 <= i < |a| ==> a[i].vecs != []
  {
  }

  lemma KindKept(a: seq<Bio>, b: seq<Bio>)
    requires SameVecs(a, b)
    ensures NoData(a) <==> NoData(b)
    ensures AllData(a) <==> AllData(b)
  {
    ByIndex(a);
    ByIndex(b);
  }

  /** Touching keeps two sound chains sound, and makes one of them if both have data. */
  lemma TouchedAny(q: Limits, a: seq<Bio>, m: nat, b: seq<Bio>, n: nat)
    requires Sound(q, a, m) && Sound(q, b, n) && Contiguous(q, Last(a), b[0])
    ensures var (c, d) := Touching(a, m, b, n);
            && Sound(q, c, m) && Sound(q, d, n) && AllVecs(c) == AllVecs(a) && AllVecs(d) == AllVecs(b)
            && (AllData(c) <==> AllData(a)) && (AllData(d) <==> AllData(b))
            && (AllData(a) && AllData(b) ==> m + n >= 1 && AllData(c + d) && Counted(q, c + d, m + n - 1))
  {
    hide Contiguous, AllVecs, Counted;
    var (c, d) := Touching(a, m, b, n);
    assert SameVecs(a, c) && SameVecs(b, d);
    KindKept(a, c);
    KindKept(b, d);
    SameVecsAll(a, c);
    SameVecsAll(b, d);
    TouchedEach(q, a, m, b, n);
    if AllData(a) && AllData(b) {
      assert Last(a) in a && b[0] in b;
      TouchedPair(q, a, m, b, n);
    }
  }

  lemma TouchedEach(q: Limits, a: seq<Bio>, m: nat, b: seq<Bio>, n: nat)
    requires Sound(q, a, m) && Sound(q, b, n) && Contiguous(q, Last(a), b[0])
    ensures var (c, d) := Touching(a, m, b, n);
            (Counted(q, a, m) ==> Counted(q, c, m)) && (Counted(q, b, n) ==> Counted(q, d, n))
  {
    hide Touching, Witness, Contiguous;
    if Counted(q, a, m) {
      var w :| Witness(q, a, m, w);
      FrontTouched(q, a, m, w, b, n);
    }
    if Counted(q, b, n) {
      var x :| Witness(q, b, n, x);
      BackTouched(q, a, m, b, n, x);
    }
  }

  lemma ApartAny(q: Limits, a: seq<Bio>, m: nat, b: seq<Bio>, n: nat)
    requires Sound(q, a, m) && Sound(q, b, n)
    ensures AllData(a) && AllData(b) ==> Counted(q, a + b, m + n) && AllData(a + b)
  {
    hide Counted;
    if AllData(a) && AllData(b) {
      assert Last(a) in a && b[0] in b;
      ApartPair(q, a, m, b, n);
    }
  }

  // ---------- requests ----------

  /** An entry of the scatterlist: where it starts and how long it is. */
  datatype Entry = Entry(start: Vec, length: nat)

  /** The entries a split stands for. */
  ghost predicate Maps(sg: seq<Entry>, split: seq<Run>) {
    && |sg| == |split|
    && forall i :: 0 <= i < |sg| ==> split[i] != [] && sg[i] == Entry(split[i][0], Size(split[i]))
  }

  class Request {
    var bios: seq<Bio>
    var nrPhysSegments: int
    var dataLen: nat
    var noMerge: bool
    const special: bool

    /** The request carries data, its length is right and its segment count belongs to a valid split. */
    ghost predicate Valid(q: Limits)
      reads this
    {
      && bios != [] && AllData(bios) && nrPhysSegments >= 0
      && Counted(q, bios, nrPhysSegments)
      && dataLen == Size(AllVecs(bios))
    }

    /** What a request may be when it is merged with another: a data request, or one without data. */
    ghost predicate Whole(q: Limits)
      reads this
    {
      nrPhysSegments >= 0 && Sound(q, bios, nrPhysSegments) && (AllData(bios) ==> dataLen == Size(AllVecs(bios)))
    }

    /** blk_rq_bio_prep for a bio with data. */
    constructor (q: Limits, bio: Bio, special: bool)
      requires BioOk(q, bio)
      ensures Valid(q) && AllVecs(bios) == bio.vecs && this.special == special && !noMerge
      ensures nrPhysSegments == |Greedy(q, bio.vecs, false)|
    {
      this.special := special;
      noMerge := false;
      new;
      hide Witness, Greedy, AllVecs, Size;
      var b := PhysSegments(q, bio);
      bios := [b];
      nrPhysSegments := b.physSegments;
      var n := BioSize(b.vecs);
      dataLen := n;
      AllVecsOne(b);
      OneBio(q, bio, b);
    }

    /** blk_recalc_rq_segments */
    method Recalc(q: Limits)
      requires bios != [] && AllData(bios) && dataLen == Size(AllVecs(bios))
      modifies this`bios, this`nrPhysSegments
      ensures Valid(q) && SameVecs(old(bios), bios) && AllVecs(bios) == AllVecs(old(bios))
      ensures nrPhysSegments == |Greedy(q, AllVecs(bios), false)|
    {
      var b, nr := RecalcSegments(q, bios);
      RecountCounts(q, bios);
      SameVecsAll(bios, b);
      bios := b;
      nrPhysSegments := nr;
      assert Witness(q, bios, nr, Greedy(q, AllVecs(bios), false));
    }

    /** n bytes of the request are completed and some are left: its segments are counted anew. */
    method Advance(q: Limits, n: nat)
      requires Valid(q) && n < dataLen
      modifies this`bios, this`nrPhysSegments, this`dataLen
      ensures Valid(q) && dataLen == old(dataLen) - n && AllVecs(bios) == AllVecs(CutChain(old(bios), n))
      ensures nrPhysSegments == |Greedy(q, AllVecs(bios), false)|
    {
      hide Counted;
      CutChainOk(bios, n);
      bios := CutChain(bios, n);
      dataLen := dataLen - n;
      Recalc(q);
    }

    /** ll_back_merge_fn and the chaining of bio_attempt_back_merge. */
    method BackMerge(q: Limits, bio: Bio) returns (ok: bool)
      requires Valid(q) && BioOk(q, bio)
      modifies this
      ensures Valid(q)
      ensures ok <==> && Sectors(old(dataLen)) + Sectors(Size(bio.vecs)) <= q.maxSectors
                      && old(nrPhysSegments) + |Greedy(q, bio.vecs, false)| <= q.maxSegments
      ensures ok ==> && AllVecs(bios) == AllVecs(old(bios)) + bio.vecs
                     && nrPhysSegments == old(nrPhysSegments) + |Greedy(q, bio.vecs, false)|
      ensures !ok ==> AllVecs(bios) == AllVecs(old(bios)) && nrPhysSegments == old(nrPhysSegments) && noMerge
    {
      hide Witness, Greedy, AllVecs, Size, Contiguous;
      ghost var w :| Witness(q, bios, nrPhysSegments, w);
      var size := BioSize(bio.vecs);
      if dataLen / 512 + size / 512 > q.maxSectors {
        noMerge := true;
        return false;
      }
      var tail := Last(bios);
      if !tail.segValid {
        var t := Recount(q, tail);
        var longer := bios[|bios| - 1 := t];
        WitnessGrows(q, bios, longer, nrPhysSegments, w);
        SameVecsAll(bios, longer);
        bios := longer;
      }
      var b := PhysSegments(q, bio);
      if nrPhysSegments + b.physSegments > q.maxSegments {
        noMerge := true;
        return false;
      }
      WitnessConcat(q, bios, nrPhysSegments, w, [b], b.physSegments, Greedy(q, b.vecs, false));
      AllVecsConcat(bios, [b]);
      AllVecsOne(b);
      SizeConcat(AllVecs(bios), b.vecs);
      bios := bios + [b];
      nrPhysSegments := nrPhysSegments + b.physSegments;
      dataLen := dataLen + size;
      return true;
    }

    /** ll_front_merge_fn and the chaining of bio_attempt_front_merge. */
    method FrontMerge(q: Limits, bio: Bio) returns (ok: bool)
      requires Valid(q) && BioOk(q, bio)
      modifies this
      ensures Valid(q)
      ensures ok <==> && Sectors(old(dataLen)) + Sectors(Size(bio.vecs)) <= q.maxSectors
                      && old(nrPhysSegments) + |Greedy(q, bio.vecs, false)| <= q.maxSegments
      ensures ok ==> && AllVecs(bios) == bio.vecs + AllVecs(old(bios))
                     && nrPhysSegments == old(nrPhysSegments) + |Greedy(q, bio.vecs, false)|
      ensures !ok ==> AllVecs(bios) == AllVecs(old(bios)) && nrPhysSegments == old(nrPhysSegments) && noMerge
    {
      hide Witness, Greedy, AllVecs, Size, Contiguous;
      ghost var w :| Witness(q, bios, nrPhysSegments, w);
      var size := BioSize(bio.vecs);
      if dataLen / 512 + size / 512 > q.maxSectors {
        noMerge := true;
        return false;
      }
      var b := PhysSegments(q, bio);
      if !bios[0].segValid {
        var t := Recount(q, bios[0]);
        var longer := bios[0 := t];
        WitnessGrows(q, bios, longer, nrPhysSegments, w);
        SameVecsAll(bios, longer);
        bios := longer;
      }
      if nrPhysSegments + b.physSegments > q.maxSegments {
        noMerge := true;
        return false;
      }
      WitnessConcat(q, [b], b.physSegments, Greedy(q, b.vecs, false), bios, nrPhysSegments, w);
      AllVecsConcat([b], bios);
      AllVecsOne(b);
      SizeConcat(b.vecs, AllVecs(bios));
      bios := [b] + bios;
      nrPhysSegments := nrPhysSegments + b.physSegments;
      dataLen := dataLen + size;
      return true;
    }

    /** ll_merge_requests_fn and the chaining of attempt_merge. */
    method MergeNext(q: Limits, next: Request) returns (ok: bool)
      requires Whole(q) && next.Whole(q) && this != next && q.maxSegments < 0x10000
      modifies this, next
      ensures ok <==> && !special && !next.special && Sectors(old(dataLen)) + Sectors(old(next.dataLen)) <= q.maxSectors
                      && MergedCount(q, old(bios), old(nrPhysSegments), old(next.bios), old(next.nrPhysSegments)) <= q.maxSegments
      ensures ok ==> AllVecs(bios) == AllVecs(old(bios)) + AllVecs(old(next.bios))
      ensures ok ==> nrPhysSegments ==
                     Stored(MergedCount(q, old(bios), old(nrPhysSegments), old(next.bios), old(next.nrPhysSegments)))
      ensures ok && old(AllData(bios)) && old(AllData(next.bios)) ==> Valid(q) && nrPhysSegments <= q.maxSegments
      ensures !ok ==> Whole(q) && next.Whole(q)
      ensures !ok ==> AllVecs(bios) == AllVecs(old(bios)) && AllVecs(next.bios) == AllVecs(old(next.bios))
      ensures !ok ==> nrPhysSegments == old(nrPhysSegments) && next.nrPhysSegments == old(next.nrPhysSegments)
    {
      hide Counted, AllData, NoData, AllVecs, Size, Contiguous, Touching;
      if special || next.special || dataLen / 512 + next.dataLen / 512 > q.maxSectors {
        return false;
      }
      var total := nrPhysSegments + next.nrPhysSegments;
      if Contiguous(q, Last(bios), next.bios[0]) {
        TouchedAny(q, bios, nrPhysSegments, next.bios, next.nrPhysSegments);
        var (c, d) := Touching(bios, nrPhysSegments, next.bios, next.nrPhysSegments);
        bios, next.bios := c, d;
        total := total - 1;
      } else {
        ApartAny(q, bios, nrPhysSegments, next.bios, next.nrPhysSegments);
      }
      if total > q.maxSegments {
        return false;
      }
      AllVecsConcat(bios, next.bios);
      SizeConcat(AllVecs(bios), AllVecs(next.bios));
      nrPhysSegments := Stored(total);
      dataLen := dataLen + next.dataLen;
      bios := bios + next.bios;
      return true;
    }

    /**
    blk_rq_map_sg up to padding and drain: never more entries than nr_phys_segments, and together
    they are as long as the request.
    */
    method MapSg(q: Limits) returns (sg: seq<Entry>)
      requires Valid(q)
      ensures |sg| <= nrPhysSegments
      ensures Maps(sg, Greedy(q, AllVecs(bios), true))
      ensures Total(Greedy(q, AllVecs(bios), true)) == dataLen
    {
      ghost var w :| Witness(q, bios, nrPhysSegments, w);
      MapFits(q, AllVecs(bios), w);
      GreedyValid(q, AllVecs(bios), true);
      SizeFlatten(Greedy(q, AllVecs(bios), true));
      sg := MapChain(q, bios);
    }
  }

  lemma OneBio(q: Limits, bio: Bio, b: Bio)
    requires BioOk(q, bio) && b.vecs == bio.vecs && Witness(q, [b], b.physSegments, Greedy(q, b.vecs, false))
    ensures AllData([b]) && Counted(q, [b], b.physSegments)
  {
  }

  function Sectors(bytes: nat): nat {
    bytes / 512
  }

  method BioSize(vecs: seq<Vec>) returns (n: nat)
    ensures n == Size(vecs)
  {
    n := 0;
    for i := 0 to |vecs|
      invariant n == Size(vecs[..i])
    {
      assert vecs[..i + 1] == vecs[..i] + [vecs[i]];
      SizeSnoc(vecs[..i], vecs[i]);
      n := n + vecs[i].len;
    }
    assert vecs[..|vecs|] == vecs;
  }

  /** blk_recount_segments */
  method Recount(q: Limits, bio: Bio) returns (b: Bio)
    requires bio.vecs != []
    ensures b.vecs == bio.vecs && b.segValid
    ensures b.physSegments == |Greedy(q, b.vecs, false)|
    ensures bio.frontSize <= b.frontSize && bio.backSize <= b.backSize
    ensures Witness(q, [b], b.physSegments, Greedy(q, b.vecs, false))
  {
    hide Greedy, Witness, WithEnds, AllVecs;
    var bs, nr := RecalcSegments(q, [bio]);
    RecountOne(q, bio);
    b := bs[0].(physSegments := nr, segValid := true);
  }

  lemma RecountOne(q: Limits, bio: Bio)
    requires bio.vecs != []
    ensures AllVecs([bio]) == bio.vecs
    ensures var g := Greedy(q, bio.vecs, false);
            var bs := WithEnds([bio], g);
            && |bs| == 1 && bs[0].vecs == bio.vecs
            && bio.frontSize <= bs[0].frontSize && bio.backSize <= bs[0].backSize
            && Witness(q, [bs[0].(physSegments := |g|, segValid := true)], |g|, g)
  {
    hide Greedy, AllVecs, Size, WithEnds, Witness;
    var g := Greedy(q, bio.vecs, false);
    AllVecsOne(bio);
    GreedyNonEmpty(q, bio.vecs, false);
    EndsOk([bio], g);
    RecountCounts(q, [bio]);
    var bs := WithEnds([bio], g);
    WitnessGrows(q, bs, [bs[0].(physSegments := |g|, segValid := true)], |g|, g);
  }

  /** bio_phys_segments */
  method PhysSegments(q: Limits, bio: Bio) returns (b: Bio)
    requires BioOk(q, bio)
    ensures b.vecs == bio.vecs
    ensures b.physSegments == |Greedy(q, b.vecs, false)|
    ensures Witness(q, [b], b.physSegments, Greedy(q, b.vecs, false))
  {
    if bio.segValid {
      b := bio;
    } else {
      b := Recount(q, bio);
    }
  }

  /** The loop of blk_rq_map_sg. */
  method MapChain(q: Limits, bios: seq<Bio>) returns (sg: seq<Entry>)
    ensures Maps(sg, Greedy(q, AllVecs(bios), true))
  {
    hide Greedy, Maps, Mapped;
    sg := [];
    var prev := Vec(0, 0, false);
    ghost var done: seq<Vec> := [];
    NothingMapped(q, prev);
    for i := 0 to |bios|
      invariant done == AllVecs(bios[..i])
      invariant Mapped(q, done, sg, prev)
    {
      var vecs := bios[i].vecs;
      ghost var base := done;
      for j := 0 to |vecs|
        invariant done == base + vecs[..j]
        invariant Mapped(q, done, sg, prev)
      {
        var v := vecs[j];
        MapStep(q, done, sg, prev, v);
        if Lengthens(q, sg, prev, v) {
          sg := Front(sg) + [Last(sg).(length := Last(sg).length + v.len)];
        } else {
          sg := sg + [Entry(v, v.len)];
        }
        prev := v;
        done := done + [v];
        assert vecs[..j + 1] == vecs[..j] + [v];
      }
      assert vecs[..|vecs|] == vecs;
      assert Front(bios[..i + 1]) == bios[..i];
    }
    assert bios[..|bios|] == bios;
    MappedOver(q, done, sg, prev);
  }

  lemma NothingMapped(q: Limits, prev: Vec)
    ensures Mapped(q, [], [], prev) && AllVecs([]) == []
  {
  }

  lemma MappedOver(q: Limits, done: seq<Vec>, sg: seq<Entry>, prev: Vec)
    requires Mapped(q, done, sg, prev)
    ensures Maps(sg, Greedy(q, done, true))
  {
  }

  ghost predicate Mapped(q: Limits, done: seq<Vec>, sg: seq<Entry>, prev: Vec) {
    var g := Greedy(q, done, true);
    Maps(sg, g) && (g != [] ==> Last(g) != [] && Last(Last(g)) == prev)
  }

  predicate Lengthens(q: Limits, sg: seq<Entry>, prev: Vec, v: Vec) {
    sg != [] && q.cluster && Last(sg).length + v.len <= q.maxSegmentSize && Joins(q, prev, v)
  }

  lemma MapStep(q: Limits, done: seq<Vec>, sg: seq<Entry>, prev: Vec, v: Vec)
    requires Mapped(q, done, sg, prev)
    ensures Mapped(q, done + [v],
                   if Lengthens(q, sg, prev, v) then Front(sg) + [Last(sg).(length := Last(sg).length + v.len)]
                   else sg + [Entry(v, v.len)], v)
  {
    var g := Greedy(q, done, true);
    assert Front(done + [v]) == done && Last(done + [v]) == v;
    assert g != [] ==> Last(sg) == Entry(Last(g)[0], Size(Last(g)));
    assert Lengthens(q, sg, prev, v) <==> Extends(q, g, v, true);
    hide Greedy;
    if Lengthens(q, sg, prev, v) {
      MapsMore(sg, g, v);
    } else {
      MapsNew(sg, g, v);
    }
  }

  lemma MapsNew(sg: seq<Entry>, g: seq<Run>, v: Vec)
    requires Maps(sg, g)
    ensures Maps(sg + [Entry(v, v.len)], g + [[v]])
  {
    SizeSnoc([], v);
    assert [] + [v] == [v];
  }

  lemma MapsMore(sg: seq<Entry>, g: seq<Run>, v: Vec)
    requires Maps(sg, g) && g != []
    ensures Maps(Front(sg) + [Last(sg).(length := Last(sg).length + v.len)], Front(g) + [Last(g) + [v]])
  {
    SizeSnoc(Last(g), v);
    assert Last(sg) == Entry(Last(g)[0], Size(Last(g)));
  }
}
