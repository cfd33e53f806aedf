/**
Partial completion of a request, blk_update_request and req_bio_endio of block/blk-core.c.

A driver may report a request done in pieces.  Each piece ends the bios it covers and cuts the bio
it stops in.  `Advance` says what completing n bytes leaves behind; it is an action of byte counts:
completing a bytes and then b bytes leaves what completing a + b bytes leaves.
*/
module Completion {

  datatype Vec = Vec(page: nat, offset: nat, len: nat)

  /** struct bio: the vectors from `idx` on are still to be done, `size` bytes in all. */
  datatype Bio = Bio(id: nat, vecs: seq<Vec>, idx: nat, size: nat, sector: int, uptodate: bool)

  /** bio_endio was called for bio `id`. */
  datatype Ended = Ended(id: nat, error: int)

  const EIO := -5

  function Len(vecs: seq<Vec>): nat {
    if vecs == [] then 0 else vecs[0].len + Len(vecs[1..])
  }

  ghost predicate BioOk(b: Bio) {
    && b.idx < |b.vecs|
    && b.size == Len(b.vecs[b.idx..])
    && (forall i :: b.idx <= i < |b.vecs| ==> b.vecs[i].len > 0)
  }

  ghost predicate BiosOk(bios: seq<Bio>) {
    forall b <- bios :: BioOk(b)
  }

  /** Whole sectors, as file system requests have. */
  ghost predicate Aligned(bios: seq<Bio>) {
    forall b <- bios :: b.size % 512 == 0
  }

  function Bytes(bios: seq<Bio>): nat {
    if bios == [] then 0 else bios[0].size + Bytes(bios[1..])
  }

  /** bio->bi_idx and vectors after n bytes from vector i on. */
  function CutVecs(vecs: seq<Vec>, i: nat, n: nat): (nat, seq<Vec>)
    decreases |vecs| - i
  {
    if i >= |vecs| then (i, vecs)
    else if vecs[i].len > n then (i, vecs[i := Vec(vecs[i].page, vecs[i].offset + n, vecs[i].len - n)])
    else CutVecs(vecs, i + 1, n - vecs[i].len)
  }

  /** The bio a completion of n bytes stops in. */
  function Cut(b: Bio, n: nat, error: int): Bio {
    if n == 0 || n > b.size then b
    else
      var (i, vecs) := CutVecs(b.vecs, b.idx, n);
      b.(vecs := vecs, idx := i, size := b.size - n, sector := b.sector + n / 512, uptodate := b.uptodate && error == 0)
  }

  /** What req_bio_endio tells the submitter of a finished bio. */
  function EndOf(b: Bio, error: int): Ended {
    Ended(b.id, if error != 0 then error else if b.uptodate then 0 else EIO)
  }

  /** The bios left after n bytes, and the bios ended on the way. */
  function Advance(bios: seq<Bio>, n: nat, error: int): (seq<Bio>, seq<Ended>) {
    if bios == [] || n == 0 then (bios, [])
    else if n >= bios[0].size then
      var (rest, ended) := Advance(bios[1..], n - bios[0].size, error);
      (rest, [EndOf(bios[0], error)] + ended)
    else ([Cut(bios[0], n, error)] + bios[1..], [])
  }

  // ---------- cutting vectors ----------

  /** The live vectors after n bytes: how many are gone, and what is left. */
  function CutTail(live: seq<Vec>, n: nat): (nat, seq<Vec>) {
    if live == [] then (0, [])
    else if live[0].len > n then (0, [Vec(live[0].page, live[0].offset + n, live[0].len - n)] + live[1..])
    else
      var (k, rest) := CutTail(live[1..], n - live[0].len);
      (k + 1, rest)
  }

  ghost predicate AllPositive(vecs: seq<Vec>) {
    forall v <- vecs :: v.len > 0
  }

  lemma {:induction false} CutVecsTail(vecs: seq<Vec>, i: nat, n: nat)
    requires i <= |vecs|
    ensures var (k, w) := CutVecs(vecs, i, n);
            var (d, rest) := CutTail(vecs[i..], n);
            k == i + d && |w| == |vecs| && k <= |w| && w[k..] == rest
    decreases |vecs| - i
  {
    if i < |vecs| && vecs[i].len <= n {
      CutVecsTail(vecs, i + 1, n - vecs[i].len);
      assert vecs[i..][1..] == vecs[i + 1..];
    }
  }

  lemma {:induction false} CutTailOk(live: seq<Vec>, n: nat)
    requires AllPositive(live) && n < Len(live)
    ensures var (k, rest) := CutTail(live, n);
            k < |live| && |rest| == |live| - k && AllPositive(rest) && Len(rest) == Len(live) - n
  {
    if live[0].len > n {
      assert CutTail(live, n).1[1..] == live[1..];
    } else {
      CutTailOk(live[1..], n - live[0].len);
    }
  }

  lemma {:induction false} CutTailTwice(live: seq<Vec>, m: nat, n: nat)
    requires AllPositive(live) && m + n < Len(live)
    ensures var (k, rest) := CutTail(live, m);
            var (j, last) := CutTail(rest, n);
            CutTail(live, m + n) == (k + j, last)
  {
    if live[0].len <= m {
      CutTailTwice(live[1..], m - live[0].len, n);
    } else {
      assert CutTail(live, m).1[1..] == live[1..];
    }
  }

  lemma CutOk(b: Bio, n: nat, error: int)
    requires BioOk(b) && n < b.size
    ensures BioOk(Cut(b, n, error)) && Cut(b, n, error).size == b.size - n
  {
    CutVecsTail(b.vecs, b.idx, n);
    LiveOk(b);
    CutTailOk(b.vecs[b.idx..], n);
    var c := Cut(b, n, error);
    forall i | c.idx <= i < |c.vecs| ensures c.vecs[i].len > 0 {
      assert c.vecs[i] in c.vecs[c.idx..];
    }
  }

  lemma LiveOk(b: Bio)
    requires BioOk(b)
    ensures AllPositive(b.vecs[b.idx..]) && b.size > 0
  {
    LenPositive(b.vecs[b.idx..]);
  }

  lemma LenPositive(vecs: seq<Vec>)
    requires vecs != [] && vecs[0].len > 0
    ensures Len(vecs) > 0
  {
  }

  // ---------- completing in pieces ----------

  /** A bio as seen from here on: vectors before bi_idx are never looked at again. */
  function View(b: Bio): Bio {
    if b.idx <= |b.vecs| then b.(vecs := b.vecs[b.idx..]) else b
  }

  function Views(bios: seq<Bio>): seq<Bio> {
    if bios == [] then [] else [View(bios[0])] + Views(bios[1..])
  }

  /** What is seen of a bio that was cut. */
  lemma ViewCut(b: Bio, n: nat, error: int)
    requires BioOk(b) && 0 < n < b.size
    ensures var c := Cut(b, n, error);
            var (d, rest) := CutTail(b.vecs[b.idx..], n);
            && c.idx == b.idx + d && c.idx <= |c.vecs| && c.vecs[c.idx..] == rest
            && View(c) == Bio(b.id, rest, b.idx + d, b.size - n, b.sector + n / 512, b.uptodate && error == 0)
  {
    hide CutVecs, CutTail;
    CutVecsTail(b.vecs, b.idx, n);
  }

  lemma CutTwice(b: Bio, m: nat, n: nat, error: int)
    requires BioOk(b) && m + n < b.size && m % 512 == 0
    ensures View(Cut(Cut(b, m, error), n, error)) == View(Cut(b, m + n, error))
  {
    if m > 0 && n > 0 {
      hide CutVecs, CutTail, Cut, View, BioOk;
      LiveOk(b);
      LiveLen(b);
      CutOk(b, m, error);
      ViewCut(b, m, error);
      ViewCut(b, m + n, error);
      ViewCut(Cut(b, m, error), n, error);
      CutTailTwice(b.vecs[b.idx..], m, n);
      assert (m + n) / 512 == m / 512 + n / 512;
      CutFields(b, m, error);
    }
  }

  lemma LiveLen(b: Bio)
    requires BioOk(b)
    ensures b.idx <= |b.vecs| && b.size == Len(b.vecs[b.idx..])
  {
  }

  lemma CutFields(b: Bio, n: nat, error: int)
    requires 0 < n <= b.size
    ensures var c := Cut(b, n, error);
            c.id == b.id && c.size == b.size - n && c.sector == b.sector + n / 512 && c.uptodate == (b.uptodate && error == 0)
  {
    hide CutVecs;
  }

  function Ids(bios: seq<Bio>): seq<nat> {
    if bios == [] then [] else [bios[0].id] + Ids(bios[1..])
  }

  function EndedIds(ended: seq<Ended>): seq<nat> {
    if ended == [] then [] else [ended[0].id] + EndedIds(ended[1..])
  }

  /** The bytes left are those not done, and every bio is either ended, once and in order, or left. */
  lemma {:induction false} AdvanceOk(bios: seq<Bio>, n: nat, error: int)
    requires BiosOk(bios)
    ensures var (rest, ended) := Advance(bios, n, error);
            && BiosOk(rest)
            && Bytes(rest) == (if n >= Bytes(bios) then 0 else Bytes(bios) - n)
            && (rest == [] <==> n >= Bytes(bios))
            && EndedIds(ended) + Ids(rest) == Ids(bios)
  {
    if bios != [] {
      LiveOk(bios[0]);
      if n >= bios[0].size {
        AdvanceOk(bios[1..], n - bios[0].size, error);
      } else if n > 0 {
        CutOk(bios[0], n, error);
        assert Advance(bios, n, error).0[1..] == bios[1..];
        CutFields(bios[0], n, error);
      }
      BytesPositive(bios);
    }
  }

  lemma BytesPositive(bios: seq<Bio>)
    requires bios != [] && BiosOk(bios)
    ensures Bytes(bios) > 0
  {
    LiveOk(bios[0]);
  }

  /**
  Completion is an action of byte counts: a bytes and then b bytes leave the same bios (indices,
  live offsets and lengths, sizes, sectors, flags) as a + b bytes, and end the same bios, once each,
  in the same order, with the same status.
  */
  lemma {:induction false} AdvanceComposes(bios: seq<Bio>, a: nat, b: nat, error: int)
    requires BiosOk(bios) && Aligned(bios) && a % 512 == 0
    ensures var (rest, ended) := Advance(bios, a, error);
            var (last, more) := Advance(rest, b, error);
            && Views(last) == Views(Advance(bios, a + b, error).0)
            && ended + more == Advance(bios, a + b, error).1
  {
    hide Advance, Views, BioOk;
    if bios == [] || a == 0 {
      AdvanceNothing(bios, a, b, error);
    } else if a >= bios[0].size {
      AdvanceComposes(bios[1..], a - bios[0].size, b, error);
      AdvancePast(bios, a, b, error);
    } else {
      AdvanceInside(bios, a, b, error);
    }
  }

  lemma AdvanceNothing(bios: seq<Bio>, a: nat, b: nat, error: int)
    requires bios == [] || a == 0
    ensures Advance(bios, a, error) == (bios, []) && Advance(bios, b, error) == Advance(bios, a + b, error)
  {
  }

  lemma AdvancePast(bios: seq<Bio>, a: nat, b: nat, error: int)
    requires bios != [] && a != 0 && a >= bios[0].size
    ensures Advance(bios, a, error).0 == Advance(bios[1..], a - bios[0].size, error).0
    ensures Advance(bios, a, error).1 == [EndOf(bios[0], error)] + Advance(bios[1..], a - bios[0].size, error).1
    ensures Advance(bios, a + b, error).0 == Advance(bios[1..], a - bios[0].size + b, error).0
    ensures Advance(bios, a + b, error).1 == [EndOf(bios[0], error)] + Advance(bios[1..], a - bios[0].size + b, error).1
  {
    assert a + b - bios[0].size == a - bios[0].size + b;
  }

  lemma AdvanceInside(bios: seq<Bio>, a: nat, b: nat, error: int)
    requires bios != [] && BioOk(bios[0]) && a % 512 == 0 && 0 < a < bios[0].size
    ensures var (rest, ended) := Advance(bios, a, error);
            var (last, more) := Advance(rest, b, error);
            && Views(last) == Views(Advance(bios, a + b, error).0)
            && ended + more == Advance(bios, a + b, error).1
  {
    CutOk(bios[0], a, error);
    var c := Cut(bios[0], a, error);
    var rest := [c] + bios[1..];
    assert rest[1..] == bios[1..];
    if b == 0 {
    } else if a + b < bios[0].size {
      CutTwice(bios[0], a, b, error);
      hide Cut;
      assert ([Cut(bios[0], a + b, error)] + bios[1..])[1..] == bios[1..];
      assert ([Cut(c, b, error)] + bios[1..])[1..] == bios[1..];
    } else {
      assert EndOf(c, error) == EndOf(bios[0], error);
      assert a + b - bios[0].size == b - c.size;
    }
  }

  // ---------- vectors that are done ----------

  /** m bytes end strictly inside a vector that m + n bytes pass. */
  ghost predicate Torn(live: seq<Vec>, m: nat, n: nat) {
    exists k :: 0 <= k < |live| && Len(live[..k]) < m < Len(live[..k]) + live[k].len <= m + n
  }

  lemma {:induction false} LenFront(vecs: seq<Vec>, k: nat)
    requires vecs != [] && 0 < k <= |vecs|
    ensures Len(vecs[..k]) == vecs[0].len + Len(vecs[1..][..k - 1])
  {
    assert vecs[..k][1..] == vecs[1..][..k - 1];
  }

  /** Where the first vector is passed by m, it does not matter ... */
  lemma TornLater(live: seq<Vec>, m: nat, n: nat)
    requires live != [] && live[0].len <= m
    ensures Torn(live, m, n) <==> Torn(live[1..], m - live[0].len, n)
  {
    var t := live[1..];
    if Torn(live, m, n) {
      var k :| 0 <= k < |live| && Len(live[..k]) < m < Len(live[..k]) + live[k].len <= m + n;
      assert k > 0;
      LenFront(live, k);
      assert t[k - 1] == live[k];
    }
    if Torn(t, m - live[0].len, n) {
      var k :| 0 <= k < |t| && Len(t[..k]) < m - live[0].len < Len(t[..k]) + t[k].len <= m - live[0].len + n;
      LenFront(live, k + 1);
      assert live[k + 1] == t[k];
    }
  }

  /** ... and where it is not, it is the one. */
  lemma TornHere(live: seq<Vec>, m: nat, n: nat)
    requires live != [] && live[0].len > m
    ensures Torn(live, m, n) <==> 0 < m && live[0].len <= m + n
  {
    if 0 < m && live[0].len <= m + n {
      assert Len(live[..0]) == 0;
    }
    if Torn(live, m, n) {
      var k :| 0 <= k < |live| && Len(live[..k]) < m < Len(live[..k]) + live[k].len <= m + n;
      if k > 0 {
        LenFront(live, k);
      }
    }
  }

  /** Cutting further back leaves a vector alone. */
  lemma {:induction false} CutVecsApart(vecs: seq<Vec>, i: nat, n: nat, j: nat, v: Vec)
    requires j < i <= |vecs|
    ensures var (k, w) := CutVecs(vecs, i, n);
            |w| == |vecs| && w[j] == vecs[j] && CutVecs(vecs[j := v], i, n) == (k, w[j := v])
    decreases |vecs| - i
  {
    if i < |vecs| {
      if vecs[i].len <= n {
        CutVecsApart(vecs, i + 1, n - vecs[i].len, j, v);
      } else {
        var x := Vec(vecs[i].page, vecs[i].offset + n, vecs[i].len - n);
        assert vecs[j := v][i := x] == vecs[i := x][j := v];
      }
    }
  }

  lemma {:induction false} CutVecsIff(vecs: seq<Vec>, i: nat, m: nat, n: nat)
    requires i < |vecs|
    ensures var (k, w) := CutVecs(vecs, i, m);
            (CutVecs(w, k, n).1 == CutVecs(vecs, i, m + n).1 <==> !Torn(vecs[i..], m, n))
    decreases |vecs| - i
  {
    var live := vecs[i..];
    if vecs[i].len <= m {
      TornLater(live, m, n);
      assert live[1..] == vecs[i + 1..];
      if i + 1 < |vecs| {
        CutVecsIff(vecs, i + 1, m - vecs[i].len, n);
      }
    } else {
      TornHere(live, m, n);
      var v := Vec(vecs[i].page, vecs[i].offset + m, vecs[i].len - m);
      var w := vecs[i := v];
      if vecs[i].len > m + n {
        assert w[i := Vec(v.page, v.offset + n, v.len - n)] == vecs[i := Vec(v.page, v.offset + n, v.len - n)];
      } else {
        CutVecsApart(vecs, i + 1, m + n - vecs[i].len, i, v);
      }
    }
  }

  /** Two pieces leave the same vectors as one, unless the first stopped inside a vector that the second passed. */
  lemma CutIff(b: Bio, m: nat, n: nat, error: int)
    requires BioOk(b) && m + n < b.size && m % 512 == 0
    ensures Cut(Cut(b, m, error), n, error) == Cut(b, m + n, error) <==> !Torn(b.vecs[b.idx..], m, n)
  {
    if m > 0 && n > 0 {
      CutTwice(b, m, n, error);
      CutVecsIff(b.vecs, b.idx, m, n);
      hide CutVecs, Torn, BioOk;
      SameFields(b, m, n, error);
    }
  }

  lemma SameFields(b: Bio, m: nat, n: nat, error: int)
    requires BioOk(b) && m + n < b.size && m > 0 && n > 0
    requires View(Cut(Cut(b, m, error), n, error)) == View(Cut(b, m + n, error))
    ensures var (k, w) := CutVecs(b.vecs, b.idx, m);
            (Cut(Cut(b, m, error), n, error) == Cut(b, m + n, error) <==> CutVecs(w, k, n).1 == CutVecs(b.vecs, b.idx, m + n).1)
  {
    hide CutVecs;
  }

  /** The bio in which the first piece stops is torn and not finished by the second. */
  ghost predicate ChainTorn(bios: seq<Bio>, a: nat, b: nat) {
    bios != [] && bios[0].idx <= |bios[0].vecs| &&
    if a >= bios[0].size then ChainTorn(bios[1..], a - bios[0].size, b)
    else a + b < bios[0].size && Torn(bios[0].vecs[bios[0].idx..], a, b)
  }

  /** Completing in two pieces leaves exactly the bios that one piece leaves, dead vectors included, unless one is torn. */
  lemma {:induction false} AdvanceIff(bios: seq<Bio>, a: nat, b: nat, error: int)
    requires BiosOk(bios) && a % 512 == 0 && Aligned(bios)
    ensures Advance(Advance(bios, a, error).0, b, error).0 == Advance(bios, a + b, error).0 <==> !ChainTorn(bios, a, b)
  {
    if bios != [] {
      LiveOk(bios[0]);
      assert BioOk(bios[0]);
      if a == 0 {
        NotTorn(bios[0].vecs[bios[0].idx..], b);
      } else if a >= bios[0].size {
        AdvanceIff(bios[1..], a - bios[0].size, b, error);
        hide Advance, BioOk, ChainTorn;
        AdvancePast(bios, a, b, error);
        TornPast(bios, a, b);
      } else {
        hide BioOk, Torn;
        InsideIff(bios, a, b, error);
      }
    }
  }

  lemma TornPast(bios: seq<Bio>, a: nat, b: nat)
    requires bios != [] && bios[0].idx <= |bios[0].vecs| && a >= bios[0].size
    ensures ChainTorn(bios, a, b) <==> ChainTorn(bios[1..], a - bios[0].size, b)
  {
  }

  lemma NotTorn(live: seq<Vec>, n: nat)
    ensures !Torn(live, 0, n)
  {
  }

  lemma InsideIff(bios: seq<Bio>, a: nat, b: nat, error: int)
    requires bios != [] && BioOk(bios[0]) && a % 512 == 0 && 0 < a < bios[0].size
    ensures Advance(Advance(bios, a, error).0, b, error).0 == Advance(bios, a + b, error).0 <==>
            !(a + b < bios[0].size && Torn(bios[0].vecs[bios[0].idx..], a, b))
  {
    hide Torn;
    CutOk(bios[0], a, error);
    var c := Cut(bios[0], a, error);
    assert ([c] + bios[1..])[1..] == bios[1..];
    if a + b < bios[0].size {
      CutIff(bios[0], a, b, error);
      hide Cut;
      var x, y := Cut(bios[0], a + b, error), Cut(c, b, error);
      assert ([x] + bios[1..])[0] == x && ([y] + bios[1..])[0] == y;
      if b == 0 {
        CutNothing(c, error);
      }
    } else {
      assert a + b - bios[0].size == b - c.size;
    }
  }

  lemma CutNothing(b: Bio, error: int)
    ensures Cut(b, 0, error) == b
  {
  }
}
