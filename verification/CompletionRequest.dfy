/**
blk_update_request on the request it updates in place, and what completing a request in pieces
changes and does not change.
*/
module CompletionRequest {
  import opened Completion

  /**
  The fields of struct request involved.  `tracked` tells whether the sector has a clear meaning
  (file system and discard requests); `flushSeq` is REQ_FLUSH_SEQ, under which bios are not ended.
  */
  datatype Req = Req(
    bios: seq<Bio>,
    dataLen: nat,
    sector: int,
    tracked: bool,
    flushSeq: bool,
    ended: seq<Ended>)

  ghost predicate ReqOk(r: Req) {
    BiosOk(r.bios) && r.dataLen == Bytes(r.bios)
  }

  /** The request after n more bytes are done. */
  function Updated(r: Req, n: nat, error: int): Req {
    if r.bios == [] then r
    else
      var (rest, ended) := Advance(r.bios, n, error);
      var s := r.(bios := rest, ended := if r.flushSeq then r.ended else r.ended + ended);
      if rest == [] then s.(dataLen := 0)
      else s.(dataLen := if n <= r.dataLen then r.dataLen - n else 0,
              sector := if r.tracked then r.sector + n / 512 else r.sector)
  }

  /** A request whose length matches its bios stays that way. */
  lemma UpdatedOk(r: Req, n: nat, error: int)
    requires ReqOk(r)
    ensures ReqOk(Updated(r, n, error))
    ensures Updated(r, n, error).bios == [] <==> n >= r.dataLen
  {
    AdvanceOk(r.bios, n, error);
    if r.bios != [] {
      BytesPositive(r.bios);
    }
  }

  ghost predicate SameBut(r: Req, s: Req) {
    && Views(r.bios) == Views(s.bios) && r.dataLen == s.dataLen && r.ended == s.ended
    && r.tracked == s.tracked && r.flushSeq == s.flushSeq
  }

  /**
  Completing a bytes (whole sectors) and then b bytes is completing a + b bytes, in every respect but
  two.  A request that finishes keeps the sector it had when it last made progress, so the sectors
  agree exactly unless b finished a request that a had moved on.  And vectors that are done are not
  restored, so the bios agree to the last exactly unless a stopped inside a vector that b passed.
  */
  lemma UpdateComposes(r: Req, a: nat, b: nat, error: int)
    requires ReqOk(r) && Aligned(r.bios) && a % 512 == 0
    ensures var twice := Updated(Updated(r, a, error), b, error);
            var once := Updated(r, a + b, error);
            && SameBut(twice, once)
            && (twice.sector == once.sector <==> !(r.tracked && 0 < a < r.dataLen <= a + b))
            && (twice.bios == once.bios <==> !ChainTorn(r.bios, a, b))
  {
    UpdatedBios(r, a, b, error);
    AdvanceIff(r.bios, a, b, error);
    if r.bios != [] {
      UpdatedOk(r, a, error);
      AdvanceComposes(r.bios, a, b, error);
      if a >= r.dataLen {
        FinishedStays(r, a, b, error);
      } else {
        UpdatedTwice(r, a, b, error);
      }
    }
  }

  lemma UpdatedBios(r: Req, a: nat, b: nat, error: int)
    ensures Updated(Updated(r, a, error), b, error).bios == Advance(Advance(r.bios, a, error).0, b, error).0
    ensures Updated(r, a + b, error).bios == Advance(r.bios, a + b, error).0
  {
  }

  lemma {:induction false} FinishedStays(r: Req, a: nat, b: nat, error: int)
    requires ReqOk(r) && r.bios != [] && a % 512 == 0 && a >= r.dataLen
    requires var (rest, ended) := Advance(r.bios, a, error);
             var (last, more) := Advance(rest, b, error);
             Views(last) == Views(Advance(r.bios, a + b, error).0) && ended + more == Advance(r.bios, a + b, error).1
    ensures Updated(Updated(r, a, error), b, error) == Updated(r, a + b, error)
  {
    UpdatedOk(r, a, error);
    UpdatedOk(r, a + b, error);
    hide Advance, Views, BiosOk, Bytes;
    NothingLeft(b, error);
  }

  lemma UpdatedTwice(r: Req, a: nat, b: nat, error: int)
    requires ReqOk(r) && r.bios != [] && a % 512 == 0 && a < r.dataLen
    requires var (rest, ended) := Advance(r.bios, a, error);
             var (last, more) := Advance(rest, b, error);
             Views(last) == Views(Advance(r.bios, a + b, error).0) && ended + more == Advance(r.bios, a + b, error).1
    ensures var twice := Updated(Updated(r, a, error), b, error);
            var once := Updated(r, a + b, error);
            && SameBut(twice, once)
            && (twice.sector == once.sector <==> !(r.tracked && 0 < a && r.dataLen <= a + b))
  {
    hide Advance, Views, ReqOk, Updated;
    LengthOf(r, a, error);
    TwiceSame(r, a, b, error);
    TwiceSector(r, a, b, error);
  }

  lemma TwiceSame(r: Req, a: nat, b: nat, error: int)
    requires ReqOk(r) && r.bios != [] && a < r.dataLen && Updated(r, a, error).bios != []
    requires var (rest, ended) := Advance(r.bios, a, error);
             var (last, more) := Advance(rest, b, error);
             Views(last) == Views(Advance(r.bios, a + b, error).0) && ended + more == Advance(r.bios, a + b, error).1
    ensures SameBut(Updated(Updated(r, a, error), b, error), Updated(r, a + b, error))
  {
    hide Advance, Views, BiosOk, Bytes;
    var s := Updated(r, a, error);
    UpdatedOk(r, a, error);
    LengthOf(r, a, error);
    Length(r, a + b, error);
    Length(s, b, error);
    TwiceEnded(r, a, b, error);
    UpdatedIs(s, b, error);
    UpdatedIs(r, a, error);
    UpdatedIs(r, a + b, error);
    hide Updated, ReqOk;
  }

  lemma TwiceEnded(r: Req, a: nat, b: nat, error: int)
    requires r.bios != [] && Updated(r, a, error).bios != []
    requires var (rest, ended) := Advance(r.bios, a, error);
             ended + Advance(rest, b, error).1 == Advance(r.bios, a + b, error).1
    ensures Updated(Updated(r, a, error), b, error).ended == Updated(r, a + b, error).ended
  {
    hide Updated, Advance;
    UpdatedIs(r, a, error);
    UpdatedIs(Updated(r, a, error), b, error);
    UpdatedIs(r, a + b, error);
    var (rest, ended) := Advance(r.bios, a, error);
    Regroup(r.ended, ended, Advance(rest, b, error).1);
  }

  lemma Regroup<T>(x: seq<T>, y: seq<T>, z: seq<T>)
    ensures x + y + z == x + (y + z)
  {
  }

  lemma DropFront<T>(x: seq<T>, y: seq<T>, n: nat)
    requires n <= |x|
    ensures (x + y)[n..] == x[n..] + y
  {
  }

  lemma Length(r: Req, n: nat, error: int)
    requires ReqOk(r)
    ensures Updated(r, n, error).dataLen == (if n >= r.dataLen then 0 else r.dataLen - n)
    ensures Updated(r, n, error).bios == [] <==> n >= r.dataLen
  {
    hide Advance;
    UpdatedOk(r, n, error);
  }

  lemma TwiceSector(r: Req, a: nat, b: nat, error: int)
    requires ReqOk(r) && r.bios != [] && a % 512 == 0 && a < r.dataLen && Updated(r, a, error).bios != []
    ensures var twice := Updated(Updated(r, a, error), b, error);
            var once := Updated(r, a + b, error);
            twice.sector == once.sector <==> !(r.tracked && 0 < a && r.dataLen <= a + b)
  {
    var s := Updated(r, a, error);
    UpdatedOk(r, a, error);
    LengthOf(r, a, error);
    Length(r, a + b, error);
    Length(s, b, error);
    UpdatedIs(r, a, error);
    UpdatedIs(s, b, error);
    UpdatedIs(r, a + b, error);
    hide Advance, ReqOk, Updated;
    SectorsAdd(a, b);
  }

  lemma LengthOf(r: Req, a: nat, error: int)
    requires ReqOk(r) && a < r.dataLen
    ensures Updated(r, a, error).bios != [] && Updated(r, a, error).dataLen == r.dataLen - a
  {
    hide Advance;
    UpdatedOk(r, a, error);
  }

  lemma UpdatedIs(r: Req, n: nat, error: int)
    requires r.bios != []
    ensures var u := Updated(r, n, error);
            var (rest, ended) := Advance(r.bios, n, error);
            && u.bios == rest && u.ended == (if r.flushSeq then r.ended else r.ended + ended)
            && u.tracked == r.tracked && u.flushSeq == r.flushSeq
            && u.dataLen == (if rest == [] || n > r.dataLen then 0 else r.dataLen - n)
            && u.sector == (if rest != [] && r.tracked then r.sector + n / 512 else r.sector)
  {
    hide Advance;
  }

  lemma SectorsAdd(a: nat, b: nat)
    requires a % 512 == 0
    ensures (a + b) / 512 == a / 512 + b / 512 && (a > 0 ==> a / 512 > 0)
  {
  }

  lemma NothingLeft(n: nat, error: int)
    ensures Advance([], n, error) == ([], [])
  {
  }

  /** A bio that is torn: two pieces leave another dead vector behind than one. */
  lemma DeadVectorsDiffer()
    ensures var b := Bio(0, [Vec(0, 0, 1024), Vec(1, 0, 1024)], 0, 2048, 0, true);
            && BioOk(b)
            && Cut(Cut(b, 512, 0), 1024, 0).vecs == [Vec(0, 512, 512), Vec(1, 512, 512)]
            && Cut(b, 512 + 1024, 0).vecs == [Vec(0, 0, 1024), Vec(1, 512, 512)]
  {
    var v := [Vec(0, 0, 1024), Vec(1, 0, 1024)];
    var b := Bio(0, v, 0, 2048, 0, true);
    assert v[0..] == v && v[1..] == [Vec(1, 0, 1024)];
    assert Len(v[1..]) == 1024 + Len(v[1..][1..]);
    assert BioOk(b);
    var c := Cut(b, 512, 0);
    assert c.vecs == [Vec(0, 512, 512), Vec(1, 0, 1024)] && c.idx == 0 && c.size == 1536;
    assert CutVecs(c.vecs, 0, 1024) == CutVecs(c.vecs, 1, 512);
    assert CutVecs(v, 0, 1536) == CutVecs(v, 1, 512);
  }

  // ---------- the bytes themselves ----------

  /** The memory a vector covers, byte by byte. */
  function VecBytes(v: Vec): seq<(nat, nat)> {
    seq(v.len, i requires 0 <= i < v.len => (v.page, v.offset + i))
  }

  function LiveBytes(live: seq<Vec>): seq<(nat, nat)> {
    if live == [] then [] else VecBytes(live[0]) + LiveBytes(live[1..])
  }

  function Memory(bios: seq<Bio>): seq<(nat, nat)> {
    if bios == [] then [] else LiveBytes(View(bios[0]).vecs) + Memory(bios[1..])
  }

  lemma {:induction false} LiveBytesLen(live: seq<Vec>)
    ensures |LiveBytes(live)| == Len(live)
  {
    if live != [] {
      LiveBytesLen(live[1..]);
    }
  }

  lemma {:induction false} CutTailBytes(live: seq<Vec>, n: nat)
    requires AllPositive(live) && n < Len(live)
    ensures |LiveBytes(live)| == Len(live)
    ensures LiveBytes(CutTail(live, n).1) == LiveBytes(live)[n..]
  {
    LiveBytesLen(live);
    var v := live[0];
    if v.len > n {
      var w := Vec(v.page, v.offset + n, v.len - n);
      assert VecBytes(w) == VecBytes(v)[n..];
      assert ([w] + live[1..])[1..] == live[1..];
    } else {
      CutTailBytes(live[1..], n - v.len);
      assert LiveBytes(live)[n..] == LiveBytes(live[1..])[n - v.len..];
    }
  }

  lemma CutView(b: Bio, n: nat, error: int)
    requires BioOk(b) && 0 < n < b.size
    ensures |LiveBytes(View(b).vecs)| == b.size
    ensures LiveBytes(View(Cut(b, n, error)).vecs) == LiveBytes(View(b).vecs)[n..]
  {
    LiveOk(b);
    CutVecsTail(b.vecs, b.idx, n);
    CutTailBytes(b.vecs[b.idx..], n);
  }

  lemma {:induction false} CutMemory(bios: seq<Bio>, n: nat, error: int)
    requires bios != [] && BioOk(bios[0]) && 0 < n < bios[0].size
    ensures |LiveBytes(View(bios[0]).vecs)| == bios[0].size
    ensures Memory([Cut(bios[0], n, error)] + bios[1..]) == Memory(bios)[n..]
  {
    hide Cut, LiveBytes, View;
    CutView(bios[0], n, error);
    var rest := [Cut(bios[0], n, error)] + bios[1..];
    assert rest[1..] == bios[1..];
    MemoryHead(bios);
    MemoryHead(rest);
    hide Memory;
    DropFront(LiveBytes(View(bios[0]).vecs), Memory(bios[1..]), n);
  }

  lemma MemoryHead(bios: seq<Bio>)
    requires bios != []
    ensures Memory(bios) == LiveBytes(View(bios[0]).vecs) + Memory(bios[1..])
  {
  }

  lemma {:induction false} MemoryLen(bios: seq<Bio>)
    requires BiosOk(bios)
    ensures |Memory(bios)| == Bytes(bios)
  {
    if bios != [] {
      LiveBytesLen(View(bios[0]).vecs);
      assert BioOk(bios[0]);
      MemoryLen(bios[1..]);
    }
  }

  /** What is left of a request is exactly the memory it covered, less the first n bytes. */
  lemma {:induction false} AdvanceMemory(bios: seq<Bio>, n: nat, error: int)
    requires BiosOk(bios)
    ensures |Memory(bios)| == Bytes(bios)
    ensures Memory(Advance(bios, n, error).0) == if n >= Bytes(bios) then [] else Memory(bios)[n..]
  {
    hide Cut;
    MemoryLen(bios);
    if bios != [] && n != 0 {
      var b := bios[0];
      if n >= b.size {
        AdvanceMemory(bios[1..], n - b.size, error);
        LiveBytesLen(View(b).vecs);
        assert BioOk(b);
        if n < Bytes(bios) {
          assert Memory(bios)[n..] == Memory(bios[1..])[n - b.size..];
        }
      } else {
        CutMemory(bios, n, error);
      }
    } else if bios != [] {
      BytesPositive(bios);
    }
  }

  // ---------- the loop of blk_update_request ----------

  /** Vectors of b passed in full so far: k of them, m bytes; n more bytes to go within b. */
  ghost predicate Inside(b: Bio, k: nat, m: nat, n: nat) {
    && b.idx + k < |b.vecs|
    && m + n < b.size
    && Len(b.vecs[b.idx + k..]) == b.size - m
    && CutVecs(b.vecs, b.idx, m + n) == CutVecs(b.vecs, b.idx + k, n)
  }

  lemma InsideStart(b: Bio, n: nat)
    requires BioOk(b) && n < b.size
    ensures Inside(b, 0, 0, n)
  {
  }

  lemma InsideStep(b: Bio, k: nat, m: nat, n: nat)
    requires BioOk(b) && Inside(b, k, m, n) && b.vecs[b.idx + k].len <= n
    ensures Inside(b, k + 1, m + b.vecs[b.idx + k].len, n - b.vecs[b.idx + k].len)
  {
    var i := b.idx + k;
    assert b.vecs[i..][1..] == b.vecs[i + 1..];
    assert Len(b.vecs[i + 1..]) == b.size - m - b.vecs[i].len > 0;
    assert b.vecs[i + 1..] != [];
  }

  lemma InsideEnd(b: Bio, k: nat, m: nat, n: nat, error: int)
    requires BioOk(b) && Inside(b, k, m, n) && b.vecs[b.idx + k].len > n && m + n > 0
    ensures Cut(b, m + n, error) == CutAt(b, b.idx + k, n, m + n, error)
  {
  }

  /** The bio cut n bytes into vector i, `done` bytes in all. */
  function CutAt(b: Bio, i: nat, n: nat, done: nat, error: int): Bio
    requires i < |b.vecs| && n <= b.vecs[i].len && done <= b.size
  {
    var v := b.vecs[i];
    b.(vecs := b.vecs[i := Vec(v.page, v.offset + n, v.len - n)], idx := i, size := b.size - done,
       sector := b.sector + done / 512, uptodate := b.uptodate && error == 0)
  }

  /** The loop on its way to `goal`: `gone` bios ended, k vectors (m bytes) of the next one passed. */
  ghost predicate OnTheWay(goal: (seq<Bio>, seq<Ended>), gone: seq<Ended>, bios: seq<Bio>,
                           left: nat, m: nat, k: nat, error: int)
  {
    && BiosOk(bios)
    && Advance(bios, left + m, error).0 == goal.0
    && gone + Advance(bios, left + m, error).1 == goal.1
    && (k == 0 ==> m == 0)
    && (k > 0 ==> bios != [] && Inside(bios[0], k, m, left) && m > 0)
  }

  lemma {:induction false} StepBio(goal: (seq<Bio>, seq<Ended>), gone: seq<Ended>, bios: seq<Bio>, left: nat, m: nat,
                                   k: nat, error: int)
    requires OnTheWay(goal, gone, bios, left, m, k, error) && bios != [] && left >= bios[0].size
    ensures OnTheWay(goal, gone + [EndOf(bios[0], error)], bios[1..], left - bios[0].size, 0, 0, error)
  {
    LiveOk(bios[0]);
    assert k == 0;
    AdvancePast(bios, left, 0, error);
    var e := Advance(bios[1..], left - bios[0].size, error).1;
    assert gone + ([EndOf(bios[0], error)] + e) == gone + [EndOf(bios[0], error)] + e;
  }

  lemma {:induction false} EnterBio(goal: (seq<Bio>, seq<Ended>), gone: seq<Ended>, bios: seq<Bio>, left: nat, m: nat,
                                    k: nat, error: int)
    requires OnTheWay(goal, gone, bios, left, m, k, error) && bios != [] && left < bios[0].size
    ensures Inside(bios[0], k, m, left)
  {
    if k == 0 {
      InsideStart(bios[0], left);
    }
  }

  lemma {:induction false} StepVec(goal: (seq<Bio>, seq<Ended>), gone: seq<Ended>, bios: seq<Bio>, left: nat, m: nat,
                                   k: nat, error: int)
    requires OnTheWay(goal, gone, bios, left, m, k, error) && bios != [] && left < bios[0].size
    requires Inside(bios[0], k, m, left) && bios[0].vecs[bios[0].idx + k].len <= left
    ensures var len := bios[0].vecs[bios[0].idx + k].len;
            OnTheWay(goal, gone, bios, left - len, m + len, k + 1, error)
  {
    hide Advance, Inside;
    InsideStep(bios[0], k, m, left);
    var len := bios[0].vecs[bios[0].idx + k].len;
    assert BioOk(bios[0]);
    assert left - len + (m + len) == left + m;
  }

  lemma {:induction false} Depart(bios: seq<Bio>, n: nat, error: int)
    requires BiosOk(bios)
    ensures OnTheWay(Advance(bios, n, error), [], bios, n, 0, 0, error)
  {
    assert [] + Advance(bios, n, error).1 == Advance(bios, n, error).1;
  }

  lemma InsideBounds(b: Bio, k: nat, m: nat, n: nat)
    requires Inside(b, k, m, n)
    ensures b.idx + k < |b.vecs| && m + n < b.size
  {
  }

  /** Stopping between two vectors. */
  lemma {:induction false} Halt(goal: (seq<Bio>, seq<Ended>), gone: seq<Ended>, bios: seq<Bio>, m: nat, k: nat, error: int)
    requires OnTheWay(goal, gone, bios, 0, m, k, error) && bios != []
    ensures m > 0 ==> Inside(bios[0], k, m, 0) && bios[0].vecs[bios[0].idx + k].len > 0
  {
    assert BioOk(bios[0]);
  }

  lemma {:induction false} EndOfWay(goal: (seq<Bio>, seq<Ended>), gone: seq<Ended>, bios: seq<Bio>, left: nat, m: nat,
                                    k: nat, error: int)
    requires OnTheWay(goal, gone, bios, left, m, k, error)
    ensures bios == [] ==> goal == ([], gone)
    ensures bios != [] && left + m == 0 ==> goal == (bios, gone)
    ensures bios != [] && left + m > 0 && Inside(bios[0], k, m, left) && left < bios[0].vecs[bios[0].idx + k].len ==>
              goal == (bios[0 := CutAt(bios[0], bios[0].idx + k, left, left + m, error)], gone)
  {
    assert gone + [] == gone;
    if bios != [] && left + m > 0 && Inside(bios[0], k, m, left) && left < bios[0].vecs[bios[0].idx + k].len {
      assert BioOk(bios[0]);
      InsideEnd(bios[0], k, m, left, error);
      var c := CutAt(bios[0], bios[0].idx + k, left, left + m, error);
      assert bios[0 := c] == [c] + bios[1..];
    }
  }

  /** The first vector of what is left is never longer than what is left. */
  lemma FirstVecFits(r: Req)
    requires ReqOk(r) && r.bios != []
    ensures r.bios[0].idx < |r.bios[0].vecs| && r.bios[0].vecs[r.bios[0].idx].len <= r.dataLen
  {
    assert BioOk(r.bios[0]);
  }

  class Request {
    var bios: seq<Bio>
    var dataLen: nat
    var sector: int
    const tracked: bool
    const flushSeq: bool
    var ended: seq<Ended>

    ghost function Value(): Req
      reads this
    {
      Req(bios, dataLen, sector, tracked, flushSeq, ended)
    }

    /** bio_endio, unless the bio belongs to a flush sequence. */
    method EndBio(b: Bio, error: int)
      modifies this`ended
      ensures ended == if flushSeq then old(ended) else old(ended) + [EndOf(b, error)]
    {
      if !flushSeq {
        ended := ended + [EndOf(b, error)];
      }
    }

    /**
    The loop of blk_update_request: end the bios that are done, and find where the next one is to be
    cut: `left` bytes into vector bi_idx + nextIdx, bioBytes bytes into the bio.
    */
    method CompleteBios(error: int, nrBytes: nat) returns (total: nat, left: nat, bioBytes: nat, nextIdx: nat)
      requires BiosOk(bios)
      modifies this`bios, this`ended
      ensures bios != [] ==> total == nrBytes
      ensures ended == if flushSeq then old(ended) else old(ended) + Advance(old(bios), nrBytes, error).1
      ensures var rest := Advance(old(bios), nrBytes, error).0;
              if bios == [] then rest == []
              else if bioBytes == 0 then rest == bios
              else
                && bios[0].idx + nextIdx < |bios[0].vecs| && bioBytes <= bios[0].size
                && left < bios[0].vecs[bios[0].idx + nextIdx].len
                && rest == bios[0 := CutAt(bios[0], bios[0].idx + nextIdx, left, bioBytes, error)]
    {
      hide Advance, Inside, OnTheWay, BioOk;
      ghost var goal := Advance(bios, nrBytes, error);
      ghost var gone: seq<Ended> := [];
      total, left, bioBytes, nextIdx := 0, nrBytes, 0, 0;
      ghost var scanned: nat := 0;
      Depart(bios, nrBytes, error);
      while bios != []
        invariant OnTheWay(goal, gone, bios, left, bioBytes, nextIdx, error)
        invariant total + left == nrBytes && scanned == bioBytes
        invariant ended == if flushSeq then old(ended) else old(ended) + gone
        decreases |bios|, if bios == [] then 0 else |bios[0].vecs| - nextIdx
      {
        var bio := bios[0];
        var nbytes: nat;
        if left >= bio.size {
          StepBio(goal, gone, bios, left, bioBytes, nextIdx, error);
          bios := bios[1..];
          nbytes := bio.size;
          EndBio(bio, error);
          gone := gone + [EndOf(bio, error)];
          nextIdx, bioBytes, scanned := 0, 0, 0;
        } else {
          EnterBio(goal, gone, bios, left, bioBytes, nextIdx, error);
          InsideBounds(bio, nextIdx, bioBytes, left);
          var idx := bio.idx + nextIdx;
          if idx >= |bio.vecs| {
            assert false;  // "bio idx %d >= vcnt %d"
          }
          nbytes := bio.vecs[idx].len;
          if nbytes > left {
            bioBytes := bioBytes + left;
            total := total + left;
            break;
          }
          StepVec(goal, gone, bios, left, bioBytes, nextIdx, error);
          nextIdx := nextIdx + 1;
          bioBytes := bioBytes + nbytes;
          scanned := bioBytes;
        }
        total := total + nbytes;
        left := left - nbytes;
        if bios != [] && left == 0 {
          Halt(goal, gone, bios, scanned, nextIdx, error);
          break;
        }
      }
      EndOfWay(goal, gone, bios, left, scanned, nextIdx, error);
    }

    /** blk_update_request: nrBytes more are done; is there anything left? */
    method Update(error: int, nrBytes: nat) returns (more: bool)
      requires ReqOk(Value())
      modifies this`bios, this`dataLen, this`sector, this`ended
      ensures Value() == Updated(old(Value()), nrBytes, error)
      ensures ReqOk(Value())
      ensures more <==> nrBytes < old(dataLen)
    {
      hide Advance;
      UpdatedOk(Value(), nrBytes, error);
      if bios == [] {
        return false;
      }
      var total, left, bioBytes, nextIdx := CompleteBios(error, nrBytes);
      if bios == [] {
        dataLen := 0;
        return false;
      }
      if bioBytes > 0 {
        var bio := bios[0];
        var i := bio.idx + nextIdx;
        var v := bio.vecs[i];
        bios := bios[0 := bio.(vecs := bio.vecs[i := Vec(v.page, v.offset + left, v.len - left)], idx := i,
                               size := bio.size - bioBytes, sector := bio.sector + bioBytes / 512,
                               uptodate := bio.uptodate && error == 0)];
      }
      dataLen := dataLen - total;
      if tracked {
        sector := sector + total / 512;
      }
      FirstVecFits(Value());
      if dataLen < bios[0].vecs[bios[0].idx].len {
        assert false;  // "request botched"
      }
      return true;
    }
  }
}
