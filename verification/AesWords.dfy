/**
The 32-bit words that the implementation works on: a column is kept in one word, row 0 in its low
byte, and the lookup tables and the column mixer act on whole words.
*/
module AesWords {
  import opened Bytes
  import opened Words
  import opened AesField
  import opened AesSpec

  function Ror8(x: bv32): bv32 {
    (x >> 8) | (x << 24)
  }

  function Ror16(x: bv32): bv32 {
    (x >> 16) | (x << 16)
  }

  function Ror24(x: bv32): bv32 {
    (x >> 24) | (x << 8)
  }

  function StarX(x: bv32): bv32 {
    ((x & 0x7f7f7f7f) << 1) ^ (((x & 0x80808080) >> 7) * 0x1b)
  }

  lemma UnpackRor(x: bv32)
    ensures Unpack(Ror8(x)) == RotCol(Unpack(x))
    ensures Unpack(Ror16(x)) == RotCol(RotCol(Unpack(x)))
    ensures Unpack(Ror24(x)) == RotCol(RotCol(RotCol(Unpack(x))))
  {
  }

  function XtimeCol(x: Col): Col {
    Col(Xtime(x.a), Xtime(x.b), Xtime(x.c), Xtime(x.d))
  }

  lemma UnpackStarX(x: bv32)
    ensures Unpack(StarX(x)) == XtimeCol(Unpack(x))
  {
  }

  // ---------- the lookup tables, by what they hold ----------

  function FtTab0(b: bv8): bv32 {
    Pack(Col(Xtime(Sub(b)), Sub(b), Sub(b), Times3(Sub(b))))
  }

  function FtTab1(b: bv8): bv32 {
    Pack(Col(Times3(Sub(b)), Xtime(Sub(b)), Sub(b), Sub(b)))
  }

  function FtTab2(b: bv8): bv32 {
    Pack(Col(Sub(b), Times3(Sub(b)), Xtime(Sub(b)), Sub(b)))
  }

  function FtTab3(b: bv8): bv32 {
    Pack(Col(Sub(b), Sub(b), Times3(Sub(b)), Xtime(Sub(b))))
  }

  function FlTab0(b: bv8): bv32 {
    Pack(Col(Sub(b), 0, 0, 0))
  }

  function FlTab1(b: bv8): bv32 {
    Pack(Col(0, Sub(b), 0, 0))
  }

  function FlTab2(b: bv8): bv32 {
    Pack(Col(0, 0, Sub(b), 0))
  }

  function FlTab3(b: bv8): bv32 {
    Pack(Col(0, 0, 0, Sub(b)))
  }

  function ItTab0(b: bv8): bv32 {
    Pack(Col(Times14(InvSub(b)), Times9(InvSub(b)), Times13(InvSub(b)), Times11(InvSub(b))))
  }

  function ItTab1(b: bv8): bv32 {
    Pack(Col(Times11(InvSub(b)), Times14(InvSub(b)), Times9(InvSub(b)), Times13(InvSub(b))))
  }

  function ItTab2(b: bv8): bv32 {
    Pack(Col(Times13(InvSub(b)), Times11(InvSub(b)), Times14(InvSub(b)), Times9(InvSub(b))))
  }

  function ItTab3(b: bv8): bv32 {
    Pack(Col(Times9(InvSub(b)), Times13(InvSub(b)), Times11(InvSub(b)), Times14(InvSub(b))))
  }

  function IlTab0(b: bv8): bv32 {
    Pack(Col(InvSub(b), 0, 0, 0))
  }

  function IlTab1(b: bv8): bv32 {
    Pack(Col(0, InvSub(b), 0, 0))
  }

  function IlTab2(b: bv8): bv32 {
    Pack(Col(0, 0, InvSub(b), 0))
  }

  function IlTab3(b: bv8): bv32 {
    Pack(Col(0, 0, 0, InvSub(b)))
  }

  /** Where each table begins. */
  lemma TablesBegin()
    ensures FtTab0(0) == 0xa56363c6 && FtTab1(0) == 0x6363c6a5 && FtTab2(0) == 0x63c6a563 && FtTab3(0) == 0xc6a56363
    ensures FlTab0(0) == 0x00000063 && FlTab1(0) == 0x00006300 && FlTab2(0) == 0x00630000 && FlTab3(0) == 0x63000000
    ensures ItTab0(0) == 0x50a7f451 && ItTab1(0) == 0xa7f45150 && ItTab2(0) == 0xf45150a7 && ItTab3(0) == 0x5150a7f4
    ensures IlTab0(0) == 0x00000052 && IlTab1(0) == 0x00005200 && IlTab2(0) == 0x00520000 && IlTab3(0) == 0x52000000
  {
  }

  // ---------- one word of a round ----------

  /** One word of a full encryption round: the table entries of four bytes, and the key. */
  function ForwardWord(p: bv32, q: bv32, r: bv32, s: bv32, k: bv32): bv32 {
    Xor(Xor4(FtTab0(Byte0(p)), FtTab1(Byte1(q)), FtTab2(Byte2(r)), FtTab3(Byte3(s))), k)
  }

  function ForwardLast(p: bv32, q: bv32, r: bv32, s: bv32, k: bv32): bv32 {
    Xor(Xor4(FlTab0(Byte0(p)), FlTab1(Byte1(q)), FlTab2(Byte2(r)), FlTab3(Byte3(s))), k)
  }

  function InverseWord(p: bv32, q: bv32, r: bv32, s: bv32, k: bv32): bv32 {
    Xor(Xor4(ItTab0(Byte0(p)), ItTab1(Byte1(q)), ItTab2(Byte2(r)), ItTab3(Byte3(s))), k)
  }

  function InverseLast(p: bv32, q: bv32, r: bv32, s: bv32, k: bv32): bv32 {
    Xor(Xor4(IlTab0(Byte0(p)), IlTab1(Byte1(q)), IlTab2(Byte2(r)), IlTab3(Byte3(s))), k)
  }

  /** The column made of row 0 of p, row 1 of q, row 2 of r and row 3 of s. */
  function Diagonal(p: bv32, q: bv32, r: bv32, s: bv32): Col {
    Col(Byte0(p), Byte1(q), Byte2(r), Byte3(s))
  }

  /** A table round word is SubBytes, MixColumns and the key on the column that ShiftRows gathers. */
  lemma ForwardWordOk(p: bv32, q: bv32, r: bv32, s: bv32, k: bv32)
    ensures Unpack(ForwardWord(p, q, r, s, k)) == Add(Mix(SubCol(Diagonal(p, q, r, s))), Unpack(k))
  {
    hide Unpack, Pack, Xor, Xor4, Add, Sum4, Sub, Xtime, Times3, Byte0, Byte1, Byte2, Byte3;
    var a, b, c, d := Sub(Byte0(p)), Sub(Byte1(q)), Sub(Byte2(r)), Sub(Byte3(s));
    var x0 := Col(Xtime(a), a, a, Times3(a));
    var x1 := Col(Times3(b), Xtime(b), b, b);
    var x2 := Col(c, Times3(c), Xtime(c), c);
    var x3 := Col(d, d, Times3(d), Xtime(d));
    UnpackXor4(x0, x1, x2, x3);
    UnpackXor(Xor4(Pack(x0), Pack(x1), Pack(x2), Pack(x3)), k);
    Sum4Cols(x0, x1, x2, x3);
  }

  lemma ForwardLastOk(p: bv32, q: bv32, r: bv32, s: bv32, k: bv32)
    ensures Unpack(ForwardLast(p, q, r, s, k)) == Add(SubCol(Diagonal(p, q, r, s)), Unpack(k))
  {
    hide Unpack, Pack, Xor, Xor4, Add, Sum4, Sub, Byte0, Byte1, Byte2, Byte3;
    var x := SubCol(Diagonal(p, q, r, s));
    var x0, x1, x2, x3 := Col(x.a, 0, 0, 0), Col(0, x.b, 0, 0), Col(0, 0, x.c, 0), Col(0, 0, 0, x.d);
    UnpackXor4(x0, x1, x2, x3);
    UnpackXor(Xor4(Pack(x0), Pack(x1), Pack(x2), Pack(x3)), k);
    Sum4Cols(x0, x1, x2, x3);
    Sum4Zeros(x);
  }

  lemma InverseWordOk(p: bv32, q: bv32, r: bv32, s: bv32, k: bv32)
    ensures Unpack(InverseWord(p, q, r, s, k)) == Add(InvMix(InvSubCol(Diagonal(p, q, r, s))), Unpack(k))
  {
    hide Unpack, Pack, Xor, Xor4, Add, Sum4, InvSub, Times9, Times11, Times13, Times14, Byte0, Byte1, Byte2, Byte3;
    var a, b, c, d := InvSub(Byte0(p)), InvSub(Byte1(q)), InvSub(Byte2(r)), InvSub(Byte3(s));
    var x0 := Col(Times14(a), Times9(a), Times13(a), Times11(a));
    var x1 := Col(Times11(b), Times14(b), Times9(b), Times13(b));
    var x2 := Col(Times13(c), Times11(c), Times14(c), Times9(c));
    var x3 := Col(Times9(d), Times13(d), Times11(d), Times14(d));
    UnpackXor4(x0, x1, x2, x3);
    UnpackXor(Xor4(Pack(x0), Pack(x1), Pack(x2), Pack(x3)), k);
    Sum4Cols(x0, x1, x2, x3);
  }

  lemma InverseLastOk(p: bv32, q: bv32, r: bv32, s: bv32, k: bv32)
    ensures Unpack(InverseLast(p, q, r, s, k)) == Add(InvSubCol(Diagonal(p, q, r, s)), Unpack(k))
  {
    hide Unpack, Pack, Xor, Xor4, Add, Sum4, InvSub, Byte0, Byte1, Byte2, Byte3;
    var x := InvSubCol(Diagonal(p, q, r, s));
    var x0, x1, x2, x3 := Col(x.a, 0, 0, 0), Col(0, x.b, 0, 0), Col(0, 0, x.c, 0), Col(0, 0, 0, x.d);
    UnpackXor4(x0, x1, x2, x3);
    UnpackXor(Xor4(Pack(x0), Pack(x1), Pack(x2), Pack(x3)), k);
    Sum4Cols(x0, x1, x2, x3);
    Sum4Zeros(x);
  }

  // ---------- the column mixer of the key schedule, and the S-box on a word ----------

  /** imix_col */
  function ImixCol(x: bv32): bv32 {
    var u := StarX(x);
    var v := StarX(u);
    var w := StarX(v);
    var t := Xor(w, x);
    Xor(Xor3(u, v, w), Xor3(Ror8(Xor(u, t)), Ror16(Xor(v, t)), Ror24(t)))
  }

  /** ls_box */
  function LsBox(x: bv32): bv32 {
    Xor4(FlTab0(Byte0(x)), FlTab1(Byte1(x)), FlTab2(Byte2(x)), FlTab3(Byte3(x)))
  }

  /** Twice, four, eight and nine times a column, as the mixer computes them. */
  lemma ImixParts(x: bv32)
    ensures var u := StarX(x);
            var v := StarX(u);
            var w := StarX(v);
            var c := Unpack(x);
            && Unpack(u) == XtimeCol(c)
            && Unpack(v) == XtimeCol(XtimeCol(c))
            && Unpack(w) == XtimeCol(XtimeCol(XtimeCol(c)))
            && Unpack(Xor(w, x)) == Col(Times9(c.a), Times9(c.b), Times9(c.c), Times9(c.d))
  {
    hide Unpack, Xor, StarX, Xtime, Plus;
    var u := StarX(x);
    var v := StarX(u);
    UnpackStarX(x);
    UnpackStarX(u);
    UnpackStarX(v);
    UnpackXor(StarX(v), x);
  }

  lemma ImixTerms(x: bv32)
    ensures var u := StarX(x);
            var v := StarX(u);
            var w := StarX(v);
            var t := Xor(w, x);
            var c := Unpack(x);
            && Unpack(Xor3(u, v, w)) == Col(Times14(c.a), Times14(c.b), Times14(c.c), Times14(c.d))
            && Unpack(Ror8(Xor(u, t))) == Col(Times11(c.b), Times11(c.c), Times11(c.d), Times11(c.a))
            && Unpack(Ror16(Xor(v, t))) == Col(Times13(c.c), Times13(c.d), Times13(c.a), Times13(c.b))
            && Unpack(Ror24(t)) == Col(Times9(c.d), Times9(c.a), Times9(c.b), Times9(c.c))
  {
    hide Unpack, Xor, StarX, Xtime, Plus, Times9, Ror8, Ror16, Ror24;
    var u := StarX(x);
    var v := StarX(u);
    var w := StarX(v);
    var t := Xor(w, x);
    ImixParts(x);
    UnpackXor(u, v);
    UnpackXor(Xor(u, v), w);
    UnpackXor(u, t);
    UnpackXor(v, t);
    UnpackRor(Xor(u, t));
    UnpackRor(Xor(v, t));
    UnpackRor(t);
  }

  /** imix_col is the inverse column mixer. */
  lemma ImixColOk(x: bv32)
    ensures Unpack(ImixCol(x)) == InvMix(Unpack(x))
  {
    hide Unpack, Xor, StarX, Xtime, Plus, Sum4, Times9, Times11, Times13, Times14, Ror8, Ror16, Ror24;
    var u := StarX(x);
    var v := StarX(u);
    var w := StarX(v);
    var t := Xor(w, x);
    ImixTerms(x);
    var p, q, r, s := Xor3(u, v, w), Ror8(Xor(u, t)), Ror16(Xor(v, t)), Ror24(t);
    UnpackXor(q, r);
    UnpackXor(Xor(q, r), s);
    UnpackXor(p, Xor3(q, r, s));
    var c0, c1, c2, c3 := Unpack(p), Unpack(q), Unpack(r), Unpack(s);
    Sum4Right(c0, c1, c2, c3);
    Sum4Rotate(c0.b, c1.b, c2.b, c3.b);
    Sum4Rotate(c0.c, c1.c, c2.c, c3.c);
    Sum4Rotate(c3.c, c0.c, c1.c, c2.c);
    Sum4Rotate(c1.d, c2.d, c3.d, c0.d);
  }

  lemma Sum4Rotate(p: bv8, q: bv8, r: bv8, s: bv8)
    ensures Sum4(p, q, r, s) == Sum4(s, p, q, r)
  {
    hide Plus;
    PlusSwap(Plus(p, q), Plus(r, s));
    PlusSwap(r, s);
    PlusCross(s, r, p, q);
    PlusSwap(r, q);
  }

  lemma Sum4Right(p: Col, q: Col, r: Col, s: Col)
    ensures Add(p, Add(Add(q, r), s)) ==
            Col(Sum4(p.a, q.a, r.a, s.a), Sum4(p.b, q.b, r.b, s.b), Sum4(p.c, q.c, r.c, s.c), Sum4(p.d, q.d, r.d, s.d))
  {
    hide Plus;
    PlusAssoc(q.a, r.a, s.a);
    PlusAssoc(q.b, r.b, s.b);
    PlusAssoc(q.c, r.c, s.c);
    PlusAssoc(q.d, r.d, s.d);
    PlusAssoc(p.a, q.a, Plus(r.a, s.a));
    PlusAssoc(p.b, q.b, Plus(r.b, s.b));
    PlusAssoc(p.c, q.c, Plus(r.c, s.c));
    PlusAssoc(p.d, q.d, Plus(r.d, s.d));
  }

  lemma LsBoxOk(x: bv32)
    ensures Unpack(LsBox(x)) == SubCol(Unpack(x))
  {
    hide Pack, Xor, Xor4, Add, Sum4, Sub, Byte0, Byte1, Byte2, Byte3;
    var c := SubCol(Unpack(x));
    var c0, c1, c2, c3 := Col(c.a, 0, 0, 0), Col(0, c.b, 0, 0), Col(0, 0, c.c, 0), Col(0, 0, 0, c.d);
    UnpackXor4(c0, c1, c2, c3);
    Sum4Cols(c0, c1, c2, c3);
    Sum4Zeros(c);
  }
}
