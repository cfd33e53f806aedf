/**
The lookup tables of crypto/anubis.c, by what they hold, and the words that the cipher and its key
schedule make with them.  A row of the state is a word with its first byte on top.
*/
module AnubisWords {
  import opened Bytes
  import opened Words
  import opened AnubisSpec
  import opened AnubisKeys

  function Flip(x: Col): Col {
    Col(x.d, x.c, x.b, x.a)
  }

  function Row(x: bv32): Col {
    Flip(Unpack(x))
  }

  /** The word of a row: what be32_to_cpu makes of four bytes. */
  function PackRow(x: Col): bv32 {
    Pack(Flip(x))
  }

  lemma RowPack(x: Col)
    ensures Row(PackRow(x)) == x
  {
    hide Unpack, Pack;
    UnpackPack(Flip(x));
  }

  lemma RowXor(x: bv32, y: bv32)
    ensures Row(Xor(x, y)) == Add(Row(x), Row(y))
  {
    hide Unpack, Xor, Plus;
    UnpackXor(x, y);
  }

  // ---------- the tables ----------

  function Tab0(b: bv8): bv32 {
    PackRow(Col(Sub(b), Double(Sub(b)), Times4(Sub(b)), Times6(Sub(b))))
  }

  function Tab1(b: bv8): bv32 {
    PackRow(Col(Double(Sub(b)), Sub(b), Times6(Sub(b)), Times4(Sub(b))))
  }

  function Tab2(b: bv8): bv32 {
    PackRow(Col(Times4(Sub(b)), Times6(Sub(b)), Sub(b), Double(Sub(b))))
  }

  function Tab3(b: bv8): bv32 {
    PackRow(Col(Times6(Sub(b)), Times4(Sub(b)), Double(Sub(b)), Sub(b)))
  }

  function Tab4(b: bv8): bv32 {
    PackRow(Col(Sub(b), Sub(b), Sub(b), Sub(b)))
  }

  function Tab5(b: bv8): bv32 {
    PackRow(Col(b, Double(b), Times6(b), Times8(b)))
  }

  /** Where each table begins, after its entry for 0 in the case of the last. */
  lemma TablesBegin()
    ensures Tab0(0) == 0xba69d2bb && Tab1(0) == 0x69babbd2 && Tab2(0) == 0xd2bbba69 && Tab3(0) == 0xbbd269ba
    ensures Tab4(0) == 0xbabababa && Tab5(1) == 0x01020608
  {
  }

  // ---------- sums of table entries ----------

  lemma RowXor4(p: Col, q: Col, r: Col, s: Col)
    ensures Row(Xor4(PackRow(p), PackRow(q), PackRow(r), PackRow(s))) ==
            Col(Sum4(p.a, q.a, r.a, s.a), Sum4(p.b, q.b, r.b, s.b), Sum4(p.c, q.c, r.c, s.c), Sum4(p.d, q.d, r.d, s.d))
  {
    hide Unpack, Pack, Xor4, Add, Sum4;
    UnpackXor4(Flip(p), Flip(q), Flip(r), Flip(s));
    Sum4Cols(Flip(p), Flip(q), Flip(r), Flip(s));
  }

  /** One word of a diffused row: four bytes through the tables. */
  function Diffuse(p: bv8, q: bv8, r: bv8, s: bv8): bv32 {
    Xor4(Tab0(p), Tab1(q), Tab2(r), Tab3(s))
  }

  lemma DiffuseOk(p: bv8, q: bv8, r: bv8, s: bv8)
    ensures Row(Diffuse(p, q, r, s)) == ThetaRow(GammaRow(Col(p, q, r, s)))
  {
    hide Row, PackRow, Xor4, Sum4, Sub, Double, Times4, Times6;
    RowXor4(Col(Sub(p), Double(Sub(p)), Times4(Sub(p)), Times6(Sub(p))),
            Col(Double(Sub(q)), Sub(q), Times6(Sub(q)), Times4(Sub(q))),
            Col(Times4(Sub(r)), Times6(Sub(r)), Sub(r), Double(Sub(r))),
            Col(Times6(Sub(s)), Times4(Sub(s)), Double(Sub(s)), Sub(s)));
  }

  function Top(x: bv32): bv32 {
    x & 0xff000000
  }

  function Second(x: bv32): bv32 {
    x & 0x00ff0000
  }

  function Third(x: bv32): bv32 {
    x & 0x0000ff00
  }

  function Bottom(x: bv32): bv32 {
    x & 0x000000ff
  }

  lemma Masked(x: Col)
    ensures Top(PackRow(x)) == PackRow(Col(x.a, 0, 0, 0))
    ensures Second(PackRow(x)) == PackRow(Col(0, x.b, 0, 0))
    ensures Third(PackRow(x)) == PackRow(Col(0, 0, x.c, 0))
    ensures Bottom(PackRow(x)) == PackRow(Col(0, 0, 0, x.d))
  {
  }

  /** One word of the last round: the tables with all but the S-box masked out. */
  function LastWord(p: bv8, q: bv8, r: bv8, s: bv8): bv32 {
    Xor4(Top(Tab0(p)), Second(Tab1(q)), Third(Tab2(r)), Bottom(Tab3(s)))
  }

  lemma LastWordOk(p: bv8, q: bv8, r: bv8, s: bv8)
    ensures Row(LastWord(p, q, r, s)) == GammaRow(Col(p, q, r, s))
  {
    hide Row, PackRow, Xor4, Sum4, Sub, Double, Times4, Times6, Top, Second, Third, Bottom;
    Masked(Col(Sub(p), Double(Sub(p)), Times4(Sub(p)), Times6(Sub(p))));
    Masked(Col(Double(Sub(q)), Sub(q), Times6(Sub(q)), Times4(Sub(q))));
    Masked(Col(Times4(Sub(r)), Times6(Sub(r)), Sub(r), Double(Sub(r))));
    Masked(Col(Times6(Sub(s)), Times4(Sub(s)), Double(Sub(s)), Sub(s)));
    var x := GammaRow(Col(p, q, r, s));
    RowXor4(Col(x.a, 0, 0, 0), Col(0, x.b, 0, 0), Col(0, 0, x.c, 0), Col(0, 0, 0, x.d));
    Sum4Zeros(x);
  }

  // ---------- the key schedule's words ----------

  /** One step of Horner's rule on all four polynomials of a row at once. */
  function HornerStep(b: bv8, k: bv32): bv32 {
    Xor(Xor(Xor(Xor(Tab4(b), Top(Tab5(Byte3(k)))), Second(Tab5(Byte2(k)))), Third(Tab5(Byte1(k)))), Bottom(Tab5(Byte0(k))))
  }

  /** The four polynomials of one column of the key state, by Horner's rule. */
  function HornerRow(s: seq<bv8>): Col {
    Col(Horner(One, s), Horner(Two, s), Horner(Six, s), Horner(Eight, s))
  }

  lemma AddParts(s: bv8, x: Col)
    ensures Add(Add(Add(Add(Col(s, s, s, s), Col(x.a, 0, 0, 0)), Col(0, x.b, 0, 0)), Col(0, 0, x.c, 0)), Col(0, 0, 0, x.d))
         == Col(Plus(s, x.a), Plus(s, x.b), Plus(s, x.c), Plus(s, x.d))
  {
    hide Plus;
    PlusZero(s);
    PlusZero(Plus(s, x.a));
    PlusZero(Plus(s, x.b));
    PlusZero(Plus(s, x.c));
  }

  lemma TopPart(g: Col)
    ensures Row(Top(PackRow(g))) == Col(g.a, 0, 0, 0)
    ensures Row(Second(PackRow(g))) == Col(0, g.b, 0, 0)
    ensures Row(Third(PackRow(g))) == Col(0, 0, g.c, 0)
    ensures Row(Bottom(PackRow(g))) == Col(0, 0, 0, g.d)
  {
    hide Row, PackRow, Top, Second, Third, Bottom;
    Masked(g);
    RowPack(Col(g.a, 0, 0, 0));
    RowPack(Col(0, g.b, 0, 0));
    RowPack(Col(0, 0, g.c, 0));
    RowPack(Col(0, 0, 0, g.d));
  }

  lemma HornerStepOk(b: bv8, k: bv32)
    ensures var x := Row(k);
            Row(HornerStep(b, k)) ==
            Col(Plus(Sub(b), x.a), Plus(Sub(b), Double(x.b)), Plus(Sub(b), Times6(x.c)), Plus(Sub(b), Times8(x.d)))
  {
    hide PackRow, Xor, Add, Plus, Sub, Double, Times6, Times8, Top, Second, Third, Bottom, Byte0, Byte1, Byte2, Byte3;
    HornerParts(b, Byte3(k), Byte2(k), Byte1(k), Byte0(k));
  }

  lemma HornerParts(b: bv8, k3: bv8, k2: bv8, k1: bv8, k0: bv8)
    ensures Row(Xor(Xor(Xor(Xor(Tab4(b), Top(Tab5(k3))), Second(Tab5(k2))), Third(Tab5(k1))), Bottom(Tab5(k0)))) ==
            Col(Plus(Sub(b), k3), Plus(Sub(b), Double(k2)), Plus(Sub(b), Times6(k1)), Plus(Sub(b), Times8(k0)))
  {
    hide Row, PackRow, Xor, Add, Plus, Sub, Double, Times6, Times8, Top, Second, Third, Bottom;
    var p0, p1, p2, p3, p4 := Tab4(b), Top(Tab5(k3)), Second(Tab5(k2)), Third(Tab5(k1)), Bottom(Tab5(k0));
    RowPack(Col(Sub(b), Sub(b), Sub(b), Sub(b)));
    TopPart(Col(k3, Double(k3), Times6(k3), Times8(k3)));
    TopPart(Col(k2, Double(k2), Times6(k2), Times8(k2)));
    TopPart(Col(k1, Double(k1), Times6(k1), Times8(k1)));
    TopPart(Col(k0, Double(k0), Times6(k0), Times8(k0)));
    RowXor(p0, p1);
    RowXor(Xor(p0, p1), p2);
    RowXor(Xor(Xor(p0, p1), p2), p3);
    RowXor(Xor(Xor(Xor(p0, p1), p2), p3), p4);
    AddParts(Sub(b), Col(k3, Double(k2), Times6(k1), Times8(k0)));
  }

  lemma HornerFirst(b: bv8)
    ensures Row(Tab4(b)) == HornerRow([Sub(b)])
  {
    hide Row, PackRow, Sub, Horner;
    RowPack(Col(Sub(b), Sub(b), Sub(b), Sub(b)));
    HornerOne(One, Sub(b));
    HornerOne(Two, Sub(b));
    HornerOne(Six, Sub(b));
    HornerOne(Eight, Sub(b));
  }

  lemma HornerNext(b: bv8, k: bv32, s: seq<bv8>)
    requires Row(k) == HornerRow(s)
    ensures Row(HornerStep(b, k)) == HornerRow([Sub(b)] + s)
  {
    hide Row, HornerStep, Plus, Sub, Double, Times6, Times8;
    HornerStepOk(b, k);
    assert ([Sub(b)] + s)[1..] == s;
  }

  /** One word of the inverse schedule: the S-box undoes the S-box in the tables. */
  function Undiffused(v: bv32): bv32 {
    Diffuse(Byte0(Tab4(Byte3(v))), Byte0(Tab4(Byte2(v))), Byte0(Tab4(Byte1(v))), Byte0(Tab4(Byte0(v))))
  }

  lemma LowByte(b: bv8)
    ensures Byte0(Tab4(b)) == Sub(b)
  {
    hide Sub, Pack, Byte0, Byte1, Byte2, Byte3;
    UnpackPack(Col(Sub(b), Sub(b), Sub(b), Sub(b)));
  }

  lemma UndiffusedOk(v: bv32)
    ensures Row(Undiffused(v)) == ThetaRow(Row(v))
  {
    hide Tab4, Diffuse, ThetaRow, Sub, Byte0, Byte1, Byte2, Byte3;
    var x := Row(v);
    LowByte(x.a);
    LowByte(x.b);
    LowByte(x.c);
    LowByte(x.d);
    DiffuseOk(Sub(x.a), Sub(x.b), Sub(x.c), Sub(x.d));
    GammaRowTwice(x);
  }
}
