/**
Anubis as its layers: the S-box layer gamma, the transposition tau, the diffusion theta and the key
addition sigma.  Each of the first three undoes itself, so the cipher run on a reversed and diffused
key schedule undoes the cipher.
*/
module AnubisSpec {
  import opened Bytes

  // ---------- the field GF(2^8) of Anubis ----------

  function Double(b: bv8): bv8 {
    (b << 1) ^ ((b >> 7) * 0x1d)
  }

  function Times4(b: bv8): bv8 {
    Double(Double(b))
  }

  function Times6(b: bv8): bv8 {
    Plus(Times4(b), Double(b))
  }

  function Times8(b: bv8): bv8 {
    Double(Times4(b))
  }

  lemma DoublePlus(a: bv8, b: bv8)
    ensures Double(Plus(a, b)) == Plus(Double(a), Double(b))
  {
  }

  lemma TimesPlus(a: bv8, b: bv8)
    ensures Double(Plus(a, b)) == Plus(Double(a), Double(b))
    ensures Times4(Plus(a, b)) == Plus(Times4(a), Times4(b))
    ensures Times6(Plus(a, b)) == Plus(Times6(a), Times6(b))
    ensures Times8(Plus(a, b)) == Plus(Times8(a), Times8(b))
  {
    hide Plus, Double;
    DoublePlus(a, b);
    DoublePlus(Double(a), Double(b));
    DoublePlus(Times4(a), Times4(b));
    PlusCross(Times4(a), Times4(b), Double(a), Double(b));
  }

  // ---------- the S-box: three rows of mini-boxes with crossed wires between them ----------

  function MiniP(n: bv4): bv4 {
    if n == 0 then 3 else if n == 1 then 15 else if n == 2 then 14 else if n == 3 then 0
    else if n == 4 then 5 else if n == 5 then 4 else if n == 6 then 11 else if n == 7 then 12
    else if n == 8 then 13 else if n == 9 then 10 else if n == 10 then 9 else if n == 11 then 6
    else if n == 12 then 7 else if n == 13 then 8 else if n == 14 then 2 else 1
  }

  function MiniQ(n: bv4): bv4 {
    if n == 0 then 9 else if n == 1 then 14 else if n == 2 then 5 else if n == 3 then 6
    else if n == 4 then 10 else if n == 5 then 2 else if n == 6 then 3 else if n == 7 then 12
    else if n == 8 then 15 else if n == 9 then 0 else if n == 10 then 4 else if n == 11 then 13
    else if n == 12 then 7 else if n == 13 then 11 else if n == 14 then 1 else 8
  }

  /** A byte as two nibbles, the high one first. */
  datatype Nibbles = Nibbles(h: bv4, l: bv4)

  function Split(b: bv8): Nibbles {
    Nibbles((b >> 4) as bv4, (b & 15) as bv4)
  }

  function Join(n: Nibbles): bv8 {
    ((n.h as bv8) << 4) | (n.l as bv8)
  }

  function Outer(n: Nibbles): Nibbles {
    Nibbles(MiniP(n.h), MiniQ(n.l))
  }

  function Inner(n: Nibbles): Nibbles {
    Nibbles(MiniQ(n.h), MiniP(n.l))
  }

  /** The low half of the high nibble changes places with the high half of the low one. */
  function Cross(n: Nibbles): Nibbles {
    Nibbles((n.h & 12) | (n.l >> 2), ((n.h & 3) << 2) | (n.l & 3))
  }

  function Sub(b: bv8): bv8 {
    Join(Outer(Cross(Inner(Cross(Outer(Split(b)))))))
  }

  lemma SplitJoin(n: Nibbles)
    ensures Split(Join(n)) == n
  {
  }

  lemma JoinSplit(b: bv8)
    ensures Join(Split(b)) == b
  {
  }

  lemma MiniTwice(n: bv4)
    ensures MiniP(MiniP(n)) == n && MiniQ(MiniQ(n)) == n
  {
  }

  lemma CrossTwice(n: Nibbles)
    ensures Cross(Cross(n)) == n
  {
  }

  lemma OuterTwice(n: Nibbles)
    ensures Outer(Outer(n)) == n
  {
    hide MiniP, MiniQ;
    MiniTwice(n.h);
    MiniTwice(n.l);
  }

  lemma InnerTwice(n: Nibbles)
    ensures Inner(Inner(n)) == n
  {
    hide MiniP, MiniQ;
    MiniTwice(n.h);
    MiniTwice(n.l);
  }

  /** The S-box undoes itself: the network reads the same in both directions. */
  lemma SubTwice(b: bv8)
    ensures Sub(Sub(b)) == b
  {
    hide Split, Join, Outer, Inner, Cross;
    var n1 := Outer(Split(b));
    var n2 := Cross(n1);
    var n3 := Inner(n2);
    var n4 := Cross(n3);
    SplitJoin(Outer(n4));
    OuterTwice(n4);
    CrossTwice(n3);
    InnerTwice(n2);
    CrossTwice(n1);
    OuterTwice(Split(b));
    JoinSplit(b);
  }

  // ---------- the layers ----------

  function GammaRow(x: Col): Col {
    Col(Sub(x.a), Sub(x.b), Sub(x.c), Sub(x.d))
  }

  function Gamma(x: Block): Block {
    Block(GammaRow(x.c0), GammaRow(x.c1), GammaRow(x.c2), GammaRow(x.c3))
  }

  /** A block is four rows; tau makes its columns the rows. */
  function Tau(x: Block): Block {
    Block(Col(x.c0.a, x.c1.a, x.c2.a, x.c3.a),
          Col(x.c0.b, x.c1.b, x.c2.b, x.c3.b),
          Col(x.c0.c, x.c1.c, x.c2.c, x.c3.c),
          Col(x.c0.d, x.c1.d, x.c2.d, x.c3.d))
  }

  /** A row times the symmetric matrix with first row 1, 2, 4, 6. */
  function ThetaRow(x: Col): Col {
    Col(Sum4(x.a, Double(x.b), Times4(x.c), Times6(x.d)),
        Sum4(Double(x.a), x.b, Times6(x.c), Times4(x.d)),
        Sum4(Times4(x.a), Times6(x.b), x.c, Double(x.d)),
        Sum4(Times6(x.a), Times4(x.b), Double(x.c), x.d))
  }

  function Theta(x: Block): Block {
    Block(ThetaRow(x.c0), ThetaRow(x.c1), ThetaRow(x.c2), ThetaRow(x.c3))
  }

  /** The state after the first key addition and r full rounds. */
  function Rounds(k: seq<Block>, x: Block, r: nat): Block
    requires r < |k|
  {
    if r == 0 then AddKey(x, k[0])
    else AddKey(Theta(Tau(Gamma(Rounds(k, x, r - 1)))), k[r])
  }

  /** The cipher with |k| - 1 rounds, the last of them without theta. */
  function Crypt(k: seq<Block>, x: Block): Block
    requires |k| >= 2
  {
    AddKey(Tau(Gamma(Rounds(k, x, |k| - 2))), k[|k| - 1])
  }

  /** d is the schedule that undoes e. */
  ghost predicate Inverts(e: seq<Block>, d: seq<Block>) {
    && |d| == |e| >= 2
    && d[0] == e[|e| - 1] && d[|e| - 1] == e[0]
    && forall r :: 0 < r < |e| - 1 ==> d[r] == Theta(e[|e| - 1 - r])
  }

  /** K'^0 = K^R, K'^R = K^0, K'^r = theta(K^(R - r)) */
  function InverseKeys(e: seq<Block>): (d: seq<Block>)
    requires |e| >= 2
    ensures Inverts(e, d)
  {
    var n := |e| - 1;
    seq(|e|, r requires 0 <= r <= n => if r == 0 || r == n then e[n - r] else Theta(e[n - r]))
  }

  // ---------- each layer undoes itself ----------

  lemma GammaRowTwice(x: Col)
    ensures GammaRow(GammaRow(x)) == x
  {
    hide Sub;
    SubTwice(x.a);
    SubTwice(x.b);
    SubTwice(x.c);
    SubTwice(x.d);
  }

  /** Substitution and transposition act on different things, and both undo themselves. */
  lemma TauGammaTwice(x: Block)
    ensures Tau(Gamma(Tau(Gamma(x)))) == x
  {
    hide Sub;
    GammaRowTwice(x.c0);
    GammaRowTwice(x.c1);
    GammaRowTwice(x.c2);
    GammaRowTwice(x.c3);
  }

  lemma ThetaRowAdd(x: Col, y: Col)
    ensures ThetaRow(Add(x, y)) == Add(ThetaRow(x), ThetaRow(y))
  {
    hide Plus, Double, Sum4, Times4, Times6;
    TimesPlus(x.a, y.a);
    TimesPlus(x.b, y.b);
    TimesPlus(x.c, y.c);
    TimesPlus(x.d, y.d);
    Sum4Plus(x.a, Double(x.b), Times4(x.c), Times6(x.d), y.a, Double(y.b), Times4(y.c), Times6(y.d));
    Sum4Plus(Double(x.a), x.b, Times6(x.c), Times4(x.d), Double(y.a), y.b, Times6(y.c), Times4(y.d));
    Sum4Plus(Times4(x.a), Times6(x.b), x.c, Double(x.d), Times4(y.a), Times6(y.b), y.c, Double(y.d));
    Sum4Plus(Times6(x.a), Times4(x.b), Double(x.c), x.d, Times6(y.a), Times4(y.b), Double(y.c), y.d);
  }

  lemma ThetaTwiceA(a: bv8)
    ensures ThetaRow(ThetaRow(Col(a, 0, 0, 0))) == Col(a, 0, 0, 0)
  {
  }

  lemma ThetaTwiceB(b: bv8)
    ensures ThetaRow(ThetaRow(Col(0, b, 0, 0))) == Col(0, b, 0, 0)
  {
  }

  lemma ThetaTwiceC(c: bv8)
    ensures ThetaRow(ThetaRow(Col(0, 0, c, 0))) == Col(0, 0, c, 0)
  {
  }

  lemma ThetaTwiceD(d: bv8)
    ensures ThetaRow(ThetaRow(Col(0, 0, 0, d))) == Col(0, 0, 0, d)
  {
  }

  lemma ThetaTwiceAdd(x: Col, y: Col)
    requires ThetaRow(ThetaRow(x)) == x && ThetaRow(ThetaRow(y)) == y
    ensures ThetaRow(ThetaRow(Add(x, y))) == Add(x, y)
  {
    hide Add, ThetaRow;
    ThetaRowAdd(x, y);
    ThetaRowAdd(ThetaRow(x), ThetaRow(y));
  }

  lemma ThetaRowTwice(x: Col)
    ensures ThetaRow(ThetaRow(x)) == x
  {
    hide ThetaRow;
    var a, b, c, d := Col(x.a, 0, 0, 0), Col(0, x.b, 0, 0), Col(0, 0, x.c, 0), Col(0, 0, 0, x.d);
    ThetaTwiceA(x.a);
    ThetaTwiceB(x.b);
    ThetaTwiceC(x.c);
    ThetaTwiceD(x.d);
    ThetaTwiceAdd(a, b);
    ThetaTwiceAdd(c, d);
    ThetaTwiceAdd(Add(a, b), Add(c, d));
    assert Add(Add(a, b), Add(c, d)) == x;
  }

  lemma ThetaTwice(x: Block)
    ensures Theta(Theta(x)) == x
  {
    hide ThetaRow;
    ThetaRowTwice(x.c0);
    ThetaRowTwice(x.c1);
    ThetaRowTwice(x.c2);
    ThetaRowTwice(x.c3);
  }

  lemma ThetaAdd(x: Block, y: Block)
    ensures Theta(AddKey(x, y)) == AddKey(Theta(x), Theta(y))
  {
    hide ThetaRow, Add;
    ThetaRowAdd(x.c0, y.c0);
    ThetaRowAdd(x.c1, y.c1);
    ThetaRowAdd(x.c2, y.c2);
    ThetaRowAdd(x.c3, y.c3);
  }

  // ---------- the cipher undoes itself ----------

  /** A full round that starts from the end of an earlier round gives the end of the round before it. */
  lemma RoundBack(s: Block, k: Block)
    ensures AddKey(Theta(AddKey(Theta(s), k)), Theta(k)) == s
  {
    hide AddKey, Theta;
    ThetaAdd(Theta(s), k);
    ThetaTwice(s);
    AddKeyTwice(s, Theta(k));
  }

  lemma {:induction false} RoundsMeet(e: seq<Block>, d: seq<Block>, x: Block, r: nat)
    requires Inverts(e, d) && r < |e| - 1
    ensures Rounds(d, Crypt(e, x), r) == Tau(Gamma(Rounds(e, x, |e| - 2 - r)))
  {
    hide AddKey, Gamma, Tau, Theta;
    var n := |e| - 1;
    if r == 0 {
      AddKeyTwice(Tau(Gamma(Rounds(e, x, n - 1))), e[n]);
    } else {
      RoundsMeet(e, d, x, r - 1);
      TauGammaTwice(Rounds(e, x, n - r));
      RoundBack(Tau(Gamma(Rounds(e, x, n - r - 1))), e[n - r]);
    }
  }

  /** The cipher on the inverse schedule undoes the cipher, for any schedule and any number of rounds. */
  lemma CryptInverse(e: seq<Block>, d: seq<Block>, x: Block)
    requires Inverts(e, d)
    ensures Crypt(d, Crypt(e, x)) == x
  {
    hide AddKey, Gamma, Tau, Theta;
    RoundsMeet(e, d, x, |e| - 2);
    TauGammaTwice(Rounds(e, x, 0));
    AddKeyTwice(x, e[0]);
  }
}
