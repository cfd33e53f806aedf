/**
The AES as FIPS-197 states it: the cipher of section 5.1, the inverse cipher of section 5.3, the
equivalent inverse cipher of section 5.3.5 and the key expansion of section 5.2, on blocks of four
columns of four bytes.
*/
module AesSpec {
  import opened Bytes
  import opened AesField

  /** A key schedule: one block per round and one to start with. */
  type Schedule = seq<Block>

  function SubCol(x: Col): Col {
    Col(Sub(x.a), Sub(x.b), Sub(x.c), Sub(x.d))
  }

  function InvSubCol(x: Col): Col {
    Col(InvSub(x.a), InvSub(x.b), InvSub(x.c), InvSub(x.d))
  }

  function SubBytes(x: Block): Block {
    Block(SubCol(x.c0), SubCol(x.c1), SubCol(x.c2), SubCol(x.c3))
  }

  function InvSubBytes(x: Block): Block {
    Block(InvSubCol(x.c0), InvSubCol(x.c1), InvSubCol(x.c2), InvSubCol(x.c3))
  }

  /** Row r moves r columns to the left. */
  function ShiftRows(x: Block): Block {
    Block(Col(x.c0.a, x.c1.b, x.c2.c, x.c3.d),
          Col(x.c1.a, x.c2.b, x.c3.c, x.c0.d),
          Col(x.c2.a, x.c3.b, x.c0.c, x.c1.d),
          Col(x.c3.a, x.c0.b, x.c1.c, x.c2.d))
  }

  function InvShiftRows(x: Block): Block {
    Block(Col(x.c0.a, x.c3.b, x.c2.c, x.c1.d),
          Col(x.c1.a, x.c0.b, x.c3.c, x.c2.d),
          Col(x.c2.a, x.c1.b, x.c0.c, x.c3.d),
          Col(x.c3.a, x.c2.b, x.c1.c, x.c0.d))
  }

  function Times3(b: bv8): bv8 {
    Plus(Xtime(b), b)
  }

  function Times9(b: bv8): bv8 {
    Plus(Xtime(Xtime(Xtime(b))), b)
  }

  function Times11(b: bv8): bv8 {
    Plus(Xtime(b), Times9(b))
  }

  function Times13(b: bv8): bv8 {
    Plus(Xtime(Xtime(b)), Times9(b))
  }

  function Times14(b: bv8): bv8 {
    Plus(Plus(Xtime(b), Xtime(Xtime(b))), Xtime(Xtime(Xtime(b))))
  }

  function Mix(x: Col): Col {
    Col(Sum4(Xtime(x.a), Times3(x.b), x.c, x.d),
        Sum4(x.a, Xtime(x.b), Times3(x.c), x.d),
        Sum4(x.a, x.b, Xtime(x.c), Times3(x.d)),
        Sum4(Times3(x.a), x.b, x.c, Xtime(x.d)))
  }

  function InvMix(x: Col): Col {
    Col(Sum4(Times14(x.a), Times11(x.b), Times13(x.c), Times9(x.d)),
        Sum4(Times9(x.a), Times14(x.b), Times11(x.c), Times13(x.d)),
        Sum4(Times13(x.a), Times9(x.b), Times14(x.c), Times11(x.d)),
        Sum4(Times11(x.a), Times13(x.b), Times9(x.c), Times14(x.d)))
  }

  function MixColumns(x: Block): Block {
    Block(Mix(x.c0), Mix(x.c1), Mix(x.c2), Mix(x.c3))
  }

  function InvMixColumns(x: Block): Block {
    Block(InvMix(x.c0), InvMix(x.c1), InvMix(x.c2), InvMix(x.c3))
  }

  /** The state after the initial key addition and r full rounds. */
  function Rounds(w: Schedule, x: Block, r: nat): Block
    requires r < |w|
  {
    if r == 0 then AddKey(x, w[0])
    else AddKey(MixColumns(ShiftRows(SubBytes(Rounds(w, x, r - 1)))), w[r])
  }

  /** Cipher, with |w| - 1 rounds, the last one without MixColumns. */
  function Cipher(w: Schedule, x: Block): Block
    requires |w| >= 2
  {
    AddKey(ShiftRows(SubBytes(Rounds(w, x, |w| - 2))), w[|w| - 1])
  }

  /** The inverse cipher after the initial key addition and r full rounds. */
  function InvRounds(w: Schedule, y: Block, r: nat): Block
    requires r < |w|
  {
    var n := |w| - 1;
    if r == 0 then AddKey(y, w[n])
    else InvMixColumns(AddKey(InvSubBytes(InvShiftRows(InvRounds(w, y, r - 1))), w[n - r]))
  }

  /** InvCipher */
  function InvCipher(w: Schedule, y: Block): Block
    requires |w| >= 2
  {
    AddKey(InvSubBytes(InvShiftRows(InvRounds(w, y, |w| - 2))), w[0])
  }

  /** EqInvCipher runs like the cipher itself, on a schedule of its own that is used front to back. */
  function EqRounds(dw: Schedule, y: Block, r: nat): Block
    requires r < |dw|
  {
    if r == 0 then AddKey(y, dw[0])
    else AddKey(InvMixColumns(InvShiftRows(InvSubBytes(EqRounds(dw, y, r - 1)))), dw[r])
  }

  function EqInvCipher(dw: Schedule, y: Block): Block
    requires |dw| >= 2
  {
    AddKey(InvShiftRows(InvSubBytes(EqRounds(dw, y, |dw| - 2))), dw[|dw| - 1])
  }

  /** dw is the schedule for decryption: w backwards, all but the ends passed through InvMixColumns. */
  ghost predicate Reversed(w: Schedule, dw: Schedule) {
    && |dw| == |w| >= 2
    && dw[0] == w[|w| - 1] && dw[|w| - 1] == w[0]
    && forall r :: 0 < r < |w| - 1 ==> dw[r] == InvMixColumns(w[|w| - 1 - r])
  }

  // ---------- key expansion, section 5.2 ----------

  /** RotWord */
  function RotCol(x: Col): Col {
    Col(x.b, x.c, x.d, x.a)
  }

  function PowerOfX(n: int): bv8 {
    if n <= 0 then 1 else Xtime(PowerOfX(n - 1))
  }

  /** The round constant, for j from 1. */
  function Rcon(j: int): Col {
    Col(PowerOfX(j - 1), 0, 0, 0)
  }

  /** What word i of the schedule adds to the word Nk places before it. */
  function KeyTemp(nk: nat, i: nat, temp: Col): Col
    requires 0 < nk <= i
  {
    if i % nk == 0 then Add(SubCol(RotCol(temp)), Rcon(i / nk))
    else if nk > 6 && i % nk == 4 then SubCol(temp)
    else temp
  }

  /** Word i of the schedule for a key of Nk words. */
  function KeyWord(key: seq<Col>, i: nat): Col
    requires |key| > 0
  {
    if i < |key| then key[i]
    else Add(KeyWord(key, i - |key|), KeyTemp(|key|, i, KeyWord(key, i - 1)))
  }

  function KeySchedule(key: seq<Col>): (w: Schedule)
    requires |key| > 0
    ensures |w| == |key| + 7
  {
    seq(|key| + 7, r requires r >= 0 =>
      Block(KeyWord(key, 4 * r), KeyWord(key, 4 * r + 1), KeyWord(key, 4 * r + 2), KeyWord(key, 4 * r + 3)))
  }

  // ---------- the layers undo each other ----------

  lemma SubColInverse(x: Col)
    ensures InvSubCol(SubCol(x)) == x
  {
    hide Sub, InvSub;
    SubInverse(x.a);
    SubInverse(x.b);
    SubInverse(x.c);
    SubInverse(x.d);
  }

  lemma SubBytesInverse(x: Block)
    ensures InvSubBytes(SubBytes(x)) == x
  {
    hide SubCol, InvSubCol;
    SubColInverse(x.c0);
    SubColInverse(x.c1);
    SubColInverse(x.c2);
    SubColInverse(x.c3);
  }

  lemma ShiftRowsInverse(x: Block)
    ensures InvShiftRows(ShiftRows(x)) == x
  {
  }

  lemma ShiftSubCommute(x: Block)
    ensures InvShiftRows(InvSubBytes(x)) == InvSubBytes(InvShiftRows(x))
  {
    hide InvSub;
  }

  // ---------- the column mixers are linear ----------

  /** Every multiplier that the mixers use distributes over addition. */
  lemma TimesPlus(a: bv8, b: bv8)
    ensures Xtime(Plus(a, b)) == Plus(Xtime(a), Xtime(b))
    ensures Times3(Plus(a, b)) == Plus(Times3(a), Times3(b))
    ensures Times9(Plus(a, b)) == Plus(Times9(a), Times9(b))
    ensures Times11(Plus(a, b)) == Plus(Times11(a), Times11(b))
    ensures Times13(Plus(a, b)) == Plus(Times13(a), Times13(b))
    ensures Times14(Plus(a, b)) == Plus(Times14(a), Times14(b))
  {
    hide Plus, Xtime;
    var a2, b2 := Xtime(a), Xtime(b);
    var a4, b4 := Xtime(a2), Xtime(b2);
    var a8, b8 := Xtime(a4), Xtime(b4);
    XtimePlus(a, b);
    XtimePlus(a2, b2);
    XtimePlus(a4, b4);
    PlusCross(a2, b2, a, b);
    PlusCross(a8, b8, a, b);
    PlusCross(a2, b2, Times9(a), Times9(b));
    PlusCross(a4, b4, Times9(a), Times9(b));
    PlusCross(a2, b2, a4, b4);
    PlusCross(Plus(a2, a4), Plus(b2, b4), a8, b8);
  }

  lemma InvMixAdd(x: Col, y: Col)
    ensures InvMix(Add(x, y)) == Add(InvMix(x), InvMix(y))
  {
    hide Plus, Xtime, Sum4, Times9, Times11, Times13, Times14;
    TimesPlus(x.a, y.a);
    TimesPlus(x.b, y.b);
    TimesPlus(x.c, y.c);
    TimesPlus(x.d, y.d);
    Sum4Plus(Times14(x.a), Times11(x.b), Times13(x.c), Times9(x.d),
             Times14(y.a), Times11(y.b), Times13(y.c), Times9(y.d));
    Sum4Plus(Times9(x.a), Times14(x.b), Times11(x.c), Times13(x.d),
             Times9(y.a), Times14(y.b), Times11(y.c), Times13(y.d));
    Sum4Plus(Times13(x.a), Times9(x.b), Times14(x.c), Times11(x.d),
             Times13(y.a), Times9(y.b), Times14(y.c), Times11(y.d));
    Sum4Plus(Times11(x.a), Times13(x.b), Times9(x.c), Times14(x.d),
             Times11(y.a), Times13(y.b), Times9(y.c), Times14(y.d));
  }

  lemma MixAdd(x: Col, y: Col)
    ensures Mix(Add(x, y)) == Add(Mix(x), Mix(y))
  {
    hide Plus, Xtime, Sum4, Times3;
    TimesPlus(x.a, y.a);
    TimesPlus(x.b, y.b);
    TimesPlus(x.c, y.c);
    TimesPlus(x.d, y.d);
    Sum4Plus(Xtime(x.a), Times3(x.b), x.c, x.d, Xtime(y.a), Times3(y.b), y.c, y.d);
    Sum4Plus(x.a, Xtime(x.b), Times3(x.c), x.d, y.a, Xtime(y.b), Times3(y.c), y.d);
    Sum4Plus(x.a, x.b, Xtime(x.c), Times3(x.d), y.a, y.b, Xtime(y.c), Times3(y.d));
    Sum4Plus(Times3(x.a), x.b, x.c, Xtime(x.d), Times3(y.a), y.b, y.c, Xtime(y.d));
  }

  // ---------- InvMix undoes Mix: on columns with one byte set, and so on their sums ----------

  lemma InvMixMixA(a: bv8)
    ensures InvMix(Mix(Col(a, 0, 0, 0))) == Col(a, 0, 0, 0)
  {
  }

  lemma InvMixMixB(b: bv8)
    ensures InvMix(Mix(Col(0, b, 0, 0))) == Col(0, b, 0, 0)
  {
  }

  lemma InvMixMixC(c: bv8)
    ensures InvMix(Mix(Col(0, 0, c, 0))) == Col(0, 0, c, 0)
  {
  }

  lemma InvMixMixD(d: bv8)
    ensures InvMix(Mix(Col(0, 0, 0, d))) == Col(0, 0, 0, d)
  {
  }

  lemma InvMixMixAdd(x: Col, y: Col)
    requires InvMix(Mix(x)) == x && InvMix(Mix(y)) == y
    ensures InvMix(Mix(Add(x, y))) == Add(x, y)
  {
    hide Add, Mix, InvMix;
    MixAdd(x, y);
    InvMixAdd(Mix(x), Mix(y));
  }

  lemma InvMixMix(x: Col)
    ensures InvMix(Mix(x)) == x
  {
    hide Mix, InvMix;
    var a, b, c, d := Col(x.a, 0, 0, 0), Col(0, x.b, 0, 0), Col(0, 0, x.c, 0), Col(0, 0, 0, x.d);
    InvMixMixA(x.a);
    InvMixMixB(x.b);
    InvMixMixC(x.c);
    InvMixMixD(x.d);
    InvMixMixAdd(a, b);
    InvMixMixAdd(c, d);
    InvMixMixAdd(Add(a, b), Add(c, d));
    assert Add(Add(a, b), Add(c, d)) == x;
  }

  // ---------- the ciphers undo each other ----------

  lemma MixColumnsInverse(x: Block)
    ensures InvMixColumns(MixColumns(x)) == x
  {
    hide Mix, InvMix;
    InvMixMix(x.c0);
    InvMixMix(x.c1);
    InvMixMix(x.c2);
    InvMixMix(x.c3);
  }

  lemma InvMixColumnsAdd(x: Block, k: Block)
    ensures InvMixColumns(AddKey(x, k)) == AddKey(InvMixColumns(x), InvMixColumns(k))
  {
    hide Add, InvMix;
    InvMixAdd(x.c0, k.c0);
    InvMixAdd(x.c1, k.c1);
    InvMixAdd(x.c2, k.c2);
    InvMixAdd(x.c3, k.c3);
  }

  /** r rounds into the inverse cipher, the state is the one that the cipher had r rounds before its end. */
  lemma {:induction false} InvRoundsMeet(w: Schedule, x: Block, r: nat)
    requires r + 1 < |w|
    ensures InvRounds(w, Cipher(w, x), r) == ShiftRows(SubBytes(Rounds(w, x, |w| - 2 - r)))
  {
    hide AddKey, SubBytes, InvSubBytes, ShiftRows, InvShiftRows, MixColumns, InvMixColumns;
    var n := |w| - 1;
    if r == 0 {
      AddKeyTwice(ShiftRows(SubBytes(Rounds(w, x, n - 1))), w[n]);
    } else {
      InvRoundsMeet(w, x, r - 1);
      var before := ShiftRows(SubBytes(Rounds(w, x, n - 1 - r)));
      ShiftRowsInverse(SubBytes(Rounds(w, x, n - r)));
      SubBytesInverse(Rounds(w, x, n - r));
      AddKeyTwice(MixColumns(before), w[n - r]);
      MixColumnsInverse(before);
    }
  }

  /** The inverse cipher undoes the cipher, whatever the key schedule. */
  lemma CipherInverse(w: Schedule, x: Block)
    requires |w| >= 2
    ensures InvCipher(w, Cipher(w, x)) == x
  {
    hide AddKey, SubBytes, InvSubBytes, ShiftRows, InvShiftRows, MixColumns, InvMixColumns;
    InvRoundsMeet(w, x, |w| - 2);
    ShiftRowsInverse(SubBytes(Rounds(w, x, 0)));
    SubBytesInverse(Rounds(w, x, 0));
    AddKeyTwice(x, w[0]);
  }

  lemma {:induction false} EqRoundsAgree(w: Schedule, dw: Schedule, y: Block, r: nat)
    requires Reversed(w, dw) && r < |w| - 1
    ensures EqRounds(dw, y, r) == InvRounds(w, y, r)
  {
    hide AddKey, InvSubBytes, InvShiftRows, InvMixColumns;
    if r > 0 {
      EqRoundsAgree(w, dw, y, r - 1);
      ShiftSubCommute(InvRounds(w, y, r - 1));
      InvMixColumnsAdd(InvSubBytes(InvShiftRows(InvRounds(w, y, r - 1))), w[|w| - 1 - r]);
    }
  }

  /** The equivalent inverse cipher computes the inverse cipher. */
  lemma EqInvCipherAgrees(w: Schedule, dw: Schedule, y: Block)
    requires Reversed(w, dw)
    ensures EqInvCipher(dw, y) == InvCipher(w, y)
  {
    hide AddKey, InvSubBytes, InvShiftRows, InvMixColumns;
    EqRoundsAgree(w, dw, y, |w| - 2);
    ShiftSubCommute(InvRounds(w, y, |w| - 2));
  }
}
