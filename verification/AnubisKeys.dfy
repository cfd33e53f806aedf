/**
The key schedule of Anubis: the key state kappa evolves from round to round, and a round key is read
off it by evaluating one polynomial per byte.  The source evaluates the polynomials by Horner's rule;
here they are also sums of powers, and the two are the same.
*/
module AnubisKeys {
  import opened Bytes
  import opened AnubisSpec

  /** The four points at which the columns of the key state are evaluated: 1, 2, 6 and 8. */
  datatype Point = One | Two | Six | Eight

  function Scale(g: Point, b: bv8): bv8 {
    match g
    case One => b
    case Two => Double(b)
    case Six => Times6(b)
    case Eight => Times8(b)
  }

  /** g to the power n, times b. */
  function ScaleN(g: Point, n: nat, b: bv8): bv8 {
    if n == 0 then b else Scale(g, ScaleN(g, n - 1, b))
  }

  /** The sum over i of the i-th power of g times s[i]. */
  function PowerSum(g: Point, s: seq<bv8>): bv8 {
    if s == [] then 0 else Plus(PowerSum(g, s[..|s| - 1]), ScaleN(g, |s| - 1, s[|s| - 1]))
  }

  function Horner(g: Point, s: seq<bv8>): bv8 {
    if s == [] then 0 else Plus(s[0], Scale(g, Horner(g, s[1..])))
  }

  lemma ScalePlus(g: Point, a: bv8, b: bv8)
    ensures Scale(g, Plus(a, b)) == Plus(Scale(g, a), Scale(g, b))
  {
    hide Plus, Double, Times6, Times8;
    TimesPlus(a, b);
  }

  lemma ScaleZero(g: Point)
    ensures Scale(g, 0) == 0
  {
  }

  lemma PlusZero(b: bv8)
    ensures Plus(b, 0) == b == Plus(0, b)
  {
  }

  lemma {:induction false} HornerAppend(g: Point, s: seq<bv8>, b: bv8)
    ensures Horner(g, s + [b]) == Plus(Horner(g, s), ScaleN(g, |s|, b))
  {
    hide Plus, Scale;
    if s == [] {
      assert (s + [b])[1..] == [];
      ScaleZero(g);
      PlusZero(b);
    } else {
      var t := s[1..];
      assert (s + [b])[1..] == t + [b];
      HornerAppend(g, t, b);
      ScalePlus(g, Horner(g, t), ScaleN(g, |t|, b));
      PlusAssoc(s[0], Scale(g, Horner(g, t)), Scale(g, ScaleN(g, |t|, b)));
    }
  }

  lemma HornerOne(g: Point, b: bv8)
    ensures Horner(g, [b]) == b
  {
    hide Plus, Scale;
    assert [b][1..] == [];
    ScaleZero(g);
    PlusZero(b);
  }

  /** Horner's rule evaluates the polynomial. */
  lemma {:induction false} HornerIsSum(g: Point, s: seq<bv8>)
    ensures Horner(g, s) == PowerSum(g, s)
  {
    hide Plus, ScaleN;
    if s != [] {
      var n := |s| - 1;
      HornerIsSum(g, s[..n]);
      HornerAppend(g, s[..n], s[n]);
      assert s[..n] + [s[n]] == s;
    }
  }

  // ---------- the key state ----------

  /** Byte j of a row. */
  function At(x: Col, j: nat): bv8
    requires j < 4
  {
    if j == 0 then x.a else if j == 1 then x.b else if j == 2 then x.c else x.d
  }

  /** The S-box of byte j of every row of the key state. */
  function Column(kappa: seq<Col>, j: nat): (s: seq<bv8>)
    requires j < 4
    ensures |s| == |kappa|
  {
    seq(|kappa|, i requires 0 <= i < |kappa| => Sub(At(kappa[i], j)))
  }

  /** Row j of a round key. */
  function RoundKeyRow(kappa: seq<Col>, j: nat): Col
    requires j < 4
  {
    var s := Column(kappa, j);
    Col(PowerSum(One, s), PowerSum(Two, s), PowerSum(Six, s), PowerSum(Eight, s))
  }

  function RoundKey(kappa: seq<Col>): Block {
    Block(RoundKeyRow(kappa, 0), RoundKeyRow(kappa, 1), RoundKeyRow(kappa, 2), RoundKeyRow(kappa, 3))
  }

  /** The row that is m above row i, cyclically. */
  function Above(n: nat, i: nat, m: nat): (k: nat)
    requires i < n && m < 4 <= n
    ensures k < n
  {
    if i >= m then i - m else i - m + n
  }

  /** Row i of the diffused key state: byte m comes from m rows above. */
  function EvolvedRow(kappa: seq<Col>, i: nat): Col
    requires |kappa| >= 4 && i < |kappa|
  {
    var n := |kappa|;
    ThetaRow(GammaRow(Col(kappa[i].a, kappa[Above(n, i, 1)].b, kappa[Above(n, i, 2)].c, kappa[Above(n, i, 3)].d)))
  }

  function Evolved(kappa: seq<Col>): (next: seq<Col>)
    requires |kappa| >= 4
    ensures |next| == |kappa|
  {
    seq(|kappa|, i requires 0 <= i < |kappa| => EvolvedRow(kappa, i))
  }

  /** The key state of round r; c(r) is the constant of round r. */
  function Kappa(key: seq<Col>, c: seq<Col>, r: nat): (kappa: seq<Col>)
    requires |key| >= 4 && r <= |c|
    ensures |kappa| == |key|
  {
    if r == 0 then key
    else
      var e := Evolved(Kappa(key, c, r - 1));
      e[0 := Add(e[0], c[r - 1])]
  }

  /** The round keys 0 .. n - 1. */
  function RoundKeys(key: seq<Col>, c: seq<Col>, n: nat): (k: seq<Block>)
    requires |key| >= 4 && n <= |c| + 1
    ensures |k| == n
  {
    seq(n, r requires 0 <= r < n => RoundKey(Kappa(key, c, r)))
  }
}
