/**
Bytes as vectors over GF(2), four of them in a column, and four columns in a block: the addition
that both ciphers share.
*/
module Bytes {

  /** Addition: exclusive or. */
  function Plus(a: bv8, b: bv8): bv8 {
    a ^ b
  }

  function Sum4(p: bv8, q: bv8, r: bv8, s: bv8): bv8 {
    Plus(Plus(p, q), Plus(r, s))
  }

  /** Four bytes: a column or a row of a state, or a word of a key schedule. */
  datatype Col = Col(a: bv8, b: bv8, c: bv8, d: bv8)

  datatype Block = Block(c0: Col, c1: Col, c2: Col, c3: Col)

  function Add(x: Col, y: Col): Col {
    Col(Plus(x.a, y.a), Plus(x.b, y.b), Plus(x.c, y.c), Plus(x.d, y.d))
  }

  function AddKey(x: Block, k: Block): Block {
    Block(Add(x.c0, k.c0), Add(x.c1, k.c1), Add(x.c2, k.c2), Add(x.c3, k.c3))
  }

  lemma PlusSwap(a: bv8, b: bv8)
    ensures Plus(a, b) == Plus(b, a)
  {
  }

  lemma PlusAssoc(a: bv8, b: bv8, c: bv8)
    ensures Plus(a, Plus(b, c)) == Plus(Plus(a, b), c)
  {
  }

  lemma PlusSelf(a: bv8, b: bv8)
    ensures Plus(Plus(a, b), b) == a
  {
  }

  /** A sum of two sums may be taken the other way round. */
  lemma PlusCross(a: bv8, b: bv8, c: bv8, d: bv8)
    ensures Plus(Plus(a, b), Plus(c, d)) == Plus(Plus(a, c), Plus(b, d))
  {
    hide Plus;
    PlusAssoc(Plus(a, b), c, d);
    PlusAssoc(a, b, c);
    PlusSwap(b, c);
    PlusAssoc(a, c, b);
    PlusAssoc(Plus(a, c), b, d);
  }

  lemma Sum4Plus(p: bv8, q: bv8, r: bv8, s: bv8, p': bv8, q': bv8, r': bv8, s': bv8)
    ensures Sum4(Plus(p, p'), Plus(q, q'), Plus(r, r'), Plus(s, s')) == Plus(Sum4(p, q, r, s), Sum4(p', q', r', s'))
  {
    hide Plus;
    PlusCross(p, p', q, q');
    PlusCross(r, r', s, s');
    PlusCross(Plus(p, q), Plus(p', q'), Plus(r, s), Plus(r', s'));
  }

  lemma AddTwice(x: Col, y: Col)
    ensures Add(Add(x, y), y) == x
  {
    hide Plus;
    PlusSelf(x.a, y.a);
    PlusSelf(x.b, y.b);
    PlusSelf(x.c, y.c);
    PlusSelf(x.d, y.d);
  }

  lemma AddKeyTwice(x: Block, k: Block)
    ensures AddKey(AddKey(x, k), k) == x
  {
    hide Add;
    AddTwice(x.c0, k.c0);
    AddTwice(x.c1, k.c1);
    AddTwice(x.c2, k.c2);
    AddTwice(x.c3, k.c3);
  }

  lemma AddSwap(x: Col, y: Col)
    ensures Add(x, y) == Add(y, x)
  {
    hide Plus;
    PlusSwap(x.a, y.a);
    PlusSwap(x.b, y.b);
    PlusSwap(x.c, y.c);
    PlusSwap(x.d, y.d);
  }

  // ---------- blocks as bytes ----------

  function ColAt(bytes: seq<bv8>, i: nat): Col
    requires 4 * i + 3 < |bytes|
  {
    Col(bytes[4 * i], bytes[4 * i + 1], bytes[4 * i + 2], bytes[4 * i + 3])
  }

  /** Bytes taken four at a time. */
  function Cols(bytes: seq<bv8>): (cols: seq<Col>)
    ensures |cols| == |bytes| / 4
  {
    seq(|bytes| / 4, i requires 0 <= i < |bytes| / 4 => ColAt(bytes, i))
  }

  function ToBlock(bytes: seq<bv8>): Block
    requires |bytes| == 16
  {
    Block(ColAt(bytes, 0), ColAt(bytes, 1), ColAt(bytes, 2), ColAt(bytes, 3))
  }

  function ColBytes(x: Col): seq<bv8> {
    [x.a, x.b, x.c, x.d]
  }

  function FromBlock(x: Block): seq<bv8> {
    ColBytes(x.c0) + ColBytes(x.c1) + ColBytes(x.c2) + ColBytes(x.c3)
  }

  lemma BlockBytes(x: Block)
    ensures |FromBlock(x)| == 16 && ToBlock(FromBlock(x)) == x
  {
  }

  lemma BytesBlock(bytes: seq<bv8>)
    requires |bytes| == 16
    ensures FromBlock(ToBlock(bytes)) == bytes
  {
  }
}
