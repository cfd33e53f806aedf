/**
32-bit words as columns of four bytes, the first in the low byte.
*/
module Words {
  import opened Bytes

  function Byte0(x: bv32): bv8 {
    (x & 0xff) as bv8
  }

  function Byte1(x: bv32): bv8 {
    ((x >> 8) & 0xff) as bv8
  }

  function Byte2(x: bv32): bv8 {
    ((x >> 16) & 0xff) as bv8
  }

  function Byte3(x: bv32): bv8 {
    ((x >> 24) & 0xff) as bv8
  }

  /** The column that a word holds. */
  function Unpack(x: bv32): Col {
    Col(Byte0(x), Byte1(x), Byte2(x), Byte3(x))
  }

  /** The word for a column: what le32_to_cpu makes of four bytes. */
  function Pack(x: Col): bv32 {
    (x.a as bv32) | ((x.b as bv32) << 8) | ((x.c as bv32) << 16) | ((x.d as bv32) << 24)
  }

  /** The exclusive or of words. */
  function Xor(x: bv32, y: bv32): bv32 {
    x ^ y
  }

  function Xor3(x: bv32, y: bv32, z: bv32): bv32 {
    Xor(Xor(x, y), z)
  }

  function Xor4(p: bv32, q: bv32, r: bv32, s: bv32): bv32 {
    Xor(Xor3(p, q, r), s)
  }

  lemma UnpackPack(x: Col)
    ensures Unpack(Pack(x)) == x
  {
  }

  lemma PackUnpack(x: bv32)
    ensures Pack(Unpack(x)) == x
  {
  }

  lemma UnpackXor(x: bv32, y: bv32)
    ensures Unpack(Xor(x, y)) == Add(Unpack(x), Unpack(y))
  {
  }

  lemma UnpackXor4(p: Col, q: Col, r: Col, s: Col)
    ensures Unpack(Xor4(Pack(p), Pack(q), Pack(r), Pack(s))) == Add(Add(Add(p, q), r), s)
  {
    hide Unpack, Pack, Add, Xor;
    UnpackPack(p);
    UnpackPack(q);
    UnpackPack(r);
    UnpackPack(s);
    UnpackXor(Pack(p), Pack(q));
    UnpackXor(Xor(Pack(p), Pack(q)), Pack(r));
    UnpackXor(Xor3(Pack(p), Pack(q), Pack(r)), Pack(s));
  }

  /** Four columns added row by row. */
  lemma Sum4Cols(p: Col, q: Col, r: Col, s: Col)
    ensures Add(Add(Add(p, q), r), s) ==
            Col(Sum4(p.a, q.a, r.a, s.a), Sum4(p.b, q.b, r.b, s.b), Sum4(p.c, q.c, r.c, s.c), Sum4(p.d, q.d, r.d, s.d))
  {
    hide Plus;
    PlusAssoc(Plus(p.a, q.a), r.a, s.a);
    PlusAssoc(Plus(p.b, q.b), r.b, s.b);
    PlusAssoc(Plus(p.c, q.c), r.c, s.c);
    PlusAssoc(Plus(p.d, q.d), r.d, s.d);
  }

  lemma Sum4Zeros(x: Col)
    ensures Col(Sum4(x.a, 0, 0, 0), Sum4(0, x.b, 0, 0), Sum4(0, 0, x.c, 0), Sum4(0, 0, 0, x.d)) == x
  {
  }
}
