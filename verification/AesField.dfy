/**
Bytes as elements of GF(2^8) with the polynomial of the AES, section 4.2 of FIPS-197, and its
S-box, section 5.1.1: the multiplicative inverse followed by an affine map.
*/
module AesField {
  import opened Bytes

  /** Multiplication by x. */
  function Xtime(b: bv8): bv8 {
    (b << 1) ^ ((b >> 7) * 0x1b)
  }

  function Mul(a: bv8, b: bv8): bv8 {
    var a1 := Xtime(a);
    var a2 := Xtime(a1);
    var a3 := Xtime(a2);
    var a4 := Xtime(a3);
    var a5 := Xtime(a4);
    var a6 := Xtime(a5);
    var a7 := Xtime(a6);
    (if b & 1 != 0 then a else 0) ^ (if b & 2 != 0 then a1 else 0) ^
    (if b & 4 != 0 then a2 else 0) ^ (if b & 8 != 0 then a3 else 0) ^
    (if b & 16 != 0 then a4 else 0) ^ (if b & 32 != 0 then a5 else 0) ^
    (if b & 64 != 0 then a6 else 0) ^ (if b & 128 != 0 then a7 else 0)
  }

  /** The 254th power: the multiplicative inverse, and 0 for 0. */
  function Inverse(x: bv8): bv8 {
    var x2 := Mul(x, x);
    var x3 := Mul(x2, x);
    var x6 := Mul(x3, x3);
    var x12 := Mul(x6, x6);
    var x15 := Mul(x12, x3);
    var x30 := Mul(x15, x15);
    var x60 := Mul(x30, x30);
    var x120 := Mul(x60, x60);
    var x240 := Mul(x120, x120);
    var x252 := Mul(x240, x12);
    Mul(x252, x2)
  }

  function Rotl1(b: bv8): bv8 {
    (b << 1) | (b >> 7)
  }

  function Affine(b: bv8): bv8 {
    var b1 := Rotl1(b);
    var b2 := Rotl1(b1);
    var b3 := Rotl1(b2);
    var b4 := Rotl1(b3);
    b ^ b1 ^ b2 ^ b3 ^ b4 ^ 0x63
  }

  function InvAffine(b: bv8): bv8 {
    var b1 := Rotl1(b);
    var b3 := Rotl1(Rotl1(b1));
    var b6 := Rotl1(Rotl1(Rotl1(b3)));
    b1 ^ b3 ^ b6 ^ 0x05
  }

  /** The S-box. */
  function Sub(b: bv8): bv8 {
    Affine(Inverse(b))
  }

  /** The inverse S-box. */
  function InvSub(b: bv8): bv8 {
    Inverse(InvAffine(b))
  }

  lemma XtimePlus(a: bv8, b: bv8)
    ensures Xtime(Plus(a, b)) == Plus(Xtime(a), Xtime(b))
  {
  }

  lemma AffineInverse(b: bv8)
    ensures InvAffine(Affine(b)) == b
  {
  }

  lemma InverseTwice0(x: bv8)
    requires x & 0xc0 == 0x00
    ensures Inverse(Inverse(x)) == x
  {
  }

  lemma InverseTwice1(x: bv8)
    requires x & 0xc0 == 0x40
    ensures Inverse(Inverse(x)) == x
  {
  }

  lemma InverseTwice2(x: bv8)
    requires x & 0xc0 == 0x80
    ensures Inverse(Inverse(x)) == x
  {
  }

  lemma InverseTwice3(x: bv8)
    requires x & 0xc0 == 0xc0
    ensures Inverse(Inverse(x)) == x
  {
  }

  /** Inverting is an involution; the four quarters of the field are separate proofs. */
  lemma InverseTwice(x: bv8)
    ensures Inverse(Inverse(x)) == x
  {
    hide Inverse;
    var h := x & 0xc0;
    if h == 0x00 {
      InverseTwice0(x);
    } else if h == 0x40 {
      InverseTwice1(x);
    } else if h == 0x80 {
      InverseTwice2(x);
    } else {
      InverseTwice3(x);
    }
  }

  /** The two S-boxes undo each other. */
  lemma SubInverse(b: bv8)
    ensures InvSub(Sub(b)) == b
  {
    hide Inverse, Affine, InvAffine;
    AffineInverse(Inverse(b));
    InverseTwice(b);
  }
}
