/**
crypto/aes_generic.c: the key schedules for both directions, filled in place, and the two ciphers,
which alternate between two buffers of four words.  Both are tied to FIPS-197, and decryption to
encryption, for every key length.
*/
module AesCipher {
  import opened Bytes
  import opened Words
  import opened AesField
  import opened AesSpec
  import opened AesWords

  /** The most words that a key schedule takes: 15 blocks of four. */
  const MAX_WORDS: nat := 60

  predicate KeySize(n: nat) {
    n == 16 || n == 24 || n == 32
  }

  /** FIPS-197 encryption of 16 bytes. */
  function Encrypted(key: seq<bv8>, src: seq<bv8>): seq<bv8>
    requires KeySize(|key|) && |src| == 16
  {
    FromBlock(Cipher(KeySchedule(Cols(key)), ToBlock(src)))
  }

  /** FIPS-197 decryption of 16 bytes. */
  function Decrypted(key: seq<bv8>, src: seq<bv8>): seq<bv8>
    requires KeySize(|key|) && |src| == 16
  {
    FromBlock(InvCipher(KeySchedule(Cols(key)), ToBlock(src)))
  }

  /** Decryption gives back every block that was encrypted, for keys of every length. */
  lemma RoundTrip(key: seq<bv8>, src: seq<bv8>)
    requires KeySize(|key|) && |src| == 16
    ensures |Encrypted(key, src)| == 16
    ensures Decrypted(key, Encrypted(key, src)) == src
  {
    hide Cipher, InvCipher, KeySchedule, Cols, ToBlock, FromBlock;
    var w := KeySchedule(Cols(key));
    CipherInverse(w, ToBlock(src));
    BlockBytes(Cipher(w, ToBlock(src)));
    BytesBlock(src);
  }

  // ---------- the schedules as words ----------

  function BlockAt(k: seq<bv32>, r: nat): Block
    requires 4 * r + 3 < |k|
  {
    Block(Unpack(k[4 * r]), Unpack(k[4 * r + 1]), Unpack(k[4 * r + 2]), Unpack(k[4 * r + 3]))
  }

  /** le32_to_cpu of the i-th four bytes. */
  function LoadWord(bytes: seq<bv8>, i: nat): bv32
    requires 4 * i + 3 < |bytes|
  {
    Pack(ColAt(bytes, i))
  }

  /** A word loaded from the key is the word of the schedule. */
  lemma LoadedKey(bytes: seq<bv8>, i: nat)
    requires 4 * i + 3 < |bytes|
    ensures Unpack(LoadWord(bytes, i)) == KeyWord(Cols(bytes), i)
  {
    UnpackPack(ColAt(bytes, i));
  }

  /** The first n blocks of an array of words. */
  function Blocks(k: seq<bv32>, n: nat): (w: Schedule)
    requires 4 * n <= |k|
    ensures |w| == n
    ensures forall r :: 0 <= r < n ==> w[r] == BlockAt(k, r)
  {
    seq(n, r requires 0 <= r < n => BlockAt(k, r))
  }

  /** The first n words are those of the key expansion. */
  ghost predicate Expanded(enc: seq<bv32>, key: seq<Col>, n: nat)
    requires |key| > 0
  {
    n <= |enc| && forall i :: 0 <= i < n ==> Unpack(enc[i]) == KeyWord(key, i)
  }

  /** Where word i of the encryption schedule goes in the decryption schedule. */
  function Mirror(len: nat, i: nat): int {
    len + 24 - (i - i % 4) + i % 4
  }

  /** The decryption words that come from the encryption words 4 .. n. */
  ghost predicate Mirrored(enc: seq<bv32>, dec: seq<bv32>, len: nat, n: nat) {
    && |enc| == |dec| == MAX_WORDS && KeySize(len) && n <= len + 24
    && forall i :: 4 <= i < n ==> 0 <= Mirror(len, i) < MAX_WORDS && dec[Mirror(len, i)] == ImixCol(enc[i])
  }

  /** The first block of one schedule is the last block of the other. */
  predicate EndsMatch(enc: seq<bv32>, dec: seq<bv32>, len: nat)
    requires |enc| == |dec| == MAX_WORDS && KeySize(len)
  {
    && dec[0] == enc[len + 24] && dec[1] == enc[len + 25] && dec[2] == enc[len + 26] && dec[3] == enc[len + 27]
    && FirstMatch(enc, dec, len)
  }

  predicate FirstMatch(enc: seq<bv32>, dec: seq<bv32>, len: nat)
    requires |enc| == |dec| == MAX_WORDS && KeySize(len)
  {
    dec[len + 24] == enc[0] && dec[len + 25] == enc[1] && dec[len + 26] == enc[2] && dec[len + 27] == enc[3]
  }

  lemma {:induction false} RcoTabOk(i: nat)
    requires i < 10
    ensures Unpack(RcoTab(i)) == Rcon(i + 1)
  {
    assert PowerOfX(0) == 1;
    assert PowerOfX(1) == 2;
    assert PowerOfX(2) == 4;
    assert PowerOfX(3) == 8;
    assert PowerOfX(4) == 16;
    assert PowerOfX(5) == 32;
    assert PowerOfX(6) == 64;
    assert PowerOfX(7) == 128;
    assert PowerOfX(8) == 27;
    assert PowerOfX(9) == 54;
  }

  /** rco_tab */
  function RcoTab(i: nat): bv32
    requires i < 10
  {
    [1, 2, 4, 8, 16, 32, 64, 128, 27, 54][i]
  }

  /** The rotated, substituted word with its constant is what the first word of a turn adds. */
  lemma TurnStarts(nk: nat, temp: Col, i: nat, t: bv32)
    requires KeySize(4 * nk) && i < 10 && Unpack(t) == temp
    ensures nk * (i + 1) >= nk
    ensures Unpack(Xor(LsBox(Ror8(t)), RcoTab(i))) == KeyTemp(nk, nk * (i + 1), temp)
  {
    hide Unpack, Xor, LsBox, Ror8, RcoTab, Rcon, Add, SubCol;
    UnpackRor(t);
    LsBoxOk(Ror8(t));
    RcoTabOk(i);
    UnpackXor(LsBox(Ror8(t)), RcoTab(i));
    Multiple(nk, i + 1);
  }

  lemma Multiple(n: nat, m: nat)
    requires n == 4 || n == 6 || n == 8
    ensures n * m >= m && (n * m) % n == 0 && (n * m) / n == m
  {
    if n == 4 {
      assert (4 * m) % 4 == 0 && (4 * m) / 4 == m;
    } else if n == 6 {
      assert (6 * m) % 6 == 0 && (6 * m) / 6 == m;
    } else {
      assert (8 * m) % 8 == 0 && (8 * m) / 8 == m;
    }
  }

  /** struct crypto_aes_ctx */
  class Context {
    const keyEnc: array<bv32>
    const keyDec: array<bv32>
    var keyLength: nat

    ghost predicate Sized()
      reads this
    {
      keyEnc != keyDec && keyEnc.Length == keyDec.Length == MAX_WORDS
    }

    /** The context holds both schedules of a key. */
    ghost predicate Holds(key: seq<bv8>)
      reads this, keyEnc, keyDec
    {
      && Sized() && KeySize(|key|) && keyLength == |key|
      && Expanded(keyEnc[..], Cols(key), |key| + 28)
      && Mirrored(keyEnc[..], keyDec[..], |key|, |key| + 24)
      && EndsMatch(keyEnc[..], keyDec[..], |key|)
    }

    constructor ()
      ensures Sized() && fresh(keyEnc) && fresh(keyDec) && keyLength == 0
    {
      keyEnc := new bv32[MAX_WORDS];
      keyDec := new bv32[MAX_WORDS];
      keyLength := 0;
    }

    /** The step that the key loops repeat: the next word is t xor the word one key length back. */
    method Chain(from: nat, at: nat, t: bv32, ghost key: seq<Col>, ghost nk: nat) returns (r: bv32)
      requires Sized() && |key| == nk > 0 && at == from + nk < MAX_WORDS
      requires Expanded(keyEnc[..], key, at)
      requires Unpack(t) == KeyTemp(nk, at, KeyWord(key, at - 1))
      modifies keyEnc
      ensures Expanded(keyEnc[..], key, at + 1)
      ensures Unpack(r) == KeyWord(key, at)
    {
      hide Unpack, Xor, Add, KeyTemp;
      r := Xor(t, keyEnc[from]);
      ghost var before := keyEnc[..];
      assert Unpack(before[from]) == KeyWord(key, from);
      keyEnc[at] := r;
      UnpackXor(t, before[from]);
      AddSwap(Unpack(t), KeyWord(key, from));
      assert keyEnc[..] == before[at := r];
    }

    /** loop4 */
    method Loop4(i: nat, t: bv32, ghost key: seq<Col>) returns (r: bv32)
      requires Sized() && |key| == 4 && i < 10
      requires Expanded(keyEnc[..], key, 4 * i + 4) && Unpack(t) == KeyWord(key, 4 * i + 3)
      modifies keyEnc
      ensures Expanded(keyEnc[..], key, 4 * i + 8) && Unpack(r) == KeyWord(key, 4 * i + 7)
    {
      hide Unpack, Xor, LsBox, Ror8, RcoTab, KeyWord, Expanded, SubCol, Add, Rcon;
      TurnStarts(4, KeyWord(key, 4 * i + 3), i, t);
      assert 4 * (i + 1) == 4 * i + 4;
      r := Xor(LsBox(Ror8(t)), RcoTab(i));
      r := Chain(4 * i, 4 * i + 4, r, key, 4);
      r := Chain(4 * i + 1, 4 * i + 5, r, key, 4);
      r := Chain(4 * i + 2, 4 * i + 6, r, key, 4);
      r := Chain(4 * i + 3, 4 * i + 7, r, key, 4);
    }

    /** loop6 */
    method Loop6(i: nat, t: bv32, ghost key: seq<Col>) returns (r: bv32)
      requires Sized() && |key| == 6 && i < 8
      requires Expanded(keyEnc[..], key, 6 * i + 6) && Unpack(t) == KeyWord(key, 6 * i + 5)
      modifies keyEnc
      ensures Expanded(keyEnc[..], key, 6 * i + 12) && Unpack(r) == KeyWord(key, 6 * i + 11)
    {
      hide Unpack, Xor, LsBox, Ror8, RcoTab, KeyWord, Expanded, SubCol, Add, Rcon;
      TurnStarts(6, KeyWord(key, 6 * i + 5), i, t);
      assert 6 * (i + 1) == 6 * i + 6;
      r := Xor(LsBox(Ror8(t)), RcoTab(i));
      r := Chain(6 * i, 6 * i + 6, r, key, 6);
      r := Chain(6 * i + 1, 6 * i + 7, r, key, 6);
      r := Chain(6 * i + 2, 6 * i + 8, r, key, 6);
      r := Chain(6 * i + 3, 6 * i + 9, r, key, 6);
      r := Chain(6 * i + 4, 6 * i + 10, r, key, 6);
      r := Chain(6 * i + 5, 6 * i + 11, r, key, 6);
    }

    /** loop8tophalf */
    method Loop8TopHalf(i: nat, t: bv32, ghost key: seq<Col>) returns (r: bv32)
      requires Sized() && |key| == 8 && i < 7
      requires Expanded(keyEnc[..], key, 8 * i + 8) && Unpack(t) == KeyWord(key, 8 * i + 7)
      modifies keyEnc
      ensures Expanded(keyEnc[..], key, 8 * i + 12) && Unpack(r) == KeyWord(key, 8 * i + 11)
    {
      hide Unpack, Xor, LsBox, Ror8, RcoTab, KeyWord, Expanded, SubCol, Add, Rcon;
      TurnStarts(8, KeyWord(key, 8 * i + 7), i, t);
      assert 8 * (i + 1) == 8 * i + 8;
      r := Xor(LsBox(Ror8(t)), RcoTab(i));
      r := Chain(8 * i, 8 * i + 8, r, key, 8);
      r := Chain(8 * i + 1, 8 * i + 9, r, key, 8);
      r := Chain(8 * i + 2, 8 * i + 10, r, key, 8);
      r := Chain(8 * i + 3, 8 * i + 11, r, key, 8);
    }

    /** loop8 */
    method Loop8(i: nat, t: bv32, ghost key: seq<Col>) returns (r: bv32)
      requires Sized() && |key| == 8 && i < 6
      requires Expanded(keyEnc[..], key, 8 * i + 8) && Unpack(t) == KeyWord(key, 8 * i + 7)
      modifies keyEnc
      ensures Expanded(keyEnc[..], key, 8 * i + 16) && Unpack(r) == KeyWord(key, 8 * i + 15)
    {
      hide Unpack, Xor, LsBox, Ror8, RcoTab, KeyWord, Expanded, SubCol, Add, Rcon;
      r := Loop8TopHalf(i, t, key);
      LsBoxOk(r);
      r := Chain(8 * i + 4, 8 * i + 12, LsBox(r), key, 8);
      r := Chain(8 * i + 5, 8 * i + 13, r, key, 8);
      r := Chain(8 * i + 6, 8 * i + 14, r, key, 8);
      r := Chain(8 * i + 7, 8 * i + 15, r, key, 8);
    }

    /** One more word of the key itself. */
    method Load(inKey: seq<bv8>, i: nat)
      requires Sized() && KeySize(|inKey|) && 4 * i < |inKey|
      requires Expanded(keyEnc[..], Cols(inKey), i)
      modifies keyEnc
      ensures Expanded(keyEnc[..], Cols(inKey), i + 1)
    {
      hide Unpack, LoadWord, KeyWord, Cols;
      ghost var before := keyEnc[..];
      keyEnc[i] := LoadWord(inKey, i);
      LoadedKey(inKey, i);
      assert keyEnc[..] == before[i := LoadWord(inKey, i)];
    }

    method Expand128(ghost key: seq<Col>)
      requires Sized() && |key| == 4 && Expanded(keyEnc[..], key, 4)
      modifies keyEnc
      ensures Expanded(keyEnc[..], key, 44)
    {
      hide Unpack, KeyWord;
      var t := keyEnc[3];
      assert t == keyEnc[..][3];
      for i := 0 to 10
        invariant Expanded(keyEnc[..], key, 4 * i + 4) && Unpack(t) == KeyWord(key, 4 * i + 3)
      {
        t := Loop4(i, t, key);
      }
    }

    method Expand192(inKey: seq<bv8>)
      requires Sized() && |inKey| == 24 && Expanded(keyEnc[..], Cols(inKey), 4)
      modifies keyEnc
      ensures Expanded(keyEnc[..], Cols(inKey), 54)
    {
      hide Unpack, KeyWord;
      Load(inKey, 4);
      Load(inKey, 5);
      var t := keyEnc[5];
      assert t == keyEnc[..][5];
      for i := 0 to 8
        invariant Expanded(keyEnc[..], Cols(inKey), 6 * i + 6) && Unpack(t) == KeyWord(Cols(inKey), 6 * i + 5)
      {
        t := Loop6(i, t, Cols(inKey));
      }
    }

    method Expand256(inKey: seq<bv8>)
      requires Sized() && |inKey| == 32 && Expanded(keyEnc[..], Cols(inKey), 4)
      modifies keyEnc
      ensures Expanded(keyEnc[..], Cols(inKey), 60)
    {
      hide Unpack, KeyWord;
      Load(inKey, 4);
      Load(inKey, 5);
      Load(inKey, 6);
      Load(inKey, 7);
      var t := keyEnc[7];
      assert t == keyEnc[..][7];
      for i := 0 to 6
        invariant Expanded(keyEnc[..], Cols(inKey), 8 * i + 8) && Unpack(t) == KeyWord(Cols(inKey), 8 * i + 7)
      {
        t := Loop8(i, t, Cols(inKey));
      }
      t := Loop8TopHalf(6, t, Cols(inKey));
    }

    /** The first block of the decryption schedule is the last one for encryption. */
    method CopyLast(len: nat)
      requires Sized() && KeySize(len) && FirstMatch(keyEnc[..], keyDec[..], len)
      modifies keyDec
      ensures EndsMatch(keyEnc[..], keyDec[..], len)
    {
      keyDec[0] := keyEnc[len + 24];
      keyDec[1] := keyEnc[len + 25];
      keyDec[2] := keyEnc[len + 26];
      keyDec[3] := keyEnc[len + 27];
    }

    /** The decryption schedule: its first block, and then the inner ones. */
    method Reverse(len: nat)
      requires Sized() && KeySize(len) && FirstMatch(keyEnc[..], keyDec[..], len)
      modifies keyDec
      ensures Mirrored(keyEnc[..], keyDec[..], len, len + 24)
      ensures EndsMatch(keyEnc[..], keyDec[..], len)
    {
      hide ImixCol, Mirrored, EndsMatch, FirstMatch;
      CopyLast(len);
      NoneMirrored(keyEnc[..], keyDec[..], len);
      for i := 4 to len + 24
        invariant Mirrored(keyEnc[..], keyDec[..], len, i)
        invariant EndsMatch(keyEnc[..], keyDec[..], len)
      {
        var j := len + 24 - (i - i % 4) + i % 4;
        ghost var before := keyDec[..];
        MirrorInside(len, i);
        keyDec[j] := ImixCol(keyEnc[i]);
        assert keyDec[..] == before[j := ImixCol(keyEnc[..][i])];
        MirrorNext(keyEnc[..], before, len, i);
        EndsKept(keyEnc[..], before, len, j, ImixCol(keyEnc[..][i]));
      }
    }

    /** The first four words, in both schedules. */
    method LoadFirst(inKey: seq<bv8>)
      requires Sized() && KeySize(|inKey|)
      modifies keyEnc, keyDec
      ensures Expanded(keyEnc[..], Cols(inKey), 4)
      ensures FirstMatch(keyEnc[..], keyDec[..], |inKey|)
    {
      hide Unpack, KeyWord, LoadWord, Cols, Expanded;
      var len := |inKey|;
      NoneExpanded(keyEnc[..], Cols(inKey));
      Load(inKey, 0);
      Load(inKey, 1);
      Load(inKey, 2);
      Load(inKey, 3);
      keyDec[len + 24] := keyEnc[0];
      keyDec[len + 25] := keyEnc[1];
      keyDec[len + 26] := keyEnc[2];
      keyDec[len + 27] := keyEnc[3];
    }

    /** crypto_aes_expand_key */
    method ExpandKey(inKey: seq<bv8>) returns (ok: bool)
      requires Sized()
      modifies this, keyEnc, keyDec
      ensures ok <==> KeySize(|inKey|)
      ensures ok ==> Holds(inKey)
      ensures !ok ==> keyLength == old(keyLength) && keyEnc[..] == old(keyEnc[..]) && keyDec[..] == old(keyDec[..])
    {
      hide Unpack, KeyWord, Cols, Expanded, Mirrored, EndsMatch, ImixCol;
      var len := |inKey|;
      if len != 16 && len != 24 && len != 32 {
        return false;
      }
      keyLength := len;
      ghost var key := Cols(inKey);
      LoadFirst(inKey);
      ghost var first := keyEnc[..];
      if len == 16 {
        Expand128(key);
      } else if len == 24 {
        Expand192(inKey);
        ExpandedLess(keyEnc[..], key, 54, 52);
      } else {
        Expand256(inKey);
      }
      SameStart(first, keyEnc[..], key, len + 28);
      Reverse(len);
      ok := true;
    }

    /** f_nround, into bo from bi, with block kp of the key. */
    method ForwardRound(bo: array<bv32>, bi: array<bv32>, kp: nat, ghost w: Schedule, ghost x: Block)
      requires Sized() && Apart(bo, bi) && 0 < kp < |w| <= 15
      requires w == Blocks(keyEnc[..], |w|) && BlockAt(bi[..], 0) == Rounds(w, x, kp - 1)
      modifies bo
      ensures BlockAt(bo[..], 0) == Rounds(w, x, kp)
    {
      hide Unpack, Rounds, ForwardWord;
      bo[0] := ForwardWord(bi[0], bi[1], bi[2], bi[3], keyEnc[4 * kp]);
      bo[1] := ForwardWord(bi[1], bi[2], bi[3], bi[0], keyEnc[4 * kp + 1]);
      bo[2] := ForwardWord(bi[2], bi[3], bi[0], bi[1], keyEnc[4 * kp + 2]);
      bo[3] := ForwardWord(bi[3], bi[0], bi[1], bi[2], keyEnc[4 * kp + 3]);
      ForwardRoundOk(bi[..], bo[..], keyEnc[..], kp, w, x);
    }

    /** f_lround */
    method ForwardFinal(bo: array<bv32>, bi: array<bv32>, kp: nat, ghost w: Schedule, ghost x: Block)
      requires Sized() && Apart(bo, bi) && 0 < kp == |w| - 1 < 15
      requires w == Blocks(keyEnc[..], |w|) && BlockAt(bi[..], 0) == Rounds(w, x, kp - 1)
      modifies bo
      ensures BlockAt(bo[..], 0) == Cipher(w, x)
    {
      hide Unpack, Rounds, Cipher, ForwardLast;
      bo[0] := ForwardLast(bi[0], bi[1], bi[2], bi[3], keyEnc[4 * kp]);
      bo[1] := ForwardLast(bi[1], bi[2], bi[3], bi[0], keyEnc[4 * kp + 1]);
      bo[2] := ForwardLast(bi[2], bi[3], bi[0], bi[1], keyEnc[4 * kp + 2]);
      bo[3] := ForwardLast(bi[3], bi[0], bi[1], bi[2], keyEnc[4 * kp + 3]);
      ForwardFinalOk(bi[..], bo[..], keyEnc[..], w, x);
    }

    /** i_nround */
    method InverseRound(bo: array<bv32>, bi: array<bv32>, kp: nat, ghost w: Schedule, ghost y: Block)
      requires Sized() && Apart(bo, bi) && 0 < kp < |w| <= 15
      requires w == Blocks(keyDec[..], |w|) && BlockAt(bi[..], 0) == EqRounds(w, y, kp - 1)
      modifies bo
      ensures BlockAt(bo[..], 0) == EqRounds(w, y, kp)
    {
      hide Unpack, EqRounds, InverseWord;
      bo[0] := InverseWord(bi[0], bi[3], bi[2], bi[1], keyDec[4 * kp]);
      bo[1] := InverseWord(bi[1], bi[0], bi[3], bi[2], keyDec[4 * kp + 1]);
      bo[2] := InverseWord(bi[2], bi[1], bi[0], bi[3], keyDec[4 * kp + 2]);
      bo[3] := InverseWord(bi[3], bi[2], bi[1], bi[0], keyDec[4 * kp + 3]);
      InverseRoundOk(bi[..], bo[..], keyDec[..], kp, w, y);
    }

    /** i_lround */
    method InverseFinal(bo: array<bv32>, bi: array<bv32>, kp: nat, ghost w: Schedule, ghost y: Block)
      requires Sized() && Apart(bo, bi) && 0 < kp == |w| - 1 < 15
      requires w == Blocks(keyDec[..], |w|) && BlockAt(bi[..], 0) == EqRounds(w, y, kp - 1)
      modifies bo
      ensures BlockAt(bo[..], 0) == EqInvCipher(w, y)
    {
      hide Unpack, EqRounds, EqInvCipher, InverseLast;
      bo[0] := InverseLast(bi[0], bi[3], bi[2], bi[1], keyDec[4 * kp]);
      bo[1] := InverseLast(bi[1], bi[0], bi[3], bi[2], keyDec[4 * kp + 1]);
      bo[2] := InverseLast(bi[2], bi[1], bi[0], bi[3], keyDec[4 * kp + 2]);
      bo[3] := InverseLast(bi[3], bi[2], bi[1], bi[0], keyDec[4 * kp + 3]);
      InverseFinalOk(bi[..], bo[..], keyDec[..], w, y);
    }

    predicate Apart(bo: array<bv32>, bi: array<bv32>) {
      bo != bi && bo.Length == bi.Length == 4 && keyEnc != bo && keyDec != bo
    }

    /** Two rounds, from b0 to b1 and back. */
    method ForwardPair(b0: array<bv32>, b1: array<bv32>, kp: nat, ghost w: Schedule, ghost x: Block)
      requires Sized() && Apart(b0, b1) && Apart(b1, b0) && 0 < kp < |w| - 1 < 15
      requires w == Blocks(keyEnc[..], |w|) && BlockAt(b0[..], 0) == Rounds(w, x, kp - 1)
      modifies b0, b1
      ensures BlockAt(b0[..], 0) == Rounds(w, x, kp + 1)
    {
      hide BlockAt, Blocks, Rounds;
      ForwardRound(b1, b0, kp, w, x);
      ForwardRound(b0, b1, kp + 1, w, x);
    }

    /** The last ten rounds, which every key length has. */
    method ForwardTen(b0: array<bv32>, b1: array<bv32>, kp: nat, ghost w: Schedule, ghost x: Block)
      requires Sized() && Apart(b0, b1) && Apart(b1, b0) && 0 < kp == |w| - 10 && |w| <= 15
      requires w == Blocks(keyEnc[..], |w|) && BlockAt(b0[..], 0) == Rounds(w, x, kp - 1)
      modifies b0, b1
      ensures BlockAt(b0[..], 0) == Cipher(w, x)
    {
      hide BlockAt, Blocks, Rounds, Cipher;
      ForwardPair(b0, b1, kp, w, x);
      ForwardPair(b0, b1, kp + 2, w, x);
      ForwardPair(b0, b1, kp + 4, w, x);
      ForwardPair(b0, b1, kp + 6, w, x);
      ForwardRound(b1, b0, kp + 8, w, x);
      ForwardFinal(b0, b1, kp + 9, w, x);
    }

    /** Loads a block and adds the first block of the key. */
    method ForwardWhiten(b0: array<bv32>, src: seq<bv8>, ghost w: Schedule)
      requires Sized() && b0.Length == 4 && b0 != keyEnc && b0 != keyDec && |src| == 16
      requires 0 < |w| <= 15 && w == Blocks(keyEnc[..], |w|)
      modifies b0
      ensures BlockAt(b0[..], 0) == Rounds(w, ToBlock(src), 0)
    {
      hide Unpack, Blocks, LoadWord, Xor, ToBlock, Rounds;
      b0[0] := Xor(LoadWord(src, 0), keyEnc[0]);
      b0[1] := Xor(LoadWord(src, 1), keyEnc[1]);
      b0[2] := Xor(LoadWord(src, 2), keyEnc[2]);
      b0[3] := Xor(LoadWord(src, 3), keyEnc[3]);
      WhitenOk(src, b0[..], keyEnc[..], w);
      FirstRound(w, ToBlock(src));
    }

    /** aes_encrypt */
    method Encrypt(src: seq<bv8>, ghost key: seq<bv8>) returns (dst: seq<bv8>)
      requires Holds(key) && |src| == 16
      ensures dst == Encrypted(key, src)
    {
      hide BlockAt, Blocks, Rounds, Cipher, InvCipher, Reversed, KeySchedule, Cols, Holds, ToBlock, FromBlock, StoreWord;
      SchedulesOk(key);
      ghost var x := ToBlock(src);
      ghost var w := KeySchedule(Cols(key));
      var b0, b1 := new bv32[4], new bv32[4];
      ForwardWhiten(b0, src, w);
      var kp := 1;
      if keyLength > 24 {
        ForwardPair(b0, b1, kp, w, x);
        kp := kp + 2;
      }
      if keyLength > 16 {
        ForwardPair(b0, b1, kp, w, x);
        kp := kp + 2;
      }
      ForwardTen(b0, b1, kp, w, x);
      dst := StoreWord(b0[0]) + StoreWord(b0[1]) + StoreWord(b0[2]) + StoreWord(b0[3]);
      StoreOk(b0[..]);
    }

    /** Two rounds, from b0 to b1 and back. */
    method InversePair(b0: array<bv32>, b1: array<bv32>, kp: nat, ghost w: Schedule, ghost y: Block)
      requires Sized() && Apart(b0, b1) && Apart(b1, b0) && 0 < kp < |w| - 1 < 15
      requires w == Blocks(keyDec[..], |w|) && BlockAt(b0[..], 0) == EqRounds(w, y, kp - 1)
      modifies b0, b1
      ensures BlockAt(b0[..], 0) == EqRounds(w, y, kp + 1)
    {
      hide BlockAt, Blocks, EqRounds;
      InverseRound(b1, b0, kp, w, y);
      InverseRound(b0, b1, kp + 1, w, y);
    }

    /** The last ten rounds, which every key length has. */
    method InverseTen(b0: array<bv32>, b1: array<bv32>, kp: nat, ghost w: Schedule, ghost y: Block)
      requires Sized() && Apart(b0, b1) && Apart(b1, b0) && 0 < kp == |w| - 10 && |w| <= 15
      requires w == Blocks(keyDec[..], |w|) && BlockAt(b0[..], 0) == EqRounds(w, y, kp - 1)
      modifies b0, b1
      ensures BlockAt(b0[..], 0) == EqInvCipher(w, y)
    {
      hide BlockAt, Blocks, EqRounds, EqInvCipher;
      InversePair(b0, b1, kp, w, y);
      InversePair(b0, b1, kp + 2, w, y);
      InversePair(b0, b1, kp + 4, w, y);
      InversePair(b0, b1, kp + 6, w, y);
      InverseRound(b1, b0, kp + 8, w, y);
      InverseFinal(b0, b1, kp + 9, w, y);
    }

    /** Loads a block and adds the first block of the key. */
    method InverseWhiten(b0: array<bv32>, src: seq<bv8>, ghost w: Schedule)
      requires Sized() && b0.Length == 4 && b0 != keyEnc && b0 != keyDec && |src| == 16
      requires 0 < |w| <= 15 && w == Blocks(keyDec[..], |w|)
      modifies b0
      ensures BlockAt(b0[..], 0) == EqRounds(w, ToBlock(src), 0)
    {
      hide Unpack, Blocks, LoadWord, Xor, ToBlock, EqRounds;
      b0[0] := Xor(LoadWord(src, 0), keyDec[0]);
      b0[1] := Xor(LoadWord(src, 1), keyDec[1]);
      b0[2] := Xor(LoadWord(src, 2), keyDec[2]);
      b0[3] := Xor(LoadWord(src, 3), keyDec[3]);
      WhitenOk(src, b0[..], keyDec[..], w);
      FirstRound(w, ToBlock(src));
    }

    /** aes_decrypt */
    method Decrypt(src: seq<bv8>, ghost key: seq<bv8>) returns (dst: seq<bv8>)
      requires Holds(key) && |src| == 16
      ensures dst == Decrypted(key, src)
    {
      hide BlockAt, Blocks, EqRounds, EqInvCipher, InvCipher, Reversed, KeySchedule, Cols, Holds, ToBlock, FromBlock, StoreWord;
      SchedulesOk(key);
      ghost var y := ToBlock(src);
      ghost var w := Blocks(keyDec[..], |key| / 4 + 7);
      var b0, b1 := new bv32[4], new bv32[4];
      InverseWhiten(b0, src, w);
      var kp := 1;
      if keyLength > 24 {
        InversePair(b0, b1, kp, w, y);
        kp := kp + 2;
      }
      if keyLength > 16 {
        InversePair(b0, b1, kp, w, y);
        kp := kp + 2;
      }
      InverseTen(b0, b1, kp, w, y);
      dst := StoreWord(b0[0]) + StoreWord(b0[1]) + StoreWord(b0[2]) + StoreWord(b0[3]);
      StoreOk(b0[..]);
      EqInvCipherAgrees(KeySchedule(Cols(key)), w, y);
    }

    /** What a context holds, as schedules of FIPS-197. */
    lemma SchedulesOk(key: seq<bv8>)
      requires Holds(key)
      ensures Sized() && KeySize(|key|) && keyLength == |key| && |Cols(key)| == |key| / 4
      ensures var w := KeySchedule(Cols(key));
              && w == Blocks(keyEnc[..], |key| / 4 + 7)
              && Reversed(w, Blocks(keyDec[..], |key| / 4 + 7))
    {
      hide Unpack, KeySchedule, KeyWord, ImixCol, Blocks, Reversed, Mirrored, EndsMatch;
      ForwardSchedule(keyEnc[..], Cols(key));
      BackwardSchedule(keyEnc[..], keyDec[..], |key|);
    }
  }

  lemma NoneExpanded(enc: seq<bv32>, key: seq<Col>)
    requires |key| > 0
    ensures Expanded(enc, key, 0)
  {
  }

  lemma ExpandedLess(enc: seq<bv32>, key: seq<Col>, m: nat, n: nat)
    requires |key| > 0 && Expanded(enc, key, m) && n <= m
    ensures Expanded(enc, key, n)
  {
    hide Unpack, KeyWord;
  }

  /** Words that hold the same columns are the same words. */
  lemma SameStart(first: seq<bv32>, enc: seq<bv32>, key: seq<Col>, n: nat)
    requires |key| > 0 && n >= 4 && Expanded(first, key, 4) && Expanded(enc, key, n)
    ensures forall i :: 0 <= i < 4 ==> first[i] == enc[i]
  {
    hide Unpack, Pack, KeyWord;
    forall i | 0 <= i < 4
      ensures first[i] == enc[i]
    {
      PackUnpack(first[i]);
      PackUnpack(enc[i]);
    }
  }

  lemma NoneMirrored(enc: seq<bv32>, dec: seq<bv32>, len: nat)
    requires |enc| == |dec| == MAX_WORDS && KeySize(len)
    ensures Mirrored(enc, dec, len, 4)
  {
  }

  lemma EndsKept(enc: seq<bv32>, dec: seq<bv32>, len: nat, j: nat, x: bv32)
    requires |enc| == |dec| == MAX_WORDS && KeySize(len) && EndsMatch(enc, dec, len)
    requires 4 <= j < len + 24
    ensures EndsMatch(enc, dec[j := x], len)
  {
  }

  lemma MirrorInside(len: nat, i: nat)
    requires KeySize(len) && 4 <= i < len + 24
    ensures 4 <= Mirror(len, i) < len + 24
  {
  }

  lemma MirrorInjective(len: nat, i: nat, k: nat)
    requires Mirror(len, i) == Mirror(len, k)
    ensures i == k
  {
  }

  lemma MirrorNext(enc: seq<bv32>, dec: seq<bv32>, len: nat, i: nat)
    requires Mirrored(enc, dec, len, i) && 4 <= i < len + 24
    ensures 4 <= Mirror(len, i) < len + 24
    ensures Mirrored(enc, dec[Mirror(len, i) := ImixCol(enc[i])], len, i + 1)
  {
    hide Mirror, ImixCol;
    MirrorInside(len, i);
    var after := dec[Mirror(len, i) := ImixCol(enc[i])];
    forall k | 4 <= k < i + 1
      ensures 0 <= Mirror(len, k) < MAX_WORDS && after[Mirror(len, k)] == ImixCol(enc[k])
    {
      MirrorInside(len, k);
      if Mirror(len, k) == Mirror(len, i) {
        MirrorInjective(len, k, i);
      }
    }
  }

  // ---------- a round of words is a round of the specification ----------

  lemma ForwardRoundOk(s: seq<bv32>, u: seq<bv32>, k: seq<bv32>, kp: nat, w: Schedule, x: Block)
    requires |s| == |u| == 4 && 0 < kp < |w| && |k| >= 4 * |w| && w == Blocks(k, |w|)
    requires BlockAt(s, 0) == Rounds(w, x, kp - 1)
    requires u[0] == ForwardWord(s[0], s[1], s[2], s[3], k[4 * kp])
    requires u[1] == ForwardWord(s[1], s[2], s[3], s[0], k[4 * kp + 1])
    requires u[2] == ForwardWord(s[2], s[3], s[0], s[1], k[4 * kp + 2])
    requires u[3] == ForwardWord(s[3], s[0], s[1], s[2], k[4 * kp + 3])
    ensures BlockAt(u, 0) == Rounds(w, x, kp)
  {
    hide ForwardWord, Byte0, Byte1, Byte2, Byte3, Mix, Add, Sub;
    ForwardWordOk(s[0], s[1], s[2], s[3], k[4 * kp]);
    ForwardWordOk(s[1], s[2], s[3], s[0], k[4 * kp + 1]);
    ForwardWordOk(s[2], s[3], s[0], s[1], k[4 * kp + 2]);
    ForwardWordOk(s[3], s[0], s[1], s[2], k[4 * kp + 3]);
    assert BlockAt(u, 0) == AddKey(MixColumns(ShiftRows(SubBytes(BlockAt(s, 0)))), BlockAt(k, kp));
  }

  lemma ForwardFinalOk(s: seq<bv32>, u: seq<bv32>, k: seq<bv32>, w: Schedule, x: Block)
    requires |s| == |u| == 4 && |w| >= 2 && |k| >= 4 * |w| && w == Blocks(k, |w|)
    requires BlockAt(s, 0) == Rounds(w, x, |w| - 2)
    requires var kp := |w| - 1;
             && u[0] == ForwardLast(s[0], s[1], s[2], s[3], k[4 * kp])
             && u[1] == ForwardLast(s[1], s[2], s[3], s[0], k[4 * kp + 1])
             && u[2] == ForwardLast(s[2], s[3], s[0], s[1], k[4 * kp + 2])
             && u[3] == ForwardLast(s[3], s[0], s[1], s[2], k[4 * kp + 3])
    ensures BlockAt(u, 0) == Cipher(w, x)
  {
    hide ForwardLast, Byte0, Byte1, Byte2, Byte3, Add, Sub, Rounds;
    var kp := |w| - 1;
    ForwardLastOk(s[0], s[1], s[2], s[3], k[4 * kp]);
    ForwardLastOk(s[1], s[2], s[3], s[0], k[4 * kp + 1]);
    ForwardLastOk(s[2], s[3], s[0], s[1], k[4 * kp + 2]);
    ForwardLastOk(s[3], s[0], s[1], s[2], k[4 * kp + 3]);
    assert BlockAt(u, 0) == AddKey(ShiftRows(SubBytes(BlockAt(s, 0))), BlockAt(k, kp));
  }

  lemma InverseRoundOk(s: seq<bv32>, u: seq<bv32>, k: seq<bv32>, kp: nat, w: Schedule, y: Block)
    requires |s| == |u| == 4 && 0 < kp < |w| && |k| >= 4 * |w| && w == Blocks(k, |w|)
    requires BlockAt(s, 0) == EqRounds(w, y, kp - 1)
    requires u[0] == InverseWord(s[0], s[3], s[2], s[1], k[4 * kp])
    requires u[1] == InverseWord(s[1], s[0], s[3], s[2], k[4 * kp + 1])
    requires u[2] == InverseWord(s[2], s[1], s[0], s[3], k[4 * kp + 2])
    requires u[3] == InverseWord(s[3], s[2], s[1], s[0], k[4 * kp + 3])
    ensures BlockAt(u, 0) == EqRounds(w, y, kp)
  {
    hide InverseWord, Byte0, Byte1, Byte2, Byte3, InvMix, Add, InvSub;
    InverseWordOk(s[0], s[3], s[2], s[1], k[4 * kp]);
    InverseWordOk(s[1], s[0], s[3], s[2], k[4 * kp + 1]);
    InverseWordOk(s[2], s[1], s[0], s[3], k[4 * kp + 2]);
    InverseWordOk(s[3], s[2], s[1], s[0], k[4 * kp + 3]);
    assert BlockAt(u, 0) == AddKey(InvMixColumns(InvShiftRows(InvSubBytes(BlockAt(s, 0)))), BlockAt(k, kp));
  }

  lemma InverseFinalOk(s: seq<bv32>, u: seq<bv32>, k: seq<bv32>, w: Schedule, y: Block)
    requires |s| == |u| == 4 && |w| >= 2 && |k| >= 4 * |w| && w == Blocks(k, |w|)
    requires BlockAt(s, 0) == EqRounds(w, y, |w| - 2)
    requires var kp := |w| - 1;
             && u[0] == InverseLast(s[0], s[3], s[2], s[1], k[4 * kp])
             && u[1] == InverseLast(s[1], s[0], s[3], s[2], k[4 * kp + 1])
             && u[2] == InverseLast(s[2], s[1], s[0], s[3], k[4 * kp + 2])
             && u[3] == InverseLast(s[3], s[2], s[1], s[0], k[4 * kp + 3])
    ensures BlockAt(u, 0) == EqInvCipher(w, y)
  {
    hide InverseLast, Byte0, Byte1, Byte2, Byte3, Add, InvSub, EqRounds;
    var kp := |w| - 1;
    InverseLastOk(s[0], s[3], s[2], s[1], k[4 * kp]);
    InverseLastOk(s[1], s[0], s[3], s[2], k[4 * kp + 1]);
    InverseLastOk(s[2], s[1], s[0], s[3], k[4 * kp + 2]);
    InverseLastOk(s[3], s[2], s[1], s[0], k[4 * kp + 3]);
    assert BlockAt(u, 0) == AddKey(InvShiftRows(InvSubBytes(BlockAt(s, 0))), BlockAt(k, kp));
  }

  // ---------- the two ends of a cipher, and the schedules ----------

  /** cpu_to_le32 */
  function StoreWord(x: bv32): seq<bv8> {
    ColBytes(Unpack(x))
  }

  lemma StoreOk(b: seq<bv32>)
    requires |b| == 4
    ensures StoreWord(b[0]) + StoreWord(b[1]) + StoreWord(b[2]) + StoreWord(b[3]) == FromBlock(BlockAt(b, 0))
  {
    hide Unpack;
  }

  lemma FirstRound(w: Schedule, x: Block)
    requires |w| > 0
    ensures Rounds(w, x, 0) == AddKey(x, w[0]) == EqRounds(w, x, 0)
  {
    hide AddKey;
  }

  /** Loading a block and adding the first block of a schedule. */
  lemma WhitenOk(src: seq<bv8>, b: seq<bv32>, k: seq<bv32>, w: Schedule)
    requires |src| == 16 && |b| == 4 && 0 < |w| && 4 * |w| <= |k| && w == Blocks(k, |w|)
    requires forall i :: 0 <= i < 4 ==> b[i] == Xor(LoadWord(src, i), k[i])
    ensures BlockAt(b, 0) == AddKey(ToBlock(src), w[0])
  {
    hide Unpack, Pack, Xor, Add;
    forall i | 0 <= i < 4
      ensures Unpack(b[i]) == Add(ColAt(src, i), Unpack(k[i]))
    {
      UnpackXor(LoadWord(src, i), k[i]);
      UnpackPack(ColAt(src, i));
    }
    assert w[0] == BlockAt(k, 0);
  }

  lemma ForwardSchedule(enc: seq<bv32>, key: seq<Col>)
    requires |key| > 0 && |enc| == MAX_WORDS && 4 * |key| + 28 <= MAX_WORDS
    requires Expanded(enc, key, 4 * |key| + 28)
    ensures KeySchedule(key) == Blocks(enc, |key| + 7)
  {
    hide Unpack, KeyWord;
    var n := |key| + 7;
    forall r | 0 <= r < n
      ensures KeySchedule(key)[r] == Blocks(enc, n)[r]
    {
      assert 4 * r + 3 < 4 * |key| + 28;
    }
  }

  lemma BackwardSchedule(enc: seq<bv32>, dec: seq<bv32>, len: nat)
    requires |enc| == |dec| == MAX_WORDS && KeySize(len)
    requires Mirrored(enc, dec, len, len + 24) && EndsMatch(enc, dec, len)
    ensures Reversed(Blocks(enc, len / 4 + 7), Blocks(dec, len / 4 + 7))
  {
    hide Unpack, InvMixColumns, BlockAt, Mirrored, EndsMatch;
    var n := len / 4 + 6;
    EndBlocks(enc, dec, len);
    forall r | 0 < r < n
      ensures BlockAt(dec, r) == InvMixColumns(BlockAt(enc, n - r))
    {
      MirrorBlock(enc, dec, len, r);
    }
  }

  lemma EndBlocks(enc: seq<bv32>, dec: seq<bv32>, len: nat)
    requires |enc| == |dec| == MAX_WORDS && KeySize(len) && EndsMatch(enc, dec, len)
    ensures BlockAt(dec, 0) == BlockAt(enc, len / 4 + 6) && BlockAt(dec, len / 4 + 6) == BlockAt(enc, 0)
  {
    hide Unpack;
    assert 4 * (len / 4 + 6) == len + 24;
  }

  lemma MirrorBlock(enc: seq<bv32>, dec: seq<bv32>, len: nat, r: nat)
    requires |enc| == |dec| == MAX_WORDS && KeySize(len) && Mirrored(enc, dec, len, len + 24)
    requires 0 < r < len / 4 + 6
    ensures BlockAt(dec, r) == InvMixColumns(BlockAt(enc, len / 4 + 6 - r))
  {
    hide Unpack, InvMix, Mirrored;
    MirrorColumn(enc, dec, len, r, 0);
    MirrorColumn(enc, dec, len, r, 1);
    MirrorColumn(enc, dec, len, r, 2);
    MirrorColumn(enc, dec, len, r, 3);
  }

  lemma MirrorColumn(enc: seq<bv32>, dec: seq<bv32>, len: nat, r: nat, c: nat)
    requires |enc| == |dec| == MAX_WORDS && KeySize(len) && Mirrored(enc, dec, len, len + 24)
    requires 0 < r < len / 4 + 6 && c < 4
    ensures Unpack(dec[4 * r + c]) == InvMix(Unpack(enc[4 * (len / 4 + 6 - r) + c]))
  {
    hide Unpack, ImixCol, InvMix;
    var i := 4 * (len / 4 + 6 - r) + c;
    assert Mirror(len, i) == 4 * r + c;
    ImixColOk(enc[i]);
  }
}
