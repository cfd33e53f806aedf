/**
crypto/anubis.c: the key schedules E and D, filled in place, and the cipher, which runs on either.
Decryption undoes encryption for every key length that the source accepts.
*/
module AnubisCipher {
  import opened Bytes
  import opened Words
  import opened AnubisSpec
  import opened AnubisKeys
  import opened AnubisWords

  const MAX_N: nat := 10
  const MAX_ROUNDS: nat := 18

  /** Key lengths in bytes: 16, 20, ..., 40. */
  predicate KeySize(n: nat) {
    16 <= n <= 40 && n % 4 == 0
  }

  function RcTab(): (rc: seq<bv32>)
    ensures |rc| == 19
  {
    [0xba542f74, 0x53d3d24d, 0x50ac8dbf, 0x70529a4c, 0xead597d1, 0x33515ba6, 0xde48a899, 0xdb32b7fc, 0xe39e919b,
     0xe2bb416e, 0xa5cb6b95, 0xa1f3b102, 0xccc41d14, 0xc363da5d, 0x5fdc7dcd, 0x7f5a6c5c, 0xf726ffed, 0xe89d6f8e,
     0x19a0f089]
  }

  function Rows(s: seq<bv32>): (rows: seq<Col>)
    ensures |rows| == |s|
    ensures forall i :: 0 <= i < |s| ==> rows[i] == Row(s[i])
  {
    seq(|s|, i requires 0 <= i < |s| => Row(s[i]))
  }

  /** All round keys of a key. */
  function Schedule(key: seq<bv8>): (k: seq<Block>)
    requires KeySize(|key|)
    ensures |k| == |key| / 4 + 9
  {
    RoundKeys(Cols(key), Rows(RcTab()), |key| / 4 + 9)
  }

  function Encrypted(key: seq<bv8>, src: seq<bv8>): seq<bv8>
    requires KeySize(|key|) && |src| == 16
  {
    FromBlock(Crypt(Schedule(key), ToBlock(src)))
  }

  function Decrypted(key: seq<bv8>, src: seq<bv8>): seq<bv8>
    requires KeySize(|key|) && |src| == 16
  {
    FromBlock(Crypt(InverseKeys(Schedule(key)), ToBlock(src)))
  }

  /** Decryption gives back every block that was encrypted, for keys of every length. */
  lemma RoundTrip(key: seq<bv8>, src: seq<bv8>)
    requires KeySize(|key|) && |src| == 16
    ensures |Encrypted(key, src)| == 16
    ensures Decrypted(key, Encrypted(key, src)) == src
  {
    hide Crypt, Schedule, InverseKeys, Inverts, ToBlock, FromBlock;
    var e := Schedule(key);
    CryptInverse(e, InverseKeys(e), ToBlock(src));
    BlockBytes(Crypt(e, ToBlock(src)));
    BytesBlock(src);
  }

  // ---------- round keys in arrays ----------

  function BlockOf(k: array2<bv32>, r: nat): Block
    requires r < k.Length0 && k.Length1 == 4
    reads k
  {
    Block(Row(k[r, 0]), Row(k[r, 1]), Row(k[r, 2]), Row(k[r, 3]))
  }

  /** The array holds the first n of these round keys. */
  ghost predicate Stored(k: array2<bv32>, keys: seq<Block>, n: nat)
    reads k
  {
    && k.Length0 == MAX_ROUNDS + 1 && k.Length1 == 4 && n <= |keys| <= MAX_ROUNDS + 1
    && forall r :: 0 <= r < n ==> BlockOf(k, r) == keys[r]
  }

  function StateOf(s: seq<bv32>): Block
    requires |s| == 4
  {
    Block(Row(s[0]), Row(s[1]), Row(s[2]), Row(s[3]))
  }

  /** be32_to_cpu of the i-th four bytes. */
  function LoadWord(bytes: seq<bv8>, i: nat): bv32
    requires 4 * i + 3 < |bytes|
  {
    PackRow(ColAt(bytes, i))
  }

  /** cpu_to_be32 */
  function StoreWord(x: bv32): seq<bv8> {
    ColBytes(Row(x))
  }

  // ---------- the cipher ----------

  /** Maps the plaintext to the state and adds the first round key. */
  method Whiten(state: array<bv32>, roundKey: array2<bv32>, src: seq<bv8>, ghost keys: seq<Block>)
    requires |src| == 16 && state.Length == 4 && |keys| > 0 && Stored(roundKey, keys, |keys|)
    modifies state
    ensures StateOf(state[..]) == Rounds(keys, ToBlock(src), 0)
  {
    hide Row, Xor, LoadWord, ToBlock, AddKey;
    for i := 0 to 4
      invariant forall k :: 0 <= k < i ==> state[k] == Xor(LoadWord(src, k), roundKey[0, k])
    {
      state[i] := Xor(LoadWord(src, i), roundKey[0, i]);
    }
    assert BlockOf(roundKey, 0) == keys[0];
    WhitenOk(src, state[..], [roundKey[0, 0], roundKey[0, 1], roundKey[0, 2], roundKey[0, 3]]);
  }

  /** One full round: column j of the state becomes row j. */
  method FullRound(inter: array<bv32>, state: array<bv32>, roundKey: array2<bv32>, r: nat)
    requires inter != state && inter.Length == state.Length == 4
    requires roundKey.Length1 == 4 && r < roundKey.Length0
    modifies inter, state
    ensures StateOf(state[..]) == AddKey(Theta(Tau(Gamma(old(StateOf(state[..]))))), BlockOf(roundKey, r))
  {
    hide Xor, Diffuse, Byte0, Byte1, Byte2, Byte3, ThetaRow, Sub, Add;
    ghost var s := state[..];
    inter[0] := Xor(Diffuse(Byte3(state[0]), Byte3(state[1]), Byte3(state[2]), Byte3(state[3])), roundKey[r, 0]);
    inter[1] := Xor(Diffuse(Byte2(state[0]), Byte2(state[1]), Byte2(state[2]), Byte2(state[3])), roundKey[r, 1]);
    inter[2] := Xor(Diffuse(Byte1(state[0]), Byte1(state[1]), Byte1(state[2]), Byte1(state[3])), roundKey[r, 2]);
    inter[3] := Xor(Diffuse(Byte0(state[0]), Byte0(state[1]), Byte0(state[2]), Byte0(state[3])), roundKey[r, 3]);
    state[0] := inter[0];
    state[1] := inter[1];
    state[2] := inter[2];
    state[3] := inter[3];
    FullRoundOk(s, state[..], [roundKey[r, 0], roundKey[r, 1], roundKey[r, 2], roundKey[r, 3]]);
  }

  /** The last round: no diffusion. */
  method LastRound(inter: array<bv32>, state: array<bv32>, roundKey: array2<bv32>, r: nat)
    requires inter != state && inter.Length == state.Length == 4
    requires roundKey.Length1 == 4 && r < roundKey.Length0
    modifies inter
    ensures StateOf(inter[..]) == AddKey(Tau(Gamma(StateOf(state[..]))), BlockOf(roundKey, r))
  {
    hide Xor, LastWord, Byte0, Byte1, Byte2, Byte3, Sub, Add;
    inter[0] := Xor(LastWord(Byte3(state[0]), Byte3(state[1]), Byte3(state[2]), Byte3(state[3])), roundKey[r, 0]);
    inter[1] := Xor(LastWord(Byte2(state[0]), Byte2(state[1]), Byte2(state[2]), Byte2(state[3])), roundKey[r, 1]);
    inter[2] := Xor(LastWord(Byte1(state[0]), Byte1(state[1]), Byte1(state[2]), Byte1(state[3])), roundKey[r, 2]);
    inter[3] := Xor(LastWord(Byte0(state[0]), Byte0(state[1]), Byte0(state[2]), Byte0(state[3])), roundKey[r, 3]);
    LastRoundOk(state[..], inter[..], [roundKey[r, 0], roundKey[r, 1], roundKey[r, 2], roundKey[r, 3]]);
  }

  /** anubis_crypt */
  method RunCipher(roundKey: array2<bv32>, src: seq<bv8>, rounds: nat, ghost keys: seq<Block>)
    returns (dst: seq<bv8>)
    requires |src| == 16 && rounds >= 1 && |keys| == rounds + 1 && Stored(roundKey, keys, rounds + 1)
    ensures dst == FromBlock(Crypt(keys, ToBlock(src)))
  {
    hide StateOf, BlockOf, StoreWord, ToBlock, FromBlock, AddKey, Theta, Tau, Gamma;
    ghost var x := ToBlock(src);
    var state, inter := new bv32[4], new bv32[4];
    Whiten(state, roundKey, src, keys);
    for r := 1 to rounds
      invariant StateOf(state[..]) == Rounds(keys, x, r - 1)
    {
      FullRound(inter, state, roundKey, r);
    }
    LastRound(inter, state, roundKey, rounds);
    dst := StoreWord(inter[0]) + StoreWord(inter[1]) + StoreWord(inter[2]) + StoreWord(inter[3]);
    StoreOk(inter[..]);
  }

  lemma WhitenOk(src: seq<bv8>, b: seq<bv32>, k: seq<bv32>)
    requires |src| == 16 && |b| == |k| == 4
    requires forall i :: 0 <= i < 4 ==> b[i] == Xor(LoadWord(src, i), k[i])
    ensures StateOf(b) == AddKey(ToBlock(src), StateOf(k))
  {
    hide Row, PackRow, Xor, Add;
    forall i | 0 <= i < 4
      ensures Row(b[i]) == Add(ColAt(src, i), Row(k[i]))
    {
      RowXor(LoadWord(src, i), k[i]);
      RowPack(ColAt(src, i));
    }
  }

  lemma FullRoundOk(s: seq<bv32>, u: seq<bv32>, k: seq<bv32>)
    requires |s| == |u| == |k| == 4
    requires u[0] == Xor(Diffuse(Byte3(s[0]), Byte3(s[1]), Byte3(s[2]), Byte3(s[3])), k[0])
    requires u[1] == Xor(Diffuse(Byte2(s[0]), Byte2(s[1]), Byte2(s[2]), Byte2(s[3])), k[1])
    requires u[2] == Xor(Diffuse(Byte1(s[0]), Byte1(s[1]), Byte1(s[2]), Byte1(s[3])), k[2])
    requires u[3] == Xor(Diffuse(Byte0(s[0]), Byte0(s[1]), Byte0(s[2]), Byte0(s[3])), k[3])
    ensures StateOf(u) == AddKey(Theta(Tau(Gamma(StateOf(s)))), StateOf(k))
  {
    hide Xor, Diffuse, Byte0, Byte1, Byte2, Byte3, ThetaRow, Sub, Add;
    DiffuseOk(Byte3(s[0]), Byte3(s[1]), Byte3(s[2]), Byte3(s[3]));
    DiffuseOk(Byte2(s[0]), Byte2(s[1]), Byte2(s[2]), Byte2(s[3]));
    DiffuseOk(Byte1(s[0]), Byte1(s[1]), Byte1(s[2]), Byte1(s[3]));
    DiffuseOk(Byte0(s[0]), Byte0(s[1]), Byte0(s[2]), Byte0(s[3]));
    RowXor(Diffuse(Byte3(s[0]), Byte3(s[1]), Byte3(s[2]), Byte3(s[3])), k[0]);
    RowXor(Diffuse(Byte2(s[0]), Byte2(s[1]), Byte2(s[2]), Byte2(s[3])), k[1]);
    RowXor(Diffuse(Byte1(s[0]), Byte1(s[1]), Byte1(s[2]), Byte1(s[3])), k[2]);
    RowXor(Diffuse(Byte0(s[0]), Byte0(s[1]), Byte0(s[2]), Byte0(s[3])), k[3]);
  }

  lemma LastRoundOk(s: seq<bv32>, u: seq<bv32>, k: seq<bv32>)
    requires |s| == |u| == |k| == 4
    requires u[0] == Xor(LastWord(Byte3(s[0]), Byte3(s[1]), Byte3(s[2]), Byte3(s[3])), k[0])
    requires u[1] == Xor(LastWord(Byte2(s[0]), Byte2(s[1]), Byte2(s[2]), Byte2(s[3])), k[1])
    requires u[2] == Xor(LastWord(Byte1(s[0]), Byte1(s[1]), Byte1(s[2]), Byte1(s[3])), k[2])
    requires u[3] == Xor(LastWord(Byte0(s[0]), Byte0(s[1]), Byte0(s[2]), Byte0(s[3])), k[3])
    ensures StateOf(u) == AddKey(Tau(Gamma(StateOf(s))), StateOf(k))
  {
    hide Xor, LastWord, Byte0, Byte1, Byte2, Byte3, Sub, Add;
    LastWordOk(Byte3(s[0]), Byte3(s[1]), Byte3(s[2]), Byte3(s[3]));
    LastWordOk(Byte2(s[0]), Byte2(s[1]), Byte2(s[2]), Byte2(s[3]));
    LastWordOk(Byte1(s[0]), Byte1(s[1]), Byte1(s[2]), Byte1(s[3]));
    LastWordOk(Byte0(s[0]), Byte0(s[1]), Byte0(s[2]), Byte0(s[3]));
    RowXor(LastWord(Byte3(s[0]), Byte3(s[1]), Byte3(s[2]), Byte3(s[3])), k[0]);
    RowXor(LastWord(Byte2(s[0]), Byte2(s[1]), Byte2(s[2]), Byte2(s[3])), k[1]);
    RowXor(LastWord(Byte1(s[0]), Byte1(s[1]), Byte1(s[2]), Byte1(s[3])), k[2]);
    RowXor(LastWord(Byte0(s[0]), Byte0(s[1]), Byte0(s[2]), Byte0(s[3])), k[3]);
  }

  lemma StoreOk(b: seq<bv32>)
    requires |b| == 4
    ensures StoreWord(b[0]) + StoreWord(b[1]) + StoreWord(b[2]) + StoreWord(b[3]) == FromBlock(StateOf(b))
  {
    hide Row;
  }
}
