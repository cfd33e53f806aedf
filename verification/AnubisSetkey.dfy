/**
anubis_setkey, which fills the two schedules of a context, and the two directions of the cipher on
them.
*/
module AnubisSetkey {
  import opened Bytes
  import opened Words
  import opened AnubisSpec
  import opened AnubisKeys
  import opened AnubisWords
  import opened AnubisCipher

  /** Reads round key r off the key state: for each byte position, Horner's rule from the last row up. */
  method Extract(kappa: array<bv32>, n: nat, ghost rows: seq<Col>) returns (k0: bv32, k1: bv32, k2: bv32, k3: bv32)
    requires 4 <= n <= kappa.Length && rows == Rows(kappa[..n])
    ensures Block(Row(k0), Row(k1), Row(k2), Row(k3)) == RoundKey(rows)
  {
    hide Byte0, Byte1, Byte2, Byte3, Tab4, HornerStep, HornerRow, Sub, Column, RoundKeyRow;
    k0 := Tab4(Byte3(kappa[n - 1]));
    k1 := Tab4(Byte2(kappa[n - 1]));
    k2 := Tab4(Byte1(kappa[n - 1]));
    k3 := Tab4(Byte0(kappa[n - 1]));
    FirstOk(rows, kappa[n - 1]);
    for i := n - 1 downto 0
      invariant Row(k0) == HornerRow(Column(rows, 0)[i..])
      invariant Row(k1) == HornerRow(Column(rows, 1)[i..])
      invariant Row(k2) == HornerRow(Column(rows, 2)[i..])
      invariant Row(k3) == HornerRow(Column(rows, 3)[i..])
    {
      assert Row(kappa[i]) == rows[i];
      NextOk(rows, i, 0, k0);
      NextOk(rows, i, 1, k1);
      NextOk(rows, i, 2, k2);
      NextOk(rows, i, 3, k3);
      k0 := HornerStep(Byte3(kappa[i]), k0);
      k1 := HornerStep(Byte2(kappa[i]), k1);
      k2 := HornerStep(Byte1(kappa[i]), k2);
      k3 := HornerStep(Byte0(kappa[i]), k3);
    }
    DoneOk(rows, 0);
    DoneOk(rows, 1);
    DoneOk(rows, 2);
    DoneOk(rows, 3);
  }

  lemma FirstOk(rows: seq<Col>, last: bv32)
    requires |rows| > 0 && Row(last) == rows[|rows| - 1]
    ensures var n := |rows| - 1;
            && Row(Tab4(Byte3(last))) == HornerRow(Column(rows, 0)[n..])
            && Row(Tab4(Byte2(last))) == HornerRow(Column(rows, 1)[n..])
            && Row(Tab4(Byte1(last))) == HornerRow(Column(rows, 2)[n..])
            && Row(Tab4(Byte0(last))) == HornerRow(Column(rows, 3)[n..])
  {
    hide Byte0, Byte1, Byte2, Byte3, Tab4, HornerRow, Sub;
    var n := |rows| - 1;
    HornerFirst(Byte3(last));
    HornerFirst(Byte2(last));
    HornerFirst(Byte1(last));
    HornerFirst(Byte0(last));
    forall j | 0 <= j < 4
      ensures Column(rows, j)[n..] == [Sub(At(rows[n], j))]
    {
    }
  }

  lemma NextOk(rows: seq<Col>, i: nat, j: nat, k: bv32)
    requires i < |rows| && j < 4 && Row(k) == HornerRow(Column(rows, j)[i + 1..])
    ensures Row(HornerStep(At(rows[i], j), k)) == HornerRow(Column(rows, j)[i..])
  {
    hide Row, HornerStep, HornerRow, Sub;
    HornerNext(At(rows[i], j), k, Column(rows, j)[i + 1..]);
    assert Column(rows, j)[i..] == [Sub(At(rows[i], j))] + Column(rows, j)[i + 1..];
  }

  lemma DoneOk(rows: seq<Col>, j: nat)
    requires j < 4
    ensures HornerRow(Column(rows, j)[0..]) == RoundKeyRow(rows, j)
  {
    hide Horner, PowerSum, Column;
    var s := Column(rows, j);
    assert s[0..] == s;
    HornerIsSum(One, s);
    HornerIsSum(Two, s);
    HornerIsSum(Six, s);
    HornerIsSum(Eight, s);
  }

  /** The next key state, all but its constant; j walks up the rows and around the end. */
  method EvolveRow(kappa: array<bv32>, n: nat, i: nat, ghost rows: seq<Col>) returns (x: bv32)
    requires 4 <= n <= kappa.Length && i < n && rows == Rows(kappa[..n])
    ensures Row(x) == EvolvedRow(rows, i)
  {
    hide Row, Tab0, Tab1, Tab2, Tab3, Xor, ThetaRow, GammaRow;
    var j: int := i;
    ghost var w0 := kappa[j];
    x := Tab0(Byte3(kappa[j]));
    j := j - 1;
    if j < 0 {
      j := n - 1;
    }
    ghost var w1 := kappa[j];
    x := Xor(x, Tab1(Byte2(kappa[j])));
    j := j - 1;
    if j < 0 {
      j := n - 1;
    }
    ghost var w2 := kappa[j];
    x := Xor(x, Tab2(Byte1(kappa[j])));
    j := j - 1;
    if j < 0 {
      j := n - 1;
    }
    ghost var w3 := kappa[j];
    x := Xor(x, Tab3(Byte0(kappa[j])));
    EvolveRowOk(rows, i, w0, w1, w2, w3);
  }

  lemma EvolveRowOk(rows: seq<Col>, i: nat, w0: bv32, w1: bv32, w2: bv32, w3: bv32)
    requires |rows| >= 4 && i < |rows|
    requires var n := |rows|;
             && Row(w0) == rows[i] && Row(w1) == rows[Above(n, i, 1)]
             && Row(w2) == rows[Above(n, i, 2)] && Row(w3) == rows[Above(n, i, 3)]
    ensures Row(Xor(Xor(Xor(Tab0(Byte3(w0)), Tab1(Byte2(w1))), Tab2(Byte1(w2))), Tab3(Byte0(w3)))) == EvolvedRow(rows, i)
  {
    hide Byte0, Byte1, Byte2, Byte3, Tab0, Tab1, Tab2, Tab3, Xor, ThetaRow, GammaRow, Above;
    DiffuseOk(Byte3(w0), Byte2(w1), Byte1(w2), Byte0(w3));
  }

  method Evolve(kappa: array<bv32>, inter: array<bv32>, n: nat, r: nat, ghost rows: seq<Col>)
    requires kappa != inter && kappa.Length == inter.Length == MAX_N && 4 <= n <= MAX_N && r < MAX_ROUNDS
    requires rows == Rows(kappa[..n])
    modifies kappa, inter
    ensures Rows(kappa[..n]) == Evolved(rows)[0 := Add(Evolved(rows)[0], Row(RcTab()[r]))]
  {
    hide Row, EvolvedRow, Xor, RcTab, Add;
    for i := 0 to n
      invariant rows == Rows(kappa[..n])
      invariant forall k :: 0 <= k < i ==> Row(inter[k]) == EvolvedRow(rows, k)
    {
      inter[i] := EvolveRow(kappa, n, i, rows);
    }
    kappa[0] := Xor(inter[0], RcTab()[r]);
    RowXor(inter[0], RcTab()[r]);
    for i := 1 to n
      invariant Row(kappa[0]) == Add(EvolvedRow(rows, 0), Row(RcTab()[r]))
      invariant forall k :: 0 <= k < n ==> Row(inter[k]) == EvolvedRow(rows, k)
      invariant forall k :: 1 <= k < i ==> Row(kappa[k]) == EvolvedRow(rows, k)
    {
      kappa[i] := inter[i];
    }
  }

  /** The words of the key. */
  method LoadKey(kappa: array<bv32>, inKey: seq<bv8>, n: nat)
    requires KeySize(|inKey|) && n == |inKey| / 4 && kappa.Length == MAX_N
    modifies kappa
    ensures Rows(kappa[..n]) == Cols(inKey)
  {
    hide Row, LoadWord;
    for i := 0 to n
      invariant forall k :: 0 <= k < i ==> Row(kappa[k]) == ColAt(inKey, k)
    {
      kappa[i] := LoadWord(inKey, i);
      LoadOk(inKey, i);
    }
    assert Rows(kappa[..n]) == Cols(inKey);
  }

  /** struct anubis_ctx */
  class Context {
    var keyBits: nat
    var rounds: nat
    const e: array2<bv32>
    const d: array2<bv32>

    ghost predicate Sized()
      reads this
    {
      && e != d
      && e.Length0 == d.Length0 == MAX_ROUNDS + 1 && e.Length1 == d.Length1 == 4
    }

    /** The context holds both schedules of a key. */
    ghost predicate Holds(key: seq<bv8>)
      reads this, e, d
    {
      && Sized() && KeySize(|key|) && keyBits == 8 * |key| && rounds == |key| / 4 + 8
      && Stored(e, Schedule(key), rounds + 1)
      && Stored(d, InverseKeys(Schedule(key)), rounds + 1)
    }

    constructor ()
      ensures Sized() && fresh(e) && fresh(d)
    {
      keyBits := 0;
      rounds := 0;
      e := new bv32[MAX_ROUNDS + 1, 4];
      d := new bv32[MAX_ROUNDS + 1, 4];
    }

    /** Stores a round key and keeps the ones before it. */
    method StoreKey(r: nat, k0: bv32, k1: bv32, k2: bv32, k3: bv32, ghost keys: seq<Block>)
      requires Sized() && r < |keys| && Stored(e, keys, r)
      requires Block(Row(k0), Row(k1), Row(k2), Row(k3)) == keys[r]
      modifies e
      ensures Stored(e, keys, r + 1)
    {
      hide Row;
      e[r, 0] := k0;
      e[r, 1] := k1;
      e[r, 2] := k2;
      e[r, 3] := k3;
      forall m | 0 <= m < r
        ensures BlockOf(e, m) == keys[m]
      {
        assert BlockOf(e, m) == old(BlockOf(e, m));
      }
    }

    /** The key of one round, read off the key state. */
    method KeyRound(kappa: array<bv32>, ghost inKey: seq<bv8>, n: nat, r: nat)
      requires Sized() && KeySize(|inKey|) && n == |inKey| / 4 && r <= n + 8 && kappa.Length == MAX_N
      requires Rows(kappa[..n]) == Kappa(Cols(inKey), Rows(RcTab()), r) && Stored(e, Schedule(inKey), r)
      modifies e
      ensures Stored(e, Schedule(inKey), r + 1)
    {
      hide Row, RoundKey, Evolved, RcTab, Stored;
      var k0, k1, k2, k3 := Extract(kappa, n, Kappa(Cols(inKey), Rows(RcTab()), r));
      StoreKey(r, k0, k1, k2, k3, Schedule(inKey));
    }

    /** The schedule for encryption. */
    method Expand(inKey: seq<bv8>, n: nat)
      requires Sized() && KeySize(|inKey|) && n == |inKey| / 4
      modifies e
      ensures Stored(e, Schedule(inKey), n + 9)
    {
      hide Row, LoadWord, RoundKey, Evolved, RcTab, Cols;
      var kappa, inter := new bv32[MAX_N], new bv32[MAX_N];
      ghost var key, c, keys := Cols(inKey), Rows(RcTab()), Schedule(inKey);
      LoadKey(kappa, inKey, n);
      var r := 0;
      while r <= n + 8
        invariant 0 <= r <= n + 9 && Stored(e, keys, r)
        invariant r <= n + 8 ==> Rows(kappa[..n]) == Kappa(key, c, r)
      {
        KeyRound(kappa, inKey, n, r);
        if r == n + 8 {
          r := r + 1;
          break;
        }
        Evolve(kappa, inter, n, r, Kappa(key, c, r));
        r := r + 1;
      }
    }

    /** The inverse schedule. */
    method Invert(ghost keys: seq<Block>)
      requires Sized() && 2 <= rounds <= MAX_ROUNDS && |keys| == rounds + 1 && Stored(e, keys, rounds + 1)
      modifies d
      ensures Stored(d, InverseKeys(keys), rounds + 1)
    {
      hide Row, Undiffused, ThetaRow;
      for i := 0 to 4
        invariant forall k :: 0 <= k < i ==> d[0, k] == e[rounds, k] && d[rounds, k] == e[0, k]
      {
        d[0, i] := e[rounds, i];
        d[rounds, i] := e[0, i];
      }
      for r := 1 to rounds
        invariant forall k :: 0 <= k < 4 ==> d[0, k] == e[rounds, k] && d[rounds, k] == e[0, k]
        invariant forall m, k :: 1 <= m < r && 0 <= k < 4 ==> d[m, k] == Undiffused(e[rounds - m, k])
      {
        for i := 0 to 4
          invariant forall k :: 0 <= k < 4 ==> d[0, k] == e[rounds, k] && d[rounds, k] == e[0, k]
          invariant forall m, k :: 1 <= m < r && 0 <= k < 4 ==> d[m, k] == Undiffused(e[rounds - m, k])
          invariant forall k :: 0 <= k < i ==> d[r, k] == Undiffused(e[rounds - r, k])
        {
          d[r, i] := Undiffused(e[rounds - r, i]);
        }
      }
      InvertOk(keys);
    }

    lemma InvertOk(keys: seq<Block>)
      requires Sized() && 2 <= rounds <= MAX_ROUNDS && |keys| == rounds + 1 && Stored(e, keys, rounds + 1)
      requires forall k :: 0 <= k < 4 ==> d[0, k] == e[rounds, k] && d[rounds, k] == e[0, k]
      requires forall m, k :: 1 <= m < rounds && 0 <= k < 4 ==> d[m, k] == Undiffused(e[rounds - m, k])
      ensures Stored(d, InverseKeys(keys), rounds + 1)
    {
      hide Row, Undiffused, ThetaRow;
      forall r | 0 <= r < rounds + 1
        ensures BlockOf(d, r) == InverseKeys(keys)[r]
      {
        assert BlockOf(e, rounds - r) == keys[rounds - r];
        if 0 < r < rounds {
          UndiffusedOk(e[rounds - r, 0]);
          UndiffusedOk(e[rounds - r, 1]);
          UndiffusedOk(e[rounds - r, 2]);
          UndiffusedOk(e[rounds - r, 3]);
        }
      }
    }

    /** anubis_setkey */
    method SetKey(inKey: seq<bv8>) returns (ok: bool)
      requires Sized()
      modifies this, e, d
      ensures ok <==> KeySize(|inKey|)
      ensures ok ==> Holds(inKey)
      ensures !ok ==> keyBits == old(keyBits) && rounds == old(rounds)
      ensures !ok ==> forall r, k :: 0 <= r <= MAX_ROUNDS && 0 <= k < 4 ==> e[r, k] == old(e[r, k]) && d[r, k] == old(d[r, k])
    {
      hide Schedule, InverseKeys, BlockOf, Inverts;
      var len := |inKey|;
      if !(len == 16 || len == 20 || len == 24 || len == 28 || len == 32 || len == 36 || len == 40) {
        return false;
      }
      keyBits := len * 8;
      var n := keyBits / 32;
      rounds := 8 + n;
      Expand(inKey, n);
      Invert(Schedule(inKey));
      ok := true;
    }

    /** anubis_encrypt */
    method Encrypt(src: seq<bv8>, ghost key: seq<bv8>) returns (dst: seq<bv8>)
      requires Holds(key) && |src| == 16
      ensures dst == Encrypted(key, src)
    {
      dst := RunCipher(e, src, rounds, Schedule(key));
    }

    /** anubis_decrypt */
    method Decrypt(src: seq<bv8>, ghost key: seq<bv8>) returns (dst: seq<bv8>)
      requires Holds(key) && |src| == 16
      ensures dst == Decrypted(key, src)
    {
      dst := RunCipher(d, src, rounds, InverseKeys(Schedule(key)));
    }
  }

  lemma LoadOk(bytes: seq<bv8>, i: nat)
    requires 4 * i + 3 < |bytes|
    ensures Row(LoadWord(bytes, i)) == ColAt(bytes, i)
  {
    hide Row, PackRow;
    RowPack(ColAt(bytes, i));
  }
}
