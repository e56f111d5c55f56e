/** Obfuscation of what a peer stores: each byte is xored with one of the four key bytes, in place. */
module Obfuscation {
  import opened ByteStrings

  type ObfuscationKey = k: Bytes | |k| == 4 witness [0, 0, 0, 0]

  /** Exclusive or of the k lowest bits. */
  function XorBits(a: nat, b: nat, k: nat): (r: nat)
    ensures r < Pow2(k)
  {
    if k == 0 then 0 else (a % 2 + b % 2) % 2 + 2 * XorBits(a / 2, b / 2, k - 1)
  }

  function Pow2(k: nat): nat {
    if k == 0 then 1 else 2 * Pow2(k - 1)
  }

  function Xor(a: byte, b: byte): byte {
    assert Pow2(8) == 256;
    XorBits(a, b, 8)
  }

  function Obfuscated(data: Bytes, key: ObfuscationKey): (r: Bytes)
    ensures |r| == |data|
  {
    seq(|data|, i requires 0 <= i < |data| => Xor(data[i], key[i % 4]))
  }

  /** The k-th bit, counted from the lowest. */
  function Bit(a: nat, k: nat): (b: nat)
    ensures b < 2
  {
    if k == 0 then a % 2 else Bit(a / 2, k - 1)
  }

  /** A bit of the result is set if and only if the two bits differ. */
  lemma {:induction false} XorBit(a: nat, b: nat, n: nat, k: nat)
    requires k < n
    ensures Bit(XorBits(a, b, n), k) == 1 <==> Bit(a, k) != Bit(b, k)
  {
    var low, rest := (a % 2 + b % 2) % 2, XorBits(a / 2, b / 2, n - 1);
    LowBit(low, rest);
    if k > 0 {
      XorBit(a / 2, b / 2, n - 1, k - 1);
    }
  }

  /** Xored byte by byte: a bit of the result is set if and only if that of the data and that of the key differ. */
  ghost predicate XoredBits(data: Bytes, key: ObfuscationKey, result: Bytes) {
    |result| == |data| &&
    forall i, k :: 0 <= i < |data| && 0 <= k < 8 ==> (Bit(result[i], k) == 1 <==> Bit(data[i], k) != Bit(key[i % 4], k))
  }

  lemma {:induction false} ObfuscatedBits(data: Bytes, key: ObfuscationKey)
    ensures XoredBits(data, key, Obfuscated(data, key))
  {
    hide Bit, XorBits;
    forall i, k | 0 <= i < |data| && 0 <= k < 8
      ensures Bit(Obfuscated(data, key)[i], k) == 1 <==> Bit(data[i], k) != Bit(key[i % 4], k)
    {
      XorBit(data[i], key[i % 4], 8, k);
    }
  }

  /** Nothing else has these bits. */
  lemma {:induction false} BitsTell(a: nat, b: nat, n: nat)
    requires a < Pow2(n) && b < Pow2(n) && forall k :: 0 <= k < n ==> Bit(a, k) == Bit(b, k)
    ensures a == b
  {
    if n > 0 {
      HalfBound(a, n);
      HalfBound(b, n);
      assert Bit(a, 0) == Bit(b, 0);
      forall k | 0 <= k < n - 1
        ensures Bit(a / 2, k) == Bit(b / 2, k)
      {
        assert Bit(a, k + 1) == Bit(b, k + 1);
      }
      BitsTell(a / 2, b / 2, n - 1);
    }
  }

  lemma {:induction false} LowBit(bit: nat, rest: nat)
    requires bit < 2
    ensures (bit + 2 * rest) % 2 == bit && (bit + 2 * rest) / 2 == rest
  {
  }

  lemma {:induction false} XorBitTwice(a: nat, b: nat)
    requires a < 2 && b < 2
    ensures ((a + b) % 2 + b) % 2 == a
  {
  }

  /** The lowest bit and the others are treated apart. */
  lemma {:induction false} XorApart(bit: nat, rest: nat, b: nat, k: nat)
    requires bit < 2 && k > 0
    ensures XorBits(bit + 2 * rest, b, k) == (bit + b % 2) % 2 + 2 * XorBits(rest, b / 2, k - 1)
  {
    LowBit(bit, rest);
  }

  lemma {:induction false} HalfBound(a: nat, k: nat)
    requires k > 0 && a < Pow2(k)
    ensures a / 2 < Pow2(k - 1) && a == a % 2 + 2 * (a / 2)
  {
  }

  lemma {:induction false} XorTwiceStep(bit: nat, rest: nat, b: nat, k: nat)
    requires bit < 2 && k > 0 && XorBits(XorBits(rest, b / 2, k - 1), b / 2, k - 1) == rest
    ensures XorBits(XorBits(bit + 2 * rest, b, k), b, k) == bit + 2 * rest
  {
    hide XorBits;
    XorApart(bit, rest, b, k);
    XorApart((bit + b % 2) % 2, XorBits(rest, b / 2, k - 1), b, k);
    XorBitTwice(bit, b % 2);
  }

  lemma {:induction false} XorBitsTwice(a: nat, b: nat, k: nat)
    requires a < Pow2(k)
    ensures XorBits(XorBits(a, b, k), b, k) == a
  {
    if k > 0 {
      HalfBound(a, k);
      hide XorBits, Pow2;
      XorBitsTwice(a / 2, b / 2, k - 1);
      XorTwiceStep(a % 2, a / 2, b, k);
    }
  }

  /** Obfuscating twice gives the data back, whatever its length. */
  lemma {:induction false} ObfuscatedTwice(data: Bytes, key: ObfuscationKey)
    ensures Obfuscated(Obfuscated(data, key), key) == data
  {
    assert Pow2(8) == 256;
    forall i | 0 <= i < |data|
      ensures Obfuscated(Obfuscated(data, key), key)[i] == data[i]
    {
      XorBitsTwice(data[i], key[i % 4], 8);
    }
  }

  method Obfuscate(data: array<byte>, key: ObfuscationKey)
    modifies data
    ensures data[..] == Obfuscated(old(data[..]), key) && XoredBits(old(data[..]), key, data[..])
  {
    ObfuscatedBits(data[..], key);
    hide Xor, XoredBits;
    var start := 0;
    while start < data.Length
      invariant 0 <= start <= data.Length && (start % 4 == 0 || start == data.Length)
      invariant forall i :: 0 <= i < start ==> data[i] == Xor(old(data[i]), key[i % 4])
      invariant forall i :: start <= i < data.Length ==> data[i] == old(data[i])
    {
      var chunk := Min(4, data.Length - start);
      var idx := 0;
      while idx < chunk
        invariant 0 <= idx <= chunk
        invariant forall i :: 0 <= i < start + idx ==> data[i] == Xor(old(data[i]), key[i % 4])
        invariant forall i :: start + idx <= i < data.Length ==> data[i] == old(data[i])
      {
        assert (start + idx) % 4 == idx;
        data[start + idx] := Xor(data[start + idx], key[idx]);
        idx := idx + 1;
      }
      start := start + chunk;
    }
  }
}
