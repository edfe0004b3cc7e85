/** Bytes as Go's byte type, and the big-endian fixed-width encoding of
    encoding/binary. */
module Bytes {

  type byte = x: int | 0 <= x < 256

  function Pow256(k: nat): (p: nat)
    ensures p > 0
  {
    if k == 0 then 1 else 256 * Pow256(k - 1)
  }

  /** The k-byte big-endian encoding of n modulo 256^k, most significant byte
      first: what binary.BigEndian.PutUint64 writes for k = 8. */
  function BigEndian(n: nat, k: nat): (b: seq<byte>)
    ensures |b| == k
  {
    if k == 0 then [] else BigEndian(n / 256, k - 1) + [n % 256]
  }

  /** The number a big-endian byte string denotes: binary.BigEndian.Uint64 for
      eight bytes. */
  function FromBigEndian(b: seq<byte>): (n: nat)
    ensures n < Pow256(|b|)
  {
    if b == [] then 0 else FromBigEndian(b[..|b| - 1]) * 256 + b[|b| - 1]
  }

  /** Decoding an encoding gives the number back when it fits in k bytes. */
  lemma {:induction false} FromBigEndianInverse(n: nat, k: nat)
    requires n < Pow256(k)
    ensures FromBigEndian(BigEndian(n, k)) == n
  {
    if k > 0 {
      var b := BigEndian(n, k);
      assert b[..k - 1] == BigEndian(n / 256, k - 1);
      FromBigEndianInverse(n / 256, k - 1);
    }
  }

  /** Encoding a decoded byte string gives the bytes back. */
  lemma {:induction false} BigEndianInverse(b: seq<byte>)
    ensures BigEndian(FromBigEndian(b), |b|) == b
  {
    if b != [] {
      var n := FromBigEndian(b);
      var init := b[..|b| - 1];
      assert n / 256 == FromBigEndian(init) && n % 256 == b[|b| - 1];
      BigEndianInverse(init);
      assert b == init + [b[|b| - 1]];
    }
  }
}
