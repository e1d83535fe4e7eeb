/**
 * Bytes, unsigned 64-bit integers and their Borsh encoding.
 *
 * Borsh writes a `u64` as its 8 bytes in little-endian order, and a struct
 * whose only field is a `u64` as exactly those 8 bytes: no length prefix,
 * no tag, no padding.
 */
module Borsh {
  import opened Wrappers

  /** An unsigned 8-bit value (Rust `u8`). */
  type Byte = b: int | 0 <= b < 256

  /** An unsigned 64-bit value (Rust `u64`). */
  type U64 = x: int | 0 <= x < 0x1_0000_0000_0000_0000

  const U64_MAX: U64 := 0xFFFF_FFFF_FFFF_FFFF

  /** 256 to the power n, i.e. 2^(8n). */
  function Pow256(n: nat): (p: nat)
    ensures p > 0
  {
    if n == 0 then 1 else 256 * Pow256(n - 1)
  }

  lemma Pow256Of8()
    ensures Pow256(8) == 0x1_0000_0000_0000_0000
  {
  }

  /** The n low-order bytes of x, least significant first. */
  function ToLittleEndian(x: nat, n: nat): (bytes: seq<Byte>)
    ensures |bytes| == n
  {
    if n == 0 then [] else [x % 256] + ToLittleEndian(x / 256, n - 1)
  }

  /** The number whose little-endian bytes are `bytes`. */
  function FromLittleEndian(bytes: seq<Byte>): (x: nat)
    ensures x < Pow256(|bytes|)
  {
    if bytes == [] then 0
    else
      var rest := FromLittleEndian(bytes[1..]);
      assert rest + 1 <= Pow256(|bytes| - 1);
      assert 256 * (rest + 1) <= 256 * Pow256(|bytes| - 1);
      bytes[0] + 256 * rest
  }

  /** Reading back the n bytes written for x gives x, whenever x fits in n bytes. */
  lemma {:induction false} FromToLittleEndian(x: nat, n: nat)
    requires x < Pow256(n)
    ensures FromLittleEndian(ToLittleEndian(x, n)) == x
  {
    if n > 0 {
      var bytes := ToLittleEndian(x, n);
      assert x / 256 < Pow256(n - 1);
      FromToLittleEndian(x / 256, n - 1);
      assert bytes[1..] == ToLittleEndian(x / 256, n - 1);
    }
  }

  /** Writing back the number read from `bytes` gives `bytes`. */
  lemma {:induction false} ToFromLittleEndian(bytes: seq<Byte>)
    ensures ToLittleEndian(FromLittleEndian(bytes), |bytes|) == bytes
  {
    if bytes != [] {
      var rest := FromLittleEndian(bytes[1..]);
      var x := bytes[0] + 256 * rest;
      assert x % 256 == bytes[0];
      assert x / 256 == rest;
      ToFromLittleEndian(bytes[1..]);
    }
  }

  lemma MulAtLeast(d: nat, k: int)
    requires k >= 1
    ensures d * k >= d
  {
  }

  /** Division is determined by a quotient and a remainder below the divisor. */
  lemma DivideExactly(x: nat, d: nat, a: nat, s: nat)
    requires 0 <= s < d && x == d * a + s
    ensures x / d == a
  {
    var q, r := x / d, x % d;
    assert x == d * q + r;
    if q < a {
      MulAtLeast(d, a - q);
      assert false;
    } else if q > a {
      MulAtLeast(d, q - a);
      assert false;
    }
  }

  /** Dividing by 256 and then by 256^i is dividing by 256^(i+1). */
  lemma DivPow256(x: nat, i: nat)
    ensures x / 256 / Pow256(i) == x / Pow256(i + 1)
  {
    var p := Pow256(i);
    var q, r := x / 256, x % 256;
    var a, b := q / p, q % p;
    assert q == p * a + b;
    assert x == 256 * q + r;
    assert x == (256 * p) * a + (256 * b + r);
    MulAtLeast(256, p - b);
    DivideExactly(x, 256 * p, a, 256 * b + r);
  }

  /** Byte i of the encoding is (x >> 8i) & 0xFF, written with division. */
  lemma {:induction false} LittleEndianByte(x: nat, n: nat, i: nat)
    requires i < n
    ensures ToLittleEndian(x, n)[i] == (x / Pow256(i)) % 256
  {
    if i > 0 {
      LittleEndianByte(x / 256, n - 1, i - 1);
      DivPow256(x, i - 1);
    }
  }

  /** Borsh encoding of a `u64` (`u64::to_le_bytes`). */
  function EncodeU64LE(x: U64): (bytes: seq<Byte>)
    ensures |bytes| == 8
    ensures FromLittleEndian(bytes) == x
  {
    Pow256Of8();
    FromToLittleEndian(x, 8);
    ToLittleEndian(x, 8)
  }

  /** Borsh decoding of a `u64` from a whole buffer: exactly 8 bytes are needed. */
  function DecodeU64LE(bytes: seq<Byte>): (r: Option<U64>)
    ensures r.Some? <==> |bytes| == 8
  {
    if |bytes| != 8 then None
    else
      Pow256Of8();
      Some(FromLittleEndian(bytes))
  }

  /** Decoding an encoded amount gives the amount back, for every u64. */
  lemma DecodeEncodeU64(x: U64)
    ensures DecodeU64LE(EncodeU64LE(x)) == Some(x)
  {
  }

  /** Every 8-byte buffer is the encoding of the amount it decodes to. */
  lemma EncodeDecodeU64(bytes: seq<Byte>)
    requires |bytes| == 8
    ensures DecodeU64LE(bytes).Some?
    ensures EncodeU64LE(DecodeU64LE(bytes).value) == bytes
  {
    ToFromLittleEndian(bytes);
  }

  /** The encoding is 8 bytes and byte i is (x >> 8i) & 0xFF. */
  lemma EncodeU64LEBytes(x: U64)
    ensures |EncodeU64LE(x)| == 8
    ensures forall i :: 0 <= i < 8 ==> EncodeU64LE(x)[i] == (x / Pow256(i)) % 256
  {
    forall i | 0 <= i < 8
      ensures EncodeU64LE(x)[i] == (x / Pow256(i)) % 256
    {
      LittleEndianByte(x, 8, i);
    }
  }

  /** The two boundary amounts: 0 and u64::MAX. */
  lemma EncodeU64LEBounds()
    ensures EncodeU64LE(0) == [0, 0, 0, 0, 0, 0, 0, 0]
    ensures EncodeU64LE(U64_MAX) == [255, 255, 255, 255, 255, 255, 255, 255]
    ensures DecodeU64LE(EncodeU64LE(0)) == Some(0)
    ensures DecodeU64LE(EncodeU64LE(U64_MAX)) == Some(U64_MAX)
  {
  }
}
