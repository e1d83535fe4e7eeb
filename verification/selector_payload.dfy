/**
 * Instruction data of the form `prefix ++ LE(amount)`: a selector (an
 * 8-byte discriminator taken from a hash, or a single instruction-index
 * byte) followed by the 8 little-endian bytes of a `u64` amount.
 */
module SelectorPayload {
  import opened Wrappers
  import opened Borsh

  /** A 32-byte digest, the size of a SHA-256 output. */
  type Digest = d: seq<Byte> | |d| == 32 witness seq(32, _ => 0)

  /** `hash::hash` over a byte string: a hash function the model does not look inside. */
  type Hasher = string -> Digest

  /** The hash preimage Anchor uses for the instruction handler called `name`. */
  function SighashPreimage(name: string): string
  {
    "global:" + name
  }

  /** `&hash(preimage).to_bytes()[..8]`: the first 8 bytes of the digest. */
  function Discriminator(hash: Hasher, preimage: string): (d: seq<Byte>)
    ensures |d| == 8
    ensures forall i :: 0 <= i < 8 ==> d[i] == hash(preimage)[i]
  {
    hash(preimage)[..8]
  }

  /** The selector followed by the little-endian amount; nothing else. */
  function PrefixedPayload(prefix: seq<Byte>, amount: U64): (data: seq<Byte>)
    ensures |data| == |prefix| + 8
    ensures data[..|prefix|] == prefix
    ensures DecodeU64LE(data[|prefix|..]) == Some(amount)
  {
    var data := prefix + EncodeU64LE(amount);
    assert data[|prefix|..] == EncodeU64LE(amount);
    DecodeEncodeU64(amount);
    data
  }

  /** Split data into a selector of `width` bytes and an amount; the rest must be exactly 8 bytes. */
  function DecodePrefixed(data: seq<Byte>, width: nat): (r: Option<(seq<Byte>, U64)>)
    ensures r.Some? <==> |data| == width + 8
    ensures r.Some? ==> |r.value.0| == width
  {
    if |data| != width + 8 then None
    else Some((data[..width], DecodeU64LE(data[width..]).value))
  }

  /** Decoding a payload recovers its selector and its amount. */
  lemma DecodePrefixedPayload(prefix: seq<Byte>, amount: U64)
    ensures DecodePrefixed(PrefixedPayload(prefix, amount), |prefix|) == Some((prefix, amount))
  {
  }

  /** Every buffer of selector width plus 8 bytes is the payload of what it decodes to. */
  lemma PrefixedPayloadOfDecoded(data: seq<Byte>, width: nat)
    requires |data| == width + 8
    ensures var (prefix, amount) := DecodePrefixed(data, width).value;
      PrefixedPayload(prefix, amount) == data
  {
    EncodeDecodeU64(data[width..]);
    assert data == data[..width] + data[width..];
  }
}
