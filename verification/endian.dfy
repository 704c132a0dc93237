/**
 * Little-endian wire values, as the typed extraction operators `>>` of
 * src/files.h read them: a fixed number of bytes, least significant first
 * (LittleShort / LittleLong), read as unsigned or as two's complement.
 */
module Endian {

  /** One byte of a stream. */
  type uint8 = x: int | 0 <= x < 256

  /** The number of distinct values that `n` bytes can hold. */
  function Pow256(n: nat): (r: nat)
    ensures r > 0
  {
    if n == 0 then 1 else 256 * Pow256(n - 1)
  }

  /** Half of 256^n: the bound of the n-byte two's-complement range. */
  function Half(n: nat): (h: int)
    requires n > 0
    ensures Pow256(n) == 2 * h
  {
    128 * Pow256(n - 1)
  }

  /** The unsigned value of `bs` with the first byte least significant. */
  function DecodeLE(bs: seq<uint8>): (r: nat)
    ensures r < Pow256(|bs|)
  {
    if bs == [] then 0 else bs[0] + 256 * DecodeLE(bs[1..])
  }

  /** The `n` little-endian bytes of `x` (higher bytes beyond `n` are dropped). */
  function EncodeLE(x: nat, n: nat): (bs: seq<uint8>)
    ensures |bs| == n
  {
    if n == 0 then [] else [x % 256] + EncodeLE(x / 256, n - 1)
  }

  /** Encoding then decoding a value that fits in `n` bytes gives it back. */
  lemma {:induction false} DecodeEncode(x: nat, n: nat)
    requires x < Pow256(n)
    ensures DecodeLE(EncodeLE(x, n)) == x
  {
    if n > 0 {
      DecodeEncode(x / 256, n - 1);
      assert EncodeLE(x, n)[1..] == EncodeLE(x / 256, n - 1);
    }
  }

  /** Decoding then re-encoding at the same width gives the same bytes. */
  lemma {:induction false} EncodeDecode(bs: seq<uint8>)
    ensures EncodeLE(DecodeLE(bs), |bs|) == bs
  {
    if bs != [] {
      EncodeDecode(bs[1..]);
      var x := DecodeLE(bs);
      assert x % 256 == bs[0] && x / 256 == DecodeLE(bs[1..]);
    }
  }

  /**
   * Two's-complement reading of an `n`-byte unsigned value: values with the
   * top bit clear stay, the others lose 256^n.
   */
  function ToSigned(u: nat, n: nat): (s: int)
    requires 0 < n && u < Pow256(n)
    ensures -Half(n) <= s < Half(n)
    ensures s >= 0 ==> s == u
    ensures s < 0 ==> s == u - Pow256(n)
  {
    if u < Half(n) then u else u - Pow256(n)
  }

  /** The `n`-byte unsigned bit pattern of a signed value; inverse of ToSigned. */
  function ToUnsigned(s: int, n: nat): (u: nat)
    requires 0 < n && -Half(n) <= s < Half(n)
    ensures u < Pow256(n)
    ensures ToSigned(u, n) == s
  {
    if s < 0 then s + Pow256(n) else s
  }

  /** The reverse round trip: signed reading then bit pattern is the identity. */
  lemma UnsignedOfSigned(u: nat, n: nat)
    requires 0 < n && u < Pow256(n)
    ensures ToUnsigned(ToSigned(u, n), n) == u
  {
  }

  /**
   * The integer types the extraction operators fill: uint8_t, int8_t,
   * uint16_t, int16_t, uint32_t and int.
   */
  datatype Scalar = U8 | I8 | U16 | I16 | U32 | I32
  {
    /** Bytes read from the stream for this type. */
    function Width(): (w: nat)
    {
      match this
      case U8 | I8 => 1
      case U16 | I16 => 2
      case U32 | I32 => 4
    }

    predicate Signed()
    {
      this == I8 || this == I16 || this == I32
    }

    /** `v` is a value of this type. */
    predicate Holds(v: int)
    {
      if Signed() then -Half(Width()) <= v < Half(Width())
      else 0 <= v < Pow256(Width())
    }
  }

  /** The value of type `k` whose little-endian wire bytes are `bs`. */
  function FromWire(k: Scalar, bs: seq<uint8>): (v: int)
    requires |bs| == k.Width()
    ensures k.Holds(v)
  {
    if k.Signed() then ToSigned(DecodeLE(bs), k.Width()) else DecodeLE(bs)
  }

  /** The little-endian wire bytes of the value `v` of type `k`. */
  function ToWire(k: Scalar, v: int): (bs: seq<uint8>)
    requires k.Holds(v)
    ensures |bs| == k.Width()
  {
    if k.Signed() then EncodeLE(ToUnsigned(v, k.Width()), k.Width())
    else EncodeLE(v, k.Width())
  }

  /** Every value survives a trip through its wire bytes. */
  lemma {:induction false} FromWireToWire(k: Scalar, v: int)
    requires k.Holds(v)
    ensures FromWire(k, ToWire(k, v)) == v
  {
    if k.Signed() {
      DecodeEncode(ToUnsigned(v, k.Width()), k.Width());
    } else {
      DecodeEncode(v, k.Width());
    }
  }

  /** Every byte pattern survives a trip through its value. */
  lemma {:induction false} ToWireFromWire(k: Scalar, bs: seq<uint8>)
    requires |bs| == k.Width()
    ensures ToWire(k, FromWire(k, bs)) == bs
  {
    EncodeDecode(bs);
    if k.Signed() {
      UnsignedOfSigned(DecodeLE(bs), k.Width());
    }
  }

  /** 16-bit extraction: `b0 + 256*b1`, less 65536 for int16_t when the top bit is set. */
  lemma {:induction false} LittleShortValue(b0: uint8, b1: uint8)
    ensures FromWire(U16, [b0, b1]) == b0 + 256 * b1
    ensures FromWire(I16, [b0, b1]) == if b1 < 128 then b0 + 256 * b1 else b0 + 256 * b1 - 65536
  {
    assert [b0, b1][1..] == [b1];
    assert [b1][1..] == [];
    assert DecodeLE([b1]) == b1;
    assert Pow256(2) == 65536;
  }

  /** 32-bit extraction: `b0 + 2^8*b1 + 2^16*b2 + 2^24*b3`, less 2^32 for int when the top bit is set. */
  lemma {:induction false} LittleLongValue(b0: uint8, b1: uint8, b2: uint8, b3: uint8)
    ensures FromWire(U32, [b0, b1, b2, b3]) == b0 + 0x100 * b1 + 0x1_0000 * b2 + 0x100_0000 * b3
    ensures FromWire(I32, [b0, b1, b2, b3])
         == if b3 < 128 then b0 + 0x100 * b1 + 0x1_0000 * b2 + 0x100_0000 * b3
            else b0 + 0x100 * b1 + 0x1_0000 * b2 + 0x100_0000 * b3 - 0x1_0000_0000
  {
    assert [b0, b1, b2, b3][1..] == [b1, b2, b3];
    assert [b1, b2, b3][1..] == [b2, b3];
    assert [b2, b3][1..] == [b3];
    assert [b3][1..] == [];
    assert DecodeLE([b3]) == b3;
    assert DecodeLE([b2, b3]) == b2 + 256 * b3;
    assert DecodeLE([b1, b2, b3]) == b1 + 256 * b2 + 0x1_0000 * b3;
    assert Pow256(4) == 0x1_0000_0000;
  }

  /**
   * What a `>>` extraction leaves in its target `v` (on a little-endian host)
   * when Read delivered only the bytes `got`: those bytes replace the target's
   * first bytes in memory and the remaining bytes keep their old contents.
   */
  function Extracted(k: Scalar, got: seq<uint8>, v: int): (r: int)
    requires |got| <= k.Width() && k.Holds(v)
    ensures k.Holds(r)
  {
    FromWire(k, got + ToWire(k, v)[|got|..])
  }

  /**
   * The wire bytes of an extracted value: those that arrived, followed by the
   * old value's bytes that were not overwritten.
   */
  lemma ExtractedBytes(k: Scalar, got: seq<uint8>, v: int)
    requires |got| <= k.Width() && k.Holds(v)
    ensures ToWire(k, Extracted(k, got, v)) == got + ToWire(k, v)[|got|..]
  {
    ToWireFromWire(k, got + ToWire(k, v)[|got|..]);
  }

  /** A complete read yields the value of the bytes read, whatever `v` held. */
  lemma ExtractedComplete(k: Scalar, got: seq<uint8>, v: int)
    requires |got| == k.Width() && k.Holds(v)
    ensures Extracted(k, got, v) == FromWire(k, got)
  {
    assert got + ToWire(k, v)[|got|..] == got;
  }

  /** An empty read (end of stream) leaves the target as it was, and signals nothing. */
  lemma ExtractedNothing(k: Scalar, v: int)
    requires k.Holds(v)
    ensures Extracted(k, [], v) == v
  {
    assert [] + ToWire(k, v)[0..] == ToWire(k, v);
    FromWireToWire(k, v);
  }
}
