/**
 * The metadata block header: four bytes holding, most significant bit first, a
 * 1-bit last-block flag, a 7-bit type code and a 24-bit body length.
 */
module Headers {
  import opened Results
  import opened BlockTypes
  import Bits

  const HeaderSize: nat := 4
  const MaxLength: nat := 0xFF_FFFF
  /** The one type code the format forbids (it could be mistaken for a frame sync code). */
  const InvalidCode: nat := 127

  datatype BlockHeader = BlockHeader(isLast: bool, blockType: BlockType, length: nat)

  /** The notice the decoder gives for a reserved type code, in place of a log line. */
  datatype Diagnostic = ReservedBlockType(code: nat)

  datatype Decoded = Decoded(header: BlockHeader, diagnostic: Option<Diagnostic>)

  /** The three raw fields of a header. */
  datatype Fields = Fields(last: nat, code: nat, length: nat)

  /** The unsigned value of a byte. */
  function Unsigned(x: bv8): (n: nat)
    ensures n < 256
  {
    x as nat
  }

  /**
   * The byte whose unsigned value is n, that is `n as bv8`. It is written by
   * counting up from zero because the solver handles a direct int-to-bit-vector
   * conversion poorly, while each `+ 1` step here is cheap to relate to `Unsigned`.
   */
  function ToByte(n: nat): (x: bv8)
    requires n < 256
    ensures Unsigned(x) == n
  {
    if n == 0 then 0 else ToByte(n - 1) + 1
  }

  /** The fields of four header bytes, by byte arithmetic. */
  function HeaderFields(b: seq<bv8>): (f: Fields)
    requires |b| == HeaderSize
    ensures f.last < 2 && f.code < 128 && f.length <= MaxLength
  {
    Fields(Unsigned(b[0]) / 128, Unsigned(b[0]) % 128, Unsigned(b[1]) * 0x1_0000 + Unsigned(b[2]) * 0x100 + Unsigned(b[3]))
  }

  /** The four bytes of a header with the given fields. */
  function Encode(isLast: bool, code: nat, length: nat): (b: seq<bv8>)
    requires code < 128 && length <= MaxLength
    ensures |b| == HeaderSize
  {
    [ ToByte((if isLast then 128 else 0) + code),
      ToByte(length / 0x1_0000),
      ToByte(length / 0x100 % 0x100),
      ToByte(length % 0x100) ]
  }

  /**
   * Decodes a header from the bytes the reader supplies; only the first four are
   * used, and fewer than four is a short read.
   */
  function ParseBlockHeader(b: seq<bv8>): (r: Result<Decoded>)
    ensures r == Err(Eof) <==> |b| < HeaderSize
    ensures r == Err(InvalidBlockType) <==> |b| >= HeaderSize && b[0] & 0x7F == 0x7F
    ensures r.Ok? ==> r.value.header.isLast == (b[0] & 0x80 != 0)
    ensures r.Ok? ==> r.value.header.length == Unsigned(b[1]) * 65536 + Unsigned(b[2]) * 256 + Unsigned(b[3]) <= MaxLength
  {
    if |b| < HeaderSize then Err(Eof)
    else
      var f := HeaderFields(b[..HeaderSize]);
      var isLast := f.last != 0;
      match f.code
      case 0 => Ok(Decoded(BlockHeader(isLast, TypeStreamInfo, f.length), None))
      case 1 => Ok(Decoded(BlockHeader(isLast, TypePadding, f.length), None))
      case 2 => Ok(Decoded(BlockHeader(isLast, TypeApplication, f.length), None))
      case 3 => Ok(Decoded(BlockHeader(isLast, TypeSeekTable, f.length), None))
      case 4 => Ok(Decoded(BlockHeader(isLast, TypeVorbisComment, f.length), None))
      case 5 => Ok(Decoded(BlockHeader(isLast, TypeCueSheet, f.length), None))
      case 6 => Ok(Decoded(BlockHeader(isLast, TypePicture, f.length), None))
      case _ =>
        if 7 <= f.code <= 126 then
          Ok(Decoded(BlockHeader(isLast, TypeReserved, f.length), Some(ReservedBlockType(f.code))))
        else
          Err(InvalidBlockType)
  }

  /** The byte arithmetic reads the same fields as the MSB-first bit reader asked for widths 1, 7, 24. */
  lemma FieldsAreBitFields(b: seq<bv8>)
    requires |b| == HeaderSize
    ensures var f := HeaderFields(b); Bits.ReadFields(Bits.FromBytes(b), [1, 7, 24]) == [f.last, f.code, f.length]
  {
    var bits, f := Bits.FromBytes(b), HeaderFields(b);
    var fields := Bits.ReadFields(bits, [1, 7, 24]);
    ReadHeaderWidths(bits);
    assert fields[0] == f.last && fields[1] == f.code by {
      FlagAndCodeOf(b);
    }
    assert fields[2] == f.length by {
      LengthOf(b);
    }
  }

  /** The first byte of a header, as bits: the flag bit, then the seven code bits. */
  lemma FlagAndCodeOf(b: seq<bv8>)
    requires |b| == HeaderSize
    ensures var bits := Bits.FromBytes(b);
      Bits.Value(bits[..1]) == Unsigned(b[0]) / 128 && Bits.Value(bits[1..8]) == Unsigned(b[0]) % 128
  {
    var first := Bits.ByteBits(b[0]);
    var bits := Bits.FromBytes(b);
    assert bits == first + Bits.FromBytes(b[1..]);
    assert bits[..1] == first[..1] && bits[1..8] == first[1..];
    FlagAndCodeBits(b[0]);
  }

  /** The last three bytes of a header, as bits: the 24-bit length. */
  lemma LengthOf(b: seq<bv8>)
    requires |b| == HeaderSize
    ensures Bits.Value(Bits.FromBytes(b)[8..]) == Unsigned(b[1]) * 0x1_0000 + Unsigned(b[2]) * 0x100 + Unsigned(b[3])
  {
    var c := b[1..];
    assert Bits.FromBytes(b) == Bits.ByteBits(b[0]) + Bits.FromBytes(c);
    assert Bits.FromBytes(b)[8..] == Bits.FromBytes(c);
    assert c[0] == b[1] && c[1] == b[2] && c[2] == b[3];
    LengthBits(c);
  }

  /** Reading widths 1, 7, 24 from 32 bits takes bit 0, bits 1..7 and bits 8..31. */
  lemma ReadHeaderWidths(bits: seq<bool>)
    requires |bits| == 32
    ensures Bits.ReadFields(bits, [1, 7, 24]) == [Bits.Value(bits[..1]), Bits.Value(bits[1..8]), Bits.Value(bits[8..])]
  {
    var w: seq<nat> := [1, 7, 24];
    assert w[1..] == [7, 24] && w[1..][1..] == [24] && w[1..][1..][1..] == [];
    assert Bits.Sum([24]) == 24 + Bits.Sum([]);
    assert Bits.Sum([7, 24]) == 7 + Bits.Sum([24]);
    assert Bits.Sum(w) == 1 + Bits.Sum([7, 24]);
    var r3 := bits[8..];
    assert Bits.ReadFields(r3, [24]) == [Bits.Value(r3[..24])] + Bits.ReadFields(r3[24..], []);
    assert r3[..24] == r3;
    var r2 := bits[1..];
    assert r2[7..] == r3 && r2[..7] == bits[1..8];
    assert Bits.ReadFields(r2, [7, 24]) == [Bits.Value(r2[..7])] + Bits.ReadFields(r2[7..], [24]);
    assert Bits.ReadFields(bits, w) == [Bits.Value(bits[..1])] + Bits.ReadFields(r2, [7, 24]);
  }

  /** The most significant bit of a byte is its value divided by 128; the other seven are the remainder. */
  lemma FlagAndCodeBits(x: bv8)
    ensures var s := Bits.ByteBits(x);
      Bits.Value(s[..1]) == Unsigned(x) / 128 && Bits.Value(s[1..]) == Unsigned(x) % 128
  {
    var s := Bits.ByteBits(x);
    var hi, lo := s[..1], s[1..];
    var vh, vl := Bits.Value(hi), Bits.Value(lo);
    Bits.Pow2Values();
    assert |lo| == 7;
    assert Unsigned(x) == vh * 128 + vl by {
      assert s == hi + lo;
      Bits.ValueAppend(hi, lo);
      Bits.ValueByte(x);
    }
    Split128(vh, vl);
  }

  lemma Split128(q: nat, r: nat)
    requires r < 128
    ensures (q * 128 + r) / 128 == q && (q * 128 + r) % 128 == r
  {
  }

  /** Three bytes read as 24 bits give their big-endian value. */
  lemma LengthBits(c: seq<bv8>)
    requires |c| == 3
    ensures Bits.Value(Bits.FromBytes(c)) == Unsigned(c[0]) * 0x1_0000 + Unsigned(c[1]) * 0x100 + Unsigned(c[2])
  {
    var s0, s1, s2 := Bits.ByteBits(c[0]), Bits.ByteBits(c[1]), Bits.ByteBits(c[2]);
    FromThreeBytes(c);
    var v0, v1, v2 := Bits.Value(s0), Bits.Value(s1), Bits.Value(s2);
    assert v0 == Unsigned(c[0]) && v1 == Unsigned(c[1]) && v2 == Unsigned(c[2]) by {
      Bits.ValueByte(c[0]);
      Bits.ValueByte(c[1]);
      Bits.ValueByte(c[2]);
    }
    Bits.Pow2Values();
    assert Bits.Value(s1 + s2) == v1 * 0x100 + v2 by {
      Bits.ValueAppend(s1, s2);
    }
    assert Bits.Value(s0 + (s1 + s2)) == v0 * 0x1_0000 + Bits.Value(s1 + s2) by {
      assert |s1 + s2| == 16;
      Bits.ValueAppend(s0, s1 + s2);
    }
  }

  lemma FromThreeBytes(c: seq<bv8>)
    requires |c| == 3
    ensures Bits.FromBytes(c) == Bits.ByteBits(c[0]) + (Bits.ByteBits(c[1]) + Bits.ByteBits(c[2]))
  {
    assert Bits.FromBytes(c[2..]) == Bits.ByteBits(c[2]) by {
      assert c[2..][1..] == [];
      assert Bits.FromBytes(c[2..]) == Bits.ByteBits(c[2]) + Bits.FromBytes([]);
    }
    assert c[1..][1..] == c[2..];
  }

  /** Encoding then reading the fields returns the encoded fields. */
  lemma FieldsOfEncode(isLast: bool, code: nat, length: nat)
    requires code < 128 && length <= MaxLength
    ensures HeaderFields(Encode(isLast, code, length)) == Fields(if isLast then 1 else 0, code, length)
  {
    var flag := if isLast then 1 else 0;
    Split128(flag, code);
    JoinBytes(length);
  }

  lemma JoinBytes(n: nat)
    requires n <= MaxLength
    ensures n / 0x1_0000 * 0x1_0000 + n / 0x100 % 0x100 * 0x100 + n % 0x100 == n
  {
  }

  /** Every four bytes are the encoding of their own fields. */
  lemma EncodeOfFields(b: seq<bv8>)
    requires |b| == HeaderSize
    ensures var f := HeaderFields(b); Encode(f.last != 0, f.code, f.length) == b
  {
    var f := HeaderFields(b);
    var e := Encode(f.last != 0, f.code, f.length);
    var u0, u1, u2, u3 := Unsigned(b[0]), Unsigned(b[1]), Unsigned(b[2]), Unsigned(b[3]);
    var n := f.length;
    assert e[0] == b[0] by {
      FirstByteOfFields(u0);
      UnsignedInjective(e[0], b[0]);
    }
    LengthBytes(n, u1, u2, u3);
    assert e[1] == b[1] by {
      UnsignedInjective(e[1], b[1]);
    }
    assert e[2] == b[2] by {
      UnsignedInjective(e[2], b[2]);
    }
    assert e[3] == b[3] by {
      UnsignedInjective(e[3], b[3]);
    }
  }

  lemma FirstByteOfFields(u: nat)
    requires u < 256
    ensures (if u / 128 != 0 then 128 else 0) + u % 128 == u
  {
  }

  lemma LengthBytes(n: nat, u1: nat, u2: nat, u3: nat)
    requires u1 < 0x100 && u2 < 0x100 && u3 < 0x100
    requires n == u1 * 0x1_0000 + u2 * 0x100 + u3
    ensures n / 0x1_0000 == u1 && n / 0x100 % 0x100 == u2 && n % 0x100 == u3
  {
    SplitByte(u1 * 0x100 + u2, u3);
    SplitByte(u1, u2);
  }

  lemma SplitByte(q: nat, r: nat)
    requires r < 0x100
    ensures (q * 0x100 + r) / 0x100 == q && (q * 0x100 + r) % 0x100 == r
  {
  }

  lemma UnsignedInjective(x: bv8, y: bv8)
    requires Unsigned(x) == Unsigned(y)
    ensures x == y
  {
  }

  /** The type each known code 0..6 maps to: code k gives the constant 1 << k. */
  lemma KnownCode(b: seq<bv8>)
    requires |b| >= HeaderSize && HeaderFields(b[..HeaderSize]).code < 7
    ensures var f := HeaderFields(b[..HeaderSize]);
      ParseBlockHeader(b) == Ok(Decoded(BlockHeader(f.last != 0, Types[f.code], f.length), None))
  {
  }

  /** No two header codes decode to the same known type. */
  lemma KnownCodesInjective(b: seq<bv8>, c: seq<bv8>)
    requires |b| >= HeaderSize && |c| >= HeaderSize
    requires HeaderFields(b[..HeaderSize]).code < 7 && HeaderFields(c[..HeaderSize]).code < 7
    requires ParseBlockHeader(b).Ok? && ParseBlockHeader(c).Ok?
    requires ParseBlockHeader(b).value.header.blockType == ParseBlockHeader(c).value.header.blockType
    ensures HeaderFields(b[..HeaderSize]).code == HeaderFields(c[..HeaderSize]).code
  {
    KnownCode(b);
    KnownCode(c);
    TypesAreDistinctBits();
  }

  /** Codes 7..126 decode to the reserved type, with a diagnostic carrying the code. */
  lemma ReservedCode(b: seq<bv8>)
    requires |b| >= HeaderSize && 7 <= HeaderFields(b[..HeaderSize]).code <= 126
    ensures var f := HeaderFields(b[..HeaderSize]);
      ParseBlockHeader(b) == Ok(Decoded(BlockHeader(f.last != 0, TypeReserved, f.length), Some(ReservedBlockType(f.code))))
  {
  }

  /** Code 127 always fails, whatever the flag and length bits say. */
  lemma InvalidCodeFails(isLast: bool, length: nat)
    requires length <= MaxLength
    ensures ParseBlockHeader(Encode(isLast, InvalidCode, length)) == Err(InvalidBlockType)
  {
    FieldsOfEncode(isLast, InvalidCode, length);
  }

  /** A diagnostic is given exactly for the reserved type, and never for a known one. */
  lemma DiagnosticOnlyForReserved(b: seq<bv8>)
    requires ParseBlockHeader(b).Ok?
    ensures var d := ParseBlockHeader(b).value;
      d.diagnostic.Some? <==> d.header.blockType == TypeReserved
    ensures var d := ParseBlockHeader(b).value;
      d.header.blockType in Types
  {
  }

  /**
   * Encoding any valid code and length and then decoding gives back the flag,
   * the length and the type the code stands for.
   */
  lemma HeaderRoundTrip(isLast: bool, code: nat, length: nat)
    requires code < InvalidCode && length <= MaxLength
    ensures var r := ParseBlockHeader(Encode(isLast, code, length));
      && r.Ok?
      && r.value.header.isLast == isLast
      && r.value.header.length == length
      && r.value.header.blockType == (if code < 7 then Types[code] else TypeReserved)
      && r.value.diagnostic == (if code < 7 then None else Some(ReservedBlockType(code)))
  {
    var b := Encode(isLast, code, length);
    FieldsOfEncode(isLast, code, length);
    assert b[..HeaderSize] == b;
    if code < 7 {
      KnownCode(b);
    } else {
      ReservedCode(b);
    }
  }
}
