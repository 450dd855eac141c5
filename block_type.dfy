/**
 * The metadata block types. Each type is a distinct bit of a byte so that callers
 * can compose filters as bitmasks.
 */
module BlockTypes {
  import Decimal

  type BlockType = bv8

  const TypeStreamInfo: BlockType := 0x01
  const TypePadding: BlockType := 0x02
  const TypeApplication: BlockType := 0x04
  const TypeSeekTable: BlockType := 0x08
  const TypeVorbisComment: BlockType := 0x10
  const TypeCueSheet: BlockType := 0x20
  const TypePicture: BlockType := 0x40
  const TypeReserved: BlockType := 0x80

  /** Every block type except padding. */
  const TypeAll: BlockType :=
    TypeStreamInfo | TypeApplication | TypeSeekTable | TypeVorbisComment | TypeCueSheet | TypePicture | TypeReserved
  /** Every block type including padding, excluding reserved. */
  const TypeAllStrict: BlockType :=
    TypeStreamInfo | TypePadding | TypeApplication | TypeSeekTable | TypeVorbisComment | TypeCueSheet | TypePicture

  /** The eight constants in declaration order. */
  const Types: seq<BlockType> :=
    [TypeStreamInfo, TypePadding, TypeApplication, TypeSeekTable, TypeVorbisComment, TypeCueSheet, TypePicture, TypeReserved]

  /** The names of the seven non-reserved types, in declaration order. */
  const KnownNames: seq<string> :=
    ["stream info", "padding", "application", "seek table", "vorbis comment", "cue sheet", "picture"]

  /**
   * The name table, keyed by the numeric value of the type (the verifier cannot
   * look up literal keys of a map keyed by a bit-vector type).
   */
  const BlockTypeName: map<nat, string> := map[
    TypeStreamInfo as nat := KnownNames[0],
    TypePadding as nat := KnownNames[1],
    TypeApplication as nat := KnownNames[2],
    TypeSeekTable as nat := KnownNames[3],
    TypeVorbisComment as nat := KnownNames[4],
    TypeCueSheet as nat := KnownNames[5],
    TypePicture as nat := KnownNames[6]
  ]

  const UnknownPrefix: string := "unknown block type "

  /** The name of a block type: a fixed name for a named type, otherwise its number. */
  function Name(t: BlockType): (s: string)
    ensures s != []
    ensures t as nat in BlockTypeName ==> s in KnownNames
  {
    if t as nat in BlockTypeName then BlockTypeName[t as nat] else UnknownPrefix + Decimal.Format(t as nat)
  }

  /** The constants are the single-bit values 1 << 0 through 1 << 7, all distinct. */
  lemma TypesAreDistinctBits()
    ensures |Types| == 8
    ensures forall k :: 0 <= k < 8 ==> Types[k] == (1 as bv8) << k
    ensures forall i, j :: 0 <= i < j < 8 ==> Types[i] != Types[j]
  {
  }

  /** A value is one of the constants exactly when it has one bit set. */
  lemma TypesAreTheSingleBits(t: BlockType)
    ensures t in Types <==> (t != 0 && t & (t - 1) == 0)
  {
  }

  /** TypeAll holds every constant but padding; TypeAllStrict every constant but reserved. */
  lemma MaskMembership(t: BlockType)
    requires t in Types
    ensures (t & TypeAll != 0) <==> t != TypePadding
    ensures (t & TypeAllStrict != 0) <==> t != TypeReserved
  {
  }

  /** Each mask is the full byte with exactly one type bit cleared. */
  lemma MasksAreComplements()
    ensures TypeAll == 0xFF ^ TypePadding
    ensures TypeAllStrict == 0xFF ^ TypeReserved
  {
  }

  /** The seven named types get their fixed names. */
  lemma NameKnown(k: nat)
    requires k < 7
    ensures Name(Types[k]) == KnownNames[k]
  {
    match k
    case 0 => case 1 => case 2 => case 3 => case 4 => case 5 => case 6 =>
  }

  /** Every other value, reserved included, is rendered by number. */
  lemma NameUnknown(t: BlockType)
    requires t !in Types[..7]
    ensures Name(t) == UnknownPrefix + Decimal.Format(t as nat)
    ensures Name(TypeReserved) == "unknown block type 128"
  {
    NameKeys(t);
    assert Decimal.Format(128) == "128" by {
      assert Decimal.Format(12) == "12" by {
        assert Decimal.Format(1) == "1";
      }
    }
  }

  lemma NameKeys(t: BlockType)
    ensures t as nat in BlockTypeName <==> t in Types[..7]
  {
    assert Types[..7] == [TypeStreamInfo, TypePadding, TypeApplication, TypeSeekTable, TypeVorbisComment, TypeCueSheet, TypePicture];
  }

  /** Name tells all 256 values apart. */
  lemma NameInjective(a: BlockType, b: BlockType)
    requires Name(a) == Name(b)
    ensures a == b
  {
    NameKeys(a);
    NameKeys(b);
    var ka, kb := a as nat in BlockTypeName, b as nat in BlockTypeName;
    if ka && kb {
      var i :| 0 <= i < 7 && a == Types[i];
      var j :| 0 <= j < 7 && b == Types[j];
      KnownNamesDistinct(i, j);
    } else if !ka && !kb {
      NumberedNamesDistinct(a, b);
    } else if ka {
      var i :| 0 <= i < 7 && a == Types[i];
      KnownIsNotNumbered(i, b);
    } else {
      var j :| 0 <= j < 7 && b == Types[j];
      KnownIsNotNumbered(j, a);
    }
  }

  lemma KnownNamesDistinct(i: nat, j: nat)
    requires i < 7 && j < 7 && Name(Types[i]) == Name(Types[j])
    ensures i == j
  {
    NameKnown(i);
    NameKnown(j);
  }

  lemma NumberedNamesDistinct(a: BlockType, b: BlockType)
    requires a as nat !in BlockTypeName && b as nat !in BlockTypeName
    requires Name(a) == Name(b)
    ensures a == b
  {
    assert Name(a)[|UnknownPrefix|..] == Decimal.Format(a as nat);
    assert Name(b)[|UnknownPrefix|..] == Decimal.Format(b as nat);
    Decimal.FormatInjective(a as nat, b as nat);
  }

  lemma KnownIsNotNumbered(i: nat, t: BlockType)
    requires i < 7 && t as nat !in BlockTypeName
    ensures Name(Types[i]) != Name(t)
  {
    NameKnown(i);
    assert Name(t)[0] == 'u';
  }
}
