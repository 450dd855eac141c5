/**
 * A reference model of the contract of the external bit-field reader that the
 * header decoder relies on: bytes are read as a bit string, most significant bit
 * first, and each requested field is the unsigned value of the next `w` bits.
 * The header decoder itself uses byte arithmetic; this module is what that
 * arithmetic is proved against.
 */
module Bits {

  function Pow2(n: nat): (p: nat)
    ensures p >= 1
  {
    if n == 0 then 1 else 2 * Pow2(n - 1)
  }

  /** The unsigned value of a bit string, most significant bit first. */
  function Value(s: seq<bool>): (v: nat)
    ensures v < Pow2(|s|)
  {
    if s == [] then 0 else 2 * Value(s[..|s| - 1]) + (if s[|s| - 1] then 1 else 0)
  }

  /** The w low bits of n, most significant first. */
  function NatBits(n: nat, w: nat): (s: seq<bool>)
    ensures |s| == w
  {
    if w == 0 then [] else NatBits(n / 2, w - 1) + [n % 2 == 1]
  }

  function ByteBits(x: bv8): (s: seq<bool>)
    ensures |s| == 8
  {
    NatBits(x as nat, 8)
  }

  /** The bit string of a byte sequence, each byte most significant bit first. */
  function FromBytes(b: seq<bv8>): (s: seq<bool>)
    ensures |s| == 8 * |b|
  {
    if b == [] then [] else ByteBits(b[0]) + FromBytes(b[1..])
  }

  function Sum(widths: seq<nat>): nat {
    if widths == [] then 0 else widths[0] + Sum(widths[1..])
  }

  /** Consecutive fields of the given widths, read from the front of `bits`. */
  function ReadFields(bits: seq<bool>, widths: seq<nat>): (fields: seq<nat>)
    requires Sum(widths) <= |bits|
    ensures |fields| == |widths|
    ensures forall i :: 0 <= i < |widths| ==> fields[i] < Pow2(widths[i])
  {
    if widths == [] then []
    else [Value(bits[..widths[0]])] + ReadFields(bits[widths[0]..], widths[1..])
  }

  lemma {:induction false} ValueNatBits(n: nat, w: nat)
    requires n < Pow2(w)
    ensures Value(NatBits(n, w)) == n
  {
    if w > 0 {
      var s := NatBits(n, w);
      assert s[..w - 1] == NatBits(n / 2, w - 1);
      ValueNatBits(n / 2, w - 1);
    }
  }

  /** Bits appended at the low end shift the value up by their count. */
  lemma {:induction false} ValueAppend(a: seq<bool>, b: seq<bool>)
    ensures Value(a + b) == Value(a) * Pow2(|b|) + Value(b)
  {
    if b != [] {
      var b' := b[..|b| - 1];
      assert (a + b)[..|a + b| - 1] == a + b';
      ValueAppend(a, b');
      var lsb := if b[|b| - 1] then 1 else 0;
      var va, p := Value(a), Pow2(|b'|);
      assert (a + b)[|a + b| - 1] == b[|b| - 1];
      assert Value(a + b) == 2 * Value(a + b') + lsb;
      assert Value(b) == 2 * Value(b') + lsb;
      assert Pow2(|b|) == 2 * p;
      DoubleProduct(va, p);
    } else {
      assert a + b == a;
    }
  }

  lemma DoubleProduct(x: nat, p: nat)
    ensures 2 * (x * p) == x * (2 * p)
  {
  }

  /** The powers the header widths need. */
  lemma Pow2Values()
    ensures Pow2(7) == 128 && Pow2(8) == 0x100 && Pow2(16) == 0x1_0000
  {
    assert Pow2(4) == 16;
    assert Pow2(7) == 128;
    assert Pow2(8) == 0x100;
    assert Pow2(12) == 0x1000;
  }

  lemma ValueByte(x: bv8)
    ensures Value(ByteBits(x)) == x as nat
  {
    Pow2Values();
    ValueNatBits(x as nat, 8);
  }
}
