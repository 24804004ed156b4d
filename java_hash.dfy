/**
 * The Java hash codes that `equals`/`hashCode` of the claim and identity
 * records are built from: 32-bit two's-complement wrap-around, String.hashCode,
 * Long.hashCode and Objects.hash.
 */
module JavaHash {
  import opened Common

  const TWO_32: int := 0x1_0000_0000
  const TWO_31: int := 0x8000_0000
  const TWO_64: int := 0x1_0000_0000_0000_0000

  /** The range of a Java `int`. */
  predicate IsInt32(x: int) {
    -TWO_31 <= x < TWO_31
  }

  /** The `int` that Java arithmetic leaves for the mathematical value `x`: its residue modulo 2^32, read as signed. */
  function ToInt32(x: int): (r: int)
    ensures IsInt32(r)
    ensures x % TWO_32 == r % TWO_32
  {
    var u := x % TWO_32;
    if u >= TWO_31 then u - TWO_32 else u
  }

  /** A value already in range is left as it is. */
  lemma ToInt32OfInt32(x: int)
    requires IsInt32(x)
    ensures ToInt32(x) == x
  {
    if x < 0 {
      assert (x + TWO_32) % TWO_32 == x % TWO_32;
    }
  }

  /**
   * The UTF-16 code units of one character, as a Java `String` stores it: the
   * character itself in the Basic Multilingual Plane, a surrogate pair above it.
   */
  function Utf16(c: char): (units: seq<int>)
    ensures 1 <= |units| <= 2
    ensures forall i :: 0 <= i < |units| ==> 0 <= units[i] < 0x1_0000
    ensures |units| == 1 <==> c as int < 0x1_0000
    ensures |units| == 2 ==> 0xD800 <= units[0] < 0xDC00 <= units[1] < 0xE000
  {
    var v := c as int;
    if v < 0x1_0000 then [v]
    else [0xD800 + (v - 0x1_0000) / 0x400, 0xDC00 + (v - 0x1_0000) % 0x400]
  }

  /** A surrogate pair decodes back to the character it encodes. */
  lemma Utf16Decodes(c: char)
    requires c as int >= 0x1_0000
    ensures 0x1_0000 + (Utf16(c)[0] - 0xD800) * 0x400 + (Utf16(c)[1] - 0xDC00) == c as int
  {
  }

  /** The UTF-16 encoding of a string: the code units of its characters in order. */
  function Utf16Encode(s: string): (units: seq<int>)
    ensures |units| >= |s|
  {
    if s == [] then [] else Utf16Encode(s[..|s| - 1]) + Utf16(s[|s| - 1])
  }

  /** A string in the Basic Multilingual Plane is its own sequence of code units. */
  lemma {:induction false} Utf16EncodeBmp(s: string)
    requires forall i :: 0 <= i < |s| ==> s[i] as int < 0x1_0000
    ensures |Utf16Encode(s)| == |s|
    ensures forall i :: 0 <= i < |s| ==> Utf16Encode(s)[i] == s[i] as int
  {
    if s != [] {
      Utf16EncodeBmp(s[..|s| - 1]);
    }
  }

  /** h = 31 * h + u over code units, in `int` arithmetic. */
  function UnitsHash(units: seq<int>): (h: int)
    ensures IsInt32(h)
  {
    if units == [] then 0 else ToInt32(31 * UnitsHash(units[..|units| - 1]) + units[|units| - 1])
  }

  /** String.hashCode, over the UTF-16 code units of the string. */
  function StringHash(s: string): (h: int)
    ensures IsInt32(h)
  {
    UnitsHash(Utf16Encode(s))
  }

  /** Objects.hashCode for a String: 0 for null. */
  function OptionalStringHash(s: Option<string>): (h: int)
    ensures IsInt32(h)
  {
    if s.None? then 0 else StringHash(s.value)
  }

  /** Long.hashCode: the two 32-bit halves of the 64-bit value, exclusive-or'ed. */
  function LongHash(v: int): (h: int)
    ensures IsInt32(h)
  {
    var bits := (v % TWO_64) as bv64;
    var folded := bits ^ (bits >> 32);
    ToInt32((folded & 0xFFFF_FFFF) as int)
  }

  /** Objects.hashCode for a Long: 0 for null. */
  function OptionalLongHash(v: Option<int>): (h: int)
    ensures IsInt32(h)
  {
    if v.None? then 0 else LongHash(v.value)
  }

  /** Objects.hash (Arrays.hashCode) of values whose own hash codes are `hashes`: result = 31 * result + h, from 1. */
  function ObjectsHash(hashes: seq<int>): (h: int)
    ensures IsInt32(h)
  {
    if hashes == [] then 1 else ToInt32(31 * ObjectsHash(hashes[..|hashes| - 1]) + hashes[|hashes| - 1])
  }

  /** A one-character string of the Basic Multilingual Plane hashes to its character code. */
  lemma StringHashOfChar(c: char)
    requires c as int < 0x1_0000
    ensures StringHash([c]) == c as int
  {
    var v := c as int;
    var u: seq<int> := [v];
    assert Utf16(c) == u;
    assert [c][..0] == [];
    assert Utf16Encode([c]) == [] + u;
    assert u[..0] == [];
    assert UnitsHash(u[..0]) == 0;
    ToInt32OfInt32(v);
    assert UnitsHash(u) == ToInt32(31 * 0 + v);
  }

  /** A character outside it hashes as its surrogate pair: U+1F600 is 31 * 0xD83D + 0xDE00. */
  lemma StringHashOfSupplementary()
    ensures StringHash("\U{1F600}") == 31 * 0xD83D + 0xDE00
  {
    var s := "\U{1F600}";
    var u: seq<int> := [0xD83D, 0xDE00];
    assert s[..0] == [];
    assert Utf16Encode(s) == u;
    assert u[..1] == [0xD83D];
    assert u[..1][..0] == [];
    ToInt32OfInt32(0xD83D);
    assert UnitsHash(u[..1]) == 0xD83D;
    ToInt32OfInt32(31 * 0xD83D + 0xDE00);
    assert UnitsHash(u) == 31 * 0xD83D + 0xDE00;
  }
}
