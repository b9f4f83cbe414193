/**
 * The few pieces of java.lang.String behaviour the runtime relies on:
 * splitting a concatenation at its first separator, `String.trim()` and
 * `String.hashCode()`.
 */
module Strings {

  /**
   * A concatenation `x + sep + y` in which `x` has no `sep` determines both
   * parts: the text before the first `sep` is `x`, the rest is `y`.
   */
  lemma SplitAtFirst(x1: string, y1: string, x2: string, y2: string, sep: char)
    requires sep !in x1 && sep !in x2
    requires x1 + [sep] + y1 == x2 + [sep] + y2
    ensures x1 == x2 && y1 == y2
  {
    var s := x1 + [sep] + y1;
    assert s == x2 + [sep] + y2;
    assert s[|x1|] == sep && s[|x2|] == sep;
    assert forall k :: 0 <= k < |x1| ==> s[k] == x1[k];
    assert forall k :: 0 <= k < |x2| ==> s[k] == x2[k];
    assert |x1| == |x2|;
    assert x1 == s[..|x1|] == x2;
    assert y1 == s[|x1| + 1..] == y2;
  }

  /** The characters `String.trim()` removes: every char up to U+0020. */
  predicate IsTrimmable(c: char) {
    c <= ' '
  }

  /** Removes leading trimmable chars; the result is a suffix of `s`. */
  function TrimStart(s: string): (r: string)
    ensures |r| <= |s| && r == s[|s| - |r|..]
    ensures forall k :: 0 <= k < |s| - |r| ==> IsTrimmable(s[k])
    ensures r == [] || !IsTrimmable(r[0])
  {
    if |s| > 0 && IsTrimmable(s[0]) then TrimStart(s[1..]) else s
  }

  /** Removes trailing trimmable chars; the result is a prefix of `s`. */
  function TrimEnd(s: string): (r: string)
    ensures |r| <= |s| && r == s[..|r|]
    ensures forall k :: |r| <= k < |s| ==> IsTrimmable(s[k])
    ensures r == [] || !IsTrimmable(r[|r| - 1])
  {
    if |s| > 0 && IsTrimmable(s[|s| - 1]) then TrimEnd(s[..|s| - 1]) else s
  }

  /** `String.trim()`: the text between the leading and trailing trimmable chars. */
  function Trim(s: string): (r: string)
    ensures |r| <= |s|
    ensures r == [] || (!IsTrimmable(r[0]) && !IsTrimmable(r[|r| - 1]))
  {
    TrimEnd(TrimStart(s))
  }

  /** Trimming is idempotent: a trimmed string has nothing left to trim. */
  lemma TrimIdempotent(s: string)
    ensures Trim(Trim(s)) == Trim(s)
  {
    var t := Trim(s);
    assert TrimStart(t) == t;
    assert TrimEnd(t) == t;
  }

  /** A string is blank for `name.trim().equals("")` exactly when every char is trimmable. */
  lemma TrimEmptyIffAllTrimmable(s: string)
    ensures Trim(s) == [] <==> forall k :: 0 <= k < |s| ==> IsTrimmable(s[k])
  {
    var u := TrimStart(s);
    if Trim(s) == [] {
      assert TrimEnd(u) == [];
      assert u == [];
    }
  }

  const TwoTo32: int := 0x1_0000_0000

  /**
   * The UTF-16 code units Java stores for one char: the char itself below
   * U+10000, otherwise a high and a low surrogate that together encode it.
   */
  function CodeUnits(c: char): (u: seq<int>)
    ensures c as int < 0x1_0000 ==> u == [c as int]
    ensures c as int >= 0x1_0000 ==>
              |u| == 2 && 0xD800 <= u[0] < 0xDC00 && 0xDC00 <= u[1] < 0xE000 &&
              0x1_0000 + (u[0] - 0xD800) * 0x400 + (u[1] - 0xDC00) == c as int
  {
    if c as int < 0x1_0000 then [c as int]
    else
      var v := c as int - 0x1_0000;
      [0xD800 + v / 0x400, 0xDC00 + v % 0x400]
  }

  /**
   * A string as Java holds it: the UTF-16 code units of its chars, in order;
   * a string inside the Basic Multilingual Plane is its own code units.
   */
  function Utf16(s: string): (u: seq<int>)
    ensures |u| >= |s|
    ensures forall k :: 0 <= k < |u| ==> 0 <= u[k] < 0x1_0000
    ensures (forall k :: 0 <= k < |s| ==> s[k] as int < 0x1_0000) ==>
              |u| == |s| && forall k :: 0 <= k < |s| ==> u[k] == s[k] as int
  {
    if |s| == 0 then [] else Utf16(s[..|s| - 1]) + CodeUnits(s[|s| - 1])
  }

  /** `h = 31 * h + c` over code units with 32-bit wrap-around. */
  function UnitsHash(u: seq<int>): (h: int)
    ensures 0 <= h < TwoTo32
  {
    if |u| == 0 then 0 else (31 * UnitsHash(u[..|u| - 1]) + u[|u| - 1]) % TwoTo32
  }

  /** `String.hashCode()` as an unsigned 32-bit value, over the string's UTF-16 code units. */
  function UnsignedHash(s: string): (h: int)
    ensures 0 <= h < TwoTo32
  {
    UnitsHash(Utf16(s))
  }

  /** A char outside the Basic Multilingual Plane hashes as its surrogate pair: U+1F600 is 31 * 0xD83D + 0xDE00. */
  lemma SurrogatePairHash()
    ensures Utf16("\U{1F600}") == [0xD83D, 0xDE00]
    ensures UnsignedHash("\U{1F600}") == 1772899
  {
    assert "\U{1F600}"[..0] == [];
    assert UnitsHash([0xD83D, 0xDE00][..1]) == 0xD83D;
  }

  /** `String.hashCode()`: the 32-bit result read as a signed Java `int`. */
  function JavaStringHash(s: string): (h: int)
    ensures -0x8000_0000 <= h < 0x8000_0000
  {
    var u := UnsignedHash(s);
    if u < 0x8000_0000 then u else u - TwoTo32
  }
}
