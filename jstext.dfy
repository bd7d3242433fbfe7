/**
 * JavaScript strings as the front end handles them: sequences of UTF-16 code
 * units, so `length`, `substring` and `trim` count and cut code units, not
 * characters.
 */
module JsText {

  newtype CodeUnit = x: int | 0 <= x < 0x1_0000

  type JsString = seq<CodeUnit>

  /** The UTF-16 encoding of one Unicode scalar value: one unit, or a surrogate pair. */
  function EncodeChar(c: char): (r: JsString)
    ensures (c as int) < 0x1_0000 ==> r == [c as int as CodeUnit]
    ensures (c as int) >= 0x1_0000 ==> |r| == 2 && 0xD800 <= r[0] < 0xDC00 && 0xDC00 <= r[1] < 0xE000
  {
    var n := c as int;
    if n < 0x1_0000 then [n as CodeUnit]
    else
      var v := n - 0x1_0000;
      [(0xD800 + v / 0x400) as CodeUnit, (0xDC00 + v % 0x400) as CodeUnit]
  }

  /** A string literal of the source, as a JavaScript string. */
  function Utf16(s: string): JsString {
    if s == [] then [] else EncodeChar(s[0]) + Utf16(s[1..])
  }

  /** The code units `String.prototype.trim` removes: WhiteSpace and LineTerminator. */
  predicate IsSpace(u: CodeUnit) {
    || u == 0x09 || u == 0x0A || u == 0x0B || u == 0x0C || u == 0x0D || u == 0x20
    || u == 0xA0 || u == 0x1680 || (0x2000 <= u <= 0x200A) || u == 0x2028 || u == 0x2029
    || u == 0x202F || u == 0x205F || u == 0x3000 || u == 0xFEFF
  }

  /** The string without its leading white space: a suffix whose dropped part is all white space. */
  function TrimStart(s: JsString): (r: JsString)
    ensures |r| <= |s| && r == s[|s| - |r|..]
    ensures r != [] ==> !IsSpace(r[0])
    ensures forall k :: 0 <= k < |s| - |r| ==> IsSpace(s[k])
  {
    if s != [] && IsSpace(s[0]) then TrimStart(s[1..]) else s
  }

  /** The string without its trailing white space: a prefix whose dropped part is all white space. */
  function TrimEnd(s: JsString): (r: JsString)
    ensures |r| <= |s| && r == s[..|r|]
    ensures r != [] ==> !IsSpace(r[|r| - 1])
    ensures forall k :: |r| <= k < |s| ==> IsSpace(s[k])
  {
    if s != [] && IsSpace(s[|s| - 1]) then TrimEnd(s[..|s| - 1]) else s
  }

  /** `s.trim()`. */
  function Trim(s: JsString): JsString {
    TrimEnd(TrimStart(s))
  }

  /**
   * `trim` yields a contiguous piece of the string with no white space at
   * either end, and everything cut off is white space; it is empty exactly
   * when the string is all white space.
   */
  lemma TrimSpec(s: JsString)
    ensures var i := |s| - |TrimStart(s)|;
            && i + |Trim(s)| <= |s| && Trim(s) == s[i..i + |Trim(s)|]
            && (forall k :: 0 <= k < i ==> IsSpace(s[k]))
            && (forall k :: i + |Trim(s)| <= k < |s| ==> IsSpace(s[k]))
    ensures Trim(s) != [] ==> !IsSpace(Trim(s)[0]) && !IsSpace(Trim(s)[|Trim(s)| - 1])
    ensures Trim(s) == [] <==> forall k :: 0 <= k < |s| ==> IsSpace(s[k])
  {
    var a := TrimStart(s);
    var i := |s| - |a|;
    var t := Trim(s);
    assert t == a[..|t|];
    assert t == s[i..i + |t|];
    if t == [] {
      assert a == [];
    } else {
      assert t[0] == a[0];
    }
    forall k | i + |t| <= k < |s| ensures IsSpace(s[k]) {
      assert a[k - i] == s[k];
    }
  }

  /** `s.substring(0, n)`: the first n code units, or the whole string when shorter. */
  function Prefix(s: JsString, n: nat): (r: JsString)
    ensures |r| == if |s| < n then |s| else n
    ensures r == s[..|r|]
  {
    if |s| <= n then s else s[..n]
  }

  /** `toUpperCase` on the ASCII letters, the only ones the front end upper-cases. */
  function AsciiUpper(s: JsString): (r: JsString)
    ensures |r| == |s|
    ensures forall k :: 0 <= k < |s| ==> r[k] == if 0x61 <= s[k] <= 0x7A then s[k] - 0x20 else s[k]
  {
    if s == [] then [] else [if 0x61 <= s[0] <= 0x7A then s[0] - 0x20 else s[0]] + AsciiUpper(s[1..])
  }
}
