/**
 * The three .NET string operations the configuration relies on, stated over
 * `string` (a sequence of UTF-16 code units in .NET, of characters here).
 */
module DotNetStrings {
  import opened Wrappers

  /**
   * `char.IsWhiteSpace`: the Unicode space separators, the line and paragraph
   * separators, U+0009..U+000D and U+0085.
   */
  predicate IsWhiteSpace(c: char) {
    ('\U{0009}' <= c <= '\U{000D}') || c == ' ' || c == '\U{0085}' || c == '\U{00A0}'
    || c == '\U{1680}' || ('\U{2000}' <= c <= '\U{200A}') || c == '\U{2028}' || c == '\U{2029}'
    || c == '\U{202F}' || c == '\U{205F}' || c == '\U{3000}'
  }

  /** `string.IsNullOrWhiteSpace`: null, empty, or made only of white space. */
  predicate IsNullOrWhiteSpace(s: Option<string>) {
    s.None? || forall i :: 0 <= i < |s.value| ==> IsWhiteSpace(s.value[i])
  }

  /**
   * `s.StartsWith(prefix)`, read as an ordinal prefix test. (.NET compares
   * with the current culture when no comparison is given; for the ASCII
   * prefix used here the ordinal reading is the intended one.)
   */
  predicate StartsWith(s: string, prefix: string) {
    |prefix| <= |s| && s[..|prefix|] == prefix
  }

  /** Upper-case folding of one character, for ASCII letters only. */
  function ToUpperAscii(c: char): (u: char)
    ensures 'a' <= c <= 'z' ==> u as int == c as int - 32
    ensures !('a' <= c <= 'z') ==> u == c
    ensures !('a' <= u <= 'z')
  {
    if 'a' <= c <= 'z' then (c as int - 32) as char else c
  }

  /** The upper-cased copy of `s` that ordinal-ignore-case comparison works on. */
  function ToUpperInvariant(s: string): (r: string)
    ensures |r| == |s|
    ensures forall i :: 0 <= i < |s| ==> r[i] == ToUpperAscii(s[i])
  {
    if s == [] then [] else [ToUpperAscii(s[0])] + ToUpperInvariant(s[1..])
  }

  /**
   * `string.Equals(a, b, StringComparison.OrdinalIgnoreCase)`, compared code
   * unit by code unit after ASCII upper-case folding.
   */
  predicate EqualsOrdinalIgnoreCase(a: string, b: string) {
    |a| == |b| && (a == [] || (ToUpperAscii(a[0]) == ToUpperAscii(b[0]) && EqualsOrdinalIgnoreCase(a[1..], b[1..])))
  }

  /** Ignore-case equality is equality of the upper-cased copies. */
  lemma {:induction false} EqualsIgnoreCaseIffSameUpper(a: string, b: string)
    ensures EqualsOrdinalIgnoreCase(a, b) <==> ToUpperInvariant(a) == ToUpperInvariant(b)
  {
    if |a| == |b| && a != [] {
      EqualsIgnoreCaseIffSameUpper(a[1..], b[1..]);
      var ua, ub := ToUpperInvariant(a), ToUpperInvariant(b);
      assert ua == [ua[0]] + ua[1..] && ub == [ub[0]] + ub[1..];
      assert ua[1..] == ToUpperInvariant(a[1..]) && ub[1..] == ToUpperInvariant(b[1..]);
    }
  }

  /** Ignore-case equality is an equivalence: reflexive, symmetric, transitive. */
  lemma EqualsIgnoreCaseEquivalence(a: string, b: string, c: string)
    ensures EqualsOrdinalIgnoreCase(a, a)
    ensures EqualsOrdinalIgnoreCase(a, b) ==> EqualsOrdinalIgnoreCase(b, a)
    ensures EqualsOrdinalIgnoreCase(a, b) && EqualsOrdinalIgnoreCase(b, c) ==> EqualsOrdinalIgnoreCase(a, c)
  {
    EqualsIgnoreCaseIffSameUpper(a, a);
    EqualsIgnoreCaseIffSameUpper(a, b);
    EqualsIgnoreCaseIffSameUpper(b, a);
    EqualsIgnoreCaseIffSameUpper(b, c);
    EqualsIgnoreCaseIffSameUpper(a, c);
  }
}
