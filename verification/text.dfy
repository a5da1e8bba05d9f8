/**
 * The JavaScript string built-ins the forge engine and the form rely on:
 * `Array.prototype.join`, `String.prototype.split` on a one-character
 * separator, `trim`, `toLowerCase` (ASCII letters only) and the decimal
 * rendering of a non-negative integer in a template literal.
 */
module Text {

  /** `xs.join(sep)`: the elements with `sep` between neighbours. */
  function Join(xs: seq<string>, sep: string): (r: string)
    ensures xs == [] ==> r == []
    ensures xs != [] ==> xs[0] <= r
    ensures |xs| == 1 ==> r == xs[0]
    ensures |xs| == 2 ==> r == xs[0] + sep + xs[1]
  {
    if xs == [] then [] else if |xs| == 1 then xs[0] else xs[0] + sep + Join(xs[1..], sep)
  }

  /** `xs.slice(0, n)`: at most the first `n` elements. */
  function Take<T>(xs: seq<T>, n: nat): (r: seq<T>)
    ensures |r| == if |xs| < n then |xs| else n
    ensures r <= xs
  {
    if |xs| < n then xs else xs[..n]
  }

  // ---------------------------------------------------------------------
  // toLowerCase

  function ToLowerChar(c: char): char
  {
    if 'A' <= c <= 'Z' then (c as int + 32) as char else c
  }

  /** `s.toLowerCase()` on the ASCII range; other characters are kept. */
  function ToLower(s: string): (r: string)
    ensures |r| == |s|
    ensures forall i :: 0 <= i < |s| ==> !('A' <= r[i] <= 'Z')
    ensures forall i :: 0 <= i < |s| && 'A' <= s[i] <= 'Z' ==> r[i] as int == s[i] as int + 32
    ensures forall i :: 0 <= i < |s| && !('A' <= s[i] <= 'Z') ==> r[i] == s[i]
  {
    seq(|s|, i requires 0 <= i < |s| => ToLowerChar(s[i]))
  }

  // ---------------------------------------------------------------------
  // trim

  /**
   * The characters `String.prototype.trim` removes: the ECMAScript
   * WhiteSpace set (tab, vertical tab, form feed, space, no-break space,
   * byte-order mark and the Unicode space separators) and the four
   * LineTerminator characters.
   */
  predicate IsJsWhitespace(c: char)
  {
    || c == '\t' || c == '\U{000B}' || c == '\U{000C}' || c == ' '
    || c == '\U{00A0}' || c == '\U{FEFF}' || c == '\U{1680}'
    || ('\U{2000}' <= c <= '\U{200A}')
    || c == '\U{202F}' || c == '\U{205F}' || c == '\U{3000}'
    || c == '\n' || c == '\r' || c == '\U{2028}' || c == '\U{2029}'
  }

  predicate AllWhitespace(s: string)
  {
    forall i :: 0 <= i < |s| ==> IsJsWhitespace(s[i])
  }

  /** Drops the leading whitespace: the result is a suffix of `s`, all that was dropped is whitespace, and it does not start with whitespace. */
  function TrimStart(s: string): (r: string)
    ensures |r| <= |s| && r == s[|s| - |r|..]
    ensures forall i :: 0 <= i < |s| - |r| ==> IsJsWhitespace(s[i])
    ensures r != [] ==> !IsJsWhitespace(r[0])
  {
    if s != [] && IsJsWhitespace(s[0]) then TrimStart(s[1..]) else s
  }

  /** Drops the trailing whitespace: the result is a prefix of `s`, all that was dropped is whitespace, and it does not end with whitespace. */
  function TrimEnd(s: string): (r: string)
    ensures |r| <= |s| && r == s[..|r|]
    ensures forall i :: |r| <= i < |s| ==> IsJsWhitespace(s[i])
    ensures r != [] ==> !IsJsWhitespace(r[|r| - 1])
  {
    if s != [] && IsJsWhitespace(s[|s| - 1]) then TrimEnd(s[..|s| - 1]) else s
  }

  /**
   * `s.trim()`: the part of `s` between a blank lead and a blank tail; empty
   * exactly when `s` is blank, and otherwise neither starting nor ending
   * with whitespace.
   */
  function Trim(s: string): (r: string)
    ensures |r| <= |s|
    ensures exists a, b :: 0 <= a <= b <= |s| && r == s[a..b] && AllWhitespace(s[..a]) && AllWhitespace(s[b..])
    ensures r == [] <==> AllWhitespace(s)
    ensures r != [] ==> !IsJsWhitespace(r[0]) && !IsJsWhitespace(r[|r| - 1])
  {
    var t := TrimStart(s);
    var r := TrimEnd(t);
    var a := |s| - |t|;
    assert r == s[a..a + |r|] && AllWhitespace(s[..a]) && AllWhitespace(s[a + |r|..]);
    r
  }

  // ---------------------------------------------------------------------
  // split

  /**
   * `s.split(sep)` for a one-character separator: the pieces between the
   * separators, in order; the empty string gives one empty piece.
   */
  function Split(s: string, sep: char): (parts: seq<string>)
    ensures |parts| >= 1
    ensures forall i :: 0 <= i < |parts| ==> sep !in parts[i]
  {
    if s == [] then [[]]
    else
      var rest := Split(s[1..], sep);
      if s[0] == sep then [[]] + rest
      else [[s[0]] + rest[0]] + rest[1..]
  }

  /** Splitting loses nothing: joining the pieces with the separator gives back the string. */
  lemma {:induction false} SplitJoin(s: string, sep: char)
    ensures Join(Split(s, sep), [sep]) == s
  {
    if s != [] {
      var rest := Split(s[1..], sep);
      SplitJoin(s[1..], sep);
      var parts := Split(s, sep);
      if s[0] == sep {
        assert parts[1..] == rest;
        assert Join(parts, [sep]) == [] + [sep] + Join(rest, [sep]);
      } else if |rest| == 1 {
        assert parts == [[s[0]] + rest[0]];
      } else {
        assert parts[1..] == rest[1..];
        assert Join(rest, [sep]) == rest[0] + [sep] + Join(rest[1..], [sep]);
        assert Join(parts, [sep]) == [s[0]] + rest[0] + [sep] + Join(rest[1..], [sep]);
      }
    }
  }

  // ---------------------------------------------------------------------
  // Decimal rendering

  function DigitChar(d: nat): (c: char)
    requires d < 10
    ensures '0' <= c <= '9'
  {
    (48 + d) as char
  }

  /** The decimal digits of `n`, most significant first, as a template literal renders an integer-valued number. */
  function NatToString(n: nat): (r: string)
    ensures |r| >= 1
    ensures n >= 10 ==> |r| >= 2
    ensures forall i :: 0 <= i < |r| ==> '0' <= r[i] <= '9'
  {
    if n < 10 then [DigitChar(n)] else NatToString(n / 10) + [DigitChar(n % 10)]
  }

  /** Different numbers render differently. */
  lemma {:induction false} NatToStringInjective(a: nat, b: nat)
    requires NatToString(a) == NatToString(b)
    ensures a == b
  {
    if a >= 10 && b >= 10 {
      var ra, rb := NatToString(a), NatToString(b);
      assert ra[|ra| - 1] == DigitChar(a % 10) && rb[|rb| - 1] == DigitChar(b % 10);
      assert NatToString(a / 10) == ra[..|ra| - 1] == rb[..|rb| - 1] == NatToString(b / 10);
      NatToStringInjective(a / 10, b / 10);
    }
  }
}
