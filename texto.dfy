/**
 * The string primitives the forms use: JavaScript's `String.prototype.trim`,
 * `toLowerCase` restricted to ASCII letters, and `replace(/\D/g, '')`.
 */
module Texto {
  import opened Seqs

  /**
   * The characters `trim` removes: the WhiteSpace and LineTerminator code
   * points of the ECMAScript grammar (tab, vertical tab, form feed, space,
   * no-break space, the byte-order mark, the Zs separators, LF, CR, LS, PS).
   */
  predicate IsWhitespace(c: char)
  {
    c in {'\t', '\n', '\U{000B}', '\U{000C}', '\r', ' ', '\U{00A0}', '\U{1680}', '\U{2028}', '\U{2029}',
          '\U{202F}', '\U{205F}', '\U{3000}', '\U{FEFF}'}
    || '\U{2000}' <= c <= '\U{200A}'
  }

  /** `s` without its leading whitespace. */
  function TrimStart(s: string): (r: string)
    ensures |r| <= |s| && r == s[|s| - |r|..]
    ensures r == [] || !IsWhitespace(r[0])
    ensures forall k :: 0 <= k < |s| - |r| ==> IsWhitespace(s[k])
  {
    if s != [] && IsWhitespace(s[0]) then TrimStart(s[1..]) else s
  }

  /** `s` without its trailing whitespace. */
  function TrimEnd(s: string): (r: string)
    ensures |r| <= |s| && r == s[..|r|]
    ensures r == [] || !IsWhitespace(r[|r| - 1])
    ensures forall k :: |r| <= k < |s| ==> IsWhitespace(s[k])
  {
    if s != [] && IsWhitespace(s[|s| - 1]) then TrimEnd(s[..|s| - 1]) else s
  }

  /** `r` is the slice of `s` that starts at `i`, and only whitespace lies before and after it. */
  predicate Recorte(s: string, r: string, i: int)
  {
    0 <= i <= |s| - |r| && r == s[i..i + |r|] &&
    (forall k :: 0 <= k < i ==> IsWhitespace(s[k])) &&
    (forall k :: i + |r| <= k < |s| ==> IsWhitespace(s[k]))
  }

  /** `String.prototype.trim`: the text between the leading and the trailing whitespace. */
  function Trim(s: string): (r: string)
    ensures r == [] <==> forall k :: 0 <= k < |s| ==> IsWhitespace(s[k])
    ensures r != [] ==> !IsWhitespace(r[0]) && !IsWhitespace(r[|r| - 1])
    ensures |r| <= |s|
    ensures exists i :: Recorte(s, r, i)
  {
    var t := TrimStart(s);
    assert t == [] ==> forall k :: 0 <= k < |s| ==> IsWhitespace(s[k]);
    assert t != [] ==> !IsWhitespace(s[|s| - |t|]);
    var i := |s| - |t|;
    assert TrimEnd(t) == s[i..i + |TrimEnd(t)|];
    assert Recorte(s, TrimEnd(t), i);
    TrimEnd(t)
  }

  /** `toLowerCase` on one character, for the ASCII letters only. */
  function LowerChar(c: char): char
  {
    if 'A' <= c <= 'Z' then (c as int + 32) as char else c
  }

  /** `toLowerCase`, for the ASCII letters only. */
  function ToLower(s: string): (r: string)
    ensures |r| == |s|
    ensures forall i :: 0 <= i < |r| ==> !('A' <= r[i] <= 'Z')
    ensures forall i :: 0 <= i < |s| && 'A' <= s[i] <= 'Z' ==> 'a' <= r[i] <= 'z' && r[i] as int - s[i] as int == 32
    ensures forall i :: 0 <= i < |s| && !('A' <= s[i] <= 'Z') ==> r[i] == s[i]
  {
    seq(|s|, i requires 0 <= i < |s| => LowerChar(s[i]))
  }

  /** A character matched by `\d`, that is one of `0`..`9`. */
  predicate IsDigit(c: char)
  {
    '0' <= c <= '9'
  }

  /** `s.replace(/\D/g, '')`: the digits of `s`, in order. */
  function Digits(s: string): (r: string)
    ensures forall k :: 0 <= k < |r| ==> IsDigit(r[k])
  {
    Filter(s, IsDigit)
  }

  /** The first `n` characters of `s`, or all of it when it is shorter: `if (v.length > n) v = v.substring(0, n)`. */
  function Take(s: string, n: nat): (r: string)
    ensures |r| == if |s| > n then n else |s|
    ensures r == s[..|r|]
  {
    if |s| > n then s[..n] else s
  }

  /** Stripping the non-digits of a concatenation strips each part; a non-digit separator vanishes. */
  lemma DigitsJoin(a: string, sep: char, b: string)
    requires !IsDigit(sep)
    ensures Digits(a + [sep] + b) == Digits(a) + Digits(b)
  {
    var single: string := [sep];
    assert single[1..] == [];
    assert Filter(single, IsDigit) == [] + Filter(single[1..], IsDigit);
    FilterAppend(a, single, IsDigit);
    FilterAppend(a + single, b, IsDigit);
  }

  /** A string made only of digits is its own digit string. */
  lemma DigitsOfDigits(s: string)
    requires forall k :: 0 <= k < |s| ==> IsDigit(s[k])
    ensures Digits(s) == s
  {
    FilterIdentity(s, IsDigit);
  }

  /** Appending a non-digit separator and a run of digits to a string appends just those digits to its digit string. */
  lemma DigitsSeparated(a: string, sep: char, b: string)
    requires !IsDigit(sep)
    requires forall k :: 0 <= k < |b| ==> IsDigit(b[k])
    ensures Digits(a + [sep] + b) == Digits(a) + b
  {
    DigitsJoin(a, sep, b);
    DigitsOfDigits(b);
  }
}
