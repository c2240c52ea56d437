/**
 * The JavaScript built-ins the chat code relies on, stated on `seq<char>`.
 * A `char` is a Unicode scalar value. For text without characters above
 * U+FFFF it is one UTF-16 code unit, the unit JavaScript's `length`,
 * `substring` and `slice` count in; above U+FFFF JavaScript counts two.
 */
module Js {

  /** The values a request body field or an error property can hold. */
  datatype JsValue =
    | Undefined
    | Null
    | Bool(b: bool)
    | Num(n: int)
    | Str(s: string)
    | Obj(json: string)  // any object or array, kept as its serialised text

  /** JavaScript truthiness, as `if (v)` and `!v` test it. */
  predicate Truthy(v: JsValue) {
    match v
    case Undefined => false
    case Null => false
    case Bool(b) => b
    case Num(n) => n != 0
    case Str(s) => s != ""
    case Obj(_) => true
  }

  /** The ECMAScript WhiteSpace and LineTerminator code points: what `String.prototype.trim` strips. */
  const WhitespaceUnits: set<char> := {
    '\t', '\n', '\U{000B}', '\U{000C}', '\r', ' ', '\U{00A0}', '\U{1680}',
    '\U{2000}', '\U{2001}', '\U{2002}', '\U{2003}', '\U{2004}', '\U{2005}',
    '\U{2006}', '\U{2007}', '\U{2008}', '\U{2009}', '\U{200A}',
    '\U{2028}', '\U{2029}', '\U{202F}', '\U{205F}', '\U{3000}', '\U{FEFF}'
  }

  predicate IsWhitespace(c: char) {
    c in WhitespaceUnits
  }

  /** Every code unit of `s` is whitespace (so `s.trim()` is empty). */
  predicate IsBlank(s: string) {
    forall i :: 0 <= i < |s| ==> IsWhitespace(s[i])
  }

  /** Where `s.trim()` starts looking from `i`: the first index at or after `i` that is not whitespace. */
  function TrimmedStart(s: string, i: nat): (k: nat)
    requires i <= |s|
    ensures i <= k <= |s|
    ensures forall j :: i <= j < k ==> IsWhitespace(s[j])
    ensures k == |s| || !IsWhitespace(s[k])
    decreases |s| - i
  {
    if i == |s| || !IsWhitespace(s[i]) then i else TrimmedStart(s, i + 1)
  }

  /** Where `s.trim()` ends within `s[lo..e]`: just past the last index that is not whitespace. */
  function TrimmedEnd(s: string, lo: nat, e: nat): (k: nat)
    requires lo <= e <= |s|
    ensures lo <= k <= e
    ensures forall j :: k <= j < e ==> IsWhitespace(s[j])
    ensures k == lo || !IsWhitespace(s[k - 1])
    decreases e - lo
  {
    if e == lo || !IsWhitespace(s[e - 1]) then e else TrimmedEnd(s, lo, e - 1)
  }

  /**
   * `s.trim()`: the infix of `s` left after stripping whitespace at both
   * ends; all that was stripped is whitespace, and a non-empty result
   * starts and ends with a code unit that is not.
   */
  function Trim(s: string): (r: string)
    ensures var k := TrimmedStart(s, 0);
            && k + |r| <= |s| && r == s[k..k + |r|]
            && (forall j :: 0 <= j < k ==> IsWhitespace(s[j]))
            && (forall j :: k + |r| <= j < |s| ==> IsWhitespace(s[j]))
    ensures r != [] ==> !IsWhitespace(r[0]) && !IsWhitespace(r[|r| - 1])
  {
    var k := TrimmedStart(s, 0);
    s[k..TrimmedEnd(s, k, |s|)]
  }

  /** `s.trim()` is empty exactly when every code unit of `s` is whitespace. */
  lemma TrimEmptyIffBlank(s: string)
    ensures Trim(s) == [] <==> IsBlank(s)
  {
  }

  /** Trimming keeps only code units that were already in the string. */
  lemma TrimKeepsCharacters(s: string, c: char)
    ensures c in Trim(s) ==> c in s
  {
    if c in Trim(s) {
      var k := TrimmedStart(s, 0);
      var i :| 0 <= i < |Trim(s)| && Trim(s)[i] == c;
      assert s[k + i] == c;
    }
  }

  /** What a sequence does not hold, no prefix of it holds. */
  lemma PrefixKeepsAbsence<T>(s: seq<T>, n: nat, x: T)
    requires n <= |s| && x !in s
    ensures x !in s[..n]
  {
  }

  /** `s.replace(/x/g, y)` for a one-code-unit pattern `x` and replacement `y`. */
  function ReplaceAll(s: string, x: char, y: char): (r: string)
    ensures |r| == |s|
    ensures forall i :: 0 <= i < |s| ==> r[i] == (if s[i] == x then y else s[i])
    ensures x != y ==> x !in r
  {
    if s == [] then [] else [if s[0] == x then y else s[0]] + ReplaceAll(s[1..], x, y)
  }

  /**
   * `s.length > n ? s.substring(0, n) + '...' : s`, the truncation both the
   * server's title and the client's sidebar label use.
   */
  function Ellipsize(s: string, n: nat): (r: string)
    ensures |s| <= n ==> r == s
    ensures |s| > n ==> |r| == n + 3 && r[..n] == s[..n] && r[n..] == "..."
    ensures |r| <= n + 3
  {
    if |s| > n then s[..n] + "..." else s
  }

  /** `Array.prototype.slice(start)` with the end left out: a negative start counts from the end. */
  function SliceFrom<T>(s: seq<T>, start: int): (r: seq<T>)
  {
    var from :=
      if start < 0 then (if |s| + start < 0 then 0 else |s| + start)
      else (if start > |s| then |s| else start);
    s[from..]
  }

  /** `slice(-k)` for `k >= 1` keeps the last `min(k, |s|)` elements, in order. */
  lemma SliceFromNegative<T>(s: seq<T>, k: int)
    requires k >= 1
    ensures SliceFrom(s, -k) == s[|s| - (if k < |s| then k else |s|)..]
  {
  }

  /** `slice(-0)` is `slice(0)`: the whole sequence. */
  lemma SliceFromZero<T>(s: seq<T>)
    ensures SliceFrom(s, -0) == s
  {
  }

  /** `slice(k)` for `k >= 0` drops the first `min(k, |s|)` elements. */
  lemma SliceFromNonNegative<T>(s: seq<T>, k: int)
    requires k >= 0
    ensures SliceFrom(s, k) == s[(if k < |s| then k else |s|)..]
  {
  }

  predicate IsDigit(c: char) {
    '0' <= c <= '9'
  }

  function DigitChar(d: nat): (c: char)
    requires d < 10
    ensures IsDigit(c) && c as int - '0' as int == d
  {
    (d + '0' as int) as char
  }

  /** `String(n)` for a non-negative integer: its decimal digits, no sign, no leading zero. */
  function NumberToString(n: nat): (s: string)
    ensures |s| >= 1
    ensures forall i :: 0 <= i < |s| ==> IsDigit(s[i])
    ensures |s| > 1 ==> s[0] != '0'
    decreases n
  {
    if n < 10 then [DigitChar(n)] else NumberToString(n / 10) + [DigitChar(n % 10)]
  }

  function DigitValue(c: char): (d: nat)
    requires IsDigit(c)
  {
    c as int - '0' as int
  }

  /** Reads a string of decimal digits back as a number. */
  function ParseDecimal(s: string): (n: nat)
    requires forall i :: 0 <= i < |s| ==> IsDigit(s[i])
  {
    if s == [] then 0
    else ParseDecimal(s[..|s| - 1]) * 10 + DigitValue(s[|s| - 1])
  }

  /** `String(n)` loses nothing: parsing its digits gives `n` back. */
  lemma {:induction false} NumberToStringRoundTrip(n: nat)
    ensures ParseDecimal(NumberToString(n)) == n
    decreases n
  {
    var s := NumberToString(n);
    if n >= 10 {
      NumberToStringRoundTrip(n / 10);
      assert s[..|s| - 1] == NumberToString(n / 10);
    }
  }
}
