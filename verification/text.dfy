/**
 * String helpers shared by the model: JavaScript's `trim`, ASCII lower-casing,
 * decimal rendering (`Number.prototype.toString`) and `parseInt`, `startsWith`,
 * and `split` on a separator character.
 */
module Text {
  import opened Common

  /**
   * The characters `String.prototype.trim` removes: ECMAScript WhiteSpace and LineTerminator,
   * that is tab, line feed, vertical tab, form feed, carriage return (U+0009 to U+000D), space,
   * U+00A0, U+1680, U+2000 to U+200A, U+2028, U+2029, U+202F, U+205F, U+3000 and U+FEFF.
   */
  predicate IsSpace(c: char) {
    || '\t' <= c <= '\r'
    || c == ' ' || c == '\U{00A0}' || c == '\U{1680}'
    || '\U{2000}' <= c <= '\U{200A}'
    || c == '\U{2028}' || c == '\U{2029}' || c == '\U{202F}' || c == '\U{205F}'
    || c == '\U{3000}' || c == '\U{FEFF}'
  }

  /** Every character is white space (this includes the empty string). */
  predicate IsBlank(s: string) {
    forall i :: 0 <= i < |s| ==> IsSpace(s[i])
  }

  /** How many white-space characters `s` starts with. */
  function LeadingSpaces(s: string): (n: nat)
    ensures n <= |s|
  {
    if s != [] && IsSpace(s[0]) then 1 + LeadingSpaces(s[1..]) else 0
  }

  /** How many white-space characters `s` ends with. */
  function TrailingSpaces(s: string): (n: nat)
    ensures n <= |s|
  {
    if s != [] && IsSpace(s[|s| - 1]) then 1 + TrailingSpaces(s[..|s| - 1]) else 0
  }

  /** `s.trimStart()`: the suffix left after dropping leading white space. */
  function TrimStart(s: string): string {
    s[LeadingSpaces(s)..]
  }

  /** `s.trim()`: white space dropped at both ends (`trimEnd` of `trimStart`). */
  function Trim(s: string): (r: string)
    ensures |r| <= |s|
  {
    var a := LeadingSpaces(s);
    s[a..|s| - TrailingSpaces(s[a..])]
  }

  /** `LeadingSpaces` counts the longest blank prefix: it is blank and the next character is not. */
  lemma {:induction false} LeadingBlank(s: string)
    ensures IsBlank(s[..LeadingSpaces(s)])
    ensures LeadingSpaces(s) < |s| ==> !IsSpace(s[LeadingSpaces(s)])
  {
    if s != [] && IsSpace(s[0]) {
      LeadingBlank(s[1..]);
      var n := LeadingSpaces(s[1..]);
      assert s[..n + 1] == [s[0]] + s[1..][..n];
    }
  }

  /** `TrailingSpaces` counts the longest blank suffix: it is blank and the character before is not. */
  lemma {:induction false} TrailingBlank(s: string)
    ensures IsBlank(s[|s| - TrailingSpaces(s)..])
    ensures TrailingSpaces(s) < |s| ==> !IsSpace(s[|s| - TrailingSpaces(s) - 1])
  {
    if s != [] && IsSpace(s[|s| - 1]) {
      var init := s[..|s| - 1];
      TrailingBlank(init);
      var n := TrailingSpaces(init);
      assert s[|s| - (n + 1)..] == init[|init| - n..] + [s[|s| - 1]];
    }
  }

  /** A blank prefix followed by a non-space character (or by nothing) is what `LeadingSpaces` counts. */
  lemma {:induction false} LeadingSpacesOf(s: string, k: nat)
    requires k <= |s| && IsBlank(s[..k]) && (k < |s| ==> !IsSpace(s[k]))
    ensures LeadingSpaces(s) == k
  {
    if k > 0 {
      assert IsSpace(s[..k][0]);
      assert s[1..][..k - 1] == s[..k][1..];
      LeadingSpacesOf(s[1..], k - 1);
    }
  }

  /** A blank suffix preceded by a non-space character (or by nothing) is what `TrailingSpaces` counts. */
  lemma {:induction false} TrailingSpacesOf(s: string, k: nat)
    requires k <= |s| && IsBlank(s[|s| - k..]) && (k < |s| ==> !IsSpace(s[|s| - k - 1]))
    ensures TrailingSpaces(s) == k
  {
    if k > 0 {
      var init := s[..|s| - 1];
      var tail := s[|s| - k..];
      assert IsSpace(tail[k - 1]);
      var shorter := init[|init| - (k - 1)..];
      forall i | 0 <= i < |shorter|
        ensures IsSpace(shorter[i])
      {
        assert shorter[i] == tail[i];
      }
      TrailingSpacesOf(init, k - 1);
    }
  }

  /** A non-empty trimmed string starts and ends with a character that is not white space. */
  lemma TrimEnds(s: string)
    ensures Trim(s) == [] || (!IsSpace(Trim(s)[0]) && !IsSpace(Trim(s)[|Trim(s)| - 1]))
  {
    var a := LeadingSpaces(s);
    var t := s[a..];
    var b := TrailingSpaces(t);
    if Trim(s) != [] {
      LeadingBlank(s);
      TrailingBlank(t);
      assert Trim(s)[0] == s[a];
      assert Trim(s)[|Trim(s)| - 1] == t[|t| - b - 1];
    }
  }

  /** What `trim` keeps: `s` without its `a` leading and `b` trailing white-space characters. */
  lemma TrimInfix(s: string, a: nat, b: nat)
    requires a == LeadingSpaces(s) && b == TrailingSpaces(s[a..])
    ensures a + b <= |s| && Trim(s) == s[a..|s| - b]
  {
  }

  /** What `trim` drops is blank on both sides. */
  lemma TrimDropsBlanks(s: string, a: nat, b: nat)
    requires a == LeadingSpaces(s) && b == TrailingSpaces(s[a..])
    ensures a + b <= |s| && IsBlank(s[..a]) && IsBlank(s[|s| - b..])
  {
    var t := s[a..];
    LeadingBlank(s);
    TrailingBlank(t);
    assert s[|s| - b..] == t[|t| - b..];
  }

  /** A string's trimmed form is empty exactly when the string is blank: JavaScript's `!s.trim()`. */
  lemma TrimEmptyIffBlank(s: string)
    ensures Trim(s) == [] <==> IsBlank(s)
  {
    var a := LeadingSpaces(s);
    LeadingBlank(s);
    if a < |s| {
      var t := s[a..];
      TrailingBlank(t);
      assert TrailingSpaces(t) < |t|;
    } else {
      assert s[..a] == s;
    }
  }

  /** Trimming twice is trimming once. */
  lemma TrimIdempotent(s: string)
    ensures Trim(Trim(s)) == Trim(s)
  {
    var r := Trim(s);
    TrimEnds(s);
    if r != [] {
      assert LeadingSpaces(r) == 0;
      assert r[0..] == r;
      assert TrailingSpaces(r) == 0;
    }
  }

  /** A string that starts and ends with a non-space character survives `trim` unchanged, whatever blank padding surrounds it. */
  lemma TrimPadded(a: string, d: string, b: string)
    requires IsBlank(a) && IsBlank(b)
    requires d != [] && !IsSpace(d[0]) && !IsSpace(d[|d| - 1])
    ensures Trim(a + d + b) == d
  {
    var s := a + d + b;
    assert s[..|a|] == a;
    assert s[|a|] == d[0];
    LeadingSpacesOf(s, |a|);
    var t := s[|a|..];
    assert t == d + b;
    assert t[|t| - |b|..] == b;
    assert t[|t| - |b| - 1] == d[|d| - 1];
    TrailingSpacesOf(t, |b|);
    assert t[..|t| - |b|] == d;
  }

  /** `s.startsWith(p)`. */
  predicate StartsWith(s: string, p: string) {
    |p| <= |s| && s[..|p|] == p
  }

  /** ASCII upper-case letters are lowered; every other character is kept. */
  function LowerChar(c: char): char {
    if 'A' <= c <= 'Z' then (c as int - 'A' as int + 'a' as int) as char else c
  }

  /** `s.toLowerCase()` restricted to ASCII letters. */
  function ToLower(s: string): (r: string)
    ensures |r| == |s|
    ensures forall i :: 0 <= i < |s| ==> r[i] == LowerChar(s[i])
    ensures forall i :: 0 <= i < |r| ==> !('A' <= r[i] <= 'Z')
  {
    seq(|s|, i requires 0 <= i < |s| => LowerChar(s[i]))
  }

  /** Lower-casing works character by character, so it distributes over concatenation. */
  lemma ToLowerAppend(x: string, y: string)
    ensures ToLower(x + y) == ToLower(x) + ToLower(y)
  {
  }

  /** Lower-casing leaves white space alone and never turns a character into white space. */
  lemma LowerCharSpace(c: char)
    ensures IsSpace(LowerChar(c)) <==> IsSpace(c)
  {
  }

  predicate IsDigit(c: char) {
    '0' <= c <= '9'
  }

  predicate AllDigits(s: string) {
    forall i :: 0 <= i < |s| ==> IsDigit(s[i])
  }

  function DigitChar(d: nat): (c: char)
    requires d < 10
    ensures IsDigit(c)
  {
    ('0' as int + d) as char
  }

  function DigitValue(c: char): (d: nat)
    requires IsDigit(c)
    ensures d < 10 && DigitChar(d) == c
  {
    (c as int - '0' as int) as nat
  }

  /** The value of a string of decimal digits, most significant first. */
  function DigitsValue(s: string): nat
    requires AllDigits(s)
  {
    if s == [] then 0 else DigitsValue(s[..|s| - 1]) * 10 + DigitValue(s[|s| - 1])
  }

  /** `n.toString()` for a non-negative integer: decimal digits without leading zeros. */
  function NatToString(n: nat): (r: string)
    ensures |r| >= 1 && AllDigits(r)
    ensures r[0] == '0' ==> n == 0
  {
    if n < 10 then [DigitChar(n)] else NatToString(n / 10) + [DigitChar(n % 10)]
  }

  /** Reading back the rendered digits gives the number. */
  lemma {:induction false} NatToStringValue(n: nat)
    ensures DigitsValue(NatToString(n)) == n
  {
    if n >= 10 {
      var s := NatToString(n);
      assert s[..|s| - 1] == NatToString(n / 10);
      NatToStringValue(n / 10);
    }
  }

  /** `i.toString()` for any integer: a minus sign before the digits of a negative value. */
  function IntToString(i: int): (r: string)
    ensures i >= 0 ==> r == NatToString(i)
    ensures i < 0 ==> r == "-" + NatToString(-i)
  {
    if i < 0 then "-" + NatToString(-i) else NatToString(i)
  }

  /** The longest prefix of `s` made of decimal digits. */
  function DigitPrefix(s: string): (r: string)
    ensures |r| <= |s| && r == s[..|r|] && AllDigits(r)
    ensures |r| < |s| ==> !IsDigit(s[|r|])
  {
    if s != [] && IsDigit(s[0]) then [s[0]] + DigitPrefix(s[1..]) else []
  }

  lemma {:induction false} DigitPrefixOfDigits(s: string)
    requires AllDigits(s)
    ensures DigitPrefix(s) == s
  {
    if s != [] {
      DigitPrefixOfDigits(s[1..]);
    }
  }

  /**
   * `parseInt(s)` with radix 10: leading white space is skipped, one optional sign is
   * read, then the longest run of digits; `None` stands for NaN (no digit at all).
   */
  function ParseInt(s: string): (r: Option<int>)
  {
    var t := TrimStart(s);
    var negative := t != [] && t[0] == '-';
    var rest := if t != [] && (t[0] == '-' || t[0] == '+') then t[1..] else t;
    var digits := DigitPrefix(rest);
    if digits == [] then None
    else if negative then Some(-(DigitsValue(digits) as int))
    else Some(DigitsValue(digits))
  }

  /** Signs and digits are not white space. */
  lemma SignOrDigitNotSpace(c: char)
    requires c == '-' || IsDigit(c)
    ensures !IsSpace(c)
  {
  }

  /** A string that does not start with white space is its own `trimStart`. */
  lemma TrimStartUnspaced(s: string)
    requires s != [] && !IsSpace(s[0])
    ensures TrimStart(s) == s
  {
  }

  /** `parseInt(i.toString())` gives `i` back, for every integer. */
  lemma {:induction false} ParseIntOfIntToString(i: int)
    ensures ParseInt(IntToString(i)) == Some(i)
  {
    var n: nat := if i < 0 then -i else i;
    var d := NatToString(n);
    var s := IntToString(i);
    if i < 0 {
      assert s[0] == '-' && s[1..] == d;
    } else {
      assert s == d && IsDigit(s[0]);
    }
    SignOrDigitNotSpace(s[0]);
    TrimStartUnspaced(s);
    DigitPrefixOfDigits(d);
    NatToStringValue(n);
  }

  /**
   * `Number(s)` for a string, on decimal integer literals: white space around the literal is
   * ignored, a blank string is 0, and otherwise one optional sign is followed by digits only.
   * `None` is NaN.
   */
  function StringToNumber(s: string): (r: Option<int>)
  {
    var t := Trim(s);
    if t == [] then Some(0)
    else
      var rest := if t[0] == '-' || t[0] == '+' then t[1..] else t;
      if rest == [] || !AllDigits(rest) then None
      else if t[0] == '-' then Some(-(DigitsValue(rest) as int))
      else Some(DigitsValue(rest))
  }

  /** A blank string converts to 0, and any other character after the digits gives NaN. */
  lemma StringToNumberBlank(s: string)
    ensures IsBlank(s) ==> StringToNumber(s) == Some(0)
    ensures !IsBlank(s) && StringToNumber(s).Some? ==> AllDigits(Trim(s)) || (Trim(s)[0] in "+-" && AllDigits(Trim(s)[1..]))
  {
    TrimEmptyIffBlank(s);
  }

  /** `Number(i.toString())` gives `i` back, for every integer, with any white space around it. */
  lemma StringToNumberOfIntToString(i: int, a: string, b: string)
    requires IsBlank(a) && IsBlank(b)
    ensures StringToNumber(a + IntToString(i) + b) == Some(i)
  {
    var n: nat := if i < 0 then -i else i;
    var d := NatToString(n);
    var s := IntToString(i);
    if i < 0 {
      assert s[0] == '-' && s[1..] == d;
    } else {
      assert s == d && IsDigit(s[0]);
    }
    assert IsDigit(s[|s| - 1]);
    SignOrDigitNotSpace(s[0]);
    SignOrDigitNotSpace(s[|s| - 1]);
    TrimPadded(a, s, b);
    NatToStringValue(n);
  }

  /** `Number(i.toString())` gives `i` back. */
  lemma StringToNumberOfDecimal(i: int)
    ensures StringToNumber(IntToString(i)) == Some(i)
  {
    StringToNumberOfIntToString(i, [], []);
    assert [] + IntToString(i) + [] == IntToString(i);
  }

  /** The index of the first occurrence of `c` in `s`. */
  function FirstIndex(s: string, c: char): (i: nat)
    requires c in s
    ensures i < |s| && s[i] == c && c !in s[..i]
  {
    if s[0] == c then 0 else 1 + FirstIndex(s[1..], c)
  }

  /** `s.split(sep)` for a one-character separator: the pieces between separators, in order. */
  function Split(s: string, sep: char): (parts: seq<string>)
    ensures |parts| >= 1
    ensures forall k :: 0 <= k < |parts| ==> sep !in parts[k]
    decreases |s|
  {
    if sep !in s then [s]
    else
      var i := FirstIndex(s, sep);
      [s[..i]] + Split(s[i + 1..], sep)
  }

  /** `parts.join(sep)`. */
  function Join(parts: seq<string>, sep: char): string
    requires |parts| >= 1
  {
    if |parts| == 1 then parts[0] else parts[0] + [sep] + Join(parts[1..], sep)
  }

  /** Joining the pieces of a split restores the string. */
  lemma {:induction false} JoinSplit(s: string, sep: char)
    ensures Join(Split(s, sep), sep) == s
    decreases |s|
  {
    if sep in s {
      var i := FirstIndex(s, sep);
      var rest := Split(s[i + 1..], sep);
      var parts := Split(s, sep);
      assert parts == [s[..i]] + rest;
      assert parts[1..] == rest;
      JoinSplit(s[i + 1..], sep);
      assert Join(parts, sep) == s[..i] + [sep] + Join(rest, sep);
      assert s == s[..i] + [sep] + s[i + 1..];
    }
  }

  /** Splitting a join of separator-free pieces gives the pieces back. */
  lemma {:induction false} SplitJoin(parts: seq<string>, sep: char)
    requires |parts| >= 1
    requires forall k :: 0 <= k < |parts| ==> sep !in parts[k]
    ensures Split(Join(parts, sep), sep) == parts
  {
    if |parts| > 1 {
      var s := Join(parts, sep);
      var p := parts[0];
      assert s == p + [sep] + Join(parts[1..], sep);
      assert s[|p|] == sep;
      assert s[..|p|] == p;
      assert FirstIndex(s, sep) == |p| by {
        var i := FirstIndex(s, sep);
        assert sep !in s[..i];
      }
      assert s[|p| + 1..] == Join(parts[1..], sep);
      SplitJoin(parts[1..], sep);
    } else {
      assert Join(parts, sep) == parts[0];
    }
  }
}
