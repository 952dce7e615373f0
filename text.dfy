/** The string operations of JavaScript that the pages rely on:
    `trim`, ASCII `toUpperCase` and the decimal rendering of a number. */
module Text {

  /** The characters `String.prototype.trim` removes: ECMAScript's WhiteSpace
      (TAB, VT, FF, SP, NBSP, ZWNBSP and the space separators) and
      LineTerminator (LF, CR, LS, PS) code points. */
  predicate IsWhitespace(c: char) {
    || c == '\t' || c == '\n' || c == '\U{B}' || c == '\U{C}' || c == '\r' || c == ' '
    || c == '\U{A0}' || c == '\U{1680}' || ('\U{2000}' <= c <= '\U{200A}')
    || c == '\U{2028}' || c == '\U{2029}' || c == '\U{202F}' || c == '\U{205F}'
    || c == '\U{3000}' || c == '\U{FEFF}'
  }

  /** A string that `trim` turns into "" — what `!s.trim()` tests. */
  predicate IsBlank(s: string) {
    forall i :: 0 <= i < |s| ==> IsWhitespace(s[i])
  }

  /** How many whitespace characters `s` starts with. */
  function LeadingWhitespace(s: string): (n: nat)
    ensures n <= |s|
  {
    if s != [] && IsWhitespace(s[0]) then 1 + LeadingWhitespace(s[1..]) else 0
  }

  /** The count is exact: the characters before it are whitespace and the
      one at it, if any, is not. */
  lemma {:induction false} LeadingWhitespaceSpec(s: string)
    ensures forall i :: 0 <= i < LeadingWhitespace(s) ==> IsWhitespace(s[i])
    ensures LeadingWhitespace(s) == |s| || !IsWhitespace(s[LeadingWhitespace(s)])
  {
    if s != [] && IsWhitespace(s[0]) {
      LeadingWhitespaceSpec(s[1..]);
      forall i | 0 <= i < LeadingWhitespace(s) ensures IsWhitespace(s[i]) {
        if i > 0 {
          assert s[i] == s[1..][i - 1];
        }
      }
    }
  }

  /** How many whitespace characters `s` ends with. */
  function TrailingWhitespace(s: string): (n: nat)
    ensures n <= |s|
  {
    if s != [] && IsWhitespace(s[|s| - 1]) then 1 + TrailingWhitespace(s[..|s| - 1]) else 0
  }

  /** The count is exact: the last `n` characters are whitespace and the one
      before them, if any, is not. */
  lemma {:induction false} TrailingWhitespaceSpec(s: string)
    ensures forall i :: |s| - TrailingWhitespace(s) <= i < |s| ==> IsWhitespace(s[i])
    ensures TrailingWhitespace(s) == |s| || !IsWhitespace(s[|s| - 1 - TrailingWhitespace(s)])
  {
    if s != [] && IsWhitespace(s[|s| - 1]) {
      var u := s[..|s| - 1];
      TrailingWhitespaceSpec(u);
      forall i | |s| - TrailingWhitespace(s) <= i < |s| ensures IsWhitespace(s[i]) {
        if i < |s| - 1 {
          assert s[i] == u[i];
        }
      }
      if TrailingWhitespace(s) < |s| {
        assert s[|s| - 1 - TrailingWhitespace(s)] == u[|u| - 1 - TrailingWhitespace(u)];
      }
    }
  }

  /** `r` is the slice of `s` starting at `k`, and everything of `s` before
      and after that slice is whitespace. */
  predicate IsCoreAt(s: string, k: int, r: string) {
    && 0 <= k && k + |r| <= |s| && r == s[k..k + |r|]
    && (forall i :: 0 <= i < k ==> IsWhitespace(s[i]))
    && (forall i :: k + |r| <= i < |s| ==> IsWhitespace(s[i]))
  }

  /** A prefix `r` of the suffix `s[k..]`, with only whitespace before `k`
      and after `r` in that suffix, is the core of `s` at `k`. */
  lemma CoreOfSuffix(s: string, k: nat, r: string)
    requires k <= |s| && |r| <= |s| - k && r == s[k..][..|r|]
    requires forall i :: 0 <= i < k ==> IsWhitespace(s[i])
    requires forall i :: |r| <= i < |s| - k ==> IsWhitespace(s[k..][i])
    ensures IsCoreAt(s, k, r)
  {
    var t := s[k..];
    assert r == s[k..k + |r|];
    forall i | k + |r| <= i < |s| ensures IsWhitespace(s[i]) {
      assert t[i - k] == s[i];
    }
  }

  /** `s.trim()`: the slice of `s` that starts after its leading whitespace
      and leaves only whitespace behind it — empty exactly when `s` is blank,
      and otherwise neither starting nor ending with whitespace. */
  function Trim(s: string): (r: string)
    ensures |r| <= |s|
    ensures IsCoreAt(s, LeadingWhitespace(s), r)
    ensures r == [] <==> IsBlank(s)
    ensures r == [] || (!IsWhitespace(r[0]) && !IsWhitespace(r[|r| - 1]))
  {
    var t := s[LeadingWhitespace(s)..];
    LeadingWhitespaceSpec(s);
    TrailingWhitespaceSpec(t);
    CoreOfSuffix(s, LeadingWhitespace(s), t[..|t| - TrailingWhitespace(t)]);
    t[..|t| - TrailingWhitespace(t)]
  }

  /** Trimming a second time changes nothing. */
  lemma TrimIdempotent(s: string)
    ensures Trim(Trim(s)) == Trim(s)
  {
    var r := Trim(s);
    assert LeadingWhitespace(r) == 0;
    assert TrailingWhitespace(r) == 0;
  }

  function ToUpperChar(c: char): char {
    if 'a' <= c <= 'z' then (c as int - 32) as char else c
  }

  /** `s.toUpperCase()` restricted to ASCII letters. */
  function ToUpper(s: string): (r: string)
    ensures |r| == |s|
    ensures forall i :: 0 <= i < |s| ==> r[i] == ToUpperChar(s[i])
  {
    seq(|s|, i requires 0 <= i < |s| => ToUpperChar(s[i]))
  }

  predicate IsDigit(c: char) { '0' as int <= c as int <= '9' as int }

  function DigitChar(d: nat): (c: char)
    requires d < 10
    ensures IsDigit(c) && c as int - '0' as int == d
  {
    (d + '0' as int) as char
  }

  /** The decimal numeral of `n`, as JavaScript writes a non-negative integer
      into a template string. */
  function Decimal(n: nat): (r: string)
    ensures r != []
    ensures forall i :: 0 <= i < |r| ==> IsDigit(r[i])
  {
    if n < 10 then [DigitChar(n)] else Decimal(n / 10) + [DigitChar(n % 10)]
  }

  /** The number a string of decimal digits denotes. */
  function DecimalValue(s: string): nat
    requires forall i :: 0 <= i < |s| ==> IsDigit(s[i])
  {
    if s == [] then 0
    else
      assert IsDigit(s[|s| - 1]);
      DecimalValue(s[..|s| - 1]) * 10 + (s[|s| - 1] as int - '0' as int)
  }

  /** The numeral of `n` reads back as `n`, so distinct numbers give distinct numerals. */
  lemma {:induction false} DecimalRoundTrip(n: nat)
    ensures DecimalValue(Decimal(n)) == n
  {
    var r := Decimal(n);
    if n >= 10 {
      DecimalRoundTrip(n / 10);
      assert r[..|r| - 1] == Decimal(n / 10);
    }
  }
}
