/**
  The parts of Python's `str` and `int()` that the chat server and the rate
  query rely on: whitespace, ASCII case mapping, `split` on one separator,
  `strip`, and the decimal integer syntax `int()` accepts.
 */
module Strings {
  import opened Wrappers

  /** `c.isspace()`: the characters `\s` matches in a `str` pattern. */
  predicate IsSpace(c: char) {
    var n := c as int;
    (9 <= n <= 13) || (28 <= n <= 32) || n == 0x85 || n == 0xA0 || n == 0x1680
    || (0x2000 <= n <= 0x200A) || n == 0x2028 || n == 0x2029 || n == 0x202F
    || n == 0x205F || n == 0x3000
  }

  /** The whitespace `int()` skips around a literal: CPython turns non-ASCII
      whitespace into a space, leaves ASCII characters as they are and then
      skips only tab, newline, vertical tab, form feed, carriage return and
      space, so the separators U+001C..U+001F, though `isspace()`, are not
      skipped. */
  predicate IsIntSpace(c: char) {
    IsSpace(c) && !(28 <= c as int <= 31)
  }

  predicate IsDigit(c: char) {
    '0' <= c <= '9'
  }

  function DigitValue(c: char): nat
    requires IsDigit(c)
  {
    c as int - '0' as int
  }

  function UpperChar(c: char): char {
    if 'a' <= c <= 'z' then (c as int - 32) as char else c
  }

  function LowerChar(c: char): char {
    if 'A' <= c <= 'Z' then (c as int + 32) as char else c
  }

  /** `s.upper()`, on ASCII letters: each small letter becomes its capital,
      and every other character is kept. */
  function Upper(s: string): (r: string)
    ensures |r| == |s|
    ensures forall i :: 0 <= i < |r| ==> !('a' <= r[i] <= 'z')
    ensures forall i :: 0 <= i < |s| && 'a' <= s[i] <= 'z' ==> r[i] as int == s[i] as int - 32
    ensures forall i :: 0 <= i < |s| && !('a' <= s[i] <= 'z') ==> r[i] == s[i]
  {
    seq(|s|, i requires 0 <= i < |s| => UpperChar(s[i]))
  }

  /** `s.lower()`, on ASCII letters: each capital becomes its small letter,
      and every other character is kept. */
  function Lower(s: string): (r: string)
    ensures |r| == |s|
    ensures forall i :: 0 <= i < |r| ==> !('A' <= r[i] <= 'Z')
    ensures forall i :: 0 <= i < |s| && 'A' <= s[i] <= 'Z' ==> r[i] as int == s[i] as int + 32
    ensures forall i :: 0 <= i < |s| && !('A' <= s[i] <= 'Z') ==> r[i] == s[i]
  {
    seq(|s|, i requires 0 <= i < |s| => LowerChar(s[i]))
  }

  /** `s.startswith(prefix)` */
  predicate StartsWith(s: string, prefix: string) {
    |prefix| <= |s| && s[..|prefix|] == prefix
  }

  // ---------------------------------------------------------------------------
  // split and join

  /** How many times `c` occurs in `s`. */
  function Occurrences(s: string, c: char): nat {
    if s == [] then 0 else (if s[0] == c then 1 else 0) + Occurrences(s[1..], c)
  }

  /** `s.split(sep)` for a one-character separator: the pieces between the
      separators, empty pieces included, one more than there are separators. */
  function Split(s: string, sep: char): (parts: seq<string>)
    ensures |parts| == Occurrences(s, sep) + 1
  {
    if s == [] then [[]]
    else
      var rest := Split(s[1..], sep);
      if s[0] == sep then [[]] + rest else [[s[0]] + rest[0]] + rest[1..]
  }

  /** `sep.join(parts)` */
  function Join(parts: seq<string>, sep: char): (s: string) {
    if parts == [] then []
    else if |parts| == 1 then parts[0]
    else parts[0] + [sep] + Join(parts[1..], sep)
  }

  /** Joining the pieces with the separator gives back the string. */
  lemma {:induction false} JoinSplit(s: string, sep: char)
    ensures Join(Split(s, sep), sep) == s
  {
    if s != [] {
      var rest := Split(s[1..], sep);
      JoinSplit(s[1..], sep);
      if s[0] == sep {
        assert ([[]] + rest)[1..] == rest;
      } else if |rest| > 1 {
        var parts := [[s[0]] + rest[0]] + rest[1..];
        assert parts[1..] == rest[1..];
        assert Join(rest, sep) == rest[0] + [sep] + Join(rest[1..], sep);
      }
    }
  }

  /** No piece contains the separator. */
  lemma {:induction false} SplitPiecesAvoidSeparator(s: string, sep: char)
    ensures forall k :: 0 <= k < |Split(s, sep)| ==> sep !in Split(s, sep)[k]
  {
    if s != [] {
      var rest := Split(s[1..], sep);
      SplitPiecesAvoidSeparator(s[1..], sep);
      var parts := Split(s, sep);
      forall k | 0 <= k < |parts| ensures sep !in parts[k] {
        if s[0] == sep {
          if k > 0 { assert parts[k] == rest[k - 1]; }
        } else if k == 0 {
          assert parts[0] == [s[0]] + rest[0];
        } else {
          assert parts[k] == rest[k];
        }
      }
    }
  }

  /** A string without the separator is a single piece. */
  lemma {:induction false} SplitWithoutSeparator(s: string, sep: char)
    requires sep !in s
    ensures Split(s, sep) == [s]
  {
    if s != [] {
      assert sep !in s[1..];
      SplitWithoutSeparator(s[1..], sep);
      assert [s[0]] + s[1..] == s;
    }
  }

  /** Splitting at the first separator. */
  lemma {:induction false} SplitAtFirst(s: string, sep: char, i: nat)
    requires i < |s| && s[i] == sep && sep !in s[..i]
    ensures Split(s, sep) == [s[..i]] + Split(s[i + 1..], sep)
  {
    if i > 0 {
      assert s[1..][..i - 1] == s[1..i];
      assert s[1..][i - 1..] == s[i..];
      assert s[1..][i..] == s[i + 1..];
      SplitAtFirst(s[1..], sep, i - 1);
      assert [s[0]] + s[1..i] == s[..i];
    }
  }

  // ---------------------------------------------------------------------------
  // strip and int()

  /** The index of the first character at or after `i` that `int()` does
      not skip. */
  function SkipSpaces(s: string, i: nat): (k: nat)
    requires i <= |s|
    ensures i <= k <= |s|
    ensures forall j :: i <= j < k ==> IsIntSpace(s[j])
    ensures k < |s| ==> !IsIntSpace(s[k])
    decreases |s| - i
  {
    if i < |s| && IsIntSpace(s[i]) then SkipSpaces(s, i + 1) else i
  }

  /** The end of `s[..k]` once the trailing whitespace `int()` skips is dropped. */
  function TrimEnd(s: string, k: nat): (e: nat)
    requires k <= |s|
    ensures e <= k
    ensures forall j :: e <= j < k ==> IsIntSpace(s[j])
    ensures e > 0 ==> !IsIntSpace(s[e - 1])
  {
    if k > 0 && IsIntSpace(s[k - 1]) then TrimEnd(s, k - 1) else k
  }

  /** The text `int()` parses: `s` without the whitespace around it. */
  function Strip(s: string): (t: string)
    ensures |t| <= |s|
    ensures t != [] ==> !IsIntSpace(t[0]) && !IsIntSpace(t[|t| - 1])
  {
    var rest := s[SkipSpaces(s, 0)..];
    rest[..TrimEnd(rest, |rest|)]
  }

  /** Digits with single underscores between them, as `int()` accepts. */
  predicate IsDigitGroup(g: string) {
    && |g| > 0 && IsDigit(g[0]) && IsDigit(g[|g| - 1])
    && (forall i :: 0 <= i < |g| ==> IsDigit(g[i]) || g[i] == '_')
    && (forall i :: 0 <= i < |g| - 1 && g[i] == '_' ==> g[i + 1] != '_')
  }

  /** An optional sign followed by a digit group. */
  predicate IsIntLiteral(t: string) {
    IsDigitGroup(t) || (|t| > 0 && (t[0] == '+' || t[0] == '-') && IsDigitGroup(t[1..]))
  }

  /** The value of the digits of `g`, underscores skipped. */
  function GroupValue(g: string): nat
    requires forall i :: 0 <= i < |g| ==> IsDigit(g[i]) || g[i] == '_'
  {
    if g == [] then 0
    else if g[|g| - 1] == '_' then GroupValue(g[..|g| - 1])
    else GroupValue(g[..|g| - 1]) * 10 + DigitValue(g[|g| - 1])
  }

  function LiteralValue(t: string): int
    requires IsIntLiteral(t)
  {
    if IsDigitGroup(t) then GroupValue(t)
    else if t[0] == '-' then -(GroupValue(t[1..]) as int)
    else GroupValue(t[1..])
  }

  /** `int(s)` for a `str` argument in base 10: `None` where Python raises
      `ValueError`. A text without a digit is never a number. */
  function ParseInt(s: string): (r: Option<int>)
    ensures (forall i :: 0 <= i < |s| ==> !IsDigit(s[i])) ==> r == None
  {
    var t := Strip(s);
    if IsIntLiteral(t) then
      assert IsDigitGroup(t) || IsDigitGroup(t[1..]);
      assert IsDigit(t[|t| - 1]) && t[|t| - 1] == s[SkipSpaces(s, 0) + |t| - 1];
      Some(LiteralValue(t))
    else None
  }

  /** The decimal numeral of `n`, the way `str(n)` writes it. */
  function Decimal(n: nat): (r: string)
    ensures |r| > 0 && forall i :: 0 <= i < |r| ==> IsDigit(r[i])
  {
    if n < 10 then [('0' as int + n) as char]
    else Decimal(n / 10) + [('0' as int + n % 10) as char]
  }

  lemma {:induction false} GroupValueOfDecimal(n: nat)
    ensures GroupValue(Decimal(n)) == n
  {
    if n >= 10 {
      var d := Decimal(n);
      GroupValueOfDecimal(n / 10);
      assert d[..|d| - 1] == Decimal(n / 10);
    }
  }

  /** `int()` reads back any numeral `str()` writes, with any whitespace it
      skips around it. */
  lemma ParseIntDecimal(pre: string, n: nat, post: string)
    requires forall i :: 0 <= i < |pre| ==> IsIntSpace(pre[i])
    requires forall i :: 0 <= i < |post| ==> IsIntSpace(post[i])
    ensures ParseInt(pre + Decimal(n) + post) == Some(n)
  {
    var d := Decimal(n);
    var s := pre + d + post;
    var a := SkipSpaces(s, 0);
    assert forall j :: 0 <= j < |pre| ==> s[j] == pre[j];
    assert s[|pre|] == d[0];
    assert a == |pre|;
    var t := s[a..];
    assert t == d + post;
    var e := TrimEnd(t, |t|);
    assert t[|d| - 1] == d[|d| - 1];
    assert forall j :: |d| <= j < |t| ==> t[j] == post[j - |d|];
    assert e == |d|;
    assert Strip(s) == d;
    assert IsDigitGroup(d);
    GroupValueOfDecimal(n);
  }

  /** A character that is neither a digit, an underscore, a sign nor
      skipped whitespace, at or after the first character `int()` does not
      skip and before a later one, makes `int()` fail: it survives the strip. */
  lemma ParseIntRejectsStray(s: string, i: nat, j: nat, k: nat)
    requires i <= j < k < |s|
    requires !IsIntSpace(s[i]) && !IsIntSpace(s[k])
    requires !IsDigit(s[j]) && s[j] != '_' && s[j] != '+' && s[j] != '-'
    ensures ParseInt(s) == None
  {
    var a := SkipSpaces(s, 0);
    assert a <= i;
    var t := s[a..];
    var e := TrimEnd(t, |t|);
    assert t[k - a] == s[k];
    assert e > k - a;
    var u := t[..e];
    assert u[j - a] == s[j];
    assert Strip(s) == u;
    var c := u[j - a];
    assert !IsDigitGroup(u);
    if j - a >= 1 {
      assert u[1..][j - a - 1] == c;
    }
    assert !IsDigitGroup(u[1..]) || u[0] == c;
  }
}
