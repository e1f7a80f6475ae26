/**
 * The few string operations of Python's standard library that the scripts rely on,
 * written out: `split(c)[0]`, `replace`, `lower` on ASCII, `str(n)`, `os.path.join`
 * for two components, and the ordering `<` on strings.
 */
module Text {

  /** `s.split(c)[0]`: the text before the first `c`, or all of `s` when there is none. */
  function BeforeFirst(s: string, c: char): (r: string)
    ensures r <= s
    ensures c !in r
    ensures |r| < |s| ==> s[|r|] == c
  {
    if s == [] || s[0] == c then [] else [s[0]] + BeforeFirst(s[1..], c)
  }

  /** The text before the first `c` is exactly the prefix up to the first position holding `c`. */
  lemma BeforeFirstAt(s: string, c: char, k: nat)
    requires k < |s| && s[k] == c
    requires forall i | 0 <= i < k :: s[i] != c
    ensures BeforeFirst(s, c) == s[..k]
  {
    var r := BeforeFirst(s, c);
    assert forall i | 0 <= i < |r| :: s[i] != c;
  }

  /** `s.replace(a, b)` for single characters. */
  function ReplaceChar(s: string, a: char, b: char): (r: string)
    ensures |r| == |s|
    ensures forall i | 0 <= i < |s| :: r[i] == (if s[i] == a then b else s[i])
  {
    if s == [] then [] else [if s[0] == a then b else s[0]] + ReplaceChar(s[1..], a, b)
  }

  function LowerChar(c: char): char {
    if 'A' <= c <= 'Z' then (c as int - 'A' as int + 'a' as int) as char else c
  }

  /** `s.lower()` restricted to ASCII letters (see README for why that suffices here). */
  function AsciiLower(s: string): (r: string)
    ensures |r| == |s|
    ensures forall i | 0 <= i < |s| :: r[i] == LowerChar(s[i])
  {
    if s == [] then [] else [LowerChar(s[0])] + AsciiLower(s[1..])
  }

  /** A string with no ASCII capital letter is its own lower case. */
  lemma AsciiLowerOfLower(s: string)
    requires forall i | 0 <= i < |s| :: !('A' <= s[i] <= 'Z')
    ensures AsciiLower(s) == s
  {
  }

  predicate IsDigit(c: char) { '0' <= c <= '9' }

  function DigitChar(n: nat): (c: char)
    requires n < 10
    ensures IsDigit(c)
  {
    ('0' as int + n) as char
  }

  predicate AllDigits(s: string) {
    forall i | 0 <= i < |s| :: IsDigit(s[i])
  }

  /** The number a string of decimal digits spells, most significant digit first. */
  function DigitsValue(s: string): nat
    requires AllDigits(s)
  {
    if s == [] then 0 else 10 * DigitsValue(s[..|s| - 1]) + (s[|s| - 1] as int - '0' as int)
  }

  /** `str(n)` for a natural number: its digits, without leading zero, spelling `n`. */
  function Decimal(n: nat): (s: string)
    ensures |s| >= 1
    ensures AllDigits(s)
    ensures |s| > 1 ==> s[0] != '0'
    ensures DigitsValue(s) == n
  {
    if n < 10 then [DigitChar(n)]
    else
      var s := Decimal(n / 10) + [DigitChar(n % 10)];
      assert s[..|s| - 1] == Decimal(n / 10);
      s
  }

  /** `os.path.join(dir, name)` on POSIX. */
  function PathJoin(dir: string, name: string): (p: string)
    ensures |p| >= |name| && p[|p| - |name|..] == name
    ensures (|name| > 0 && name[0] == '/') || dir <= p
  {
    if |name| > 0 && name[0] == '/' then name
    else if dir == [] || dir[|dir| - 1] == '/' then dir + name
    else dir + "/" + name
  }

  /** Joined to the same directory, two different relative names give two different paths. */
  lemma PathJoinRelativeInjective(dir: string, a: string, b: string)
    requires |a| > 0 && a[0] != '/' && |b| > 0 && b[0] != '/'
    requires PathJoin(dir, a) == PathJoin(dir, b)
    ensures a == b
  {
    var pre := if dir == [] || dir[|dir| - 1] == '/' then dir else dir + "/";
    assert PathJoin(dir, a) == pre + a && PathJoin(dir, b) == pre + b;
    assert a == (pre + a)[|pre|..];
  }

  /** Python's `a < b` on strings: lexicographic by code point. */
  predicate StrLess(a: string, b: string) {
    if a == [] then b != []
    else if b == [] then false
    else if a[0] != b[0] then a[0] < b[0]
    else StrLess(a[1..], b[1..])
  }

  lemma {:induction false} StrLessIrreflexive(a: string)
    ensures !StrLess(a, a)
  {
    if a != [] { StrLessIrreflexive(a[1..]); }
  }

  lemma {:induction false} StrLessTransitive(a: string, b: string, c: string)
    requires StrLess(a, b) && StrLess(b, c)
    ensures StrLess(a, c)
  {
    if a != [] && b != [] && c != [] && a[0] == b[0] && b[0] == c[0] {
      StrLessTransitive(a[1..], b[1..], c[1..]);
    }
  }

  lemma {:induction false} StrLessTotal(a: string, b: string)
    ensures a == b || StrLess(a, b) || StrLess(b, a)
  {
    if a != [] && b != [] && a[0] == b[0] {
      StrLessTotal(a[1..], b[1..]);
      if a[1..] == b[1..] {
        assert a == [a[0]] + a[1..] && b == [b[0]] + b[1..];
      }
    }
  }
}
