/**
 * ASCII character classes and the scanners the regular expressions of the
 * valuation engine are built from. Go's RE2 classes are ASCII-only:
 * `\s` is `[\t\n\f\r ]`, `\d` is `[0-9]`; `[A-Z]` is the ASCII capitals.
 * Python's `\w` is modelled on ASCII as `[A-Za-z0-9_]`.
 */
module Ascii {

  /** Go RE2 `\s`: tab, newline, form feed, carriage return and space. */
  predicate IsSpace(c: char) {
    c == '\t' || c == '\n' || c == '\U{C}' || c == '\r' || c == ' '
  }

  predicate IsDigit(c: char) { '0' <= c <= '9' }

  predicate IsUpper(c: char) { 'A' <= c <= 'Z' }

  predicate IsLower(c: char) { 'a' <= c <= 'z' }

  /** Python `\w` restricted to ASCII. */
  predicate IsWordChar(c: char) { IsUpper(c) || IsLower(c) || IsDigit(c) || c == '_' }

  /** The character classes a run scanner can look for. */
  datatype CharClass = Space | Digit | Upper

  predicate InClass(c: char, k: CharClass) {
    match k
    case Space => IsSpace(c)
    case Digit => IsDigit(c)
    case Upper => IsUpper(c)
  }

  /** Every character of `s[lo..hi]` is in class `k`. */
  predicate AllIn(s: string, lo: int, hi: int, k: CharClass)
    requires 0 <= lo <= hi <= |s|
  {
    forall i :: lo <= i < hi ==> InClass(s[i], k)
  }

  /** Length of the longest run of class-`k` characters starting at `i`. */
  function RunFrom(s: string, i: nat, k: CharClass): (n: nat)
    requires i <= |s|
    ensures i + n <= |s|
    ensures AllIn(s, i, i + n, k)
    ensures i + n == |s| || !InClass(s[i + n], k)
    decreases |s| - i
  {
    if i < |s| && InClass(s[i], k) then 1 + RunFrom(s, i + 1, k) else 0
  }

  /** Length of the longest run of class-`k` characters ending just before `e`. */
  function RunBefore(s: string, e: nat, k: CharClass): (n: nat)
    requires e <= |s|
    ensures n <= e
    ensures AllIn(s, e - n, e, k)
    ensures n == e || !InClass(s[e - n - 1], k)
  {
    if 0 < e && InClass(s[e - 1], k) then 1 + RunBefore(s, e - 1, k) else 0
  }

  /** A run that is bounded by a character outside the class has exactly that length. */
  lemma RunBeforeStopsAt(s: string, e: nat, b: nat, k: CharClass)
    requires 1 <= b <= e <= |s|
    requires AllIn(s, b, e, k) && !InClass(s[b - 1], k)
    ensures RunBefore(s, e, k) == e - b
  {
    var n := RunBefore(s, e, k);
    assert n >= e - b ==> n == e - b;
  }

  /** Decimal value of an ASCII digit. */
  function DigitValue(c: char): (v: nat)
    requires IsDigit(c)
    ensures v <= 9
  {
    (c as int) - ('0' as int)
  }

  function ToUpper(c: char): (u: char)
    ensures !IsLower(u)
    ensures !IsLower(c) ==> u == c
  {
    if IsLower(c) then (c as int - 32) as char else c
  }

  function ToLower(c: char): (l: char)
    ensures !IsUpper(l)
    ensures !IsUpper(c) ==> l == c
  {
    if IsUpper(c) then (c as int + 32) as char else c
  }

  /** Python `str.upper()` on ASCII text. */
  function UpperCase(s: string): (u: string)
    ensures |u| == |s|
    ensures forall i :: 0 <= i < |s| ==> u[i] == ToUpper(s[i])
  {
    seq(|s|, i requires 0 <= i < |s| => ToUpper(s[i]))
  }

  /** Python `str.lower()` on ASCII text. */
  function LowerCase(s: string): (l: string)
    ensures |l| == |s|
    ensures forall i :: 0 <= i < |s| ==> l[i] == ToLower(s[i])
  {
    seq(|s|, i requires 0 <= i < |s| => ToLower(s[i]))
  }

  /** Python `str.replace(from, to)` for one-character `from` and `to`. */
  function ReplaceChar(s: string, from: char, to: char): (r: string)
    ensures |r| == |s|
    ensures forall i :: 0 <= i < |s| ==> r[i] == if s[i] == from then to else s[i]
  {
    seq(|s|, i requires 0 <= i < |s| => if s[i] == from then to else s[i])
  }

  /** `t` occurs in `s` at index `i`. */
  predicate OccursAt(s: string, t: string, i: int) {
    0 <= i && i + |t| <= |s| && s[i..i + |t|] == t
  }

  /** Python `t in s` for strings: a left-to-right substring search. */
  function Contains(s: string, t: string): (b: bool)
    ensures b <==> exists i :: OccursAt(s, t, i)
    decreases |s|
  {
    if |s| < |t| then
      assert forall i :: !OccursAt(s, t, i);
      false
    else if s[..|t|] == t then
      assert OccursAt(s, t, 0);
      true
    else if |s| == 0 then
      false
    else
      var b := Contains(s[1..], t);
      assert forall i :: OccursAt(s[1..], t, i) <==> OccursAt(s, t, i + 1) by {
        forall i ensures OccursAt(s[1..], t, i) <==> OccursAt(s, t, i + 1) {
          if 0 <= i && i + |t| <= |s| - 1 {
            assert s[1..][i..i + |t|] == s[i + 1..i + 1 + |t|];
          }
        }
      }
      assert b ==> exists i :: OccursAt(s, t, i) by {
        if b {
          var i :| OccursAt(s[1..], t, i);
          assert OccursAt(s, t, i + 1);
        }
      }
      assert (exists i :: OccursAt(s, t, i)) ==> b by {
        if exists i :: OccursAt(s, t, i) {
          var i :| OccursAt(s, t, i);
          assert i != 0;
          assert OccursAt(s[1..], t, i - 1);
        }
      }
      b
  }
}
