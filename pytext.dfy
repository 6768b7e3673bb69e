/**
 * The parts of Python's `str` that the bot relies on: `isspace`/`\s`,
 * `strip`, `lower`, `title`, the substring test `in`, and the digit
 * filter `re.sub(r"\D", "", s)`.
 *
 * Whitespace is CPython's exact `str.isspace` set.  Case mapping covers
 * ASCII and the Latin-1 letters U+00C0..U+00FF (enough for Portuguese
 * names and for "olá" and "começar"); digits are ASCII only.
 */
module PyText {

  /** The characters CPython's `str.isspace` accepts; `\s` in `re` matches the same set. */
  predicate IsSpace(c: char) {
    var n := c as int;
    (0x09 <= n <= 0x0D) || (0x1C <= n <= 0x20) || n == 0x85 || n == 0xA0 || n == 0x1680
    || (0x2000 <= n <= 0x200A) || n == 0x2028 || n == 0x2029 || n == 0x202F || n == 0x205F
    || n == 0x3000
  }

  predicate IsDigit(c: char) {
    '0' <= c <= '9'
  }

  predicate IsUpper(c: char) {
    var n := c as int;
    'A' <= c <= 'Z' || (0xC0 <= n <= 0xDE && n != 0xD7)
  }

  predicate IsLower(c: char) {
    var n := c as int;
    'a' <= c <= 'z' || (0xDF <= n <= 0xFF && n != 0xF7)
  }

  /** A character that has case, the test `str.title` uses on the previous character. */
  predicate IsCased(c: char) {
    IsUpper(c) || IsLower(c)
  }

  function LowerChar(c: char): (r: char)
    ensures !IsUpper(r)
    ensures IsSpace(r) == IsSpace(c)
  {
    if IsUpper(c) then (c as int + 32) as char else c
  }

  function UpperChar(c: char): (r: char)
    ensures IsSpace(r) == IsSpace(c)
  {
    var n := c as int;
    if 'a' <= c <= 'z' || (0xE0 <= n <= 0xFE && n != 0xF7) then (n - 32) as char else c
  }

  /** No leading and no trailing whitespace: what `str.strip` leaves. */
  predicate IsTrimmed(t: string) {
    t == [] || (!IsSpace(t[0]) && !IsSpace(t[|t| - 1]))
  }

  /** No upper-case letter: what `str.lower` leaves. */
  predicate IsLowered(t: string) {
    forall i :: 0 <= i < |t| ==> !IsUpper(t[i])
  }

  function StripLeft(s: string): (r: string)
    ensures |r| <= |s| && r == s[|s| - |r|..]
    ensures forall i :: 0 <= i < |s| - |r| ==> IsSpace(s[i])
    ensures r == [] || !IsSpace(r[0])
  {
    if s != [] && IsSpace(s[0]) then StripLeft(s[1..]) else s
  }

  function StripRight(s: string): (r: string)
    ensures |r| <= |s| && r == s[..|r|]
    ensures forall i :: |r| <= i < |s| ==> IsSpace(s[i])
    ensures r == [] || !IsSpace(r[|r| - 1])
  {
    if s != [] && IsSpace(s[|s| - 1]) then StripRight(s[..|s| - 1]) else s
  }

  /** `s.strip()`: drops the whitespace at both ends and keeps the middle as it is. */
  function Strip(s: string): (r: string)
    ensures IsTrimmed(r)
    ensures exists i, j :: 0 <= i <= j <= |s| && r == s[i..j]
                           && (forall k :: 0 <= k < i ==> IsSpace(s[k]))
                           && (forall k :: j <= k < |s| ==> IsSpace(s[k]))
  {
    var l := StripLeft(s);
    var r := StripRight(l);
    assert r == s[|s| - |l|..|s| - |l| + |r|];
    r
  }

  /** Stripping a string with no whitespace at its ends leaves it as it is. */
  lemma StripTrimmed(t: string)
    requires IsTrimmed(t)
    ensures Strip(t) == t
  {
    assert StripLeft(t) == t;
    assert StripRight(t) == t;
  }

  /** `strip()` is idempotent. */
  lemma StripIdempotent(s: string)
    ensures Strip(Strip(s)) == Strip(s)
  {
    StripTrimmed(Strip(s));
  }

  /** `strip()` only removes characters: one absent from the input is absent from the result. */
  lemma StripKeepsOut(s: string, c: char)
    requires c !in s
    ensures c !in Strip(s)
  {
  }

  /** A string starting with a non-space character keeps that character first. */
  lemma StripKeepsFirst(s: string)
    requires s != [] && !IsSpace(s[0])
    ensures Strip(s) != [] && Strip(s)[0] == s[0]
  {
    var t := Strip(s);
    var i, j :| 0 <= i <= j <= |s| && t == s[i..j]
                && (forall k :: 0 <= k < i ==> IsSpace(s[k]))
                && (forall k :: j <= k < |s| ==> IsSpace(s[k]));
    assert i == 0;
    assert j > 0;
  }

  /** `s.lower()`. */
  function Lower(s: string): (r: string)
    ensures |r| == |s| && IsLowered(r)
    ensures forall i :: 0 <= i < |s| ==> r[i] == LowerChar(s[i])
  {
    seq(|s|, i requires 0 <= i < |s| => LowerChar(s[i]))
  }

  /**
   * `s.title()`: a character right after a cased character is lower-cased,
   * every other character is upper-cased.
   */
  function Title(s: string): (r: string)
    ensures |r| == |s|
  {
    seq(|s|, i requires 0 <= i < |s| => if i > 0 && IsCased(s[i - 1]) then LowerChar(s[i]) else UpperChar(s[i]))
  }

  /** `title()` changes case only: whitespace stays where it was, so the words keep their boundaries. */
  lemma TitleKeepsSpaces(s: string)
    ensures forall i :: 0 <= i < |s| ==> IsSpace(Title(s)[i]) == IsSpace(s[i])
  {
  }

  /** Python's `p in t` on strings: `p` occurs in `t` as a contiguous piece. */
  function Contains(t: string, p: string): (b: bool)
    ensures b <==> exists i :: 0 <= i <= |t| && p <= t[i..]
  {
    if p <= t then
      assert p <= t[0..];
      true
    else if t == [] then
      false
    else
      var b := Contains(t[1..], p);
      if b then
        var i :| 0 <= i <= |t[1..]| && p <= t[1..][i..];
        assert t[1..][i..] == t[i + 1..];
        b
      else
        assert forall i :: 1 <= i <= |t| ==> t[i..] == t[1..][i - 1..];
        b
  }

  /** A piece found in `t` is found in `t` followed by anything. */
  lemma ContainsBefore(t: string, u: string, p: string)
    requires Contains(t, p)
    ensures Contains(t + u, p)
  {
    var i :| 0 <= i <= |t| && p <= t[i..];
    assert (t + u)[i..] == t[i..] + u;
  }

  /** A piece found in `u` is found in anything followed by `u`. */
  lemma ContainsAfter(t: string, u: string, p: string)
    requires Contains(u, p)
    ensures Contains(t + u, p)
  {
    var i :| 0 <= i <= |u| && p <= u[i..];
    assert (t + u)[|t| + i..] == u[i..];
  }

  /** The pieces of `pieces`, one after the other. */
  function Join(pieces: seq<string>): (r: string)
    ensures pieces == [] ==> r == []
  {
    if pieces == [] then [] else pieces[0] + Join(pieces[1..])
  }

  /** Every piece of a join is found in it. */
  lemma {:induction false} JoinContainsPieces(pieces: seq<string>, k: nat)
    requires k < |pieces|
    ensures Contains(Join(pieces), pieces[k])
    decreases k
  {
    if k == 0 {
      assert pieces[0] <= Join(pieces)[0..];
    } else {
      JoinContainsPieces(pieces[1..], k - 1);
      ContainsAfter(pieces[0], Join(pieces[1..]), pieces[k]);
    }
  }

  /** `re.sub(r"\D", "", s)`: the digits of `s`, in order. */
  function Digits(s: string): (r: string)
    ensures |r| <= |s|
    ensures forall i :: 0 <= i < |r| ==> IsDigit(r[i])
  {
    if s == [] then [] else (if IsDigit(s[0]) then [s[0]] else []) + Digits(s[1..])
  }

  /** Removing the non-digits leaves a string of digits alone. */
  lemma {:induction false} DigitsOfDigits(s: string)
    requires forall i :: 0 <= i < |s| ==> IsDigit(s[i])
    ensures Digits(s) == s
  {
    if s != [] {
      DigitsOfDigits(s[1..]);
    }
  }

  /** A single character survives the filter exactly when it is a digit. */
  lemma DigitsOfChar(c: char)
    ensures Digits([c]) == if IsDigit(c) then [c] else []
  {
  }

  /** Every digit of the input is kept, as often as it occurs, and nothing else. */
  lemma {:induction false} DigitsCount(s: string)
    ensures forall c :: multiset(Digits(s))[c] == if IsDigit(c) then multiset(s)[c] else 0
  {
    if s != [] {
      DigitsCount(s[1..]);
      assert s == [s[0]] + s[1..];
    }
  }

  /** The digit filter distributes over concatenation. */
  lemma {:induction false} DigitsAppend(s: string, t: string)
    ensures Digits(s + t) == Digits(s) + Digits(t)
  {
    if s != [] {
      assert (s + t)[1..] == s[1..] + t;
      DigitsAppend(s[1..], t);
    } else {
      assert s + t == t;
    }
  }

  /** A name typed in lower case comes out capitalised word by word, accented letters included. */
  lemma TitleExamples()
    ensures Title("maria") == "Maria"
    ensures Title("joão da silva") == "João Da Silva"
  {
  }

  /** Lower-casing keeps a stripped string stripped. */
  lemma LowerKeepsTrimmed(s: string)
    requires IsTrimmed(s)
    ensures IsTrimmed(Lower(s))
  {
  }
}
