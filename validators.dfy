/** The two input validators of the questionnaire: the CEP (Brazilian postal code) and the e-mail shape. */
module Validators {
  import opened PyText

  /** A normalised CEP: exactly eight digits, no hyphen. */
  predicate IsCep(s: string) {
    |s| == 8 && forall i :: 0 <= i < |s| ==> IsDigit(s[i])
  }

  /**
   * `normalize_cep`: keeps the digits of `raw` when there are exactly eight
   * of them and answers "" otherwise (the early return on an empty input
   * gives the same answer).
   */
  function NormalizeCep(raw: string): (r: string)
    ensures r == "" || IsCep(r)
    ensures r != "" <==> |Digits(raw)| == 8
    ensures r != "" ==> r == Digits(raw)
  {
    if raw == "" then
      ""
    else
      var digits := Digits(raw);
      if |digits| != 8 then "" else digits
  }

  /** A normalised CEP is its own normal form. */
  lemma NormalizeCepOfCep(s: string)
    requires IsCep(s)
    ensures NormalizeCep(s) == s
  {
    DigitsOfDigits(s);
  }

  /** Normalising twice is normalising once. */
  lemma NormalizeCepIdempotent(raw: string)
    ensures NormalizeCep(NormalizeCep(raw)) == NormalizeCep(raw)
  {
    if NormalizeCep(raw) != "" {
      NormalizeCepOfCep(NormalizeCep(raw));
    }
  }

  /** The hyphenated form "NNNNN-NNN" normalises to the bare eight digits. */
  lemma NormalizeCepHyphenated(s: string)
    requires IsCep(s)
    ensures NormalizeCep(s[..5] + "-" + s[5..]) == s
  {
    var head, tail := s[..5], s[5..];
    DigitsOfDigits(head);
    DigitsOfDigits(tail);
    var dashed := "-" + tail;
    assert Digits(dashed) == tail by {
      assert dashed[1..] == tail;
    }
    DigitsAppend(head, dashed);
    assert head + "-" + tail == head + dashed;
    assert head + tail == s;
  }

  /** The two forms the bot's prompt suggests, and a five-digit code it must refuse. */
  lemma NormalizeCepExamples()
    ensures NormalizeCep("01001-000") == "01001000"
    ensures NormalizeCep("01001000") == "01001000"
    ensures NormalizeCep("12345") == ""
  {
    NormalizeCepHyphenated("01001000");
    assert "01001000"[..5] + "-" + "01001000"[5..] == "01001-000";
    NormalizeCepOfCep("01001000");
  }

  /** A character allowed by the class `[^@\s]`. */
  predicate PlainChar(c: char) {
    c != '@' && !IsSpace(c)
  }

  predicate Plain(s: string) {
    forall i :: 0 <= i < |s| ==> PlainChar(s[i])
  }

  /**
   * The strings the pattern `^[^@\s]+@[^@\s]+\.[^@\s]+$` matches: a non-empty
   * local part, '@', then a domain with a '.' that has non-empty text on
   * both sides, no part holding '@' or whitespace.
   */
  ghost predicate EmailShape(t: string) {
    exists at, dot :: 0 < at && at + 1 < dot < |t| - 1 && t[at] == '@' && t[dot] == '.'
                      && Plain(t[..at]) && Plain(t[at + 1..dot]) && Plain(t[dot + 1..])
  }

  /** The first position of `c` in `s`, or `|s|` when there is none. */
  function IndexOf(s: string, c: char): (k: nat)
    ensures k <= |s|
    ensures k < |s| ==> s[k] == c
    ensures forall i :: 0 <= i < k ==> s[i] != c
  {
    if s == [] || s[0] == c then 0 else 1 + IndexOf(s[1..], c)
  }

  /** The last position of `c` in `s`, or -1 when there is none. */
  function LastIndexOf(s: string, c: char): (k: int)
    ensures -1 <= k < |s|
    ensures k >= 0 ==> s[k] == c
    ensures forall i :: k < i < |s| ==> s[i] != c
  {
    if s == [] then -1
    else if s[|s| - 1] == c then |s| - 1
    else LastIndexOf(s[..|s| - 1], c)
  }

  /**
   * The test `looks_like_email` applies to the stripped input: split at the
   * first '@', the local part must be non-empty and plain, and the domain
   * non-empty and plain with a '.' that is neither its first nor its last
   * character (the last such '.', as the regex's backtracking finds it).
   */
  predicate EmailCheck(t: string) {
    var at := IndexOf(t, '@');
    0 < at < |t| - 1 && Plain(t[..at]) && Plain(t[at + 1..])
    && LastIndexOf(t[at + 1..|t| - 1], '.') > 0
  }

  /** `looks_like_email`: the regex match on `s.strip()`. */
  function LooksLikeEmail(s: string): bool {
    EmailCheck(Strip(s))
  }

  /** An accepted address is at least five characters long once stripped ("a@b.c"). */
  lemma LooksLikeEmailIsLong(s: string)
    requires LooksLikeEmail(s)
    ensures 5 <= |Strip(s)|
  {
  }

  /** A slice of a plain string is plain. */
  lemma PlainSlice(s: string, i: nat, j: nat)
    requires i <= j <= |s| && Plain(s)
    ensures Plain(s[i..j])
  {
    forall k | 0 <= k < j - i
      ensures PlainChar(s[i..j][k])
    {
      assert s[i..j][k] == s[i + k];
    }
  }

  lemma EmailCheckSound(t: string)
    requires EmailCheck(t)
    ensures EmailShape(t)
  {
    var at := IndexOf(t, '@');
    var domain := t[at + 1..];
    var q := LastIndexOf(t[at + 1..|t| - 1], '.');
    var dot := at + 1 + q;
    assert t[dot] == t[at + 1..|t| - 1][q];
    PlainSlice(domain, 0, q);
    assert t[at + 1..dot] == domain[0..q];
    PlainSlice(domain, q + 1, |domain|);
    assert t[dot + 1..] == domain[q + 1..|domain|];
  }

  lemma IndexOfIsFirst(t: string, c: char, a: nat)
    requires a < |t| && t[a] == c
    requires forall i :: 0 <= i < a ==> t[i] != c
    ensures IndexOf(t, c) == a
  {
  }

  /** An '@' with a plain local part before it is the first one. */
  lemma FirstAt(t: string, a: nat)
    requires a < |t| && t[a] == '@' && Plain(t[..a])
    ensures IndexOf(t, '@') == a
  {
    forall i | 0 <= i < a
      ensures t[i] != '@'
    {
      assert t[..a][i] == t[i];
    }
    IndexOfIsFirst(t, '@', a);
  }

  /** A plain stretch, a plain character and another plain stretch make a plain suffix. */
  lemma PlainAround(t: string, i: nat, dot: nat)
    requires i <= dot < |t| && PlainChar(t[dot])
    requires Plain(t[i..dot]) && Plain(t[dot + 1..])
    ensures Plain(t[i..])
  {
    forall k | 0 <= k < |t| - i
      ensures PlainChar(t[i..][k])
    {
      if i + k < dot {
        assert t[i..dot][k] == t[i + k];
      } else if i + k > dot {
        assert t[dot + 1..][i + k - dot - 1] == t[i + k];
      }
    }
  }

  /** A domain with a dot inside passes the domain half of the check. */
  lemma InnerDot(t: string, a: nat, dot: nat)
    requires a + 1 < dot < |t| - 1 && t[dot] == '.'
    ensures LastIndexOf(t[a + 1..|t| - 1], '.') > 0
  {
    assert t[a + 1..|t| - 1][dot - a - 1] == '.';
  }

  /** The check, stated through its first '@'. */
  lemma EmailCheckAt(t: string, a: nat)
    requires 0 < a < |t| - 1 && IndexOf(t, '@') == a
    requires Plain(t[..a]) && Plain(t[a + 1..]) && LastIndexOf(t[a + 1..|t| - 1], '.') > 0
    ensures EmailCheck(t)
  {
  }

  lemma EmailCheckComplete(t: string)
    requires EmailShape(t)
    ensures EmailCheck(t)
  {
    var a, dot :| 0 < a && a + 1 < dot < |t| - 1 && t[a] == '@' && t[dot] == '.'
                  && Plain(t[..a]) && Plain(t[a + 1..dot]) && Plain(t[dot + 1..]);
    assert IndexOf(t, '@') == a by {
      FirstAt(t, a);
    }
    assert Plain(t[a + 1..]) by {
      PlainAround(t, a + 1, dot);
    }
    assert LastIndexOf(t[a + 1..|t| - 1], '.') > 0 by {
      InnerDot(t, a, dot);
    }
    EmailCheckAt(t, a);
  }

  /** The check agrees with the regex in both directions. */
  lemma LooksLikeEmailIsShape(s: string)
    ensures LooksLikeEmail(s) <==> EmailShape(Strip(s))
  {
    var t := Strip(s);
    if EmailCheck(t) {
      EmailCheckSound(t);
    }
    if EmailShape(t) {
      EmailCheckComplete(t);
    }
  }

  /** Every address local@host.tld whose three parts are non-empty and plain is accepted. */
  lemma LooksLikeEmailAccepts(local: string, host: string, tld: string)
    requires local != [] && host != [] && tld != []
    requires Plain(local) && Plain(host) && Plain(tld)
    ensures LooksLikeEmail(local + "@" + host + "." + tld)
  {
    var t := local + "@" + host + "." + tld;
    var at := |local|;
    var dot := |local| + 1 + |host|;
    assert t[0] == local[0] && t[|t| - 1] == tld[|tld| - 1];
    StripTrimmed(t);
    assert t[..at] == local;
    assert t[at + 1..dot] == host;
    assert t[dot + 1..] == tld;
    assert t[at] == '@' && t[dot] == '.';
    EmailCheckComplete(t);
  }

  /** Without an '@' there is no address. */
  lemma LooksLikeEmailNeedsAt(s: string)
    requires '@' !in s
    ensures !LooksLikeEmail(s)
  {
    StripKeepsOut(s, '@');
  }

  /** Without a '.' there is no address. */
  lemma LooksLikeEmailNeedsDot(s: string)
    requires '.' !in s
    ensures !LooksLikeEmail(s)
  {
    StripKeepsOut(s, '.');
  }

  /** An address must not start with its '@': the local part is non-empty. */
  lemma LooksLikeEmailNeedsLocalPart(rest: string)
    ensures !LooksLikeEmail("@" + rest)
  {
    StripKeepsFirst("@" + rest);
    assert IndexOf(Strip("@" + rest), '@') == 0;
  }
}
