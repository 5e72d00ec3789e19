/**
 * Reading the site id back out of a physical index name
 * (`EP_API::parse_site_id`): the name is run through the regular expression
 * `#^.*\-([0-9]+)$#`, whatever it matched is replaced by the captured digits,
 * and the result is cast to an integer with PHP's `(int)`.
 */
module SiteIds {
  import opened Wrappers

  /** The range of a PHP integer on a 64-bit platform. */
  const IntMin: int := -0x8000_0000_0000_0000
  const IntMax: int := 0x7FFF_FFFF_FFFF_FFFF

  predicate IsDigit(c: char) {
    '0' <= c <= '9'
  }

  predicate AllDigits(s: string) {
    forall i :: 0 <= i < |s| ==> IsDigit(s[i])
  }

  /** No line feed: the only characters PCRE's `.` does not match by default. */
  predicate NoNewline(s: string) {
    forall i :: 0 <= i < |s| ==> s[i] != '\n'
  }

  /** The white space PHP skips before a number: space, \t, \n, \r, \v, \f. */
  predicate IsSpace(c: char) {
    c == ' ' || c == '\t' || c == '\n' || c == '\r' || c == '\U{000B}' || c == '\U{000C}'
  }

  function DigitValue(c: char): nat
    requires IsDigit(c)
  {
    (c as int) - ('0' as int)
  }

  /** The number a string of decimal digits denotes. */
  function DigitsValue(d: string): nat
    requires AllDigits(d)
  {
    if |d| == 0 then 0 else 10 * DigitsValue(d[..|d| - 1]) + DigitValue(d[|d| - 1])
  }

  /** The decimal digits of `n`, without leading zeros. */
  function DecimalString(n: nat): (d: string)
    ensures |d| > 0 && AllDigits(d)
  {
    var last := ['0' + ((n % 10) as char)];
    if n < 10 then last else DecimalString(n / 10) + last
  }

  /** A PHP integer conversion clamps out-of-range values to the nearest bound. */
  function Saturate(x: int): (r: int)
    ensures IntMin <= r <= IntMax
    ensures IntMin <= x <= IntMax ==> r == x
    ensures x < IntMin ==> r == IntMin
    ensures x > IntMax ==> r == IntMax
  {
    if x < IntMin then IntMin else if x > IntMax then IntMax else x
  }

  function SkipSpace(s: string): (t: string)
  {
    if |s| > 0 && IsSpace(s[0]) then SkipSpace(s[1..]) else s
  }

  /** The longest prefix of `s` made of decimal digits. */
  function LeadingDigits(s: string): (d: string)
    ensures AllDigits(d) && d <= s
  {
    if |s| > 0 && IsDigit(s[0]) then [s[0]] + LeadingDigits(s[1..]) else ""
  }

  /**
   * `(int) $s` for a string: skip leading white space, read an optional sign
   * and the digits that follow, 0 if there are none; clamp to 64 bits.
   */
  function IntCast(s: string): (r: int)
    ensures IntMin <= r <= IntMax
  {
    var t := SkipSpace(s);
    if |t| > 0 && t[0] == '-' then Saturate(-(DigitsValue(LeadingDigits(t[1..])) as int))
    else if |t| > 0 && t[0] == '+' then Saturate(DigitsValue(LeadingDigits(t[1..])))
    else Saturate(DigitsValue(LeadingDigits(t)))
  }

  /** The subject without one final line feed: where PCRE's `$` may match. */
  function BeforeFinalNewline(s: string): (w: string)
    ensures w <= s && |s| - |w| <= 1
  {
    if |s| > 0 && s[|s| - 1] == '\n' then s[..|s| - 1] else s
  }

  /** The position of the last '-' in `w`, if any. */
  function LastDash(w: string): (p: Option<nat>)
    ensures p.Some? ==> p.value < |w| && w[p.value] == '-'
  {
    if |w| == 0 then None
    else if w[|w| - 1] == '-' then Some(|w| - 1)
    else LastDash(w[..|w| - 1])
  }

  /**
   * The group `([0-9]+)` captured by `#^.*\-([0-9]+)$#`, if the pattern
   * matches. Greedy `.*` cannot cross a line feed, and the digits run up to
   * the end of the subject or to a line feed that ends it; so the only
   * candidate dash is the last one before that point.
   */
  function CapturedSuffix(name: string): Option<string> {
    var w := BeforeFinalNewline(name);
    match LastDash(w)
    case None => None
    case Some(p) =>
      if p + 1 < |w| && AllDigits(w[p + 1..]) && NoNewline(w[..p]) then Some(w[p + 1..]) else None
  }

  /** `preg_replace('#^.*\-([0-9]+)$#', '$1', $name)`: the match becomes the captured digits. */
  function ReplaceSuffix(name: string): string {
    match CapturedSuffix(name)
    case Some(d) => d + name[|BeforeFinalNewline(name)|..]
    case None => name
  }

  /** `EP_API::parse_site_id`. */
  function ParseSiteId(indexName: string): (id: int)
    ensures IntMin <= id <= IntMax
  {
    IntCast(ReplaceSuffix(indexName))
  }

  // ----- Lemmas -----

  /** `SkipSpace` drops exactly the leading white space: a suffix that does not start with it. */
  lemma {:induction false} SkipSpaceDropsLeadingSpace(s: string)
    ensures var t := SkipSpace(s);
      |t| <= |s| && t == s[|s| - |t|..]
      && (|t| > 0 ==> !IsSpace(t[0]))
      && forall j :: 0 <= j < |s| - |t| ==> IsSpace(s[j])
  {
    if |s| > 0 && IsSpace(s[0]) {
      SkipSpaceDropsLeadingSpace(s[1..]);
      var t := SkipSpace(s[1..]);
      assert s[1..][|s[1..]| - |t|..] == s[|s| - |t|..];
      forall j | 0 <= j < |s| - |t|
        ensures IsSpace(s[j])
      {
        if j > 0 {
          assert s[j] == s[1..][j - 1];
        }
      }
    }
  }

  lemma {:induction false} LeadingDigitsOfDigits(d: string, rest: string)
    requires AllDigits(d)
    requires |rest| == 0 || !IsDigit(rest[0])
    ensures LeadingDigits(d + rest) == d
  {
    if |d| > 0 {
      assert (d + rest)[1..] == d[1..] + rest;
      LeadingDigitsOfDigits(d[1..], rest);
    } else {
      assert d + rest == rest;
    }
  }

  /** A string of digits, possibly followed by a non-digit, casts to the number the digits denote. */
  lemma IntCastOfDigits(d: string, rest: string)
    requires |d| > 0 && AllDigits(d)
    requires |rest| == 0 || !IsDigit(rest[0])
    ensures IntCast(d + rest) == Saturate(DigitsValue(d))
  {
    assert (d + rest)[0] == d[0];
    assert SkipSpace(d + rest) == d + rest;
    LeadingDigitsOfDigits(d, rest);
  }

  /** Leading white space is dropped up to the first character that is not white space. */
  lemma {:induction false} SkipSpaceOfSpaces(ws: string, t: string)
    requires forall i :: 0 <= i < |ws| ==> IsSpace(ws[i])
    requires |t| == 0 || !IsSpace(t[0])
    ensures SkipSpace(ws + t) == t
  {
    if |ws| == 0 {
      assert ws + t == t;
    } else {
      assert (ws + t)[1..] == ws[1..] + t;
      SkipSpaceOfSpaces(ws[1..], t);
    }
  }

  /** Leading white space does not change the cast. */
  lemma IntCastAfterSpace(ws: string, t: string)
    requires forall i :: 0 <= i < |ws| ==> IsSpace(ws[i])
    requires |t| == 0 || !IsSpace(t[0])
    ensures IntCast(ws + t) == IntCast(t)
  {
    SkipSpaceOfSpaces(ws, t);
    assert SkipSpace(t) == t;
  }

  /** After a minus sign the digits that follow are read and negated. */
  lemma IntCastOfMinusSign(t: string, d: string)
    requires |t| > 0 && t[0] == '-'
    requires LeadingDigits(t[1..]) == d
    ensures IntCast(t) == Saturate(-(DigitsValue(d) as int))
  {
    assert SkipSpace(t) == t;
  }

  /** The empty string and a string of white space alone hold no digits: they cast to 0. */
  lemma IntCastOfSpaces(ws: string)
    requires forall i :: 0 <= i < |ws| ==> IsSpace(ws[i])
    ensures IntCast(ws) == 0
  {
    SkipSpaceOfSpaces(ws, "");
    assert ws + "" == ws;
  }

  /** A minus sign, digits, then a non-digit: the negated value of the digits, clamped. */
  lemma IntCastOfMinus(d: string, rest: string)
    requires AllDigits(d)
    requires |rest| == 0 || !IsDigit(rest[0])
    ensures IntCast("-" + (d + rest)) == Saturate(-(DigitsValue(d) as int))
  {
    var t := "-" + (d + rest);
    assert t[1..] == d + rest;
    LeadingDigitsOfDigits(d, rest);
    IntCastOfMinusSign(t, d);
  }

  /** A plus sign, digits, then a non-digit: the value of the digits, clamped. */
  lemma IntCastOfPlus(d: string, rest: string)
    requires AllDigits(d)
    requires |rest| == 0 || !IsDigit(rest[0])
    ensures IntCast("+" + (d + rest)) == Saturate(DigitsValue(d))
  {
    var t := "+" + (d + rest);
    assert SkipSpace(t) == t;
    assert t[1..] == d + rest;
    LeadingDigitsOfDigits(d, rest);
  }

  /**
   * The cast of a signed, space-led number: white space, then a `-` sign,
   * then digits, then anything that is not a digit. A sign with no digits
   * after it gives 0.
   */
  lemma IntCastOfSpacedMinus(ws: string, d: string, rest: string)
    requires forall i :: 0 <= i < |ws| ==> IsSpace(ws[i])
    requires AllDigits(d)
    requires |rest| == 0 || !IsDigit(rest[0])
    ensures IntCast(ws + ("-" + (d + rest))) == Saturate(-(DigitsValue(d) as int))
  {
    IntCastAfterSpace(ws, "-" + (d + rest));
    IntCastOfMinus(d, rest);
  }

  /** As `IntCastOfSpacedMinus`, with a `+` sign. */
  lemma IntCastOfSpacedPlus(ws: string, d: string, rest: string)
    requires forall i :: 0 <= i < |ws| ==> IsSpace(ws[i])
    requires AllDigits(d)
    requires |rest| == 0 || !IsDigit(rest[0])
    ensures IntCast(ws + ("+" + (d + rest))) == Saturate(DigitsValue(d))
  {
    IntCastAfterSpace(ws, "+" + (d + rest));
    IntCastOfPlus(d, rest);
  }

  /** As `IntCastOfSpacedMinus`, with no sign and at least one digit. */
  lemma IntCastOfSpacedDigits(ws: string, d: string, rest: string)
    requires forall i :: 0 <= i < |ws| ==> IsSpace(ws[i])
    requires |d| > 0 && AllDigits(d)
    requires |rest| == 0 || !IsDigit(rest[0])
    ensures IntCast(ws + (d + rest)) == Saturate(DigitsValue(d))
  {
    IntCastAfterSpace(ws, d + rest);
    IntCastOfDigits(d, rest);
  }

  /** `(int) " -5"` is -5 and `(int) "+7"` is 7. */
  lemma IntCastSignedExamples()
    ensures IntCast(" -5") == -5
    ensures IntCast("+7") == 7
  {
    assert DigitsValue("5") == 5 by {
      assert "5"[..0] == "";
    }
    assert DigitsValue("7") == 7 by {
      assert "7"[..0] == "";
    }
    assert " -5" == " " + ("-" + ("5" + ""));
    IntCastAfterSpace(" ", "-" + ("5" + ""));
    IntCastOfMinus("5", "");
    assert "+7" == "+" + ("7" + "");
    IntCastOfPlus("7", "");
  }

  /** A string that starts with neither white space, a sign nor a digit casts to 0. */
  lemma IntCastOfNonNumeric(s: string)
    requires |s| > 0 && !IsSpace(s[0]) && !IsDigit(s[0]) && s[0] != '-' && s[0] != '+'
    ensures IntCast(s) == 0
  {
    assert SkipSpace(s) == s;
  }

  /** `LastDash` finds the last dash: none follows it, and `None` means there is none. */
  lemma {:induction false} LastDashIsLast(w: string)
    ensures LastDash(w).Some? ==> forall j :: LastDash(w).value < j < |w| ==> w[j] != '-'
    ensures LastDash(w).None? ==> forall j :: 0 <= j < |w| ==> w[j] != '-'
  {
    if |w| > 0 && w[|w| - 1] != '-' {
      var v := w[..|w| - 1];
      LastDashIsLast(v);
      assert forall j :: 0 <= j < |v| ==> v[j] == w[j];
    }
  }

  lemma {:induction false} LastDashOfSuffix(prefix: string, digits: string)
    requires AllDigits(digits)
    ensures LastDash(prefix + "-" + digits) == Some(|prefix|)
  {
    var w := prefix + "-" + digits;
    if |digits| > 0 {
      assert w[..|w| - 1] == prefix + "-" + digits[..|digits| - 1];
      assert w[|w| - 1] == digits[|digits| - 1];
      LastDashOfSuffix(prefix, digits[..|digits| - 1]);
    }
  }

  /**
   * The pattern matches a name that ends in a dash and one or more digits,
   * with no line feed before the dash, and captures exactly those final
   * digits (the last dash wins, as greedy `.*` demands); an optional final
   * line feed changes nothing.
   */
  lemma CapturedSuffixOfSuffix(prefix: string, digits: string)
    requires NoNewline(prefix)
    requires |digits| > 0 && AllDigits(digits)
    ensures CapturedSuffix(prefix + "-" + digits) == Some(digits)
    ensures CapturedSuffix(prefix + "-" + digits + "\n") == Some(digits)
  {
    var w := prefix + "-" + digits;
    LastDashOfSuffix(prefix, digits);
    assert w[|prefix| + 1..] == digits;
    assert w[..|prefix|] == prefix;
    assert BeforeFinalNewline(w) == w;
    var n := w + "\n";
    assert BeforeFinalNewline(n) == w;
  }

  /**
   * And it matches no other name: whatever it captures is one or more
   * digits that follow a dash and a line-free prefix, at the end of the
   * name or before a final line feed.
   */
  lemma CapturedSuffixShape(name: string)
    requires CapturedSuffix(name).Some?
    ensures |CapturedSuffix(name).value| > 0 && AllDigits(CapturedSuffix(name).value)
    ensures exists prefix ::
              NoNewline(prefix) &&
              (name == prefix + "-" + CapturedSuffix(name).value ||
               name == prefix + "-" + CapturedSuffix(name).value + "\n")
  {
    var w := BeforeFinalNewline(name);
    var p := LastDash(w).value;
    var d := CapturedSuffix(name).value;
    assert w == w[..p] + "-" + d;
    if |w| < |name| {
      assert name == w + "\n";
    }
  }

  /** Where the pattern does not match, the name is cast whole. */
  lemma ParseSiteIdUnmatched(name: string)
    requires CapturedSuffix(name).None?
    ensures ParseSiteId(name) == IntCast(name)
  {
  }

  /**
   * A name that ends in a dash and one or more digits, with no line feed
   * before the dash, yields those final digits read as a number and clamped
   * to 64 bits.
   */
  lemma ParseSiteIdOfSuffix(prefix: string, digits: string)
    requires NoNewline(prefix)
    requires |digits| > 0 && AllDigits(digits)
    ensures ParseSiteId(prefix + "-" + digits) == Saturate(DigitsValue(digits))
    ensures ParseSiteId(prefix + "-" + digits + "\n") == Saturate(DigitsValue(digits))
  {
    var w := prefix + "-" + digits;
    CapturedSuffixOfSuffix(prefix, digits);
    assert BeforeFinalNewline(w) == w;
    assert ReplaceSuffix(w) == digits + "";
    IntCastOfDigits(digits, "");
    var n := w + "\n";
    assert BeforeFinalNewline(n) == w;
    assert n[|w|..] == "\n";
    IntCastOfDigits(digits, "\n");
  }

  lemma {:induction false} DigitsValueOfDecimal(n: nat)
    ensures DigitsValue(DecimalString(n)) == n
  {
    var last := ['0' + ((n % 10) as char)];
    if n >= 10 {
      var d := DecimalString(n / 10) + last;
      assert d[..|d| - 1] == DecimalString(n / 10);
      DigitsValueOfDecimal(n / 10);
    }
  }

  /**
   * The naming round trip: a site's index name that ends in a dash and the
   * site id written in decimal gives that id back.
   */
  lemma ParseSiteIdRoundTrip(prefix: string, siteId: nat)
    requires NoNewline(prefix)
    requires siteId <= IntMax
    ensures ParseSiteId(prefix + "-" + DecimalString(siteId)) == siteId
  {
    ParseSiteIdOfSuffix(prefix, DecimalString(siteId));
    DigitsValueOfDecimal(siteId);
  }

  /**
   * A name with no dash at all is not matched, so the whole name is cast:
   * its leading digits, or 0.
   */
  lemma ParseSiteIdWithoutDash(name: string)
    requires forall i :: 0 <= i < |name| ==> name[i] != '-'
    ensures ParseSiteId(name) == IntCast(name)
  {
    var w := BeforeFinalNewline(name);
    assert forall j :: 0 <= j < |w| ==> w[j] == name[j];
  }

  /** A name ending in `-7` belongs to site 7. */
  lemma ParseSiteIdOfPrefixed()
    ensures ParseSiteId("prefix-7") == 7
  {
    assert "prefix" + "-" + "7" == "prefix-7";
    ParseSiteIdOfSuffix("prefix", "7");
    assert DigitsValue("7") == 7;
  }

  /**
   * Greedy matching: only the digits after the last dash count, so any
   * name ending in `-12-34` belongs to site 34, not 12.
   */
  lemma ParseSiteIdIsGreedy(prefix: string)
    requires NoNewline(prefix)
    ensures ParseSiteId(prefix + "-12-34") == 34
  {
    var p := prefix + "-12";
    assert NoNewline(p) by {
      assert forall i :: 0 <= i < |prefix| ==> p[i] == prefix[i];
    }
    assert p + "-" + "34" == prefix + "-12-34";
    assert Saturate(DigitsValue("34")) == 34 by {
      assert "34"[..1] == "3";
      assert "3"[..0] == "";
    }
    ParseSiteIdOfSuffix(p, "34");
  }

  /** Without a numeric suffix the cast of the whole name decides: `prefix` gives 0. */
  lemma ParseSiteIdOfPlainName()
    ensures ParseSiteId("prefix") == 0
  {
    ParseSiteIdWithoutDash("prefix");
    IntCastOfNonNumeric("prefix");
  }

  /** A bare number is its own site id. */
  lemma ParseSiteIdOfBareNumber()
    ensures ParseSiteId("7") == 7
  {
    ParseSiteIdWithoutDash("7");
    assert "7" + "" == "7";
    IntCastOfDigits("7", "");
    assert "7"[..0] == "";
    assert DigitsValue("7") == 7 by {
      assert DigitsValue("") == 0;
      assert DigitValue('7') == 7;
    }
  }
}
