/**
 * Text-level building blocks shared by the forms and list pages:
 *  - the character classes and the regular expressions the validators use,
 *    written out as predicates (`/^[A-Za-z0-9]+$/`, `/^\d+(\.\d{0,k})?$/` and
 *    the e-mail shape);
 *  - the parts of JavaScript's `parseFloat`, `parseInt` and `Number#toString`
 *    that the numeric inputs go through. A JavaScript number is represented
 *    here by the text `toString()` prints for it.
 */
module JsText {
  import opened Wrappers

  // ---------------------------------------------------------------------------
  // Character classes

  predicate IsDigit(c: char) { '0' <= c <= '9' }

  predicate IsAsciiLetter(c: char) { 'A' <= c <= 'Z' || 'a' <= c <= 'z' }

  /** The regular-expression class `\w` (no `u` flag, so ASCII only). */
  predicate IsWordChar(c: char) { IsAsciiLetter(c) || IsDigit(c) || c == '_' }

  /** The characters `[\.-]` of the e-mail expression. */
  predicate IsSeparator(c: char) { c == '.' || c == '-' }

  /**
   * The white space `parseFloat` and `parseInt` skip: the ECMAScript
   * WhiteSpace and LineTerminator characters (tab, line feed, vertical tab,
   * form feed, carriage return, the space separators of Unicode 15, the
   * line and paragraph separators and the byte-order mark).
   */
  predicate IsJsSpace(c: char)
  {
    || c == '\t' || c == '\n' || c == '\U{000B}' || c == '\U{000C}' || c == '\r'
    || c == ' ' || c == '\U{00A0}' || c == '\U{1680}' || ('\U{2000}' <= c <= '\U{200A}')
    || c == '\U{2028}' || c == '\U{2029}' || c == '\U{202F}' || c == '\U{205F}'
    || c == '\U{3000}' || c == '\U{FEFF}'
  }

  // ---------------------------------------------------------------------------
  // String length

  /** UTF-16 code units of one character: a character above U+FFFF is a surrogate pair. */
  function CodeUnits(c: char): nat
  {
    if c as int > 0xFFFF then 2 else 1
  }

  /**
   * `String#length`: the number of UTF-16 code units, which is the number of
   * characters plus one for each character outside the Basic Multilingual
   * Plane.
   */
  function Utf16Length(s: string): (n: nat)
    ensures |s| <= n <= 2 * |s|
    ensures n == 0 <==> s == ""
    decreases |s|
  {
    if |s| == 0 then 0 else CodeUnits(s[0]) + Utf16Length(s[1..])
  }

  /** Every character is in the Basic Multilingual Plane. */
  predicate InBmp(s: string)
  {
    forall i :: 0 <= i < |s| ==> s[i] as int <= 0xFFFF
  }

  /** Within the Basic Multilingual Plane `length` counts characters. */
  lemma {:induction false} Utf16LengthOfBmp(s: string)
    requires InBmp(s)
    ensures Utf16Length(s) == |s|
    decreases |s|
  {
    if |s| > 0 {
      assert InBmp(s[1..]) by {
        forall i | 0 <= i < |s| - 1
          ensures s[1..][i] as int <= 0xFFFF
        {
          assert s[1..][i] == s[i + 1];
        }
      }
      Utf16LengthOfBmp(s[1..]);
    }
  }

  /** `length` counts every character outside the Basic Multilingual Plane twice. */
  lemma {:induction false} Utf16LengthOfAstral(s: string)
    requires forall i :: 0 <= i < |s| ==> s[i] as int > 0xFFFF
    ensures Utf16Length(s) == 2 * |s|
    decreases |s|
  {
    if |s| > 0 {
      Utf16LengthOfAstral(s[1..]);
    }
  }

  /** `length` of a concatenation is the sum of the lengths. */
  lemma {:induction false} Utf16LengthOfConcat(a: string, b: string)
    ensures Utf16Length(a + b) == Utf16Length(a) + Utf16Length(b)
    decreases |a|
  {
    if |a| > 0 {
      assert (a + b)[0] == a[0] && (a + b)[1..] == a[1..] + b;
      Utf16LengthOfConcat(a[1..], b);
    } else {
      assert a + b == b;
    }
  }

  predicate AllDigits(s: string) { forall i :: 0 <= i < |s| ==> IsDigit(s[i]) }

  predicate AllWordChars(s: string) { forall i :: 0 <= i < |s| ==> IsWordChar(s[i]) }

  // ---------------------------------------------------------------------------
  // Regular expressions of the validators

  /** `/^[A-Za-z0-9]+$/` */
  predicate IsAlphanumeric(s: string)
  {
    |s| > 0 && forall i :: 0 <= i < |s| ==> IsAsciiLetter(s[i]) || IsDigit(s[i])
  }

  /** Length of the longest run of digits at the start of `s`. */
  function DigitRun(s: string): (n: nat)
    ensures n <= |s|
    ensures AllDigits(s[..n])
    ensures n < |s| ==> !IsDigit(s[n])
    decreases |s|
  {
    if |s| > 0 && IsDigit(s[0]) then 1 + DigitRun(s[1..]) else 0
  }

  /** `/^\d+(\.\d{0,k})?$/`: a digit, then what `DecimalRest` accepts. */
  predicate MatchesDecimal(s: string, k: nat)
  {
    |s| > 0 && IsDigit(s[0]) && DecimalRest(s[1..], k)
  }

  /** After at least one digit: more digits, then the end or '.' and at most k digits. */
  predicate DecimalRest(s: string, k: nat)
    decreases |s|
  {
    || s == []
    || (IsDigit(s[0]) && DecimalRest(s[1..], k))
    || (s[0] == '.' && AllDigits(s[1..]) && |s| - 1 <= k)
  }

  /**
   * `\w+([\.-]?\w+)*`: word characters, with single '.' or '-' separators
   * strictly between word characters.
   */
  predicate IsWordRuns(s: string)
  {
    && |s| > 0
    && IsWordChar(s[0])
    && IsWordChar(s[|s| - 1])
    && (forall i :: 0 <= i < |s| ==> IsWordChar(s[i]) || IsSeparator(s[i]))
    && (forall i :: 0 <= i < |s| - 1 && IsSeparator(s[i]) ==> IsWordChar(s[i + 1]))
  }

  /**
   * The part after '@': `\w+([\.-]?\w+)*(\.\w{2,3})+`. All the final groups but
   * the last can be absorbed into the word runs in front of them (a group
   * `.ab` is itself a separator followed by word characters), so the domain
   * matches exactly when it is word runs followed by one `.` and two or three
   * word characters.
   */
  predicate IsEmailDomain(d: string)
  {
    || (|d| >= 4 && d[|d| - 3] == '.' && IsWordRuns(d[..|d| - 3]) && AllWordChars(d[|d| - 2..]))
    || (|d| >= 5 && d[|d| - 4] == '.' && IsWordRuns(d[..|d| - 4]) && AllWordChars(d[|d| - 3..]))
  }

  /** `/^\w+([\.-]?\w+)*@\w+([\.-]?\w+)*(\.\w{2,3})+$/` */
  predicate IsEmail(s: string)
  {
    exists a :: 0 <= a < |s| && s[a] == '@' && IsWordRuns(s[..a]) && IsEmailDomain(s[a + 1..])
  }

  /** Word runs, '.' and two or three word characters form a domain. */
  lemma DomainOfParts(host: string, tld: string)
    requires IsWordRuns(host) && AllWordChars(tld) && 2 <= |tld| <= 3
    ensures IsEmailDomain(host + "." + tld)
  {
    var d := host + "." + tld;
    if |tld| == 2 {
      assert d[..|d| - 3] == host && d[|d| - 2..] == tld;
    } else {
      assert d[..|d| - 4] == host && d[|d| - 3..] == tld;
    }
  }

  /** Word runs, '@' and a domain form an address. */
  lemma EmailOfParts(local: string, domain: string)
    requires IsWordRuns(local) && IsEmailDomain(domain)
    ensures IsEmail(local + "@" + domain)
  {
    var s := local + "@" + domain;
    var a := |local|;
    assert s[a] == '@' && s[..a] == local && s[a + 1..] == domain;
  }

  // ---------------------------------------------------------------------------
  // parseFloat and Number#toString

  function TrimStart(s: string): (r: string)
    ensures |r| <= |s| && r == s[|s| - |r|..]
    ensures r == [] || !IsJsSpace(r[0])
    decreases |s|
  {
    if |s| > 0 && IsJsSpace(s[0]) then TrimStart(s[1..]) else s
  }

  /** Whether the text starts with a '-' sign. */
  predicate StartsWithMinus(t: string) { |t| > 0 && t[0] == '-' }

  /** The text after an optional leading '-' or '+'. */
  function AfterSign(t: string): (u: string)
    ensures |u| <= |t|
  {
    if |t| > 0 && (t[0] == '-' || t[0] == '+') then t[1..] else t
  }

  /** The leading digits of `s`. */
  function LeadingDigits(s: string): (d: string)
    ensures AllDigits(d) && |d| <= |s| && d == s[..|d|]
  {
    s[..DigitRun(s)]
  }

  /** The fraction digits after the integer digits `u[..n]`, if a '.' follows them. */
  function FractionAfter(u: string, n: nat): (f: string)
    requires n <= |u|
    ensures AllDigits(f)
  {
    if n < |u| && u[n] == '.' then LeadingDigits(u[n + 1..]) else ""
  }

  function StripLeadingZeros(d: string): (r: string)
    ensures |r| <= |d| && (AllDigits(d) ==> AllDigits(r))
    ensures r == [] || r[0] != '0'
    decreases |d|
  {
    if |d| > 0 && d[0] == '0' then StripLeadingZeros(d[1..]) else d
  }

  function StripTrailingZeros(d: string): (r: string)
    ensures |r| <= |d| && (AllDigits(d) ==> AllDigits(r))
    ensures r == [] || r[|r| - 1] != '0'
    decreases |d|
  {
    if |d| > 0 && d[|d| - 1] == '0' then StripTrailingZeros(d[..|d| - 1]) else d
  }

  /**
   * What `toString()` prints for the number with the given sign, integer
   * digits and fraction digits: no leading zeros, no trailing fraction zeros,
   * no '.' without a fraction, and "0" (never "-0") for zero.
   */
  function NumberText(negative: bool, intDigits: string, fracDigits: string): string
  {
    var i := StripLeadingZeros(intDigits);
    var f := StripTrailingZeros(fracDigits);
    if i == [] && f == [] then "0"
    else SignPart(negative) + (WholePart(i) + FractionPart(f))
  }

  function SignPart(negative: bool): string { if negative then "-" else "" }

  function WholePart(i: string): string { if i == [] then "0" else i }

  function FractionPart(f: string): string { if f == [] then "" else "." + f }

  /**
   * `parseFloat(s)` followed by `toString()`: skip leading white space, read
   * an optional sign and the longest decimal literal `digits[.digits]` (at
   * least one digit on one side of the point); `None` is NaN. The rest of the
   * text is ignored, as `parseFloat` does.
   */
  function ParseFloat(s: string): (r: Option<string>)
  {
    var t := TrimStart(s);
    ParseUnsignedFloat(StartsWithMinus(t), AfterSign(t))
  }

  /** `parseFloat` once the sign has been read. */
  function ParseUnsignedFloat(negative: bool, u: string): (r: Option<string>)
  {
    var n := DigitRun(u);
    var frac := FractionAfter(u, n);
    if n == 0 && frac == [] then None else Some(NumberText(negative, u[..n], frac))
  }

  lemma {:induction false} DigitRunOfConcat(a: string, b: string)
    requires AllDigits(a)
    requires b == [] || !IsDigit(b[0])
    ensures DigitRun(a + b) == |a|
    decreases |a|
  {
    if a != [] {
      assert (a + b)[1..] == a[1..] + b;
      DigitRunOfConcat(a[1..], b);
    } else {
      assert a + b == b;
    }
  }

  lemma DigitRunOfDigits(a: string)
    requires AllDigits(a)
    ensures DigitRun(a) == |a|
  {
    DigitRunOfConcat(a, []);
    assert a + [] == a;
  }

  /** The zero printed by `NumberText`. */
  lemma ZeroMatches(negative: bool, intDigits: string, fracDigits: string, k: nat)
    requires StripLeadingZeros(intDigits) == [] && StripTrailingZeros(fracDigits) == []
    ensures NumberText(negative, intDigits, fracDigits) == "0"
    ensures MatchesDecimal("0", k)
  {
    DigitRunOfDigits("0");
  }

  lemma NegativeRejected(t: string, k: nat)
    requires |t| > 0 && t[0] == '-'
    ensures !MatchesDecimal(t, k)
  {
  }

  lemma {:induction false} DigitsThenRest(a: string, rest: string, k: nat)
    requires AllDigits(a)
    ensures DecimalRest(a + rest, k) <==> DecimalRest(rest, k)
    decreases |a|
  {
    if a == [] {
      assert a + rest == rest;
    } else {
      assert (a + rest)[1..] == a[1..] + rest;
      DigitsThenRest(a[1..], rest, k);
    }
  }

  lemma PrintedMatches(whole: string, f: string, k: nat)
    requires whole != [] && AllDigits(whole) && AllDigits(f)
    ensures MatchesDecimal(whole + FractionPart(f), k) <==> |f| <= k
  {
    assert (whole + FractionPart(f))[1..] == whole[1..] + FractionPart(f);
    DigitsThenRest(whole[1..], FractionPart(f), k);
    if f != [] {
      assert FractionPart(f)[1..] == f;
    }
  }

  /** What `DecimalRest` accepts, stated with the leading digit run. */
  lemma {:induction false} DecimalRestShape(s: string, k: nat)
    requires DecimalRest(s, k)
    ensures var n := DigitRun(s);
      n == |s| || (s[n] == '.' && AllDigits(s[n + 1..]) && |s| - n - 1 <= k)
    decreases |s|
  {
    if s != [] && IsDigit(s[0]) {
      DecimalRestShape(s[1..], k);
      var m := DigitRun(s[1..]);
      if m < |s| - 1 {
        assert s[1..][m + 1..] == s[m + 2..];
      }
    }
  }

  /** A non-zero negative number never passes the pattern. */
  lemma NegativeTextRejected(i: string, f: string, k: nat)
    ensures !MatchesDecimal(SignPart(true) + (WholePart(i) + FractionPart(f)), k)
  {
    var t := SignPart(true) + (WholePart(i) + FractionPart(f));
    assert t[0] == '-';
    NegativeRejected(t, k);
  }

  /** A non-zero, non-negative printed number passes when its fraction is short enough. */
  lemma PositiveTextMatches(i: string, f: string, k: nat)
    requires AllDigits(i) && AllDigits(f) && (i == [] || i[0] != '0') && (i != [] || f != [])
    ensures var t := SignPart(false) + (WholePart(i) + FractionPart(f));
      && t != "0"
      && (MatchesDecimal(t, k) <==> |f| <= k)
  {
    var t := SignPart(false) + (WholePart(i) + FractionPart(f));
    assert t == WholePart(i) + FractionPart(f);
    if i == [] {
      assert t[1] == '.';
    } else {
      assert t[0] != '0';
    }
    PrintedMatches(WholePart(i), f, k);
  }

  /**
   * A printed number passes `/^\d+(\.\d{0,k})?$/` exactly when it is not
   * negative and has at most k significant fraction digits.
   */
  lemma NumberTextMatches(negative: bool, intDigits: string, fracDigits: string, k: nat)
    requires AllDigits(intDigits) && AllDigits(fracDigits)
    ensures var t := NumberText(negative, intDigits, fracDigits);
      MatchesDecimal(t, k) <==> (t == "0" || !negative) && |StripTrailingZeros(fracDigits)| <= k
  {
    var i := StripLeadingZeros(intDigits);
    var f := StripTrailingZeros(fracDigits);
    if i == [] && f == [] {
      ZeroMatches(negative, intDigits, fracDigits, k);
    } else if negative {
      NegativeTextRejected(i, f, k);
      assert NumberText(negative, intDigits, fracDigits) != "0";
    } else {
      PositiveTextMatches(i, f, k);
    }
  }

  /** Text starting with a digit or a '-' needs no trimming. */
  lemma SignOfUntrimmed(t: string)
    requires |t| > 0 && (IsDigit(t[0]) || t[0] == '-')
    ensures TrimStart(t) == t
    ensures StartsWithMinus(t) <==> t[0] == '-'
    ensures AfterSign(t) == if t[0] == '-' then t[1..] else t
  {
  }

  lemma ParseFloatOfSigned(negative: bool, u: string)
    requires |u| > 0 && IsDigit(u[0])
    ensures ParseFloat(SignPart(negative) + u) == ParseUnsignedFloat(negative, u)
  {
    var t := SignPart(negative) + u;
    assert t[0] == (if negative then '-' else u[0]);
    SignOfUntrimmed(t);
    assert AfterSign(t) == u;
  }

  lemma ParseUnsignedOfPrinted(negative: bool, whole: string, f: string)
    requires whole != [] && AllDigits(whole) && AllDigits(f)
    ensures ParseUnsignedFloat(negative, whole + FractionPart(f)) == Some(NumberText(negative, whole, f))
  {
    var u := whole + FractionPart(f);
    DigitRunOfConcat(whole, FractionPart(f));
    assert u[..|whole|] == whole;
    if f != [] {
      assert u[|whole| + 1..] == f;
      DigitRunOfDigits(f);
      assert f[..|f|] == f;
    }
    assert FractionAfter(u, |whole|) == f;
  }

  lemma ZeroText()
    ensures NumberText(false, "0", "") == "0"
  {
    assert "0"[1..] == [];
    assert StripLeadingZeros("0") == [];
  }

  lemma ZeroParsesUnsigned()
    ensures ParseUnsignedFloat(false, "0") == Some(NumberText(false, "0", ""))
  {
    ParseUnsignedOfPrinted(false, "0", "");
    assert "0" + FractionPart("") == "0";
  }

  lemma ZeroParses()
    ensures ParseFloat("0") == Some("0")
  {
    ParseFloatOfSigned(false, "0");
    assert SignPart(false) + "0" == "0";
    ZeroParsesUnsigned();
    ZeroText();
  }

  lemma StrippedWholeIsFixed(i: string)
    requires i == [] || i[0] != '0'
    ensures StripLeadingZeros(WholePart(i)) == i
  {
    if i == [] {
      assert "0"[1..] == [];
    }
  }

  lemma StrippedFractionIsFixed(f: string)
    requires f == [] || f[|f| - 1] != '0'
    ensures StripTrailingZeros(f) == f
  {
  }

  /** A non-zero printed number: sign, whole part, fraction part. */
  lemma NumberTextShape(negative: bool, intDigits: string, fracDigits: string)
    requires StripLeadingZeros(intDigits) != [] || StripTrailingZeros(fracDigits) != []
    ensures var i := StripLeadingZeros(intDigits);
      var f := StripTrailingZeros(fracDigits);
      NumberText(negative, intDigits, fracDigits) == SignPart(negative) + (WholePart(i) + FractionPart(f))
  {
  }

  /** A non-zero printed number is its own printed form once stripped. */
  lemma NumberTextStripped(negative: bool, intDigits: string, fracDigits: string)
    requires StripLeadingZeros(intDigits) != [] || StripTrailingZeros(fracDigits) != []
    ensures var i := StripLeadingZeros(intDigits);
      var f := StripTrailingZeros(fracDigits);
      NumberText(negative, WholePart(i), f) == NumberText(negative, intDigits, fracDigits)
  {
    var i := StripLeadingZeros(intDigits);
    var f := StripTrailingZeros(fracDigits);
    StrippedWholeIsFixed(i);
    StrippedFractionIsFixed(f);
  }

  lemma ParseFloatOfNonZeroText(negative: bool, intDigits: string, fracDigits: string)
    requires AllDigits(intDigits) && AllDigits(fracDigits)
    requires StripLeadingZeros(intDigits) != [] || StripTrailingZeros(fracDigits) != []
    ensures var t := NumberText(negative, intDigits, fracDigits);
      ParseFloat(t) == Some(t)
  {
    var i := StripLeadingZeros(intDigits);
    var f := StripTrailingZeros(fracDigits);
    NumberTextShape(negative, intDigits, fracDigits);
    NumberTextStripped(negative, intDigits, fracDigits);
    ParseFloatOfSigned(negative, WholePart(i) + FractionPart(f));
    ParseUnsignedOfPrinted(negative, WholePart(i), f);
  }

  lemma ParseFloatOfZeroText(negative: bool, intDigits: string, fracDigits: string)
    requires StripLeadingZeros(intDigits) == [] && StripTrailingZeros(fracDigits) == []
    ensures var t := NumberText(negative, intDigits, fracDigits);
      ParseFloat(t) == Some(t)
  {
    ZeroParses();
  }

  /** `toString()` then `parseFloat` gives back the same number. */
  lemma ParseFloatOfNumberText(negative: bool, intDigits: string, fracDigits: string)
    requires AllDigits(intDigits) && AllDigits(fracDigits)
    ensures var t := NumberText(negative, intDigits, fracDigits);
      ParseFloat(t) == Some(t)
  {
    if StripLeadingZeros(intDigits) == [] && StripTrailingZeros(fracDigits) == [] {
      ParseFloatOfZeroText(negative, intDigits, fracDigits);
    } else {
      ParseFloatOfNonZeroText(negative, intDigits, fracDigits);
    }
  }

  /** The text of a number as `toString()` prints it: `parseFloat` reads it back unchanged. */
  predicate IsPrinted(t: string) { ParseFloat(t) == Some(t) }

  /** Text starting with a letter other than the 'I' of "Infinity" is not a number. */
  lemma LetterFirstIsNaN(s: string)
    requires |s| > 0 && IsAsciiLetter(s[0]) && s[0] != 'I'
    ensures ParseFloat(s).None?
  {
    assert TrimStart(s) == s;
    assert AfterSign(s) == s;
    assert DigitRun(s) == 0;
  }

  /**
   * Whatever `parseFloat` reads prints as text that `parseFloat` reads back
   * unchanged: a stored number's text is a fixed point.
   */
  lemma ParseFloatIsPrinted(s: string)
    requires ParseFloat(s).Some?
    ensures ParseFloat(ParseFloat(s).value) == ParseFloat(s)
  {
    var t := TrimStart(s);
    var u := AfterSign(t);
    var n := DigitRun(u);
    var frac := FractionAfter(u, n);
    assert ParseFloat(s) == Some(NumberText(StartsWithMinus(t), u[..n], frac));
    ParseFloatOfNumberText(StartsWithMinus(t), u[..n], frac);
  }

  /** What the decimal pattern accepts: a digit run, then nothing or '.' and at most k digits. */
  lemma AcceptedShape(s: string, k: nat)
    requires MatchesDecimal(s, k)
    ensures var n := DigitRun(s);
      && 1 <= n
      && (n == |s| || (s[n] == '.' && AllDigits(s[n + 1..]) && |s| - n - 1 <= k))
  {
    DecimalRestShape(s[1..], k);
    var n := DigitRun(s);
    assert n == 1 + DigitRun(s[1..]);
    if n < |s| {
      assert s[1..][n..] == s[n + 1..];
    }
  }

  lemma ParseFloatOfDigitFirst(s: string)
    requires |s| > 0 && IsDigit(s[0])
    ensures ParseFloat(s) == ParseUnsignedFloat(false, s)
  {
    ParseFloatOfSigned(false, s);
    assert SignPart(false) + s == s;
  }

  lemma UnsignedWithDigits(s: string)
    requires DigitRun(s) >= 1
    ensures ParseUnsignedFloat(false, s) == Some(NumberText(false, s[..DigitRun(s)], FractionAfter(s, DigitRun(s))))
  {
  }

  lemma AcceptedFractionShort(s: string, k: nat)
    requires MatchesDecimal(s, k)
    ensures |FractionAfter(s, DigitRun(s))| <= k
  {
    AcceptedShape(s, k);
    var n := DigitRun(s);
    if n < |s| {
      DigitRunOfDigits(s[n + 1..]);
      assert FractionAfter(s, n) == s[n + 1..];
    }
  }

  /** `parseFloat` of accepted text reads all of it. */
  lemma AcceptedParses(s: string, k: nat)
    requires MatchesDecimal(s, k)
    ensures var n := DigitRun(s);
      && ParseFloat(s) == Some(NumberText(false, s[..n], FractionAfter(s, n)))
      && |FractionAfter(s, n)| <= k
  {
    AcceptedShape(s, k);
    ParseFloatOfDigitFirst(s);
    UnsignedWithDigits(s);
    AcceptedFractionShort(s, k);
  }

  /**
   * Text the decimal pattern accepts survives `parseFloat` and `toString()`
   * and is still accepted afterwards.
   */
  lemma AcceptedDecimalStaysAccepted(s: string, k: nat)
    requires MatchesDecimal(s, k)
    ensures ParseFloat(s).Some? && MatchesDecimal(ParseFloat(s).value, k)
  {
    AcceptedParses(s, k);
    var n := DigitRun(s);
    var frac := FractionAfter(s, n);
    NumberTextMatches(false, s[..n], frac, k);
  }

  // ---------------------------------------------------------------------------
  // parseInt and integer printing

  /** A `number` produced by `parseInt`: an integer or NaN. */
  datatype IntValue = Finite(n: int) | NaN

  function DigitChar(d: nat): char
    requires d < 10
  {
    ('0' as int + d) as char
  }

  function DigitValue(c: char): nat
    requires IsDigit(c)
  {
    c as int - '0' as int
  }

  /** The value of a string of decimal digits. */
  function DigitsValue(d: string): nat
    requires AllDigits(d)
    decreases |d|
  {
    if d == [] then 0 else 10 * DigitsValue(d[..|d| - 1]) + DigitValue(d[|d| - 1])
  }

  function NatText(n: nat): (r: string)
    ensures |r| > 0 && AllDigits(r)
    decreases n
  {
    if n < 10 then [DigitChar(n)] else NatText(n / 10) + [DigitChar(n % 10)]
  }

  /** `toString()` of an integer. */
  function IntText(i: int): string
  {
    if i < 0 then "-" + NatText(-i) else NatText(i)
  }

  /** `toString()` of a `parseInt` result. */
  function IntValueText(v: IntValue): string
  {
    match v
    case Finite(n) => IntText(n)
    case NaN => "NaN"
  }

  /** `parseInt(s)` in base 10: white space, an optional sign, then the leading digits. */
  function ParseInt(s: string): IntValue
  {
    var t := TrimStart(s);
    ParseUnsignedInt(StartsWithMinus(t), AfterSign(t))
  }

  function ParseUnsignedInt(negative: bool, u: string): IntValue
  {
    var d := LeadingDigits(u);
    if d == [] then NaN
    else
      var magnitude: int := DigitsValue(d);
      Finite(if negative then -magnitude else magnitude)
  }

  lemma {:induction false} NatTextValue(n: nat)
    ensures DigitsValue(NatText(n)) == n
    decreases n
  {
    if n >= 10 {
      var r := NatText(n);
      assert r[..|r| - 1] == NatText(n / 10);
      NatTextValue(n / 10);
    }
  }

  /**
   * `parseInt` reads back every integer `toString()` prints. The list pages
   * rely on this: a row checkbox's value is its id in decimal, and the
   * handlers recover the id with `parseInt`.
   */
  lemma ParseIntOfSigned(negative: bool, u: string)
    requires |u| > 0 && IsDigit(u[0])
    ensures ParseInt(SignPart(negative) + u) == ParseUnsignedInt(negative, u)
  {
    var t := SignPart(negative) + u;
    assert t[0] == (if negative then '-' else u[0]);
    SignOfUntrimmed(t);
    assert AfterSign(t) == u;
  }

  lemma ParseUnsignedOfDigits(negative: bool, d: string)
    requires d != [] && AllDigits(d)
    ensures ParseUnsignedInt(negative, d)
         == Finite(if negative then 0 - DigitsValue(d) as int else DigitsValue(d))
  {
    DigitRunOfDigits(d);
    assert LeadingDigits(d) == d;
  }

  lemma ParseIntOfIntText(i: int)
    ensures ParseInt(IntText(i)) == Finite(i)
  {
    var magnitude: nat := if i < 0 then -i else i;
    NatTextValue(magnitude);
    assert IntText(i) == SignPart(i < 0) + NatText(magnitude);
    ParseIntOfSigned(i < 0, NatText(magnitude));
    ParseUnsignedOfDigits(i < 0, NatText(magnitude));
  }
}
