/**
 * Kenyan phone numbers: `normalizeKenyanPhone` from the compiled
 * authentication controller, which reduces any accepted presentation to the
 * ITU-T E.164 style "+254…", and the format branching of the TypeScript
 * `registerUser`.
 */
module PhoneNumbers {
  import opened Js

  /** `s.replace(/\D/g, '')`: the ASCII digits of s, in order. */
  function Digits(s: string): (d: string)
    ensures AllDigits(d) && |d| <= |s|
  {
    if s == [] then []
    else Digits(s[..|s| - 1]) + (if IsDigit(s[|s| - 1]) then [s[|s| - 1]] else [])
  }

  lemma {:induction false} DigitsOfDigits(s: string)
    requires AllDigits(s)
    ensures Digits(s) == s
  {
    if s != [] {
      DigitsOfDigits(s[..|s| - 1]);
    }
  }

  lemma {:induction false} DigitsAppend(a: string, b: string)
    ensures Digits(a + b) == Digits(a) + Digits(b)
  {
    if b == [] {
      assert a + b == a;
    } else {
      assert (a + b)[..|a + b| - 1] == a + b[..|b| - 1];
      DigitsAppend(a, b[..|b| - 1]);
    }
  }

  /** A separator in front of a digit group is dropped. */
  lemma DigitsDropSeparator(c: char, g: string)
    requires !IsDigit(c) && AllDigits(g)
    ensures Digits([c] + g) == g
  {
    DigitsAppend([c], g);
    DigitsOfDigits(g);
    assert [c][..0] == [];
  }

  lemma StartsWithHead(s: string, p: string)
    requires StartsWith(s, p) && |p| > 0
    ensures s[0] == p[0]
  {
    assert s[..|p|][0] == s[0];
  }


  const Rejection := ". Expected formats: 07XXXXXXXXX, 7XXXXXXXXX, 254XXXXXXXXXX, +254XXXXXXXXXX, or 01XXXXXXXXX"

  /** The branches of `normalizeKenyanPhone`, applied to the digits of the input. */
  function NormalizeDigits(n: string): (r: Option<string>)
    ensures AllDigits(n) && r.Some? ==> StartsWith(r.value, "+254") && AllDigits(r.value[1..])
                                        && (|r.value| == 13 || |r.value| == 14)
  {
    if StartsWith(n, "07") && |n| == 10 then Some("+254" + n[1..])
    else if StartsWith(n, "7") && |n| == 9 then Some("+254" + n)
    else if StartsWith(n, "254") && |n| == 12 then Some("+" + n)
    else if StartsWith(n, "1") && |n| == 9 then Some("+254" + n)
    else if StartsWith(n, "+254") || (StartsWith(n, "254") && |n| == 13) then
      Some(if StartsWith(n, "+") then n else "+" + n)
    else None
  }

  /** `normalizeKenyanPhone(phone)`: the normalized number, or the message it throws. */
  function NormalizeKenyanPhone(phone: JsValue): (r: Result<string>)
    ensures !phone.Str? || phone.s == "" ==> r == Err("Phone must be a non-empty string")
    ensures r.Ok? ==> StartsWith(r.value, "+254") && AllDigits(r.value[1..])
                      && (|r.value| == 13 || |r.value| == 14)
  {
    if !Truthy(phone) || !phone.Str? then Err("Phone must be a non-empty string")
    else
      match NormalizeDigits(Digits(phone.s))
      case Some(e164) => Ok(e164)
      case None => Err("Unable to normalize phone: " + phone.s + Rejection)
  }

  /** Only the digits of the input matter to an accepted result: spaces, dashes and a leading "+" are ignored. */
  lemma OnlyDigitsMatter(a: string, b: string)
    requires a != "" && b != "" && Digits(a) == Digits(b)
    requires NormalizeKenyanPhone(Str(a)).Ok?
    ensures NormalizeKenyanPhone(Str(a)) == NormalizeKenyanPhone(Str(b))
  {
  }

  /** Normalizing a normalized number returns it unchanged. */
  lemma NormalizeIsIdempotent(phone: JsValue)
    requires NormalizeKenyanPhone(phone).Ok?
    ensures NormalizeKenyanPhone(Str(NormalizeKenyanPhone(phone).value)) == NormalizeKenyanPhone(phone)
  {
    var r := NormalizeKenyanPhone(phone).value;
    assert r == ['+'] + r[1..];
    DigitsDropSeparator('+', r[1..]);
    assert r[1..][..3] == "254";
    CountryDigits(r[1..]);
  }

  /** Twelve or thirteen digits starting with "254" only gain a "+", as written and as intended. */
  lemma CountryDigits(n: string)
    requires StartsWith(n, "254") && (|n| == 12 || |n| == 13)
    ensures NormalizeDigits(n) == Some("+" + n)
    ensures NormalizeDigitsIntended(n) == Some("+" + n)
  {
    assert n[0] == '2';
  }

  /** A subscriber number, bare or after "254" or "+254", has the digits "254" and the number. */
  lemma CountryPresentations(s: string)
    requires |s| == 9 && AllDigits(s)
    ensures Digits("254" + s) == "254" + s && Digits("+254" + s) == "254" + s
    ensures StartsWith("254" + s, "254") && |"254" + s| == 12
  {
    assert AllDigits("254" + s);
    DigitsOfDigits("254" + s);
    assert "+254" + s == ['+'] + ("254" + s);
    DigitsDropSeparator('+', "254" + s);
    assert ("254" + s)[..3] == "254";
  }

  /** A nine-digit subscriber number starting with 7. */
  predicate MobileSubscriber(s: string)
  {
    |s| == 9 && AllDigits(s) && s[0] == '7'
  }

  /**
   * The four presentations of a mobile number (local "07…", bare "7…", "254…"
   * and "+254…") all normalize to "+254" followed by the subscriber number.
   */
  lemma PresentationsAgree(s: string)
    requires MobileSubscriber(s)
    ensures NormalizeKenyanPhone(Str("0" + s)) == Ok("+254" + s)
    ensures NormalizeKenyanPhone(Str(s)) == Ok("+254" + s)
    ensures NormalizeKenyanPhone(Str("254" + s)) == Ok("+254" + s)
    ensures NormalizeKenyanPhone(Str("+254" + s)) == Ok("+254" + s)
  {
    SubscriberDigits(s);
    CountryDigits("254" + s);
    assert "+" + ("254" + s) == "+254" + s;
    NormalizeViaDigits("0" + s, "+254" + s);
    NormalizeViaDigits(s, "+254" + s);
    NormalizeViaDigits("254" + s, "+254" + s);
    NormalizeViaDigits("+254" + s, "+254" + s);
  }

  /** The digits of the four presentations of a subscriber number, and the branches the local and bare forms take. */
  lemma SubscriberDigits(s: string)
    requires |s| == 9 && AllDigits(s) && (s[0] == '7' || s[0] == '1')
    ensures Digits(s) == s && Digits("0" + s) == "0" + s
    ensures Digits("254" + s) == "254" + s && Digits("+254" + s) == "254" + s
    ensures StartsWith("254" + s, "254") && |"254" + s| == 12
    ensures NormalizeDigits(s) == Some("+254" + s) && NormalizeDigitsIntended(s) == Some("+254" + s)
    ensures NormalizeDigitsIntended("0" + s) == Some("+254" + s)
    ensures s[0] == '7' ==> NormalizeDigits("0" + s) == Some("+254" + s)
  {
    DigitsOfDigits(s);
    assert AllDigits("0" + s);
    DigitsOfDigits("0" + s);
    CountryPresentations(s);
    LocalDigits(s);
    assert s[..1] == [s[0]];
  }

  lemma LocalDigits(s: string)
    requires |s| == 9 && (s[0] == '7' || s[0] == '1')
    ensures NormalizeDigitsIntended("0" + s) == Some("+254" + s)
    ensures s[0] == '7' ==> NormalizeDigits("0" + s) == Some("+254" + s)
  {
    assert ("0" + s)[..2] == ['0', s[0]];
    assert ("0" + s)[1..] == s;
  }

  /** A non-empty string whose digits normalize is accepted with that result. */
  lemma NormalizeViaDigits(x: string, r: string)
    requires x != "" && NormalizeDigits(Digits(x)) == Some(r)
    ensures NormalizeKenyanPhone(Str(x)) == Ok(r)
  {
  }

  lemma IntendedViaDigits(x: string, r: string)
    requires x != "" && NormalizeDigitsIntended(Digits(x)) == Some(r)
    ensures NormalizeKenyanPhoneIntended(Str(x)) == Ok(r)
  {
  }

  /** A space between digit groups is dropped. */
  lemma {:induction false} DigitsSkipSpace(x: string, g: string)
    requires AllDigits(g)
    ensures Digits(x + [' '] + g) == Digits(x) + g
  {
    DigitsAppend(x + [' '], g);
    DigitsAppend(x, [' ']);
    DigitsOfDigits(g);
    assert [' '][..0] == [];
  }

  /** A number written as "+254" and three space-separated groups keeps only the digits. */
  lemma SpacedGroups(a: string, b: string, c: string)
    requires AllDigits(a) && AllDigits(b) && AllDigits(c)
    ensures Digits("+254" + [' '] + a + [' '] + b + [' '] + c) == "254" + a + b + c
  {
    assert "+254" == ['+'] + "254";
    DigitsDropSeparator('+', "254");
    DigitsSkipSpace("+254", a);
    DigitsSkipSpace("+254" + [' '] + a, b);
    DigitsSkipSpace("+254" + [' '] + a + [' '] + b, c);
  }

  /**
   * A mobile number written "+254 7xx xxx xxx", with spaces between the groups,
   * normalizes like its plain form.
   */
  lemma SpacedPresentation(a: string, b: string, c: string)
    requires MobileSubscriber(a + b + c) && AllDigits(a) && AllDigits(b) && AllDigits(c)
    ensures NormalizeKenyanPhone(Str("+254" + [' '] + a + [' '] + b + [' '] + c)) == Ok("+254" + (a + b + c))
  {
    var spaced := "+254" + [' '] + a + [' '] + b + [' '] + c;
    SpacedGroups(a, b, c);
    assert "254" + a + b + c == "254" + (a + b + c);
    assert spaced[0] == '+';
    NormalizeByCountryDigits(spaced, a + b + c);
  }

  /** Any input whose digits are "254" and a mobile subscriber number normalizes to "+254" and that number. */
  lemma NormalizeByCountryDigits(x: string, n: string)
    requires x != "" && Digits(x) == "254" + n && MobileSubscriber(n)
    ensures NormalizeKenyanPhone(Str(x)) == Ok("+254" + n)
  {
    assert AllDigits("254" + n);
    DigitsOfDigits("254" + n);
    PresentationsAgree(n);
  }

  /**
   * As written, a local number on the newer "01" prefixes is rejected although
   * the error message lists "01…" among the expected formats; its bare form
   * "1…" is accepted.
   */
  lemma LocalOnePrefixRejected(s: string)
    requires |s| == 9 && AllDigits(s) && s[0] == '1'
    ensures NormalizeKenyanPhone(Str("0" + s)).Err?
    ensures NormalizeKenyanPhone(Str(s)) == Ok("+254" + s)
  {
    DigitsOfDigits(s);
    assert AllDigits("0" + s);
    DigitsOfDigits("0" + s);
    assert ("0" + s)[..2] == ['0', s[0]];
    assert s[..1] == ['1'];
  }

  /** The branches as evidently intended: a local "0" followed by a 7 or a 1 is accepted alike. */
  function NormalizeDigitsIntended(n: string): (r: Option<string>)
    ensures AllDigits(n) && r.Some? ==> StartsWith(r.value, "+254") && AllDigits(r.value[1..])
                                        && (|r.value| == 13 || |r.value| == 14)
  {
    if (StartsWith(n, "07") || StartsWith(n, "01")) && |n| == 10 then Some("+254" + n[1..])
    else NormalizeDigits(n)
  }

  function NormalizeKenyanPhoneIntended(phone: JsValue): (r: Result<string>)
    ensures !phone.Str? || phone.s == "" ==> r == Err("Phone must be a non-empty string")
    ensures r.Ok? ==> StartsWith(r.value, "+254") && AllDigits(r.value[1..])
                      && (|r.value| == 13 || |r.value| == 14)
  {
    if !Truthy(phone) || !phone.Str? then Err("Phone must be a non-empty string")
    else
      match NormalizeDigitsIntended(Digits(phone.s))
      case Some(e164) => Ok(e164)
      case None => Err("Unable to normalize phone: " + phone.s + Rejection)
  }

  /** A nine-digit subscriber number starting with 7 or 1. */
  predicate Subscriber(s: string)
  {
    |s| == 9 && AllDigits(s) && (s[0] == '7' || s[0] == '1')
  }

  /** With the correction, every presentation of a 7 or 1 subscriber agrees, and nothing accepted before changes. */
  lemma IntendedPresentationsAgree(s: string)
    requires Subscriber(s)
    ensures NormalizeKenyanPhoneIntended(Str("0" + s)) == Ok("+254" + s)
    ensures NormalizeKenyanPhoneIntended(Str(s)) == Ok("+254" + s)
    ensures NormalizeKenyanPhoneIntended(Str("254" + s)) == Ok("+254" + s)
    ensures NormalizeKenyanPhoneIntended(Str("+254" + s)) == Ok("+254" + s)
  {
    SubscriberDigits(s);
    CountryDigits("254" + s);
    assert "+" + ("254" + s) == "+254" + s;
    IntendedViaDigits("0" + s, "+254" + s);
    IntendedViaDigits(s, "+254" + s);
    IntendedViaDigits("254" + s, "+254" + s);
    IntendedViaDigits("+254" + s, "+254" + s);
  }

  lemma IntendedExtendsWritten(phone: JsValue)
    requires NormalizeKenyanPhone(phone).Ok?
    ensures NormalizeKenyanPhoneIntended(phone) == NormalizeKenyanPhone(phone)
  {
  }

  // ---- registerUser (TypeScript) ----

  /** `^(\+254|254|0|07)\d{9}$`. */
  predicate MatchesRegisterPattern(s: string)
  {
    (|s| == 13 && StartsWith(s, "+254") && AllDigits(s[4..]))
    || (|s| == 12 && StartsWith(s, "254") && AllDigits(s[3..]))
    || (|s| == 10 && StartsWith(s, "0") && AllDigits(s[1..]))
    || (|s| == 11 && StartsWith(s, "07") && AllDigits(s[2..]))
  }

  /** The outcome of the format step: an error response, or the raw and formatted numbers. */
  datatype Registration = Rejected(status: nat, message: string) | Formatted(raw: string, formatted: string)

  /** The number formatting of `registerUser`, modelled literally. */
  function RegisterFormat(phone: JsValue): (r: Registration)
    ensures !Truthy(phone) ==> r == Rejected(400, "Phone number is required")
    ensures r.Formatted? ==> phone.Str? && MatchesRegisterPattern(phone.s) && r.raw == phone.s
    ensures phone.Str? && phone.s != "" && !MatchesRegisterPattern(phone.s)
            ==> r == Rejected(400, "Invalid phone number format")
    ensures Truthy(phone) && !phone.Str? ==> r == Rejected(500, "Server error")
  {
    if !Truthy(phone) then Rejected(400, "Phone number is required")
    else if !phone.Str? then Rejected(500, "Server error")
    else
      var p := phone.s;
      if !MatchesRegisterPattern(p) then Rejected(400, "Invalid phone number format")
      else if StartsWith(p, "7") && |p| == 9 then Formatted(p, "254" + p)
      else if StartsWith(p, "07") && |p| == 10 then Formatted(p, "+254" + p[1..])
      else if StartsWith(p, "+254") && |p| == 13 then Formatted(p, p)
      else if StartsWith(p, "254") && |p| == 12 then Formatted(p, "+254" + p[1..])
      else Rejected(400, "Phone number must be in +254, 254, 07, or 7 format followed by 9 digits")
  }

  /** The bare "7…" branch is unreachable: the pattern never admits a number starting with 7. */
  lemma BareSevenBranchUnreachable(p: string)
    requires MatchesRegisterPattern(p)
    ensures !StartsWith(p, "7")
  {
    if StartsWith(p, "+254") {
      StartsWithHead(p, "+254");
    } else if StartsWith(p, "254") {
      StartsWithHead(p, "254");
    } else {
      StartsWithHead(p, "0");
    }
  }

  /**
   * Which pattern-accepted numbers are formatted: "0" then 7 then 8 digits,
   * "+254" then 9 digits, and "254" then 9 digits; "0" then any other digit,
   * and "07" then 9 digits, are rejected.
   */
  lemma RegisterFormatCases(p: string)
    requires MatchesRegisterPattern(p)
    ensures RegisterFormat(Str(p)).Formatted?
            <==> (|p| == 10 && StartsWith(p, "07")) || |p| == 13 || |p| == 12
    ensures |p| == 10 && StartsWith(p, "07") ==> RegisterFormat(Str(p)).formatted == "+254" + p[1..]
    ensures |p| == 13 ==> RegisterFormat(Str(p)).formatted == p
  {
  }

  /** The pattern-accepted numbers that are not formatted get the 400 naming the four formats. */
  lemma RegisterFormatRejectsOthers(p: string)
    requires MatchesRegisterPattern(p)
    requires !(|p| == 10 && StartsWith(p, "07")) && |p| != 13 && |p| != 12
    ensures RegisterFormat(Str(p))
            == Rejected(400, "Phone number must be in +254, 254, 07, or 7 format followed by 9 digits")
  {
  }

  /** As written, "254" numbers lose their leading digit: "254712345678" becomes "+25454712345678". */
  lemma CountryCodeBranchAsWritten()
    ensures RegisterFormat(Str("254712345678")) == Formatted("254712345678", "+25454712345678")
  {
    var p := "254712345678";
    assert p[..3] == "254";
    assert AllDigits(p[3..]);
    CountryBranch(p);
    assert "+254" + p[1..] == "+25454712345678";
  }

  /** A pattern-accepted "254" number takes the "254" branch. */
  lemma CountryBranch(p: string)
    requires |p| == 12 && StartsWith(p, "254") && AllDigits(p[3..])
    ensures RegisterFormat(Str(p)) == Formatted(p, "+254" + p[1..])
  {
    StartsWithHead(p, "254");
  }

  /** The formatting as evidently intended: "254…" gains only the "+". */
  function RegisterFormatIntended(phone: JsValue): (r: Registration)
    ensures !Truthy(phone) ==> r == Rejected(400, "Phone number is required")
    ensures r.Formatted? ==> phone.Str? && MatchesRegisterPattern(phone.s) && r.raw == phone.s
  {
    if phone.Str? && MatchesRegisterPattern(phone.s) && StartsWith(phone.s, "254") && |phone.s| == 12
    then Formatted(phone.s, "+" + phone.s)
    else RegisterFormat(phone)
  }

  /** With the correction every formatted number is "+254" and nine digits, and agrees with normalization. */
  lemma IntendedRegisterFormatIsE164(p: string)
    requires RegisterFormatIntended(Str(p)).Formatted?
    ensures var f := RegisterFormatIntended(Str(p)).formatted;
            |f| == 13 && StartsWith(f, "+254") && AllDigits(f[1..])
            && NormalizeKenyanPhone(Str(p)) == Ok(f)
  {
    if |p| == 13 {
      PlusFormatted(p);
    } else if |p| == 12 {
      CountryFormatted(p);
    } else {
      LocalFormatted(p);
    }
  }

  lemma PlusFormatted(p: string)
    requires |p| == 13 && MatchesRegisterPattern(p)
    ensures RegisterFormatIntended(Str(p)) == Formatted(p, p)
    ensures StartsWith(p, "+254") && AllDigits(p[1..]) && NormalizeKenyanPhone(Str(p)) == Ok(p)
  {
    assert p[..4] == "+254";
    StartsWithHead(p, "+254");
    assert AllDigits(p[1..]) by {
      forall i | 1 <= i < |p| ensures IsDigit(p[i]) {
        if i >= 4 { assert p[i] == p[4..][i - 4]; } else { assert p[i] == p[..4][i]; }
      }
    }
    assert p == ['+'] + p[1..];
    DigitsDropSeparator('+', p[1..]);
    assert p[1..][..3] == "254";
    CountryDigits(p[1..]);
    NormalizeViaDigits(p, p);
  }

  lemma CountryFormatted(p: string)
    requires |p| == 12 && MatchesRegisterPattern(p)
    ensures RegisterFormatIntended(Str(p)) == Formatted(p, "+" + p)
    ensures StartsWith("+" + p, "+254") && AllDigits(("+" + p)[1..]) && NormalizeKenyanPhone(Str(p)) == Ok("+" + p)
  {
    assert StartsWith(p, "254") && AllDigits(p[3..]);
    assert AllDigits(p) by {
      forall i | 0 <= i < |p| ensures IsDigit(p[i]) {
        if i >= 3 { assert p[i] == p[3..][i - 3]; } else { assert p[i] == p[..3][i]; }
      }
    }
    DigitsOfDigits(p);
    CountryDigits(p);
    NormalizeViaDigits(p, "+" + p);
    assert ("+" + p)[1..] == p;
    assert ("+" + p)[..4] == "+" + p[..3];
  }

  lemma LocalFormatted(p: string)
    requires RegisterFormatIntended(Str(p)).Formatted? && |p| != 13 && |p| != 12
    ensures |p| == 10 && StartsWith(p, "07")
    ensures RegisterFormatIntended(Str(p)) == Formatted(p, "+254" + p[1..])
    ensures AllDigits(p[1..]) && NormalizeKenyanPhone(Str(p)) == Ok("+254" + p[1..])
  {
    assert |p| == 10 && StartsWith(p, "07") && AllDigits(p[1..]);
    assert AllDigits(p) by {
      forall i | 0 <= i < |p| ensures IsDigit(p[i]) {
        if i >= 1 { assert p[i] == p[1..][i - 1]; } else { assert p[i] == p[..2][i]; }
      }
    }
    DigitsOfDigits(p);
    NormalizeViaDigits(p, "+254" + p[1..]);
  }
}
