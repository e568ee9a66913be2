// The phone-number normaliser of src/utils/phoneNumber.ts: arbitrary text
// typed by a user becomes either the empty string (not normalisable) or a
// canonical North-American number "+1" followed by exactly ten digits.

module PhoneNumber {

  /** An ASCII decimal digit: what `\d` matches in a JavaScript regular
      expression. */
  predicate IsDigit(c: char) {
    '0' <= c <= '9'
  }

  predicate AllDigits(s: string) {
    forall i :: 0 <= i < |s| ==> IsDigit(s[i])
  }

  /** The canonical shape: '+', the country code '1', then ten digits. */
  predicate IsCanonical(p: string) {
    |p| == 12 && p[0] == '+' && p[1] == '1' && AllDigits(p[2..])
  }

  /** `phone.replace(/\D/g, '')`: the digits of `s`, in their order.
      Nothing is dropped exactly when `s` holds nothing but digits. */
  function Digits(s: string): (d: string)
    ensures AllDigits(d)
    ensures |d| <= |s|
    ensures |d| == |s| <==> AllDigits(s)
  {
    if s == [] then []
    else if IsDigit(s[0]) then [s[0]] + Digits(s[1..])
    else Digits(s[1..])
  }

  /** `formatPhoneWithCountryCode`. Every result is either "" or canonical,
      and it is "" exactly when the text holds fewer than ten digits. */
  function FormatPhoneWithCountryCode(phone: string): (r: string)
    ensures r == "" || IsCanonical(r)
    ensures r == "" <==> |Digits(phone)| < 10
  {
    if phone == "" then ""
    else
      var cleaned := Digits(phone);
      if cleaned == "" then ""
      else if |cleaned| == 11 && cleaned[0] == '1' then "+" + cleaned
      else if |cleaned| == 10 then "+1" + cleaned
      else if |cleaned| < 10 then ""
      else "+1" + cleaned[|cleaned| - 10..]
  }

  // ---------------------------------------------------------------------
  // The digit filter

  /** Filtering distributes over concatenation; together with the
      one-character cases this pins `Digits` down completely. */
  lemma {:induction false} DigitsOfConcat(a: string, b: string)
    ensures Digits(a + b) == Digits(a) + Digits(b)
  {
    if a == [] {
      assert a + b == b;
    } else {
      assert (a + b)[0] == a[0];
      assert (a + b)[1..] == a[1..] + b;
      DigitsOfConcat(a[1..], b);
    }
  }

  /** A string of digits passes through the filter unchanged. */
  lemma {:induction false} DigitsOfDigits(s: string)
    requires AllDigits(s)
    ensures Digits(s) == s
  {
    if s != [] {
      assert AllDigits(s[1..]) by {
        forall i | 0 <= i < |s[1..]| ensures IsDigit(s[1..][i]) {
          assert s[1..][i] == s[i + 1];
        }
      }
      DigitsOfDigits(s[1..]);
      assert s == [s[0]] + s[1..];
    }
  }

  /** Filtering twice is filtering once. */
  lemma DigitsIdempotent(s: string)
    ensures Digits(Digits(s)) == Digits(s)
  {
    DigitsOfDigits(Digits(s));
  }

  // ---------------------------------------------------------------------
  // The normaliser

  /** The branches of the source, case by case, in terms of the cleaned
      digits: no digits, eleven starting with the country code, exactly ten,
      fewer than ten, and the fallback that keeps the last ten. */
  lemma FormatByDigitCount(phone: string)
    ensures var d := Digits(phone);
      && (d == "" ==> FormatPhoneWithCountryCode(phone) == "")
      && (|d| == 11 && d[0] == '1' ==> FormatPhoneWithCountryCode(phone) == "+" + d)
      && (|d| == 10 ==> FormatPhoneWithCountryCode(phone) == "+1" + d)
      && (|d| < 10 ==> FormatPhoneWithCountryCode(phone) == "")
      && (|d| > 11 || (|d| == 11 && d[0] != '1') ==>
            FormatPhoneWithCountryCode(phone) == "+1" + d[|d| - 10..])
  {
    if phone == "" {
      assert Digits(phone) == "";
    }
  }

  /** A single rule covers every branch: with ten or more digits the result
      is "+1" followed by the last ten of them, so the "already has the
      country code" and "exactly ten" branches agree with the fallback. */
  lemma FormatIsPlusOneAndLastTenDigits(phone: string)
    ensures var d := Digits(phone);
      FormatPhoneWithCountryCode(phone) == if |d| < 10 then "" else "+1" + d[|d| - 10..]
  {
    var d := Digits(phone);
    if |d| >= 10 {
      assert phone != "";
      if |d| == 11 && d[0] == '1' {
        CountryCodeIsPlusOne(d);
      } else if |d| == 10 {
        assert d[0..] == d;
      }
    }
  }

  /** Eleven characters led by '1': "+" before them is "+1" before the
      last ten. */
  lemma CountryCodeIsPlusOne(d: string)
    requires |d| == 11 && d[0] == '1'
    ensures "+" + d == "+1" + d[1..]
  {
    assert d == "1" + d[1..];
  }

  /** Only the digits of the input matter: formatting it and formatting its
      digits alone give the same result. */
  lemma FormatSeesOnlyDigits(phone: string)
    ensures FormatPhoneWithCountryCode(Digits(phone)) == FormatPhoneWithCountryCode(phone)
  {
    DigitsIdempotent(phone);
    FormatIsPlusOneAndLastTenDigits(phone);
    FormatIsPlusOneAndLastTenDigits(Digits(phone));
  }

  /** The digits of a canonical number: the country code and the ten digits. */
  lemma DigitsOfCanonical(p: string)
    requires IsCanonical(p)
    ensures Digits(p) == p[1..]
  {
    assert !IsDigit(p[0]);
    assert AllDigits(p[1..]) by {
      forall i | 0 <= i < |p[1..]| ensures IsDigit(p[1..][i]) {
        if i > 0 {
          assert p[1..][i] == p[2..][i - 1];
        }
      }
    }
    DigitsOfDigits(p[1..]);
  }

  /** Canonical numbers are left as they are. */
  lemma CanonicalIsFixedPoint(p: string)
    requires IsCanonical(p)
    ensures FormatPhoneWithCountryCode(p) == p
  {
    DigitsOfCanonical(p);
    assert p == "+" + p[1..];
  }

  /** Normalising a normalised number changes nothing. */
  lemma FormatIdempotent(phone: string)
    ensures var r := FormatPhoneWithCountryCode(phone);
      FormatPhoneWithCountryCode(r) == r
  {
    var r := FormatPhoneWithCountryCode(phone);
    if r != "" {
      CanonicalIsFixedPoint(r);
    }
  }
}
