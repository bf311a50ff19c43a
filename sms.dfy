/** The number formatting at the start of `sendSmsIfConfigured` in
    `server/src/sms.js`: the stored phone number becomes the E.164 string
    (ITU-T E.164, `+` followed by country code and subscriber number) that the
    SMS gateway is given. The gateway call itself is not part of this model. */
module Sms {
  import opened Wrappers
  import opened Text

  /** The subscriber number part that makes a number already carry its country code. */
  const LocalNumberLength: nat := 10

  /** The stored number starts with the country's digits and is longer than a
      local number, so it already carries the country code. */
  predicate HasCountry(digits: string, countryDigits: string)
    ensures HasCountry(digits, countryDigits) ==>
              |countryDigits| <= |digits| && digits == countryDigits + digits[|countryDigits|..]
    ensures |digits| <= LocalNumberLength ==> !HasCountry(digits, countryDigits)
  {
    countryDigits != "" && StartsWith(digits, countryDigits) && |digits| > LocalNumberLength
  }

  /** The destination for `to` under the configured `SMS_COUNTRY_CODE` (""
      when unset), or `None` when there is no number and nothing is sent. */
  function ToE164(to: string, countryCode: string): (r: Option<string>)
    ensures r.None? <==> to == ""
  {
    if to == "" then None
    else
      var digits := DigitsOnly(to);
      var countryDigits := if countryCode != "" then DigitsOnly(countryCode) else "";
      if StartsWith(to, "+") then Some(to)
      else if countryCode != "" then
        (if HasCountry(digits, countryDigits) then Some("+" + digits) else Some(countryCode + digits))
      else Some("+" + digits)
  }

  /** A number that starts with '+' is used as stored, with nothing removed. */
  lemma PlusNumberVerbatim(to: string, countryCode: string)
    requires StartsWith(to, "+")
    ensures ToE164(to, countryCode) == Some(to)
  {
  }

  /** Any other number keeps exactly its digits, in order, behind a prefix:
      '+' when no country code is configured or the number already carries
      the country's digits, the configured country code otherwise. */
  lemma OtherNumberShape(to: string, countryCode: string)
    requires to != "" && !StartsWith(to, "+")
    ensures var digits := DigitsOnly(to);
            var r := ToE164(to, countryCode).value;
            (countryCode == "" ==> r == "+" + digits)
            && (countryCode != "" && HasCountry(digits, DigitsOnly(countryCode)) ==> r == "+" + digits)
            && (countryCode != "" && !HasCountry(digits, DigitsOnly(countryCode)) ==> r == countryCode + digits)
  {
  }

  /** The digits of the formatted number are the stored number's digits,
      preceded by the country's digits exactly when the country code was
      prepended: the country code is never doubled. */
  lemma FormattedDigits(to: string, countryCode: string)
    requires to != "" && !StartsWith(to, "+")
    ensures var digits := DigitsOnly(to);
            var prefixed := countryCode != "" && !HasCountry(digits, DigitsOnly(countryCode));
            DigitsOnly(ToE164(to, countryCode).value)
              == (if prefixed then DigitsOnly(countryCode) + digits else digits)
  {
    var digits := DigitsOnly(to);
    DigitsOnlyKeepsDigits(to);
    DigitsOnlyOfDigits(digits);
    DigitsOnlyAppend("+", digits);
    DigitsOnlyAppend(countryCode, digits);
  }

  /** A formatted number that starts with '+' is formatted to itself again. */
  lemma FormatIsStable(to: string, countryCode: string)
    requires ToE164(to, countryCode).Some? && StartsWith(ToE164(to, countryCode).value, "+")
    ensures ToE164(ToE164(to, countryCode).value, countryCode) == ToE164(to, countryCode)
  {
    PlusNumberVerbatim(ToE164(to, countryCode).value, countryCode);
  }

  /** With a country code of the form '+<digits>' every number ends up in
      E.164 form: '+' followed by digits only. */
  lemma PlusCountryCodeGivesE164(to: string, countryCode: string)
    requires to != "" && !StartsWith(to, "+")
    requires |countryCode| >= 1 && countryCode[0] == '+' && AllDigits(countryCode[1..])
    ensures var r := ToE164(to, countryCode).value;
            |r| >= 1 && r[0] == '+' && AllDigits(r[1..])
  {
    var digits := DigitsOnly(to);
    var r := ToE164(to, countryCode).value;
    if !HasCountry(digits, DigitsOnly(countryCode)) {
      assert r[1..] == countryCode[1..] + digits;
    } else {
      assert r[1..] == digits;
    }
  }
}
