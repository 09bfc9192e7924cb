/** The dial-string normaliser of the calling service (calling_guy/index.js). */
module CallingService {
  import opened Text
  import RequestRouter

  /** `cleanupPhoneNumber`: keep the digits; ten of them get the North American country code,
      any other count is only prefixed with `+`. */
  function CleanupPhoneNumber(numberString: string): (r: string)
    ensures |r| >= 1 && r[0] == '+' && AllDigits(r[1..])
    ensures |DigitsOf(numberString)| == 10 ==> r[1..] == "1" + DigitsOf(numberString)
    ensures |DigitsOf(numberString)| != 10 ==> r[1..] == DigitsOf(numberString)
  {
    var digitsOnly := DigitsOf(numberString);
    if |digitsOnly| == 10 then "+1" + digitsOnly
    else if |digitsOnly| == 11 && digitsOnly[0] == '1' then "+" + digitsOnly
    else "+" + digitsOnly
  }

  /** A leading `+` is not a digit. */
  lemma DigitsAfterPlus(s: string)
    requires AllDigits(s)
    ensures DigitsOf("+" + s) == s
  {
    DigitsOfAppend("+", s);
    DigitsOfDigits(s);
  }

  /** Cleaning a cleaned number changes nothing, so the call route may apply it twice. */
  lemma CleanupIdempotent(numberString: string)
    ensures CleanupPhoneNumber(CleanupPhoneNumber(numberString)) == CleanupPhoneNumber(numberString)
  {
    var r := CleanupPhoneNumber(numberString);
    assert r == "+" + r[1..];
    DigitsAfterPlus(r[1..]);
  }

  /** The digits of the result are the input's digits, behind a `1` exactly when there were ten. */
  lemma CleanupKeepsDigits(numberString: string)
    ensures var d := DigitsOf(numberString);
      DigitsOf(CleanupPhoneNumber(numberString)) == (if |d| == 10 then "1" + d else d)
  {
    var r := CleanupPhoneNumber(numberString);
    assert r == "+" + r[1..];
    DigitsAfterPlus(r[1..]);
  }

  /** A number in the classifier's `(ddd) ddd-dddd` form cleans to `+1` and its ten digits. */
  lemma CleanupFormattedNumber(d: string)
    requires |d| == 10 && AllDigits(d)
    ensures CleanupPhoneNumber(RequestRouter.FormatTen(d)) == "+1" + d
  {
    RequestRouter.FormatTenKeepsDigits(d);
  }

  /** Every number the classifier extracts dials as `+1` followed by its ten digits. */
  lemma CleanupExtractedNumber(text: string)
    ensures var n := RequestRouter.ExtractPhoneNumber(text);
      n.Some? ==> |CleanupPhoneNumber(n.value)| == 12 && CleanupPhoneNumber(n.value)[..2] == "+1"
  {
    var n := RequestRouter.ExtractPhoneNumber(text);
    if n.Some? {
      var s := n.value;
      var d := s[1..4] + s[6..9] + s[10..];
      assert s == RequestRouter.FormatTen(d);
      assert AllDigits(d);
      CleanupFormattedNumber(d);
    }
  }
}
