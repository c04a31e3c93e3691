/**
 * Indonesian phone-number normalisation and validation
 * (app/.../util/WhatsAppUtil.kt). Both operations first delete every
 * non-digit, so the "+62" branches of the source can never be taken; they
 * are kept, and PlusBranchesUnreachable says why they are dead.
 */
module WhatsApp {
  import opened Text

  /** `formatPhoneNumber`: the international form wa.me expects. */
  function FormatPhoneNumber(phoneNumber: string): (r: string)
    ensures AllDigits(r)
  {
    var clean := DigitsOnly(phoneNumber);
    if StartsWith(clean, "0") then "62" + Drop(clean, 1)
    else if StartsWith(clean, "62") then clean
    else if StartsWith(clean, "+62") then Drop(clean, 1)
    else if 10 <= |clean| <= 12 then "62" + clean
    else clean
  }

  /**
   * `isValidIndonesianPhoneNumber`. Only the "0" and "62" windows can accept:
   * the cleaned number has no '+'.
   */
  predicate IsValidIndonesianPhoneNumber(phoneNumber: string)
    ensures IsValidIndonesianPhoneNumber(phoneNumber) ==>
              var clean := DigitsOnly(phoneNumber);
              (StartsWith(clean, "0") && 10 <= |clean| <= 13) || (StartsWith(clean, "62") && 11 <= |clean| <= 14)
  {
    var clean := DigitsOnly(phoneNumber);
    assert |clean| >= 3 ==> clean[..3][0] == clean[0] && IsDigit(clean[0]);
    if StartsWith(clean, "0") then 10 <= |clean| <= 13
    else if StartsWith(clean, "62") then 11 <= |clean| <= 14
    else if StartsWith(clean, "+62") then 12 <= |clean| <= 15
    else false
  }

  /** A cleaned number never starts with '+'. */
  lemma PlusBranchesUnreachable(phoneNumber: string)
    ensures !StartsWith(DigitsOnly(phoneNumber), "+62")
  {
    var clean := DigitsOnly(phoneNumber);
    if |clean| >= 3 {
      assert IsDigit(clean[..3][0]);
    }
  }

  /** Separators and other non-digits are ignored: "0812-3456-7890" is "081234567890". */
  lemma FormatIgnoresNonDigits(phoneNumber: string)
    ensures FormatPhoneNumber(phoneNumber) == FormatPhoneNumber(DigitsOnly(phoneNumber))
    ensures IsValidIndonesianPhoneNumber(phoneNumber) == IsValidIndonesianPhoneNumber(DigitsOnly(phoneNumber))
  {
    DigitsOnlyOfDigits(DigitsOnly(phoneNumber));
  }

  /** A cleaned number starting with "0" gets "62" in place of the "0". */
  lemma FormatLeadingZero(phoneNumber: string)
    requires StartsWith(DigitsOnly(phoneNumber), "0")
    ensures FormatPhoneNumber(phoneNumber) == "62" + DigitsOnly(phoneNumber)[1..]
  {
  }

  /** A cleaned number already starting with "62" is kept as it is. */
  lemma FormatLeading62(phoneNumber: string)
    requires StartsWith(DigitsOnly(phoneNumber), "62")
    ensures FormatPhoneNumber(phoneNumber) == DigitsOnly(phoneNumber)
  {
  }

  /** Any other number gets "62" in front exactly when it has 10 to 12 digits. */
  lemma FormatOtherPrefix(phoneNumber: string)
    requires !StartsWith(DigitsOnly(phoneNumber), "0") && !StartsWith(DigitsOnly(phoneNumber), "62")
    ensures 10 <= |DigitsOnly(phoneNumber)| <= 12 ==>
              FormatPhoneNumber(phoneNumber) == "62" + DigitsOnly(phoneNumber)
    ensures !(10 <= |DigitsOnly(phoneNumber)| <= 12) ==>
              FormatPhoneNumber(phoneNumber) == DigitsOnly(phoneNumber)
  {
    PlusBranchesUnreachable(phoneNumber);
  }

  /** Validity without the dead branch: "0" and 10-13 digits, or "62" and 11-14 digits. */
  lemma ValidityCharacterised(phoneNumber: string)
    ensures var clean := DigitsOnly(phoneNumber);
            IsValidIndonesianPhoneNumber(phoneNumber) <==>
              (StartsWith(clean, "0") && 10 <= |clean| <= 13) ||
              (StartsWith(clean, "62") && 11 <= |clean| <= 14)
  {
    var clean := DigitsOnly(phoneNumber);
    PlusBranchesUnreachable(phoneNumber);
    if StartsWith(clean, "0") && |clean| >= 2 {
      assert clean[..2][0] == clean[..1][0] == '0';
    }
  }

  /** Formatting an already formatted number changes nothing. */
  lemma FormatIdempotent(phoneNumber: string)
    ensures FormatPhoneNumber(FormatPhoneNumber(phoneNumber)) == FormatPhoneNumber(phoneNumber)
  {
    var f := FormatPhoneNumber(phoneNumber);
    DigitsOnlyOfDigits(f);
    PlusBranchesUnreachable(phoneNumber);
    var clean := DigitsOnly(phoneNumber);
    if StartsWith(clean, "0") || StartsWith(clean, "62") || 10 <= |clean| <= 12 {
      assert StartsWith(f, "62");
    }
  }

  /** A valid number formats to a valid number in the "62" form. */
  lemma FormatKeepsValidity(phoneNumber: string)
    requires IsValidIndonesianPhoneNumber(phoneNumber)
    ensures StartsWith(FormatPhoneNumber(phoneNumber), "62")
    ensures IsValidIndonesianPhoneNumber(FormatPhoneNumber(phoneNumber))
  {
    var f := FormatPhoneNumber(phoneNumber);
    DigitsOnlyOfDigits(f);
    PlusBranchesUnreachable(phoneNumber);
  }

  /** Input without a single digit is invalid and formats to "". */
  lemma NoDigitsInvalid(phoneNumber: string)
    requires forall i :: 0 <= i < |phoneNumber| ==> !IsDigit(phoneNumber[i])
    ensures !IsValidIndonesianPhoneNumber(phoneNumber)
    ensures FormatPhoneNumber(phoneNumber) == ""
  {
    DigitsOnlyOfNoDigits(phoneNumber);
  }

  /** The example of the source's documentation comment: 08123456789 -> 628123456789. */
  lemma FormatExample(s: string)
    requires s == "08123456789"
    ensures FormatPhoneNumber(s) == "628123456789"
    ensures IsValidIndonesianPhoneNumber(s)
  {
    DigitsOnlyOfDigits(s);
  }

  /** Separators between digit groups vanish: only the groups' digits remain, in order. */
  lemma {:induction false} GroupsWithSeparator(a: string, sep: string, b: string, c: string)
    requires AllDigits(a) && AllDigits(b) && AllDigits(c)
    requires forall i :: 0 <= i < |sep| ==> !IsDigit(sep[i])
    ensures DigitsOnly(a + sep + b + sep + c) == a + b + c
  {
    DigitsOnlyOfNoDigits(sep);
    DigitsOnlyOfDigits(a);
    DigitsOnlyOfDigits(b);
    DigitsOnlyOfDigits(c);
    DigitsOnlyAppend(a + sep + b + sep, c);
    DigitsOnlyAppend(a + sep + b, sep);
    DigitsOnlyAppend(a + sep, b);
    DigitsOnlyAppend(a, sep);
  }

  /** The dashed example: 0812-3456-7890 -> 6281234567890. */
  lemma FormatDashedExample(s: string)
    requires s == "0812-3456-7890"
    ensures FormatPhoneNumber(s) == "6281234567890"
  {
    var a, dash, b, c := s[..4], s[4..5], s[5..9], s[10..];
    assert s == a + dash + b + dash + c;
    GroupsWithSeparator(a, dash, b, c);
    var clean := DigitsOnly(s);
    assert clean == "081234567890";
    FormatLeadingZero(s);
    assert clean[1..] == "81234567890";
  }
}
