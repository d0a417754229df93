/**
 * `ValidationUtils`: the input checks of the onboarding screens, with the
 * limits of `Constants` (phone 10 digits, OTP 4 digits from a fixed list,
 * name at least 3 characters, address at least 5).
 */
module Validation {
  import opened Common

  const PHONE_NUMBER_LENGTH := 10
  const OTP_LENGTH := 4
  const MIN_NAME_LENGTH := 3
  const MIN_ADDRESS_LENGTH := 5
  const VALID_OTP_CODES: seq<string> := ["1234", "0000", "9999"]

  function ValidatePhone(phone: string): (r: bool)
    ensures r <==> |phone| == PHONE_NUMBER_LENGTH && forall i :: 0 <= i < |phone| ==> '0' <= phone[i] <= '9'
  {
    |phone| == PHONE_NUMBER_LENGTH && AllChars(phone, IsDigit)
  }

  predicate NameChar(c: char) {
    IsLetter(c) || c == ' '
  }

  function ValidateName(name: string): (r: bool)
    ensures r <==> |name| >= MIN_NAME_LENGTH && forall i :: 0 <= i < |name| ==> IsLetter(name[i]) || name[i] == ' '
  {
    |name| >= MIN_NAME_LENGTH && AllChars(name, NameChar)
  }

  function ValidateAddress(address: string): (r: bool)
    ensures r <==> |address| >= MIN_ADDRESS_LENGTH
  {
    |address| >= MIN_ADDRESS_LENGTH
  }

  /** Length, digits and membership, as the source checks them. */
  function ValidateOTP(otp: string): (r: bool)
    ensures r ==> |otp| == OTP_LENGTH
  {
    |otp| == OTP_LENGTH && AllChars(otp, IsDigit) && otp in VALID_OTP_CODES
  }

  /** The length and digit tests add nothing: every listed code has four digits. */
  lemma OTPIsMembership(otp: string)
    ensures ValidateOTP(otp) <==> otp in VALID_OTP_CODES
  {
    if otp in VALID_OTP_CODES {
      assert otp == "1234" || otp == "0000" || otp == "9999";
      assert forall i :: 0 <= i < |otp| ==> IsDigit(otp[i]);
    }
  }

  // ---------------------------------------------------------------------
  // Date of birth

  function AllDigits(s: string): bool {
    AllChars(s, IsDigit)
  }

  /** `dob.matches(Regex("\\d{2}-\\d{2}-\\d{4}"))`: two digits, dash, two digits, dash, four digits. */
  function MatchesDatePattern(s: string): bool {
    |s| == 10 && AllDigits(s[0..2]) && s[2] == '-' && AllDigits(s[3..5]) && s[5] == '-' && AllDigits(s[6..10])
  }

  /** The `dd-dd-dddd` shape, position by position. */
  predicate DateShaped(s: string) {
    |s| == 10 && forall i :: 0 <= i < 10 ==> if i == 2 || i == 5 then s[i] == '-' else IsDigit(s[i])
  }

  lemma PatternIsShape(s: string)
    ensures MatchesDatePattern(s) <==> DateShaped(s)
  {
    if |s| == 10 {
      if DateShaped(s) {
        assert forall i :: 0 <= i < 2 ==> s[0..2][i] == s[i];
        assert forall i :: 0 <= i < 2 ==> s[3..5][i] == s[3 + i];
        assert forall i :: 0 <= i < 4 ==> s[6..10][i] == s[6 + i];
      }
      if MatchesDatePattern(s) {
        forall i | 0 <= i < 10 ensures if i == 2 || i == 5 then s[i] == '-' else IsDigit(s[i]) {
          if i < 2 { assert s[i] == s[0..2][i]; }
          else if 2 < i < 5 { assert s[i] == s[3..5][i - 3]; }
          else if i > 5 { assert s[i] == s[6..10][i - 6]; }
        }
      }
    }
  }

  /**
   * `validateDateOfBirth`. `parses` is whether the non-lenient `dd-MM-yyyy`
   * parser returns a date; a parse exception is `parses == false`.
   */
  function ValidateDateOfBirth(dob: string, parses: bool): (r: bool)
    ensures r ==> DateShaped(dob)
    ensures r <==> parses && MatchesDatePattern(dob)
  {
    PatternIsShape(dob);
    parses && MatchesDatePattern(dob)
  }
}
