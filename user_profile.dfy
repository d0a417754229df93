/**
 * The profile onboarding screen (`UserProfileScreen`): the date-of-birth
 * field that inserts the dashes as the user types, the `isValid` guard of
 * the Submit button, and the Submit handler that marks each failing field.
 *
 * Whether a complete date is a real calendar day is decided by the
 * non-lenient `dd-MM-yyyy` parser; here it is the parameter `parses`.
 * Error texts are string resources, written here by their resource names.
 */
module ProfileForm {
  import opened Common
  import opened Validation

  const GENDER_MALE := "Male"
  const GENDER_FEMALE := "Female"
  const INVALID_NAME := "invalid_name"
  const INVALID_DOB := "invalid_dob"
  const INVALID_ADDRESS := "invalid_address"
  const SELECT_CITY := "select_city"

  /** The profile handed to `onNextClick`. */
  datatype Profile = Profile(fullName: string, gender: string, dateOfBirth: string, address: string, city: string)

  datatype Form = Form(
    fullName: string,
    gender: string,
    dateOfBirth: string,
    address: string,
    city: string,
    nameError: Option<string>,
    dobError: Option<string>,
    addressError: Option<string>,
    cityError: Option<string>)

  const InitialForm := Form("", GENDER_FEMALE, "", "", "", None, None, None, None)

  /** The cities the city menu offers. */
  const INDIAN_CITIES: seq<string> := [
    "Delhi", "Mumbai", "Bangalore", "Chennai", "Hyderabad", "Kolkata", "Pune",
    "Ahmedabad", "Jaipur", "Lucknow", "Kanpur", "Nagpur", "Indore", "Thane",
    "Bhopal", "Visakhapatnam", "Patna", "Vadodara", "Ghaziabad", "Ludhiana",
    "Agra", "Nashik", "Faridabad", "Meerut", "Rajkot", "Varanasi", "Srinagar",
    "Aurangabad"]

  // ---------------------------------------------------------------------
  // The other fields: typing clears the field's error mark

  /** The name field's `onValueChange`. */
  function NameEdited(f: Form, text: string): Form {
    f.(fullName := text, nameError := None)
  }

  /** The Male / Female buttons. */
  function GenderPicked(f: Form, gender: string): Form {
    f.(gender := gender)
  }

  /** The address field's `onValueChange`. */
  function AddressEdited(f: Form, text: string): Form {
    f.(address := text, addressError := None)
  }

  /** Picking a city from the menu. */
  function CityPicked(f: Form, city: string): Form {
    f.(city := city, cityError := None)
  }

  // ---------------------------------------------------------------------
  // Date of birth field

  predicate DobChar(c: char) {
    IsDigit(c) || c == '-'
  }

  /** The text the field's `onValueChange` considers: a dash after the day and after the month. */
  function DobCandidate(current: string, typed: string): string {
    var v1 := if |typed| == 2 && |current| < 2 then typed + "-" else typed;
    if |v1| == 5 && |current| < 5 then v1 + "-" else v1
  }

  predicate DobAccepted(candidate: string) {
    |candidate| <= 10 && AllChars(candidate, DobChar)
  }

  /** The field's `onValueChange(typed)`. */
  function DobEdited(f: Form, typed: string): Form {
    var candidate := DobCandidate(f.dateOfBirth, typed);
    if DobAccepted(candidate) then f.(dateOfBirth := candidate, dobError := None) else f
  }

  lemma DobCandidateDashes(current: string, typed: string)
    ensures |typed| == 2 && |current| < 2 ==> DobCandidate(current, typed) == typed + "-"
    ensures |typed| == 5 && |current| < 5 ==> DobCandidate(current, typed) == typed + "-"
    ensures (|typed| != 2 || |current| >= 2) && (|typed| != 5 || |current| >= 5) ==>
      DobCandidate(current, typed) == typed
  {
  }

  /** A candidate is stored, clearing the error, only if it is at most ten digits and dashes. */
  lemma DobFilter(f: Form, typed: string)
    ensures var c := DobCandidate(f.dateOfBirth, typed);
      if |c| <= 10 && (forall i :: 0 <= i < |c| ==> IsDigit(c[i]) || c[i] == '-')
      then DobEdited(f, typed) == f.(dateOfBirth := c, dobError := None)
      else DobEdited(f, typed) == f
  {
  }

  /** The field text after typing the digits `ds` one at a time into an empty field. */
  function Masked(ds: string): string
    requires |ds| <= 8
  {
    if |ds| < 2 then ds
    else if |ds| < 4 then ds[..2] + "-" + ds[2..]
    else ds[..2] + "-" + ds[2..4] + "-" + ds[4..]
  }

  lemma MaskedLength(ds: string)
    requires |ds| <= 8
    ensures |Masked(ds)| == if |ds| < 2 then |ds| else if |ds| < 4 then |ds| + 1 else |ds| + 2
  {
  }

  lemma MaskedStepShort(ds: string, c: char)
    requires |ds| < 2
    ensures DobCandidate(Masked(ds), Masked(ds) + [c]) == Masked(ds + [c])
  {
    var ds' := ds + [c];
    if |ds| == 1 {
      assert ds'[..2] == ds' && ds'[2..] == [];
    }
  }

  lemma MaskedStepMiddle(ds: string, c: char)
    requires 2 <= |ds| < 4
    ensures DobCandidate(Masked(ds), Masked(ds) + [c]) == Masked(ds + [c])
  {
    var ds' := ds + [c];
    assert ds'[..2] == ds[..2] && ds'[2..] == ds[2..] + [c];
    if |ds| == 3 {
      assert ds'[2..4] == ds[2..] + [c] && ds'[4..] == [];
    }
  }

  lemma MaskedStepLong(ds: string, c: char)
    requires 4 <= |ds| < 8
    ensures DobCandidate(Masked(ds), Masked(ds) + [c]) == Masked(ds + [c])
  {
    var ds' := ds + [c];
    assert ds'[..2] == ds[..2] && ds'[2..4] == ds[2..4] && ds'[4..] == ds[4..] + [c];
  }

  /** The dashes land where the mask has them. */
  lemma MaskedStep(ds: string, c: char)
    requires |ds| < 8
    ensures DobCandidate(Masked(ds), Masked(ds) + [c]) == Masked(ds + [c])
  {
    if |ds| < 2 {
      MaskedStepShort(ds, c);
    } else if |ds| < 4 {
      MaskedStepMiddle(ds, c);
    } else {
      MaskedStepLong(ds, c);
    }
  }

  /** Only digits, the input the date mask is built for. */
  predicate DigitsOnly(s: string) {
    forall i :: 0 <= i < |s| ==> IsDigit(s[i])
  }

  predicate DobText(s: string) {
    forall i :: 0 <= i < |s| ==> DobChar(s[i])
  }

  lemma DobTextConcat(a: string, b: string)
    requires DobText(a) && DobText(b)
    ensures DobText(a + b)
  {
    forall i | 0 <= i < |a + b| ensures DobChar((a + b)[i]) {
      if i < |a| { assert (a + b)[i] == a[i]; } else { assert (a + b)[i] == b[i - |a|]; }
    }
  }

  lemma DigitsSlice(ds: string, i: nat, j: nat)
    requires i <= j <= |ds| && forall k :: 0 <= k < |ds| ==> IsDigit(ds[k])
    ensures DobText(ds[i..j])
  {
    forall k | 0 <= k < j - i ensures DobChar(ds[i..j][k]) {
      assert ds[i..j][k] == ds[i + k];
    }
  }

  lemma MaskedCharsShort(ds: string)
    requires 2 <= |ds| < 4 && forall k :: 0 <= k < |ds| ==> IsDigit(ds[k])
    ensures DobText(ds[..2] + "-" + ds[2..])
  {
    assert DobText("-");
    DigitsSlice(ds, 0, 2);
    DigitsSlice(ds, 2, |ds|);
    assert ds[..2] == ds[0..2] && ds[2..] == ds[2..|ds|];
    DobTextConcat(ds[..2], "-");
    DobTextConcat(ds[..2] + "-", ds[2..]);
  }

  lemma MaskedCharsLong(ds: string)
    requires 4 <= |ds| && forall k :: 0 <= k < |ds| ==> IsDigit(ds[k])
    ensures DobText(ds[..2] + "-" + ds[2..4] + "-" + ds[4..])
  {
    assert DobText("-");
    DigitsSlice(ds, 0, 2);
    DigitsSlice(ds, 2, 4);
    DigitsSlice(ds, 4, |ds|);
    assert ds[..2] == ds[0..2] && ds[4..] == ds[4..|ds|];
    DobTextConcat(ds[..2], "-");
    DobTextConcat(ds[..2] + "-", ds[2..4]);
    DobTextConcat(ds[..2] + "-" + ds[2..4], "-");
    DobTextConcat(ds[..2] + "-" + ds[2..4] + "-", ds[4..]);
  }

  lemma MaskedText(ds: string)
    requires |ds| <= 8 && forall k :: 0 <= k < |ds| ==> IsDigit(ds[k])
    ensures DobText(Masked(ds))
  {
    if |ds| < 2 {
      DigitsSlice(ds, 0, |ds|);
      assert ds[0..|ds|] == ds;
    } else if |ds| < 4 {
      MaskedCharsShort(ds);
    } else {
      MaskedCharsLong(ds);
    }
  }

  /** Typing one more digit moves from one mask to the next. */
  lemma TypeDigit(f: Form, ds: string, c: char)
    requires |ds| < 8 && DigitsOnly(ds) && IsDigit(c)
    requires f.dateOfBirth == Masked(ds)
    ensures DobEdited(f, f.dateOfBirth + [c]).dateOfBirth == Masked(ds + [c])
  {
    var ds' := ds + [c];
    MaskedStep(ds, c);
    forall i | 0 <= i < |ds'| ensures IsDigit(ds'[i]) {
      if i < |ds| { assert ds'[i] == ds[i]; }
    }
    MaskedText(ds');
    MaskedLength(ds');
    var m := Masked(ds');
    assert AllChars(m, DobChar);
    assert DobAccepted(DobCandidate(f.dateOfBirth, f.dateOfBirth + [c]));
  }

  /** Eight typed digits give the `dd-dd-dddd` shape that validation asks for. */
  lemma EightDigitsShaped(ds: string)
    requires |ds| == 8 && DigitsOnly(ds)
    ensures DateShaped(Masked(ds)) && MatchesDatePattern(Masked(ds))
  {
    var m := Masked(ds);
    assert m == ds[..2] + "-" + ds[2..4] + "-" + ds[4..];
    assert forall i :: 0 <= i < 10 ==> m[i] == (if i < 2 then ds[i] else if i == 2 then '-' else if i < 5 then ds[i - 1]
                                              else if i == 5 then '-' else ds[i - 2]);
    PatternIsShape(m);
  }

  /** The form after typing the characters of `cs` one at a time at the end of the field. */
  function Typed(f: Form, cs: string): Form
    decreases |cs|
  {
    if cs == [] then f
    else
      var f1 := Typed(f, cs[..|cs| - 1]);
      DobEdited(f1, f1.dateOfBirth + [cs[|cs| - 1]])
  }

  /** Typing up to eight digits into an empty field gives the masked text. */
  lemma {:induction false} TypingDigits(f: Form, ds: string)
    requires f.dateOfBirth == "" && |ds| <= 8 && DigitsOnly(ds)
    ensures Typed(f, ds).dateOfBirth == Masked(ds)
  {
    if ds != [] {
      var pre, c := ds[..|ds| - 1], ds[|ds| - 1];
      assert DigitsOnly(pre) by {
        assert forall i :: 0 <= i < |pre| ==> pre[i] == ds[i];
      }
      TypingDigits(f, pre);
      var f1 := Typed(f, pre);
      assert Typed(f, ds) == DobEdited(f1, f1.dateOfBirth + [c]);
      TypeDigit(f1, pre, c);
      assert pre + [c] == ds;
    }
  }

  /** So eight digits typed into an empty field make a date in the shape validation accepts. */
  lemma TypingEightDigits(f: Form, ds: string)
    requires f.dateOfBirth == "" && |ds| == 8 && DigitsOnly(ds)
    ensures DateShaped(Typed(f, ds).dateOfBirth)
  {
    TypingDigits(f, ds);
    EightDigitsShaped(ds);
  }

  /** A full date takes no further characters. */
  lemma FullDateIgnoresMore(f: Form, c: char)
    requires |f.dateOfBirth| == 10
    ensures DobEdited(f, f.dateOfBirth + [c]) == f
  {
  }

  // ---------------------------------------------------------------------
  // Validity and submit

  /** `isValid`, which enables the Submit button. */
  predicate IsValid(f: Form, parses: bool) {
    && IsNotBlank(f.fullName)
    && ValidateName(f.fullName)
    && ValidateDateOfBirth(f.dateOfBirth, parses)
    && ValidateAddress(f.address)
    && IsNotBlank(f.city)
  }

  /** The Submit handler: each failing field gets its error; `onNextClick` only without one. */
  function Submitted(f: Form, parses: bool): (Form, Option<Profile>) {
    var f1 := if !ValidateName(f.fullName) then f.(nameError := Some(INVALID_NAME)) else f;
    var f2 := if !ValidateDateOfBirth(f.dateOfBirth, parses) then f1.(dobError := Some(INVALID_DOB)) else f1;
    var f3 := if !ValidateAddress(f.address) then f2.(addressError := Some(INVALID_ADDRESS)) else f2;
    var f4 := if IsBlank(f.city) then f3.(cityError := Some(SELECT_CITY)) else f3;
    var failed := !ValidateName(f.fullName) || !ValidateDateOfBirth(f.dateOfBirth, parses)
                  || !ValidateAddress(f.address) || IsBlank(f.city);
    (f4, if failed then None else Some(Profile(f.fullName, f.gender, f.dateOfBirth, f.address, f.city)))
  }

  /** Submit marks exactly the failing fields and proceeds exactly when none fails. */
  lemma SubmitEffect(f: Form, parses: bool)
    ensures var (r, next) := Submitted(f, parses);
      && r.(nameError := f.nameError, dobError := f.dobError, addressError := f.addressError, cityError := f.cityError) == f
      && r.nameError == (if ValidateName(f.fullName) then f.nameError else Some(INVALID_NAME))
      && r.dobError == (if ValidateDateOfBirth(f.dateOfBirth, parses) then f.dobError else Some(INVALID_DOB))
      && r.addressError == (if ValidateAddress(f.address) then f.addressError else Some(INVALID_ADDRESS))
      && r.cityError == (if IsNotBlank(f.city) then f.cityError else Some(SELECT_CITY))
      && (next.Some? <==> ValidateName(f.fullName) && ValidateDateOfBirth(f.dateOfBirth, parses)
                          && ValidateAddress(f.address) && IsNotBlank(f.city))
      && (next.Some? ==> next.value == Profile(f.fullName, f.gender, f.dateOfBirth, f.address, f.city))
  {
  }

  /** When the button is enabled, pressing it proceeds and marks nothing. */
  lemma EnabledSubmitProceeds(f: Form, parses: bool)
    requires IsValid(f, parses)
    ensures Submitted(f, parses) == (f, Some(Profile(f.fullName, f.gender, f.dateOfBirth, f.address, f.city)))
  {
  }

  /** `isValid` is the handler's test plus a non-blank name, which the name check alone lets slip. */
  lemma ValidIsSubmitPlusName(f: Form, parses: bool)
    ensures IsValid(f, parses) <==> Submitted(f, parses).1.Some? && IsNotBlank(f.fullName)
    ensures ValidateName("   ") && IsBlank("   ")
  {
    assert forall i :: 0 <= i < 3 ==> "   "[i] == ' ';
  }

  /** A valid form has a date in the `dd-dd-dddd` shape and a name of at least three characters. */
  lemma ValidShapes(f: Form, parses: bool)
    requires IsValid(f, parses)
    ensures DateShaped(f.dateOfBirth) && |f.fullName| >= 3 && |f.address| >= 5
  {
  }

  /** Every city the menu offers passes the Submit handler's city test. */
  lemma ListedCityNotBlank(k: nat)
    requires k < |INDIAN_CITIES|
    ensures IsNotBlank(INDIAN_CITIES[k])
  {
    var c := INDIAN_CITIES[k];
    assert c != [] && !IsWhitespace(c[0]);
  }

  /**
   * Editing a field clears its mark; the next Submit marks it again exactly
   * when the new value fails its check, and a city from the menu never does.
   */
  lemma EditThenSubmit(f: Form, parses: bool, name: string, address: string, k: nat)
    requires k < |INDIAN_CITIES|
    ensures NameEdited(f, name).nameError == None && AddressEdited(f, address).addressError == None
    ensures Submitted(NameEdited(f, name), parses).0.nameError
            == (if ValidateName(name) then None else Some(INVALID_NAME))
    ensures Submitted(AddressEdited(f, address), parses).0.addressError
            == (if ValidateAddress(address) then None else Some(INVALID_ADDRESS))
    ensures Submitted(CityPicked(f, INDIAN_CITIES[k]), parses).0.cityError == None
  {
    ListedCityNotBlank(k);
  }

  /** The gender buttons never affect validity, and the chosen gender is the one handed on. */
  lemma GenderPassedOn(f: Form, parses: bool, gender: string)
    ensures IsValid(GenderPicked(f, gender), parses) == IsValid(f, parses)
    ensures var (_, next) := Submitted(GenderPicked(f, gender), parses);
            next.Some? ==> next.value.gender == gender
  {
  }

  // ---------------------------------------------------------------------
  // The screen state object

  class ProfileScreen {
    var fullName: string
    var gender: string
    var dateOfBirth: string
    var address: string
    var city: string
    var nameError: Option<string>
    var dobError: Option<string>
    var addressError: Option<string>
    var cityError: Option<string>

    function Abs(): Form
      reads this
    {
      Form(fullName, gender, dateOfBirth, address, city, nameError, dobError, addressError, cityError)
    }

    constructor ()
      ensures Abs() == InitialForm
    {
      fullName, gender, dateOfBirth, address, city := "", GENDER_FEMALE, "", "", "";
      nameError, dobError, addressError, cityError := None, None, None, None;
    }

    method OnNameChange(text: string)
      modifies this
      ensures Abs() == NameEdited(old(Abs()), text)
    {
      fullName := text;
      nameError := None;
    }

    method OnGenderClick(g: string)
      modifies this
      ensures Abs() == GenderPicked(old(Abs()), g)
    {
      gender := g;
    }

    method OnAddressChange(text: string)
      modifies this
      ensures Abs() == AddressEdited(old(Abs()), text)
    {
      address := text;
      addressError := None;
    }

    method OnCitySelected(selectedCity: string)
      modifies this
      ensures Abs() == CityPicked(old(Abs()), selectedCity)
    {
      city := selectedCity;
      cityError := None;
    }

    method OnDobChange(typed: string)
      modifies this
      ensures Abs() == DobEdited(old(Abs()), typed)
    {
      var newValue := typed;
      if |newValue| == 2 && |dateOfBirth| < 2 {
        newValue := newValue + "-";
      }
      if |newValue| == 5 && |dateOfBirth| < 5 {
        newValue := newValue + "-";
      }
      if |newValue| <= 10 && AllChars(newValue, DobChar) {
        dateOfBirth := newValue;
        dobError := None;
      }
    }

    /** The Submit button; `parses` is the calendar check of the current date text. */
    method OnSubmit(parses: bool) returns (next: Option<Profile>)
      modifies this
      ensures (Abs(), next) == Submitted(old(Abs()), parses)
    {
      var hasError := false;
      if !ValidateName(fullName) {
        nameError := Some(INVALID_NAME);
        hasError := true;
      }
      if !ValidateDateOfBirth(dateOfBirth, parses) {
        dobError := Some(INVALID_DOB);
        hasError := true;
      }
      if !ValidateAddress(address) {
        addressError := Some(INVALID_ADDRESS);
        hasError := true;
      }
      if IsBlank(city) {
        cityError := Some(SELECT_CITY);
        hasError := true;
      }
      next := if !hasError then Some(Profile(fullName, gender, dateOfBirth, address, city)) else None;
    }
  }
}
