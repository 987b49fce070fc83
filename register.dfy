/**
 * The two-step registration (src/pages/RegisterPage.tsx): personal data,
 * then location and password, then the sign-up request carrying both.
 */
module Register {
  import opened Domain
  import opened Text
  import opened Cuba

  datatype Step1Data = Step1Data(fullName: string, email: string, phone: string)

  /**
   * `step1Schema`: a name of 3, a valid e-mail, a phone of at least 8
   * digits. The e-mail check is the validation library's and is passed in.
   * Lengths are in UTF-16 code units; the phone is digits only, so its
   * length is its number of characters.
   */
  predicate Step1Valid(d: Step1Data, emailOk: bool)
  {
    Utf16Length(d.fullName) >= 3 && emailOk && |d.phone| >= 8 && AllDigits(d.phone)
  }

  datatype Step2Data = Step2Data(province: string, municipality: string, address: string,
                                 password: string, confirmPassword: string)

  datatype Field = Province | Municipality | Address | Password | ConfirmPassword

  /**
   * The fields `step2Schema` reports, with lengths in UTF-16 code units; a
   * password mismatch is reported on the confirmation.
   */
  function Step2Errors(d: Step2Data): (r: set<Field>)
    ensures Province in r <==> d.province == ""
    ensures Municipality in r <==> d.municipality == ""
    ensures Address in r <==> Utf16Length(d.address) < 10
    ensures Password in r <==> Utf16Length(d.password) < 6
    ensures ConfirmPassword in r <==> d.password != d.confirmPassword
  {
    (if d.province == "" then {Province} else {})
    + (if d.municipality == "" then {Municipality} else {})
    + (if Utf16Length(d.address) < 10 then {Address} else {})
    + (if Utf16Length(d.password) < 6 then {Password} else {})
    + (if d.password != d.confirmPassword then {ConfirmPassword} else {})
  }

  predicate Step2Valid(d: Step2Data) { Step2Errors(d) == {} }

  /** Step 2 is accepted exactly when every field is filled and the passwords match. */
  lemma Step2ValidIff(d: Step2Data)
    ensures Step2Valid(d) <==>
      d.province != "" && d.municipality != "" && Utf16Length(d.address) >= 10
      && Utf16Length(d.password) >= 6 && d.confirmPassword == d.password
  {
    if !Step2Valid(d) {
      var f :| f in Step2Errors(d);
    }
  }

  /** The sign-up request: the step-1 e-mail, the password, and the profile data. */
  datatype SignUp = SignUp(email: string, password: string, fullName: string, phone: string,
                           address: string, province: string, municipality: string)

  function SignUpFor(s1: Step1Data, s2: Step2Data): (r: SignUp)
    ensures r.email == s1.email && r.fullName == s1.fullName && r.phone == s1.phone
    ensures r.password == s2.password && r.address == s2.address
    ensures r.province == s2.province && r.municipality == s2.municipality
  {
    SignUp(s1.email, s2.password, s1.fullName, s1.phone, s2.address, s2.province, s2.municipality)
  }

  /** The data a sign-up request carries back out: nothing of step 1 or of an accepted step 2 is lost. */
  lemma SignUpKeepsBothSteps(s1: Step1Data, s2: Step2Data)
    requires Step2Valid(s2)
    ensures var r := SignUpFor(s1, s2);
      Step1Data(r.fullName, r.email, r.phone) == s1
      && Step2Data(r.province, r.municipality, r.address, r.password, r.password) == s2
  {
    Step2ValidIff(s2);
  }

  datatype Toast = ToastError(title: string, description: string)

  const VerifyEmailPath := "/verify-email"

  class RegisterView {
    var step: int
    var direction: int
    var step1Data: Option<Step1Data>
    var location: Location
    var loading: bool
    var serverError: string

    constructor ()
      ensures step == 1 && direction == 1 && step1Data == None && !loading && serverError == ""
      ensures location == Location("", "")
    {
      step, direction, step1Data, loading, serverError := 1, 1, None, false, "";
      location := Location("", "");
    }

    /** `handleStep1`: a valid step 1 is kept and the wizard moves forward to step 2. */
    method SubmitStep1(d: Step1Data, emailOk: bool)
      modifies this
      ensures Step1Valid(d, emailOk) ==> step1Data == Some(d) && direction == 1 && step == 2
      ensures !Step1Valid(d, emailOk) ==> step1Data == old(step1Data) && direction == old(direction) && step == old(step)
      ensures location == old(location) && loading == old(loading) && serverError == old(serverError)
    {
      if Step1Valid(d, emailOk) {
        step1Data := Some(d);
        direction := 1;
        step := 2;
      }
    }

    /** `handleBack`: back to step 1, sliding the other way; the step-1 data is kept. */
    method Back()
      modifies this
      ensures step == 1 && direction == -1
      ensures step1Data == old(step1Data) && location == old(location)
      ensures loading == old(loading) && serverError == old(serverError)
    {
      direction := -1;
      step := 1;
    }

    /** The province select: the municipality is cleared on every change. */
    method ChooseProvince(p: string)
      modifies this
      ensures location == PickProvince(old(location), p) && location.municipality == ""
      ensures step == old(step) && direction == old(direction) && step1Data == old(step1Data)
      ensures loading == old(loading) && serverError == old(serverError)
    {
      location := PickProvince(location, p);
    }

    /**
     * `handleStep2`: nothing happens unless step 2 is valid and step 1's
     * data is there; then the sign-up is sent, and on success the page
     * moves to the e-mail verification notice.
     */
    method SubmitStep2(d: Step2Data, signUpError: Option<string>)
      returns (request: Option<SignUp>, target: Option<string>, toast: Option<Toast>)
      modifies this
      ensures !Step2Valid(d) || old(step1Data).None? ==>
        request == None && target == None && toast == None && loading == old(loading) && serverError == old(serverError)
      ensures Step2Valid(d) && old(step1Data).Some? ==>
        && request == Some(SignUpFor(old(step1Data).value, d))
        && !loading && serverError == ""
        && (signUpError.Some? ==> target == None && toast == Some(ToastError("Error al registrarse", signUpError.value)))
        && (signUpError.None? ==> target == Some(VerifyEmailPath) && toast == None)
      ensures step == old(step) && direction == old(direction) && step1Data == old(step1Data) && location == old(location)
    {
      if !Step2Valid(d) || step1Data.None? {
        return None, None, None;
      }
      loading := true;
      serverError := "";
      request := Some(SignUpFor(step1Data.value, d));
      loading := false;
      if signUpError.Some? {
        return request, None, Some(ToastError("Error al registrarse", signUpError.value));
      }
      target := Some(VerifyEmailPath);
      toast := None;
    }
  }

  /** A phone with a letter in it never passes step 1. */
  lemma PhoneMustBeDigits(d: Step1Data, emailOk: bool, i: int)
    requires 0 <= i < |d.phone| && !IsDigit(d.phone[i])
    ensures !Step1Valid(d, emailOk)
  {
  }
}
