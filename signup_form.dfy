/** The sign-up form: its schema with the password-confirmation check, its starting values
    and what a valid submit does. The e-mail check is a parameter. */
module SignupForm {
  import opened Wrappers
  import opened AuthStore

  datatype SignupFormValues = SignupFormValues(
    email: string,
    password: string,
    confirmPassword: string,
    userName: string,
    roles: seq<UserRole>,
    agreeTerms: bool)

  datatype SignupField = EmailField | PasswordField | ConfirmPasswordField | UserNameField | RolesField | AgreeTermsField

  /** The field rules. A failed length rule still lets the object-level check run, but a
      value that misses the `true` literal ends the object's parse there. */
  function SignupFieldIssues(v: SignupFormValues, isEmail: string -> bool): (r: set<SignupField>)
    ensures EmailField in r <==> !isEmail(v.email)
    ensures PasswordField in r <==> |v.password| < 8
    ensures UserNameField in r <==> !(2 <= |v.userName| <= 32)
    ensures RolesField in r <==> v.roles == []
    ensures AgreeTermsField in r <==> !v.agreeTerms
    ensures ConfirmPasswordField !in r
  {
    (if isEmail(v.email) then {} else {EmailField}) +
    (if |v.password| < 8 then {PasswordField} else {}) +
    (if 2 <= |v.userName| <= 32 then {} else {UserNameField}) +
    (if v.roles == [] then {RolesField} else {}) +
    (if v.agreeTerms then {} else {AgreeTermsField})
  }

  /** Every issue the schema reports: the mismatch of the confirmation is only checked when
      the terms were accepted. */
  function SignupIssues(v: SignupFormValues, isEmail: string -> bool): (r: set<SignupField>)
    ensures ConfirmPasswordField in r <==> v.agreeTerms && v.password != v.confirmPassword
    ensures r - {ConfirmPasswordField} == SignupFieldIssues(v, isEmail)
  {
    SignupFieldIssues(v, isEmail) +
    (if v.agreeTerms && v.password != v.confirmPassword then {ConfirmPasswordField} else {})
  }

  /** The form passes exactly when every rule holds, the confirmation included. */
  lemma SignupValidity(v: SignupFormValues, isEmail: string -> bool)
    ensures SignupIssues(v, isEmail) == {} <==>
      isEmail(v.email) && |v.password| >= 8 && v.password == v.confirmPassword &&
      2 <= |v.userName| <= 32 && v.roles != [] && v.agreeTerms
  {
    if SignupIssues(v, isEmail) == {} {
      assert SignupFieldIssues(v, isEmail) == {};
    }
  }

  /** With the terms unchecked the mismatch message does not appear, whatever the two
      passwords are. */
  lemma MismatchHiddenWithoutTerms(v: SignupFormValues, isEmail: string -> bool)
    requires !v.agreeTerms
    ensures ConfirmPasswordField !in SignupIssues(v, isEmail)
    ensures AgreeTermsField in SignupIssues(v, isEmail)
  {
  }

  function DefaultSignupValues(requestedRoles: seq<UserRole>): (v: SignupFormValues)
    ensures v.email == "" && v.password == "" && v.confirmPassword == "" && v.userName == ""
    ensures v.roles == requestedRoles && !v.agreeTerms
  {
    SignupFormValues("", "", "", "", requestedRoles, false)
  }

  /** The untouched form never passes: the terms start unchecked. */
  lemma DefaultSignupValuesInvalid(requestedRoles: seq<UserRole>, isEmail: string -> bool)
    ensures AgreeTermsField in SignupIssues(DefaultSignupValues(requestedRoles), isEmail)
  {
  }

  /** `onSubmit`: a valid form stores its roles as the requested ones, then hands its values
      to the sign-up request; an invalid one changes nothing. */
  method SubmitSignup(store: AuthStore, v: SignupFormValues, isEmail: string -> bool) returns (request: Option<SignupFormValues>)
    modifies store`requestedRoles
    ensures SignupIssues(v, isEmail) == {} ==> store.requestedRoles == v.roles && request == Some(v)
    ensures SignupIssues(v, isEmail) != {} ==> store.requestedRoles == old(store.requestedRoles) && request == None
    ensures store.isAuthenticated == old(store.isAuthenticated) && store.roles == old(store.roles)
    ensures store.userName == old(store.userName)
  {
    if SignupIssues(v, isEmail) == {} {
      store.SetRequestedRoles(v.roles);
      request := Some(v);
    } else {
      request := None;
    }
  }
}
