/** The sign-in form: its schema, its starting values and what a valid submit does. The
    e-mail check of the validation library is a parameter. */
module LoginForm {
  import opened Wrappers
  import opened AuthStore

  datatype LoginFormValues = LoginFormValues(email: string, password: string, roles: seq<UserRole>)

  datatype LoginField = EmailField | PasswordField | RolesField

  const MinPasswordLength := 8

  /** The fields the schema rejects; roles can only be the two declared ones. */
  function LoginIssues(v: LoginFormValues, isEmail: string -> bool): (r: set<LoginField>)
    ensures EmailField in r <==> !isEmail(v.email)
    ensures PasswordField in r <==> |v.password| < MinPasswordLength
    ensures RolesField in r <==> v.roles == []
  {
    (if isEmail(v.email) then {} else {EmailField}) +
    (if |v.password| < MinPasswordLength then {PasswordField} else {}) +
    (if v.roles == [] then {RolesField} else {})
  }

  /** The form's starting values take the store's requested roles. */
  function DefaultLoginValues(requestedRoles: seq<UserRole>): (v: LoginFormValues)
    ensures v.email == "" && v.password == "" && v.roles == requestedRoles
  {
    LoginFormValues("", "", requestedRoles)
  }

  /** The untouched form never passes: the empty password is too short. */
  lemma DefaultLoginValuesInvalid(requestedRoles: seq<UserRole>, isEmail: string -> bool)
    ensures PasswordField in LoginIssues(DefaultLoginValues(requestedRoles), isEmail)
  {
  }

  /** `onSubmit`: a valid form first stores its roles as the requested ones, then hands the
      credentials to the sign-in request; an invalid one changes nothing. */
  method SubmitLogin(store: AuthStore, v: LoginFormValues, isEmail: string -> bool) returns (request: Option<LoginFormValues>)
    modifies store`requestedRoles
    ensures LoginIssues(v, isEmail) == {} ==> store.requestedRoles == v.roles && request == Some(v)
    ensures LoginIssues(v, isEmail) != {} ==> store.requestedRoles == old(store.requestedRoles) && request == None
    ensures store.isAuthenticated == old(store.isAuthenticated) && store.roles == old(store.roles)
    ensures store.userName == old(store.userName)
  {
    if LoginIssues(v, isEmail) == {} {
      store.SetRequestedRoles(v.roles);
      request := Some(v);
    } else {
      request := None;
    }
  }
}
