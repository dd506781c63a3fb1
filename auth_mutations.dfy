/** The sign-in and sign-up requests of the mock backend: their guards, the result they
    resolve with, and what a success does to the stores. The 800 ms delay is not modelled. */
module AuthMutations {
  import opened Wrappers
  import opened JsString
  import opened AuthStore
  import opened UiStore

  datatype Credentials = Credentials(email: string, password: string, roles: seq<UserRole>)

  datatype SignupPayload = SignupPayload(
    email: string,
    password: string,
    roles: seq<UserRole>,
    userName: string,
    agreeTerms: bool)

  datatype LoginResult = LoginResult(userName: string, roles: seq<UserRole>)

  datatype SignupResult = SignupResult(email: string, userName: string, roles: seq<UserRole>)

  const MissingCredentialsMessage := "Missing credentials"
  const TermsRequiredMessage := "약관 동의가 필요합니다."

  /** `email.split('@')[0]` */
  function UserNameOf(email: string): (name: string)
    ensures '@' !in name
    ensures |name| <= |email| && email[..|name|] == name
    ensures |name| < |email| ==> email[|name|] == '@'
  {
    var parts := Split(email, '@');
    JoinFirst(parts, [ '@' ]);
    parts[0]
  }

  /** The first part and its separator start the joined string. */
  lemma {:induction false} JoinFirst(parts: seq<string>, sep: string)
    requires |parts| >= 1
    ensures |parts[0]| <= |Join(parts, sep)| && Join(parts, sep)[..|parts[0]|] == parts[0]
    ensures |parts| > 1 ==> Join(parts, sep) == parts[0] + sep + Join(parts[1..], sep)
  {
  }

  /** An address without `@` is its own user name. */
  lemma UserNameWithoutAt(email: string)
    requires '@' !in email
    ensures UserNameOf(email) == email
  {
    SplitNoSeparator(email, '@');
  }

  /** Otherwise the name is what comes before the first `@`. */
  lemma UserNameBeforeFirstAt(name: string, rest: string)
    requires '@' !in name
    ensures UserNameOf(name + "@" + rest) == name
  {
    var tail := Split(rest, '@');
    var parts := [name] + tail;
    assert parts[1..] == tail;
    assert Join(parts, ['@']) == name + "@" + rest;
    SplitUnique(name + "@" + rest, '@', parts);
  }

  /** The sign-in request: empty fields are refused, otherwise it resolves with the user
      name of the address and the roles as given. */
  function Login(c: Credentials): (r: Result<LoginResult>)
    ensures r.Err? <==> c.email == "" || c.password == ""
    ensures r.Err? ==> r.error == MissingCredentialsMessage
    ensures r.Ok? ==> r.value.userName == UserNameOf(c.email) && r.value.roles == c.roles
  {
    if c.email == "" || c.password == "" then Err(MissingCredentialsMessage)
    else Ok(LoginResult(UserNameOf(c.email), c.roles))
  }

  /** The sign-up request: refused without the terms, otherwise it echoes the address, the
      name and the roles; the password plays no part. */
  function Signup(p: SignupPayload): (r: Result<SignupResult>)
    ensures r.Err? <==> !p.agreeTerms
    ensures r.Err? ==> r.error == TermsRequiredMessage
    ensures r.Ok? ==> r.value == SignupResult(p.email, p.userName, p.roles)
  {
    if !p.agreeTerms then Err(TermsRequiredMessage)
    else Ok(SignupResult(p.email, p.userName, p.roles))
  }

  const LoginSuccessToast := ToastPayload("login-success", Some("로그인 성공"), Some("요청한 역할 권한을 반영했습니다."), None, Some(4000))

  function SignupSuccessToast(userName: string): (t: ToastPayload)
    ensures t.id == "signup-success" && t.autoDismiss == Some(4000)
    ensures t.description == Some(userName + "님, 이메일 인증을 진행해주세요.")
  {
    ToastPayload("signup-success", Some("회원가입 완료"), Some(userName + "님, 이메일 인증을 진행해주세요."), None, Some(4000))
  }

  /** A successful sign-in authenticates with the result's name and roles, then shows its
      toast; the requested roles stay. */
  method OnLoginSuccess(auth: AuthStore, ui: UiStore, result: LoginResult)
    modifies auth`isAuthenticated, auth`roles, auth`userName, ui`activeToast
    ensures auth.isAuthenticated && auth.userName == Some(result.userName) && auth.roles == result.roles
    ensures auth.requestedRoles == old(auth.requestedRoles)
    ensures ui.activeToast == Some(LoginSuccessToast) && ui.projectCreation == old(ui.projectCreation)
  {
    auth.Authenticate(result.userName, result.roles);
    ui.ShowToast(LoginSuccessToast);
  }

  /** A successful sign-up only shows a toast: nobody is signed in by it. */
  method OnSignupSuccess(ui: UiStore, result: SignupResult)
    modifies ui`activeToast
    ensures ui.activeToast == Some(SignupSuccessToast(result.userName))
    ensures ui.projectCreation == old(ui.projectCreation)
  {
    ui.ShowToast(SignupSuccessToast(result.userName));
  }
}
