/** The landing page of frontend/src/components/WelcomePage.tsx: the signup
    form's validation chain, the login and signup submissions through the
    session service, guest entry and the form reset. The delayed step after
    a signup is `FinishSignup`; the one after a login hands the user to the
    application shell. */
module Welcome {
  import opened Common
  import opened AuthSession

  datatype LoginForm = LoginForm(email: string, password: string)

  datatype SignupForm = SignupForm(name: string, email: string, password: string, confirmPassword: string, role: string)

  /** The `SignupData` sent to the service. */
  datatype SignupData = SignupData(name: string, email: string, password: string, role: string)

  const PasswordMismatchText := "Passwords do not match"
  const PasswordTooShortText := "Password must be at least 6 characters"
  const NameTooShortText := "Name must be at least 2 characters"
  const SignupSucceededText := "Account created successfully! Please login with your credentials."
  const LoginSucceededText := "Login successful! Redirecting to QualityBot..."
  const LoginRetryText := "Login failed. Please try again."

  const EmptyLoginForm := LoginForm("", "")
  const EmptySignupForm := SignupForm("", "", "", "", "student")

  /** The checks of `handleSignup`, the first failing one deciding the
      message, then the cleaned-up data for a form that passes them all. */
  function ValidateSignup(form: SignupForm): (r: Result<SignupData, string>)
    ensures r.Ok? <==> form.password == form.confirmPassword && |form.password| >= 6 && |Trim(form.name)| >= 2
    ensures form.password != form.confirmPassword ==> r == Err(PasswordMismatchText)
    ensures form.password == form.confirmPassword && |form.password| < 6 ==> r == Err(PasswordTooShortText)
    ensures form.password == form.confirmPassword && |form.password| >= 6 && |Trim(form.name)| < 2 ==>
      r == Err(NameTooShortText)
    ensures r.Ok? ==>
      && r.value.name == Trim(form.name)
      && r.value.email == Trim(ToLower(form.email))
      && r.value.password == form.password
      && r.value.role == form.role
  {
    if form.password != form.confirmPassword then Err(PasswordMismatchText)
    else if |form.password| < 6 then Err(PasswordTooShortText)
    else if |Trim(form.name)| < 2 then Err(NameTooShortText)
    else Ok(SignupData(Trim(form.name), Trim(ToLower(form.email)), form.password, form.role))
  }

  /** The submitted name has no white space at either end and at least two
      characters, and the submitted e-mail has no upper-case ASCII letter. */
  lemma SubmittedSignupIsClean(form: SignupForm)
    requires ValidateSignup(form).Ok?
    ensures var d := ValidateSignup(form).value;
      && |d.name| >= 2 && !IsWhitespace(d.name[0]) && !IsWhitespace(d.name[|d.name| - 1])
      && NoUpperCase(d.email)
  {
    var d := ValidateSignup(form).value;
    assert d.name == Trim(form.name) && d.email == Trim(ToLower(form.email));
    TrimEdges(form.name);
    LowerCasedTrimmed(form.email);
  }

  predicate NoUpperCase(s: string) {
    forall i :: 0 <= i < |s| ==> !('A' <= s[i] <= 'Z')
  }

  lemma LowerCasedTrimmed(email: string)
    ensures NoUpperCase(Trim(ToLower(email)))
  {
    var lower := ToLower(email);
    forall k | 0 <= k < |lower|
      ensures !('A' <= lower[k] <= 'Z')
    {
      LowerCharNotUpper(email[k]);
    }
    TrimIsInnerRun(lower);
    var i, j :| 0 <= i <= j <= |lower| && Trim(lower) == lower[i..j];
    NoUpperCaseSlice(lower, i, j);
  }

  lemma LowerCharNotUpper(c: char)
    ensures !('A' <= LowerChar(c) <= 'Z')
  {
  }

  lemma NoUpperCaseSlice(s: string, i: int, j: int)
    requires NoUpperCase(s) && 0 <= i <= j <= |s|
    ensures NoUpperCase(s[i..j])
  {
    assert forall k :: 0 <= k < j - i ==> s[i..j][k] == s[i + k];
  }

  /** The fixed identity of `handleGuestLogin`. */
  function GuestUser(): (u: User)
    ensures u.id == "guest" && u.role == Guest
  {
    User("guest", "Guest User", "guest@qualitybot.com", Guest)
  }

  class WelcomePage {
    var loginForm: LoginForm
    var signupForm: SignupForm
    var error: string
    var success: string
    var isLoading: bool
    var showLogin: bool
    var showSignup: bool

    constructor()
      ensures loginForm == EmptyLoginForm && signupForm == EmptySignupForm
      ensures error == "" && success == "" && !isLoading && !showLogin && !showSignup
    {
      loginForm := EmptyLoginForm;
      signupForm := EmptySignupForm;
      error := "";
      success := "";
      isLoading := false;
      showLogin := false;
      showSignup := false;
    }

    /** `handleSignup`: error and success are cleared first; a form that
        fails a check gets that check's message and the service is not
        called; otherwise the cleaned data goes to the service, whose reply
        decides between the success text and the error message. */
    method HandleSignup(auth: AuthService, reply: Reply<SessionBody>) returns (sent: Option<SignupData>)
      modifies this, auth
      ensures loginForm == old(loginForm) && signupForm == old(signupForm)
      ensures showLogin == old(showLogin) && showSignup == old(showSignup) && !isLoading
      ensures var v := ValidateSignup(old(signupForm));
        && (v.Err? ==>
              && sent.None? && error == v.error && success == ""
              && auth.token == old(auth.token) && auth.user == old(auth.user))
        && (v.Ok? ==> sent == Some(v.value))
        && (v.Ok? && reply.Success? ==>
              && error == "" && success == SignupSucceededText
              && auth.token == Some(reply.body.token.GetOr(UndefinedText)) && auth.user == Some(reply.body.user))
        && (v.Ok? && !reply.Success? ==>
              && error == ErrorOr(FailureMessage(reply, SignupFailedText), SignupFailedText) && success == ""
              && auth.token == old(auth.token) && auth.user == old(auth.user))
    {
      error := "";
      success := "";
      isLoading := true;
      var v := ValidateSignup(signupForm);
      if v.Err? {
        error := v.error;
        isLoading := false;
        return None;
      }
      sent := Some(v.value);
      var r := auth.Signup(reply);
      if r.Ok? {
        success := SignupSucceededText;
      } else {
        error := ErrorOr(r.error, SignupFailedText);
      }
      isLoading := false;
    }

    /** The delayed step after a successful signup: the signup panel closes
        (clearing both forms), the login panel opens with the e-mail that was
        submitted and an empty password. */
    method FinishSignup(data: SignupData)
      modifies this
      ensures !showSignup && showLogin
      ensures loginForm == LoginForm(data.email, "") && signupForm == EmptySignupForm
      ensures error == "" && success == "" && isLoading == old(isLoading)
    {
      showSignup := false;
      ClearForms();
      showLogin := true;
      loginForm := LoginForm(data.email, "");
    }

    /** `handleLogin`: the credentials go to the service; success shows the
        redirect text and yields the user handed to the application after
        the delay, failure shows the error. */
    method HandleLogin(auth: AuthService, reply: Reply<SessionBody>) returns (signedIn: Option<User>)
      modifies this, auth
      ensures loginForm == old(loginForm) && signupForm == old(signupForm)
      ensures showLogin == old(showLogin) && showSignup == old(showSignup) && !isLoading
      ensures reply.Success? ==>
        && signedIn == Some(reply.body.user) && error == "" && success == LoginSucceededText
        && auth.token == Some(reply.body.token.GetOr(UndefinedText)) && auth.user == Some(reply.body.user)
      ensures !reply.Success? ==>
        && signedIn.None? && error == ErrorOr(FailureMessage(reply, LoginFailedText), LoginRetryText) && success == ""
        && auth.token == old(auth.token) && auth.user == old(auth.user)
    {
      error := "";
      success := "";
      isLoading := true;
      var r := auth.Login(reply);
      if r.Ok? {
        success := LoginSucceededText;
        signedIn := Some(r.value.user);
      } else {
        error := ErrorOr(r.error, LoginRetryText);
        signedIn := None;
      }
      isLoading := false;
    }

    /** `handleCloseLogin`: the login panel closes and the forms reset. */
    method CloseLogin()
      modifies this
      ensures !showLogin && showSignup == old(showSignup) && isLoading == old(isLoading)
      ensures loginForm == EmptyLoginForm && signupForm == EmptySignupForm && error == "" && success == ""
    {
      showLogin := false;
      ClearForms();
    }

    /** `handleCloseSignup`: the signup panel closes and the forms reset. */
    method CloseSignup()
      modifies this
      ensures !showSignup && showLogin == old(showLogin) && isLoading == old(isLoading)
      ensures loginForm == EmptyLoginForm && signupForm == EmptySignupForm && error == "" && success == ""
    {
      showSignup := false;
      ClearForms();
    }

    /** `handleShowSignup` and `handleShowLogin`: exactly the chosen panel
        is open, on reset forms. */
    method ShowPanel(signup: bool)
      modifies this
      ensures showSignup == signup && showLogin == !signup && isLoading == old(isLoading)
      ensures loginForm == EmptyLoginForm && signupForm == EmptySignupForm && error == "" && success == ""
    {
      showSignup := signup;
      showLogin := !signup;
      ClearForms();
    }

    /** `clearForms`: both forms empty, the role back to "student", no
        message shown; the panels and the loading flag are untouched. */
    method ClearForms()
      modifies this
      ensures loginForm == EmptyLoginForm && signupForm == EmptySignupForm
      ensures error == "" && success == ""
      ensures isLoading == old(isLoading) && showLogin == old(showLogin) && showSignup == old(showSignup)
    {
      loginForm := EmptyLoginForm;
      signupForm := EmptySignupForm;
      error := "";
      success := "";
    }
  }

  /** `error.message || fallback`: an empty message is replaced. */
  function ErrorOr(message: string, fallback: string): (m: string)
    ensures message != "" ==> m == message
    ensures message == "" ==> m == fallback
  {
    if message != "" then message else fallback
  }
}
