/** The client-side session of frontend/src/services/authService.ts: two
    browser-storage slots, one for the bearer token and one for the signed-in
    user, and the login, signup, token-check and logout transitions over them.

    Every `fetch` is an input: the reply the server gave (`Reply`), so the
    transitions are deterministic. The user slot holds the user object
    itself; its JSON encoding is taken to round-trip. */
module AuthSession {
  import opened Common

  /** The `role` string of a user. The type names seven roles, but the value
      comes from a server reply, so any other string can arrive. */
  datatype Role =
    | Student | Engineer | Msme | Guest
    | StudentChatbot | EngineerChatbot | MsmeChatbot
    | Unrecognised(name: string)

  datatype User = User(id: string, name: string, email: string, role: Role)

  /** The body of a successful login or signup reply: `data.token` may be
      absent, the user fields are copied over. */
  datatype SessionBody = SessionBody(token: Option<string>, user: User)

  /** What `login` and `signup` resolve to. */
  datatype AuthResponse = AuthResponse(user: User, token: Option<string>)

  /** The outcome of one request: an ok response and its parsed body, a
      non-ok response and the `detail` field of its body, or an exception
      (network failure, a body that is not JSON). */
  datatype Reply<T> = Success(body: T) | Failure(detail: Option<string>) | Thrown(message: string)

  const LoginFailedText := "Login failed. Please check your credentials."
  const SignupFailedText := "Signup failed. Please try again."
  const SessionExpiredText := "Session expired or invalid. Please log in again."

  /** `String(undefined)`: what `localStorage.setItem` stores for an absent
      token. */
  const UndefinedText := "undefined"

  /** The message of the error a failed login or signup throws:
      `errorData.detail || fallback` for a non-ok reply, the original
      message for an exception. */
  function FailureMessage<T>(reply: Reply<T>, fallback: string): (m: string)
    requires !reply.Success?
    ensures reply.Failure? ==> (m == fallback <==> reply.detail.None? || reply.detail.value == "" || reply.detail.value == fallback)
    ensures reply.Failure? && m != fallback ==> reply.detail == Some(m)
    ensures reply.Thrown? ==> m == reply.message
  {
    match reply
    case Failure(detail) => if detail.Some? && detail.value != "" then detail.value else fallback
    case Thrown(message) => message
  }

  class AuthService {
    /** The "qualitybot-auth-token" slot. */
    var token: Option<string>
    /** The "qualitybot-user-data" slot. */
    var user: Option<User>

    /** The service as it finds the browser storage. */
    constructor(storedToken: Option<string>, storedUser: Option<User>)
      ensures token == storedToken && user == storedUser
    {
      token := storedToken;
      user := storedUser;
    }

    function GetToken(): Option<string>
      reads this
    {
      token
    }

    function GetUser(): Option<User>
      reads this
    {
      user
    }

    /** `!!(token && user)`: the empty string is a falsy token. */
    predicate IsAuthenticated()
      reads this
    {
      HasToken() && user.Some?
    }

    /** A stored, non-empty token. */
    predicate HasToken()
      reads this
    {
      token.Some? && token.value != ""
    }

    /** The headers other requests send: a bearer header exactly when a
        non-empty token is stored, nothing otherwise. */
    function AuthHeaders(): (h: map<string, string>)
      reads this
      ensures h.Keys <= {"Authorization"}
      ensures "Authorization" in h <==> HasToken()
      ensures "Authorization" in h ==> h["Authorization"] == "Bearer " + token.value
    {
      if HasToken() then map["Authorization" := "Bearer " + token.value] else map[]
    }

    method SetToken(t: string)
      modifies this
      ensures GetToken() == Some(t) && GetUser() == old(GetUser())
    {
      token := Some(t);
    }

    method RemoveToken()
      modifies this
      ensures GetToken().None? && GetUser() == old(GetUser())
    {
      token := None;
    }

    method SetUser(u: User)
      modifies this
      ensures GetUser() == Some(u) && GetToken() == old(GetToken())
    {
      user := Some(u);
    }

    method RemoveUser()
      modifies this
      ensures GetUser().None? && GetToken() == old(GetToken())
    {
      user := None;
    }

    /** Both slots are cleared, whatever they held, so a second call
        changes nothing; no session and no bearer header remain. */
    method Logout()
      modifies this
      ensures token.None? && user.None?
      ensures !IsAuthenticated() && AuthHeaders() == map[]
    {
      RemoveToken();
      RemoveUser();
    }

    /** Stores the session of a successful reply and hands it back; an
        absent token is stored as the text "undefined" but returned as
        absent, so the session then counts as signed in with that token. */
    method StoreSession(body: SessionBody) returns (response: AuthResponse)
      modifies this
      ensures token == Some(body.token.GetOr(UndefinedText)) && user == Some(body.user)
      ensures response == AuthResponse(body.user, body.token)
      ensures IsAuthenticated() <==> body.token != Some("")
    {
      SetToken(body.token.GetOr(UndefinedText));
      SetUser(body.user);
      response := AuthResponse(body.user, body.token);
    }

    /** `login`: a successful reply stores and returns the session; any
        other reply raises its error and leaves both slots as they were. */
    method Login(reply: Reply<SessionBody>) returns (r: Result<AuthResponse, string>)
      modifies this
      ensures reply.Success? ==>
        && r == Ok(AuthResponse(reply.body.user, reply.body.token))
        && token == Some(reply.body.token.GetOr(UndefinedText)) && user == Some(reply.body.user)
      ensures !reply.Success? ==>
        && r == Err(FailureMessage(reply, LoginFailedText))
        && token == old(token) && user == old(user)
    {
      if reply.Success? {
        var response := StoreSession(reply.body);
        r := Ok(response);
      } else {
        r := Err(FailureMessage(reply, LoginFailedText));
      }
    }

    /** `signup`: as `login`, with its own fallback message. */
    method Signup(reply: Reply<SessionBody>) returns (r: Result<AuthResponse, string>)
      modifies this
      ensures reply.Success? ==>
        && r == Ok(AuthResponse(reply.body.user, reply.body.token))
        && token == Some(reply.body.token.GetOr(UndefinedText)) && user == Some(reply.body.user)
      ensures !reply.Success? ==>
        && r == Err(FailureMessage(reply, SignupFailedText))
        && token == old(token) && user == old(user)
    {
      if reply.Success? {
        var response := StoreSession(reply.body);
        r := Ok(response);
      } else {
        r := Err(FailureMessage(reply, SignupFailedText));
      }
    }

    /** `verifyToken`: with no usable token nothing is asked and nothing
        changes; otherwise an ok reply replaces the stored user and keeps the
        token, a non-ok reply logs out and yields no user, and an exception
        logs out and raises the session-expired error. */
    method VerifyToken(reply: Reply<User>) returns (r: Result<Option<User>, string>)
      modifies this
      ensures !old(HasToken()) ==> r == Ok(None) && token == old(token) && user == old(user)
      ensures old(HasToken()) && reply.Success? ==>
        r == Ok(Some(reply.body)) && token == old(token) && user == Some(reply.body) && IsAuthenticated()
      ensures old(HasToken()) && reply.Failure? ==> r == Ok(None) && token.None? && user.None?
      ensures old(HasToken()) && reply.Thrown? ==> r == Err(SessionExpiredText) && token.None? && user.None?
    {
      if !HasToken() {
        return Ok(None);
      }
      match reply
      case Success(u) =>
        SetUser(u);
        r := Ok(Some(u));
      case Failure(_) =>
        Logout();
        r := Ok(None);
      case Thrown(_) =>
        Logout();
        r := Err(SessionExpiredText);
    }
  }
}
