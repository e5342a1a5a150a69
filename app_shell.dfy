/** The top-level component of frontend/src/App.tsx, without its rendering:
    which screen the signed-in state selects, the switches between each
    dashboard and its chatbot, sign-in and the two sign-out paths, the
    startup session check and the capability calculator's result slot. */
module AppShell {
  import opened Common
  import opened Messages
  import opened AuthSession
  import Capability

  /** What the component renders. */
  datatype Screen =
    | LoadingScreen
    | WelcomeScreen
    | EngineerDashboardScreen
    | StudentDashboardScreen
    | EngineerChatbotScreen
    | MsmeDashboardScreen
    | GeneralChatScreen

  /** The early returns of the component, in their order; every other role,
      and an authenticated state with no user, falls through to the general
      chat screen. */
  function ScreenFor(isLoading: bool, isAuthenticated: bool, user: Option<User>): Screen {
    if isLoading then LoadingScreen
    else if !isAuthenticated then WelcomeScreen
    else if user.Some? && user.value.role == Engineer then EngineerDashboardScreen
    else if user.Some? && user.value.role == Student then StudentDashboardScreen
    else if user.Some? && user.value.role == EngineerChatbot then EngineerChatbotScreen
    else if user.Some? && user.value.role == Msme then MsmeDashboardScreen
    else GeneralChatScreen
  }

  /** The role an "access chatbot" action sets, from the three dashboards. */
  function ChatbotRoleOf(r: Role): Option<Role> {
    match r
    case Engineer => Some(EngineerChatbot)
    case Student => Some(StudentChatbot)
    case Msme => Some(MsmeChatbot)
    case _ => None
  }

  /** The role a "back to dashboard" action sets, from the three chatbots. */
  function DashboardRoleOf(r: Role): Option<Role> {
    match r
    case EngineerChatbot => Some(Engineer)
    case StudentChatbot => Some(Student)
    case MsmeChatbot => Some(Msme)
    case _ => None
  }

  /** The two switches are inverse to each other on the roles where they are
      offered, and offered on exactly the dashboard and chatbot roles. */
  lemma RoleTogglesInverse(r: Role)
    ensures ChatbotRoleOf(r).Some? ==> DashboardRoleOf(ChatbotRoleOf(r).value) == Some(r)
    ensures DashboardRoleOf(r).Some? ==> ChatbotRoleOf(DashboardRoleOf(r).value) == Some(r)
    ensures ChatbotRoleOf(r).Some? <==> r in {Engineer, Student, Msme}
    ensures DashboardRoleOf(r).Some? <==> r in {EngineerChatbot, StudentChatbot, MsmeChatbot}
  {
  }

  /** A dashboard screen, where the "access chatbot" action is offered. */
  predicate IsDashboard(s: Screen) {
    s == EngineerDashboardScreen || s == StudentDashboardScreen || s == MsmeDashboardScreen
  }

  /** Where "back to dashboard" is offered: the engineer chatbot's back
      action, and the header button of the general chat for the student and
      MSME chatbot roles. */
  predicate OffersBack(s: Screen, user: Option<User>) {
    || s == EngineerChatbotScreen
    || (s == GeneralChatScreen && user.Some? && user.value.role in {StudentChatbot, MsmeChatbot})
  }

  /** Each dashboard's chatbot screen offers the way back, and the way back
      leads to the same dashboard. */
  lemma ToggleScreens(u: User)
    requires IsDashboard(ScreenFor(false, true, Some(u)))
    ensures var c := u.(role := ChatbotRoleOf(u.role).value);
      && OffersBack(ScreenFor(false, true, Some(c)), Some(c))
      && c.(role := DashboardRoleOf(c.role).value) == u
  {
  }

  /** The guest identity lands on the general chat screen. */
  lemma GuestSeesGeneralChat(u: User)
    requires u.role == Guest
    ensures ScreenFor(false, true, Some(u)) == GeneralChatScreen && !OffersBack(GeneralChatScreen, Some(u))
  {
  }

  const WelcomeText := "Hello! I'm QualityBot, your AI assistant for quality management. I can help you solve quality-related problems using proven tools and methodologies. What quality issue are you facing today?"

  /** The single bot message the general chat starts with. */
  function InitialTranscript(): seq<Message> {
    [Message("1", FromBot, WelcomeText, ["Fishbone Diagram", "5 Whys Analysis", "Pareto Chart"], [], [])]
  }

  class App {
    var isLoading: bool
    var isAuthenticated: bool
    var currentUser: Option<User>
    var messages: seq<Message>
    var calculatorResults: Option<Capability.CapabilityResult>

    function Screen(): Screen
      reads this
    {
      ScreenFor(isLoading, isAuthenticated, currentUser)
    }

    constructor()
      ensures isLoading && !isAuthenticated && currentUser.None?
      ensures messages == InitialTranscript() && calculatorResults.None?
      ensures Screen() == LoadingScreen
    {
      isLoading := true;
      isAuthenticated := false;
      currentUser := None;
      messages := InitialTranscript();
      calculatorResults := None;
    }

    /** The startup check: the service verifies its stored token; a user it
        returns signs the application in, an error makes it log out (again),
        and either way loading ends. */
    method CheckAuth(auth: AuthService, reply: Reply<User>)
      modifies this, auth
      ensures !isLoading && messages == old(messages) && calculatorResults == old(calculatorResults)
      ensures old(auth.HasToken()) && reply.Success? ==>
        isAuthenticated && currentUser == Some(reply.body) && auth.IsAuthenticated()
      ensures !(old(auth.HasToken()) && reply.Success?) ==>
        isAuthenticated == old(isAuthenticated) && currentUser == old(currentUser)
      ensures old(auth.HasToken()) && !reply.Success? ==> !auth.IsAuthenticated()
      ensures !old(auth.HasToken()) ==> auth.token == old(auth.token) && auth.user == old(auth.user)
    {
      var r := auth.VerifyToken(reply);
      if r.Ok? {
        if r.value.Some? {
          currentUser := r.value;
          isAuthenticated := true;
        }
      } else {
        auth.Logout();
      }
      isLoading := false;
    }

    /** `handleLogin`: the user given by the welcome page (or the guest
        identity) is signed in. */
    method HandleLogin(u: User)
      modifies this
      ensures isAuthenticated && currentUser == Some(u)
      ensures isLoading == old(isLoading) && messages == old(messages) && calculatorResults == old(calculatorResults)
    {
      currentUser := Some(u);
      isAuthenticated := true;
    }

    /** `handleLogout`: the session service is cleared, the application
        signs out and the chat starts over from the welcome message. */
    method HandleLogout(auth: AuthService)
      modifies this, auth
      ensures !isAuthenticated && currentUser.None? && messages == InitialTranscript()
      ensures isLoading == old(isLoading) && calculatorResults == old(calculatorResults)
      ensures !auth.IsAuthenticated() && auth.AuthHeaders() == map[]
      ensures !isLoading ==> Screen() == WelcomeScreen
    {
      auth.Logout();
      currentUser := None;
      isAuthenticated := false;
      messages := InitialTranscript();
    }

    /** The MSME dashboard's `onLogout`, as written: only the user is
        dropped. The application stays authenticated, the service keeps its
        session, and the general chat is shown instead of the welcome page. */
    method MsmeDashboardLogout(auth: AuthService)
      requires Screen() == MsmeDashboardScreen
      modifies this
      ensures currentUser.None? && isAuthenticated
      ensures isLoading == old(isLoading) && messages == old(messages) && calculatorResults == old(calculatorResults)
      ensures Screen() == GeneralChatScreen
      ensures auth.token == old(auth.token) && auth.user == old(auth.user)
    {
      currentUser := None;
    }

    /** The "MSME Owner" button of the chat header, offered while no user is
        set: a fixed MSME identity, stamped with the current time, is signed
        in, which shows the MSME dashboard once loading is over. */
    method EnterAsMsmeOwner(stamp: string)
      requires currentUser.None?
      modifies this
      ensures currentUser == Some(User("msme-" + stamp, "MSME Owner", "msme@example.com", Msme)) && isAuthenticated
      ensures isLoading == old(isLoading) && messages == old(messages) && calculatorResults == old(calculatorResults)
      ensures !isLoading ==> Screen() == MsmeDashboardScreen
    {
      currentUser := Some(User("msme-" + stamp, "MSME Owner", "msme@example.com", Msme));
      isAuthenticated := true;
    }

    /** `handleLoadConversation`: the chat shows the loaded transcript and
        nothing else changes. */
    method HandleLoadConversation(conversationMessages: seq<Message>)
      modifies this
      ensures messages == conversationMessages
      ensures isAuthenticated == old(isAuthenticated) && isLoading == old(isLoading)
      ensures currentUser == old(currentUser) && calculatorResults == old(calculatorResults)
    {
      messages := conversationMessages;
    }

    /** "Access chatbot" on a dashboard: the user's role becomes the
        matching chatbot role; nothing else about the user changes. */
    method AccessChatbot()
      requires IsDashboard(Screen())
      modifies this
      ensures currentUser.Some? && old(currentUser).Some?
      ensures currentUser == Some(old(currentUser).value.(role := ChatbotRoleOf(old(currentUser).value.role).value))
      ensures isAuthenticated == old(isAuthenticated) && isLoading == old(isLoading)
      ensures messages == old(messages) && calculatorResults == old(calculatorResults)
      ensures OffersBack(Screen(), currentUser)
    {
      var u := currentUser.value;
      currentUser := Some(u.(role := ChatbotRoleOf(u.role).value));
    }

    /** "Back to dashboard" from a chatbot: the matching dashboard role. */
    method BackToDashboard()
      requires OffersBack(Screen(), currentUser)
      modifies this
      ensures currentUser.Some? && old(currentUser).Some?
      ensures currentUser == Some(old(currentUser).value.(role := DashboardRoleOf(old(currentUser).value.role).value))
      ensures isAuthenticated == old(isAuthenticated) && isLoading == old(isLoading)
      ensures messages == old(messages) && calculatorResults == old(calculatorResults)
      ensures IsDashboard(Screen())
    {
      var u := currentUser.value;
      currentUser := Some(u.(role := DashboardRoleOf(u.role).value));
    }

    /** Going to the chatbot and back restores the dashboard and the user
        exactly. */
    method ChatbotRoundTrip()
      requires IsDashboard(Screen())
      modifies this
      ensures currentUser == old(currentUser) && Screen() == old(Screen())
      ensures isAuthenticated == old(isAuthenticated) && isLoading == old(isLoading)
      ensures messages == old(messages) && calculatorResults == old(calculatorResults)
    {
      AccessChatbot();
      BackToDashboard();
    }

    /** `calculateCpCpk` on the calculator fields: a produced result replaces
        the shown one, an early return leaves it as it was. */
    method CalculateCpCpk(input: Capability.CalculatorInput, parseFloat: string -> Option<real>, sqrt: real -> real)
      modifies this
      ensures Capability.Calculate(input, parseFloat, sqrt).Some? ==>
        calculatorResults == Capability.Calculate(input, parseFloat, sqrt)
      ensures Capability.Calculate(input, parseFloat, sqrt).None? ==> calculatorResults == old(calculatorResults)
      ensures isAuthenticated == old(isAuthenticated) && isLoading == old(isLoading)
      ensures currentUser == old(currentUser) && messages == old(messages)
    {
      var r := Capability.Calculate(input, parseFloat, sqrt);
      if r.Some? {
        calculatorResults := r;
      }
    }
  }
}
