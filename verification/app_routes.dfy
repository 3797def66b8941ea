/**
 * The application shell: when the page loader covers everything, which page
 * or redirect each path gets for a signed-out, a not yet onboarded and an
 * onboarded user, the picture handed to the chat platform, and connecting the
 * chat client once.
 */
module AppRoutes {
  import opened Js

  // ---------------------------------------------------------------------------
  // Paths

  /** The paths the application knows, and everything else. */
  datatype Route =
    | Home | ChatRoute(chatId: string) | Notifications | Friends | CallRoute(callId: string)
    | Signup | Login | Onboarding | Discover | Profile | Updates | Communities | Calls
    | Unknown

  /** A `:id` parameter: one non-empty path segment. */
  predicate IsSegment(s: string) {
    |s| > 0 && forall i :: 0 <= i < |s| ==> s[i] != '/'
  }

  /** The route a path matches, with its parameter; paths are compared exactly. */
  function ParseRoute(path: string): (r: Route)
    ensures r.ChatRoute? ==> path == "/chat/" + r.chatId && IsSegment(r.chatId)
    ensures r.CallRoute? ==> path == "/call/" + r.callId && IsSegment(r.callId)
    ensures r == Home <==> path == "/"
    ensures r == Login <==> path == "/login"
    ensures r == Onboarding <==> path == "/onboarding"
  {
    if path == "/" then Home
    else if path == "/notifications" then Notifications
    else if path == "/friends" then Friends
    else if path == "/signup" then Signup
    else if path == "/login" then Login
    else if path == "/onboarding" then Onboarding
    else if path == "/discover" then Discover
    else if path == "/profile" then Profile
    else if path == "/updates" then Updates
    else if path == "/communities" then Communities
    else if path == "/calls" then Calls
    else if StartsWith(path, "/chat/") && IsSegment(path[6..]) then
      assert path == "/chat/" + path[6..];
      ChatRoute(path[6..])
    else if StartsWith(path, "/call/") && IsSegment(path[6..]) then
      assert path == "/call/" + path[6..];
      CallRoute(path[6..])
    else Unknown
  }

  /** Every chat and call link parses back to its id. */
  lemma ParseRouteLinks(id: string)
    requires IsSegment(id)
    ensures ParseRoute("/chat/" + id) == ChatRoute(id)
    ensures ParseRoute("/call/" + id) == CallRoute(id)
  {
    var chat, call := "/chat/" + id, "/call/" + id;
    assert chat[..6] == "/chat/" && chat[6..] == id;
    assert call[..6] == "/call/" && call[6..] == id;
    assert chat[5] == '/' && call[5] == '/';
  }

  // ---------------------------------------------------------------------------
  // What is drawn

  datatype PageName =
    | HomePage | ChatPage(chatId: string) | NotificationsPage | CallPage(callId: string)
    | OnboardingPage | DiscoverPage | ProfilePage | PlaceholderPage(title: string)
    | SignUpPage | LoginPage

  /** The loader, a page (inside the app layout or not), a redirect, or nothing when no route matches. */
  datatype Screen = Loader | Page(page: PageName, inLayout: bool) | Redirect(to: string) | Blank

  /** The loader shows while the session loads, and for a signed-in user until the token and the chat client are there. */
  predicate ShowsLoader(isLoading: bool, isAuthenticated: bool, isTokenLoading: bool, hasClient: bool) {
    isLoading || (isAuthenticated && isTokenLoading) || (isAuthenticated && !hasClient)
  }

  /** A protected page: shown inside the layout once onboarded, otherwise a redirect to onboarding. */
  function Guarded(isOnboarded: bool, page: PageName): Screen {
    if isOnboarded then Page(page, true) else Redirect("/onboarding")
  }

  /** The routes for a signed-in user with a chat client; there is no catch-all route. */
  function SignedInScreen(isOnboarded: bool, route: Route): Screen {
    match route
    case Home => Guarded(isOnboarded, HomePage)
    case ChatRoute(id) => Guarded(isOnboarded, ChatPage(id))
    case Notifications => Guarded(isOnboarded, NotificationsPage)
    case Friends => Guarded(isOnboarded, HomePage)
    case CallRoute(id) => Page(CallPage(id), false)
    case Signup => Redirect("/")
    case Login => Redirect("/")
    case Onboarding => if !isOnboarded then Page(OnboardingPage, false) else Redirect("/")
    case Discover => Guarded(isOnboarded, DiscoverPage)
    case Profile => Guarded(isOnboarded, ProfilePage)
    case Updates => Guarded(isOnboarded, PlaceholderPage("Updates"))
    case Communities => Guarded(isOnboarded, PlaceholderPage("Communities"))
    case Calls => Guarded(isOnboarded, PlaceholderPage("Calls"))
    case Unknown => Blank
  }

  /** The routes otherwise: sign-up, log-in, onboarding and a catch-all to the log-in page. */
  function SignedOutScreen(isAuthenticated: bool, isOnboarded: bool, route: Route): Screen {
    match route
    case Signup => if !isAuthenticated then Page(SignUpPage, false) else Redirect("/")
    case Login => if !isAuthenticated then Page(LoginPage, false) else Redirect("/")
    case Onboarding => if isAuthenticated && !isOnboarded then Page(OnboardingPage, false) else Redirect("/login")
    case _ => Redirect("/login")
  }

  /** The whole decision: the loader first, then the signed-in table when there is a client, the signed-out table otherwise. */
  function AppScreen(isLoading: bool, isAuthenticated: bool, isTokenLoading: bool, hasClient: bool,
                     isOnboarded: bool, path: string): (s: Screen)
    ensures s == Loader <==> ShowsLoader(isLoading, isAuthenticated, isTokenLoading, hasClient)
  {
    if ShowsLoader(isLoading, isAuthenticated, isTokenLoading, hasClient) then Loader
    else if isAuthenticated && hasClient then SignedInScreen(isOnboarded, ParseRoute(path))
    else SignedOutScreen(isAuthenticated, isOnboarded, ParseRoute(path))
  }

  /** Signed out: the sign-up and log-in pages render, every other path (onboarding included) redirects to /login. */
  lemma SignedOutTable(isOnboarded: bool, hasClient: bool, isTokenLoading: bool, path: string)
    ensures var s := AppScreen(false, false, isTokenLoading, hasClient, isOnboarded, path);
            && (path == "/signup" ==> s == Page(SignUpPage, false))
            && (path == "/login" ==> s == Page(LoginPage, false))
            && (path != "/signup" && path != "/login" ==> s == Redirect("/login"))
  {
  }

  /** Signed in but not onboarded: the onboarding page renders and every protected page redirects to it. */
  lemma NotOnboardedTable(path: string)
    ensures var s := AppScreen(false, true, false, true, false, path);
            var r := ParseRoute(path);
            && (r.Onboarding? ==> s == Page(OnboardingPage, false))
            && (!(r.CallRoute? || r.Signup? || r.Login? || r.Onboarding? || r.Unknown?) ==> s == Redirect("/onboarding"))
  {
  }

  /** Signed in and onboarded: onboarding, sign-up and log-in redirect home; protected pages render inside the layout. */
  lemma OnboardedTable(path: string)
    ensures var s := AppScreen(false, true, false, true, true, path);
            var r := ParseRoute(path);
            && (r.Onboarding? || r.Signup? || r.Login? ==> s == Redirect("/"))
            && (!(r.CallRoute? || r.Signup? || r.Login? || r.Onboarding? || r.Unknown?) ==> s.Page? && s.inLayout)
  {
  }

  /** The call page renders for a signed-in user whether or not they are onboarded. */
  lemma CallPageUnguarded(isOnboarded: bool, id: string)
    requires IsSegment(id)
    ensures AppScreen(false, true, false, true, isOnboarded, "/call/" + id) == Page(CallPage(id), false)
  {
    ParseRouteLinks(id);
  }

  /** Without a catch-all route, an unknown path draws nothing for a signed-in user. */
  lemma SignedInUnknownIsBlank(isOnboarded: bool, path: string)
    requires ParseRoute(path) == Unknown
    ensures AppScreen(false, true, false, true, isOnboarded, path) == Blank
  {
  }

  /** The screen a loaded session with a client shows at a path. */
  function Settled(isAuthenticated: bool, isOnboarded: bool, path: string): Screen {
    AppScreen(false, isAuthenticated, false, true, isOnboarded, path)
  }

  /**
   * Redirects never loop: at most two redirects reach a page (sign-up and log-in
   * send a signed-in user home, and home sends a user who is not onboarded on to onboarding).
   */
  lemma RedirectsSettle(isAuthenticated: bool, isOnboarded: bool, path: string)
    requires Settled(isAuthenticated, isOnboarded, path).Redirect?
    ensures var next := Settled(isAuthenticated, isOnboarded, Settled(isAuthenticated, isOnboarded, path).to);
            next.Page? || (next.Redirect? && Settled(isAuthenticated, isOnboarded, next.to).Page?)
  {
  }

  // ---------------------------------------------------------------------------
  // Connecting the chat client

  /** The signed-in user as the session returns it. */
  datatype AuthUser = AuthUser(id: string, fullName: Option<string>, profilePic: Option<string>, isOnboarded: bool)

  /** The user the chat platform is told about. */
  datatype ChatUserPayload = ChatUserPayload(id: string, name: Option<string>, image: Option<string>)

  /** The picture passed on: none for an inline "data:" picture (too large for the platform), the picture otherwise. */
  function ChatUserImage(profilePic: Option<string>): (image: Option<string>)
    ensures image.None? <==> (profilePic.None? || StartsWith(profilePic.value, "data:"))
    ensures image.Some? ==> image == profilePic && !StartsWith(image.value, "data:")
  {
    if profilePic.Some? && StartsWith(profilePic.value, "data:") then None else profilePic
  }

  function ConnectPayload(u: AuthUser): ChatUserPayload {
    ChatUserPayload(u.id, u.fullName, ChatUserImage(u.profilePic))
  }

  /** The token query's answer. */
  datatype TokenData = TokenData(token: Option<string>)

  /** The connection request: who connects, with which token. */
  datatype Connect = Connect(user: ChatUserPayload, token: string)

  class AppState {
    var chatClient: Option<Connect>

    constructor ()
      ensures chatClient.None?
    {
      chatClient := None;
    }

    /**
     * The effect and `initChat`: with a user, a token and no client yet, the
     * user is connected with the token and, if connecting succeeds, the client
     * is kept; in every other case nothing is requested and nothing changes.
     */
    method InitChat(authUser: Option<AuthUser>, tokenData: Option<TokenData>, connectSucceeds: bool)
      returns (request: Option<Connect>)
      modifies this
      ensures request.Some? <==>
                authUser.Some? && tokenData.Some? && Truthy(tokenData.value.token) && old(chatClient).None?
      ensures request.Some? ==> request.value == Connect(ConnectPayload(authUser.value), tokenData.value.token.value)
      ensures chatClient == (if request.Some? && connectSucceeds then request else old(chatClient))
    {
      request := None;
      if !(authUser.Some? && tokenData.Some?) {
        return;
      }
      if !Truthy(tokenData.value.token) || chatClient.Some? {
        return;
      }
      request := Some(Connect(ConnectPayload(authUser.value), tokenData.value.token.value));
      if connectSucceeds {
        chatClient := request;
      }
    }
  }

  /** Two runs of the effect never both connect: once a client exists, later runs return at once. */
  method ConnectsAtMostOnce(u1: Option<AuthUser>, t1: Option<TokenData>, ok1: bool,
                            u2: Option<AuthUser>, t2: Option<TokenData>, ok2: bool)
    returns (first: Option<Connect>, second: Option<Connect>)
    ensures first.Some? && ok1 ==> second.None?
  {
    var app := new AppState();
    first := app.InitChat(u1, t1, ok1);
    second := app.InitChat(u2, t2, ok2);
  }
}
