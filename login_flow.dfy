/**
 * The login presenter's observable behaviour as pure transitions on its
 * state: what revealing the login page, a server response and a transport
 * failure each do to the login button, the current user, the current place,
 * the events fired, the remember-me cookies handed to the session resource
 * and the login actions dispatched. The class in LoginPresenters follows the
 * Java method by method and is proved to agree with these transitions; the
 * lemmas here state what the flow promises.
 */
module LoginFlow {
  import opened Wrappers
  import JavaInt
  import CookieDomain

  // ---------------------------------------------------------------------
  // Values the presenter exchanges with the server, the view and the event bus

  /** Who is asking: LogInResult says whether the server answered a
      credential login or a silent login with the stored cookie. */
  datatype ActionType = ViaCredentials | ViaCookie

  /** The login RPC request: user name and password, or the stored cookie. */
  datatype LogInAction =
    | LogInWithCredentials(username: string, password: string)
    | LogInWithCookie(cookie: string)

  /** The server's view of the visitor; `details` stands for the rest of the
      DTO, which the presenter only hands to CurrentUser. */
  datatype CurrentUserDto = CurrentUserDto(isLoggedIn: bool, details: string)

  datatype LogInResult = LogInResult(
    actionType: ActionType,
    currentUserDto: CurrentUserDto,
    loggedInCookie: Option<string>)

  /** The localised LoginMessages texts, by name. */
  datatype MessageTag = UnableToContactServer | OnSuccessfulLogin | InvalidEmailOrPassword

  datatype MessageStyle = SuccessStyle | ErrorStyle

  datatype Message = Message(tag: MessageTag, style: MessageStyle)

  /** The events the presenter fires, in the order it fires them. */
  datatype Event =
    | ActionBarVisibility(visible: bool)
    | UserLogin
    | DisplayMessage(message: Message)

  /** A navigation token and its parameters. */
  datatype PlaceRequest = PlaceRequest(nameToken: string, parameters: map<string, string>)

  /** The javax.ws.rs NewCookie built by setLoggedInCookie. */
  datatype NewCookie = NewCookie(
    name: string,
    value: Option<string>,
    path: string,
    domain: Option<string>,
    comment: string,
    maxAge: JavaInt.Int32,
    secure: bool)

  /** What the presenter reads but never writes: the host page's base URL and
      constants of classes outside this model (the login cookie's name from
      ApiParameters, the redirect parameter from ParameterTokens, the default
      page after login from NameTokens). */
  datatype Config = Config(
    hostPageBaseUrl: string,
    loginCookieName: string,
    redirectParameter: string,
    defaultPage: string)

  /** A browser page URL has no line breaks. */
  predicate ValidConfig(cfg: Config)
  {
    CookieDomain.SingleLine(cfg.hostPageBaseUrl)
  }

  /** Everything the presenter changes. */
  datatype State = State(
    loginButtonEnabled: bool,
    currentUser: Option<CurrentUserDto>,
    place: PlaceRequest,
    events: seq<Event>,
    rememberMe: seq<NewCookie>,
    dispatched: seq<LogInAction>)

  // ---------------------------------------------------------------------
  // The remember-me cookie

  const REMEMBER_ME_DAYS: JavaInt.Int32 := 14

  /** `REMEMBER_ME_DAYS * 24 * 60 * 60 * 1000` evaluated in Java int arithmetic,
      multiplication by multiplication. */
  function MaxAge(): (r: JavaInt.Int32)
    ensures r == REMEMBER_ME_DAYS * 24 * 60 * 60 * 1000
    ensures r == 1_209_600_000
  {
    JavaInt.Wrap(JavaInt.Wrap(JavaInt.Wrap(JavaInt.Wrap(REMEMBER_ME_DAYS * 24) * 60) * 60) * 1000)
  }

  /** The cookie setLoggedInCookie hands to the session resource. */
  function RememberMeCookie(cfg: Config, value: Option<string>): (c: NewCookie)
    requires ValidConfig(cfg)
    ensures c.name == cfg.loginCookieName && c.value == value
    ensures c.path == "/" && c.comment == "" && !c.secure
    ensures c.maxAge == 1_209_600_000
    ensures c.domain == CookieDomain.GetDomain(cfg.hostPageBaseUrl)
    ensures c.domain.Some? ==> forall i :: 0 <= i < |c.domain.value| ==>
      c.domain.value[i] != '/' && c.domain.value[i] != ':'
  {
    NewCookie(cfg.loginCookieName, value, "/", CookieDomain.GetDomain(cfg.hostPageBaseUrl), "", MaxAge(), false)
  }

  // ---------------------------------------------------------------------
  // Reference transitions

  /** Cookies.getCookie: null (None) when the browser has no such cookie. */
  function StoredCookie(cfg: Config, browserCookies: map<string, string>): (cookie: Option<string>)
    ensures cookie.Some? <==> cfg.loginCookieName in browserCookies
    ensures cookie.Some? ==> cookie.value == browserCookies[cfg.loginCookieName]
  {
    if cfg.loginCookieName in browserCookies then Some(browserCookies[cfg.loginCookieName]) else None
  }

  /** Guava's Strings.isNullOrEmpty. */
  predicate IsNullOrEmpty(s: Option<string>)
    ensures !IsNullOrEmpty(s) <==> s.Some? && |s.value| > 0
  {
    s.None? || s.value == ""
  }

  /** PlaceRequest.getParameter(REDIRECT, default page). */
  function RedirectTarget(cfg: Config, place: PlaceRequest): (token: string)
    ensures cfg.redirectParameter in place.parameters ==> token == place.parameters[cfg.redirectParameter]
    ensures cfg.redirectParameter !in place.parameters ==> token == cfg.defaultPage
  {
    if cfg.redirectParameter in place.parameters then place.parameters[cfg.redirectParameter]
    else cfg.defaultPage
  }

  const SUCCESS_MESSAGE := Message(OnSuccessfulLogin, SuccessStyle)
  const INVALID_MESSAGE := Message(InvalidEmailOrPassword, ErrorStyle)
  const UNREACHABLE_MESSAGE := Message(UnableToContactServer, ErrorStyle)

  /** login(username, password): a credential action is dispatched. */
  function Login(s: State, username: string, password: string): (t: State)
    ensures t.dispatched == s.dispatched + [LogInWithCredentials(username, password)]
    ensures t.(dispatched := s.dispatched) == s
  {
    s.(dispatched := s.dispatched + [LogInWithCredentials(username, password)])
  }

  /** onReveal: the action bar is hidden; a stored, non-empty login cookie
      disables the login button and is sent to the server. */
  function OnReveal(cfg: Config, browserCookies: map<string, string>, s: State): (t: State)
    ensures t.events == s.events + [ActionBarVisibility(false)]
    ensures |t.dispatched| == |s.dispatched| + (if IsNullOrEmpty(StoredCookie(cfg, browserCookies)) then 0 else 1)
    ensures t.currentUser == s.currentUser && t.place == s.place && t.rememberMe == s.rememberMe
  {
    var cookie := StoredCookie(cfg, browserCookies);
    var hidden := s.events + [ActionBarVisibility(false)];
    if IsNullOrEmpty(cookie) then s.(events := hidden)
    else s.(events := hidden, loginButtonEnabled := false,
            dispatched := s.dispatched + [LogInWithCookie(cookie.value)])
  }

  /** onFailure: one "unable to contact server" error, nothing else. */
  function OnFailure(s: State): (t: State)
    ensures t.events == s.events + [DisplayMessage(Message(UnableToContactServer, ErrorStyle))]
    ensures t.(events := s.events) == s
  {
    s.(events := s.events + [DisplayMessage(UNREACHABLE_MESSAGE)])
  }

  /** onSuccess, by outcome: an accepted login (of either kind) stores the
      cookie, fills the current user, navigates and announces the login; a
      rejected cookie only re-enables the button; rejected credentials only
      post an error. A cookie answer always re-enables the button. */
  function OnSuccess(cfg: Config, s: State, result: LogInResult): (t: State)
    requires ValidConfig(cfg)
    ensures t.dispatched == s.dispatched
    ensures result.actionType == ViaCookie ==> t.loginButtonEnabled
    ensures result.actionType == ViaCredentials ==> t.loginButtonEnabled == s.loginButtonEnabled
    ensures !result.currentUserDto.isLoggedIn ==> t.currentUser == s.currentUser && t.place == s.place
  {
    var dto := result.currentUserDto;
    var viaCookie := result.actionType == ViaCookie;
    if dto.isLoggedIn then
      State(
        loginButtonEnabled := viaCookie || s.loginButtonEnabled,
        currentUser := Some(dto),
        place := PlaceRequest(RedirectTarget(cfg, s.place), map[]),
        events := s.events + [UserLogin, DisplayMessage(SUCCESS_MESSAGE)],
        rememberMe := s.rememberMe + [RememberMeCookie(cfg, result.loggedInCookie)],
        dispatched := s.dispatched)
    else if viaCookie then
      s.(loginButtonEnabled := true)
    else
      s.(events := s.events + [DisplayMessage(INVALID_MESSAGE)])
  }

  // ---------------------------------------------------------------------
  // Counting what was fired

  function LoginEventCount(events: seq<Event>): nat
  {
    if events == [] then 0
    else LoginEventCount(events[..|events| - 1]) + (if events[|events| - 1] == UserLogin then 1 else 0)
  }

  /** The messages among the events, in order. */
  function Messages(events: seq<Event>): seq<Message>
  {
    if events == [] then []
    else
      var last := events[|events| - 1];
      Messages(events[..|events| - 1]) + (if last.DisplayMessage? then [last.message] else [])
  }

  lemma {:induction false} LoginEventCountAppend(a: seq<Event>, b: seq<Event>)
    ensures LoginEventCount(a + b) == LoginEventCount(a) + LoginEventCount(b)
    decreases |b|
  {
    if b == [] {
      assert a + b == a;
    } else {
      assert (a + b)[..|a + b| - 1] == a + b[..|b| - 1];
      LoginEventCountAppend(a, b[..|b| - 1]);
    }
  }

  lemma {:induction false} MessagesAppend(a: seq<Event>, b: seq<Event>)
    ensures Messages(a + b) == Messages(a) + Messages(b)
    decreases |b|
  {
    if b == [] {
      assert a + b == a;
    } else {
      assert (a + b)[..|a + b| - 1] == a + b[..|b| - 1];
      MessagesAppend(a, b[..|b| - 1]);
    }
  }

  // ---------------------------------------------------------------------
  // What the flow promises

  /** On reveal a cookie login is dispatched exactly when the stored cookie is
      non-null and non-empty, and then with the login button disabled. */
  lemma RevealDispatchesOnlyStoredCookie(cfg: Config, browserCookies: map<string, string>, s: State)
    ensures var t := OnReveal(cfg, browserCookies, s);
      var cookie := StoredCookie(cfg, browserCookies);
      && t.events == s.events + [ActionBarVisibility(false)]
      && (IsNullOrEmpty(cookie) ==> t.dispatched == s.dispatched && t.loginButtonEnabled == s.loginButtonEnabled)
      && (!IsNullOrEmpty(cookie) ==>
            t.dispatched == s.dispatched + [LogInWithCookie(cookie.value)] && !t.loginButtonEnabled)
      && t.currentUser == s.currentUser && t.place == s.place && t.rememberMe == s.rememberMe
  {
  }

  /** Every successful answer writes the remember-me cookie if and only if the
      user is logged in, whichever kind of login it answers. */
  lemma SuccessWritesCookieIffLoggedIn(cfg: Config, s: State, result: LogInResult)
    requires ValidConfig(cfg)
    ensures var t := OnSuccess(cfg, s, result);
      && (result.currentUserDto.isLoggedIn ==>
            t.rememberMe == s.rememberMe + [RememberMeCookie(cfg, result.loggedInCookie)])
      && (!result.currentUserDto.isLoggedIn ==> t.rememberMe == s.rememberMe)
  {
  }

  /** An answer to the silent cookie login always re-enables the button; when
      the cookie is refused nothing else changes. */
  lemma CookieAnswerReenablesButton(cfg: Config, s: State, result: LogInResult)
    requires ValidConfig(cfg)
    requires result.actionType == ViaCookie
    ensures OnSuccess(cfg, s, result).loginButtonEnabled
    ensures !result.currentUserDto.isLoggedIn ==>
      OnSuccess(cfg, s, result) == s.(loginButtonEnabled := true)
  {
  }

  /** An accepted login, of either kind: the current user comes from the DTO,
      the app goes to the REDIRECT parameter or the default page, and one
      login event and one success message are fired, in that order. */
  lemma AcceptedLogin(cfg: Config, s: State, result: LogInResult)
    requires ValidConfig(cfg)
    requires result.currentUserDto.isLoggedIn
    ensures var t := OnSuccess(cfg, s, result);
      && t.currentUser == Some(result.currentUserDto)
      && t.place.nameToken ==
           (if cfg.redirectParameter in s.place.parameters
            then s.place.parameters[cfg.redirectParameter] else cfg.defaultPage)
      && t.events == s.events + [UserLogin, DisplayMessage(Message(OnSuccessfulLogin, SuccessStyle))]
      && t.dispatched == s.dispatched
  {
  }

  /** Refused credentials: exactly one "invalid email or password" error, and
      the user, the place, the button and the cookies stay as they were. */
  lemma RejectedCredentials(cfg: Config, s: State, result: LogInResult)
    requires ValidConfig(cfg)
    requires result.actionType == ViaCredentials && !result.currentUserDto.isLoggedIn
    ensures OnSuccess(cfg, s, result) ==
      s.(events := s.events + [DisplayMessage(Message(InvalidEmailOrPassword, ErrorStyle))])
  {
  }

  /** A transport failure posts one "unable to contact server" error and leaves
      the button as it was. */
  lemma FailurePostsOneError(s: State)
    ensures var t := OnFailure(s);
      && t.events == s.events + [DisplayMessage(Message(UnableToContactServer, ErrorStyle))]
      && Messages(t.events) == Messages(s.events) + [Message(UnableToContactServer, ErrorStyle)]
      && LoginEventCount(t.events) == LoginEventCount(s.events)
      && t.(events := s.events) == s
  {
    var extra := [DisplayMessage(UNREACHABLE_MESSAGE)];
    MessagesAppend(s.events, extra);
    LoginEventCountAppend(s.events, extra);
    assert Messages(extra) == Messages([]) + [UNREACHABLE_MESSAGE];
    assert LoginEventCount(extra) == LoginEventCount([]);
  }

  /** A silent cookie login whose request fails leaves the button disabled. */
  lemma FailedCookieLoginLeavesButtonDisabled(cfg: Config, browserCookies: map<string, string>, s: State)
    requires !IsNullOrEmpty(StoredCookie(cfg, browserCookies))
    ensures !OnFailure(OnReveal(cfg, browserCookies, s)).loginButtonEnabled
  {
  }

  /** What a successful answer adds to the messages shown and to the login
      events: one success message and one login event when logged in; when not,
      one error for credentials and nothing at all for a cookie. */
  lemma SuccessMessagesAndLoginEvents(cfg: Config, s: State, result: LogInResult)
    requires ValidConfig(cfg)
    ensures var t := OnSuccess(cfg, s, result);
      && Messages(t.events) == Messages(s.events) +
           (if result.currentUserDto.isLoggedIn then [Message(OnSuccessfulLogin, SuccessStyle)]
            else if result.actionType == ViaCookie then []
            else [Message(InvalidEmailOrPassword, ErrorStyle)])
      && LoginEventCount(t.events) ==
           LoginEventCount(s.events) + (if result.currentUserDto.isLoggedIn then 1 else 0)
  {
    var t := OnSuccess(cfg, s, result);
    if result.currentUserDto.isLoggedIn {
      var extra := [UserLogin, DisplayMessage(SUCCESS_MESSAGE)];
      MessagesAppend(s.events, extra);
      LoginEventCountAppend(s.events, extra);
      assert extra[..1] == [UserLogin] && [UserLogin][..0] == [];
    } else if result.actionType == ViaCredentials {
      var extra := [DisplayMessage(INVALID_MESSAGE)];
      MessagesAppend(s.events, extra);
      LoginEventCountAppend(s.events, extra);
      assert extra[..0] == [];
    }
  }
}
