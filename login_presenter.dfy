/**
 * LoginPresenter as an object: its view's login-button flag, the CurrentUser
 * it fills, the place manager's current place, the events it fires, the
 * cookies it hands to the session resource and the actions it dispatches are
 * fields that its methods update step by step, as the Java does. The
 * asynchronous dispatcher is not modelled: a dispatched action is appended to
 * `dispatched`, and the server's answer arrives later as a call of OnSuccess
 * or OnFailure. Each method is proved to agree with LoginFlow.
 */
module LoginPresenters {
  import opened Wrappers
  import opened LoginFlow
  import CookieDomain

  class LoginPresenter {
    const config: Config
    /** The browser's cookie jar as Cookies.getCookie reads it; the presenter
        never writes it. */
    var browserCookies: map<string, string>

    var loginButtonEnabled: bool
    var currentUser: Option<CurrentUserDto>
    var place: PlaceRequest
    var events: seq<Event>
    var rememberMe: seq<NewCookie>
    var dispatched: seq<LogInAction>

    predicate Valid()
    {
      ValidConfig(config)
    }

    /** The state the presenter's methods change. */
    ghost function State(): LoginFlow.State
      reads this
    {
      LoginFlow.State(loginButtonEnabled, currentUser, place, events, rememberMe, dispatched)
    }

    constructor (config: Config, browserCookies: map<string, string>, place: PlaceRequest, loginButtonEnabled: bool)
      requires ValidConfig(config)
      ensures Valid()
      ensures this.config == config && this.browserCookies == browserCookies
      ensures State() == LoginFlow.State(loginButtonEnabled, None, place, [], [], [])
    {
      this.config := config;
      this.browserCookies := browserCookies;
      this.loginButtonEnabled := loginButtonEnabled;
      this.currentUser := None;
      this.place := place;
      this.events := [];
      this.rememberMe := [];
      this.dispatched := [];
    }

    /** getLoggedInCookie */
    function GetLoggedInCookie(): (cookie: Option<string>)
      reads this
      ensures cookie.Some? <==> config.loginCookieName in browserCookies
      ensures cookie.Some? ==> cookie.value == browserCookies[config.loginCookieName]
    {
      StoredCookie(config, browserCookies)
    }

    /** login: the UI handler for the login form. */
    method Login(username: string, password: string)
      modifies this`dispatched
      ensures State() == LoginFlow.Login(old(State()), username, password)
    {
      CallServerLoginAction(LogInWithCredentials(username, password));
    }

    /** callServerLoginAction, up to the hand-over to the dispatcher. */
    method CallServerLoginAction(action: LogInAction)
      modifies this`dispatched
      ensures dispatched == old(dispatched) + [action]
    {
      dispatched := dispatched + [action];
    }

    method OnReveal()
      requires Valid()
      modifies this`events, this`loginButtonEnabled, this`dispatched
      ensures State() == LoginFlow.OnReveal(config, browserCookies, old(State()))
    {
      events := events + [ActionBarVisibility(false)];
      var cookie := GetLoggedInCookie();
      if !(cookie.None? || cookie.value == "") {
        TryLoggingInWithCookieFirst();
      }
    }

    method TryLoggingInWithCookieFirst()
      requires GetLoggedInCookie().Some?
      modifies this`loginButtonEnabled, this`dispatched
      ensures !loginButtonEnabled
      ensures dispatched == old(dispatched) + [LogInWithCookie(GetLoggedInCookie().value)]
    {
      loginButtonEnabled := false;
      var cookie := GetLoggedInCookie();
      CallServerLoginAction(LogInWithCookie(cookie.value));
    }

    /** The failure callback of callServerLoginAction (the log line is not modelled). */
    method OnFailure()
      modifies this`events
      ensures State() == LoginFlow.OnFailure(old(State()))
    {
      events := events + [DisplayMessage(Message(UnableToContactServer, ErrorStyle))];
    }

    /** The success callback of callServerLoginAction. */
    method OnSuccess(result: LogInResult)
      requires Valid()
      modifies this`rememberMe, this`loginButtonEnabled, this`currentUser, this`place, this`events
      ensures State() == LoginFlow.OnSuccess(config, old(State()), result)
    {
      if result.currentUserDto.isLoggedIn {
        SetLoggedInCookie(result.loggedInCookie);
      }
      if result.actionType == ViaCookie {
        OnLoginCallSucceededForCookie(result.currentUserDto);
      } else {
        OnLoginCallSucceeded(result.currentUserDto);
      }
    }

    method OnLoginCallSucceededForCookie(dto: CurrentUserDto)
      modifies this`loginButtonEnabled, this`currentUser, this`place, this`events
      ensures loginButtonEnabled
      ensures dto.isLoggedIn ==>
        && currentUser == Some(dto)
        && place == PlaceRequest(RedirectTarget(config, old(place)), map[])
        && events == old(events) + [UserLogin, DisplayMessage(Message(OnSuccessfulLogin, SuccessStyle))]
      ensures !dto.isLoggedIn ==>
        currentUser == old(currentUser) && place == old(place) && events == old(events)
    {
      loginButtonEnabled := true;
      if dto.isLoggedIn {
        OnLoginCallSucceeded(dto);
      }
    }

    method OnLoginCallSucceeded(dto: CurrentUserDto)
      modifies this`currentUser, this`place, this`events
      ensures dto.isLoggedIn ==>
        && currentUser == Some(dto)
        && place == PlaceRequest(RedirectTarget(config, old(place)), map[])
        && events == old(events) + [UserLogin, DisplayMessage(Message(OnSuccessfulLogin, SuccessStyle))]
      ensures !dto.isLoggedIn ==>
        && currentUser == old(currentUser) && place == old(place)
        && events == old(events) + [DisplayMessage(Message(InvalidEmailOrPassword, ErrorStyle))]
    {
      if dto.isLoggedIn {
        currentUser := Some(dto);
        RedirectToLoggedOnPage();
        events := events + [UserLogin];
        events := events + [DisplayMessage(Message(OnSuccessfulLogin, SuccessStyle))];
      } else {
        events := events + [DisplayMessage(Message(InvalidEmailOrPassword, ErrorStyle))];
      }
    }

    /** Reveals the place named by the current place's REDIRECT parameter, or
        the default page after login. */
    method RedirectToLoggedOnPage()
      modifies this`place
      ensures place == PlaceRequest(RedirectTarget(config, old(place)), map[])
      ensures config.redirectParameter in old(place).parameters ==>
        place.nameToken == old(place).parameters[config.redirectParameter]
      ensures config.redirectParameter !in old(place).parameters ==>
        place.nameToken == config.defaultPage
    {
      var token := if config.redirectParameter in place.parameters
        then place.parameters[config.redirectParameter] else config.defaultPage;
      place := PlaceRequest(token, map[]);
    }

    /** Hands the remember-me cookie to the session resource (the log line is not modelled). */
    method SetLoggedInCookie(value: Option<string>)
      requires Valid()
      modifies this`rememberMe
      ensures rememberMe == old(rememberMe) + [RememberMeCookie(config, value)]
    {
      var path := "/";
      var domain := CookieDomain.GetDomain(config.hostPageBaseUrl);
      var maxAge := MaxAge();
      var secure := false;
      var newCookie := NewCookie(config.loginCookieName, value, path, domain, "", maxAge, secure);
      rememberMe := rememberMe + [newCookie];
    }
  }
}
