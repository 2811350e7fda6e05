/**
 * The decision core of the Plaid web-view screen controller: lazy manager
 * set-up, the link-token branch, OAuth re-entry and navigation-policy
 * dispatch. The web view and the delegate are replaced by two logs: the
 * URLs handed to `load(url:)` and the delegate callbacks made. The vendor
 * manager's answers are inputs.
 */
module PlaidController {
  import opened Wrappers
  import opened QueryItems
  import opened OAuthState

  /** Which linking flow is run. */
  datatype Product = Link | DepositSwitch

  datatype Token = Token(text: string)

  /** The configured provider mode; only `linkToken` is told apart by the controller. */
  datatype ProviderType = LinkToken | OtherProvider(rawValue: string)

  /** The vendor manager, seen through the URL it wants the web view to show. */
  datatype Manager = Manager(url: Option<Url>)

  datatype AppErrorCode = Unknown | Coded(raw: int)

  /** An error not of the application's own error type. */
  datatype ForeignError = ForeignError(description: string)

  datatype AppError = AppError(code: AppErrorCode, underlying: Option<ForeignError>)

  /** What the manager's initializer may throw. */
  datatype ThrownError = ThrownAppError(appError: AppError) | ThrownForeign(foreign: ForeignError)

  /** The answer of `handleRedirectFor`. */
  datatype RedirectResponse = RedirectResponse(handled: bool, modifiedUrl: Option<Url>)

  datatype PlaidAction = Connected | Exit | OtherAction(rawValue: string)

  datatype NavigationPolicy = Cancel | Allow | Download

  datatype LinkCriteria = LinkCriteria(publicToken: string)

  datatype Account = Account(mask: string, subtype: string, bankName: string, referenceId: string)

  datatype Linked = Linked(criteria: LinkCriteria, account: Account)

  /** The answer of `decisionFor(navigationAction:)`. */
  datatype Decision = Decision(action: Option<PlaidAction>, policy: NavigationPolicy, linked: Option<Linked>)

  datatype NavigationError = NavigationError(description: string)

  /** A callback made on the delegate. */
  datatype DelegateEvent =
    | PlaidDidSucceed(criteria: LinkCriteria, account: Account)
    | UserDidExitPlaid(encounteredError: bool, errorCode: Option<string>)
    | PlaidDidFail(error: NavigationError)

  /**
   * The error recorded when the initializer throws: an application error is
   * kept as it is, any other error is wrapped as an `unknown` application
   * error that carries it as its underlying error.
   */
  function Captured(thrown: ThrownError): AppError
  {
    match thrown
    case ThrownAppError(a) => a
    case ThrownForeign(f) => AppError(Unknown, Some(f))
  }

  /**
   * The notification handler reloads only for a URL payload with query items,
   * an existing manager, a `user_id` naming the stored user and a present
   * `oauth_state_id` (the last one in the query).
   */
  ghost predicate OAuthAccepted(payload: Option<Url>, hasManager: bool, storedUser: Option<string>) {
    && payload.Some?
    && payload.value.query.Some?
    && hasManager
    && SomeItemNamesUser(payload.value.query.value, storedUser)
    && LastValue(payload.value.query.value, OAuthStateIdName).Some?
  }

  class PlaidViewController {
    const product: Product
    var manager: Option<Manager>
    var error: Option<AppError>
    /** Every URL handed to the web view's `load(url:)`, oldest first. */
    var loads: seq<Url>
    /** Every callback made on the delegate, oldest first. */
    var events: seq<DelegateEvent>
    /** Alerts presented after a failed link-token request. */
    var alertsShown: nat
    /** How many managers were ever instantiated. */
    ghost var instantiations: nat

    /** A manager is instantiated at most once, and once there it stays. */
    ghost predicate Valid()
      reads this
    {
      instantiations <= 1 && (manager.Some? <==> instantiations == 1)
    }

    constructor (product: Product)
      ensures Valid()
      ensures this.product == product
      ensures manager.None? && error.None? && loads == [] && events == [] && alertsShown == 0
    {
      this.product := product;
      manager, error := None, None;
      loads, events := [], [];
      alertsShown := 0;
      instantiations := 0;
    }

    /**
     * The effect of `setupPlaidManager(token:)`: with no manager yet, the
     * initializer is run on `(token, product)`, storing the manager or
     * recording the thrown error; an existing manager is kept and the error
     * left as it was. Then, if a manager exists and has a URL, that URL is
     * loaded. Delegate callbacks and alerts do not change.
     */
    twostate predicate SetupEffect(token: Option<Token>, construct: (Option<Token>, Product) -> Result<Manager, ThrownError>)
      reads this
    {
      && Valid()
      && (old(manager).Some? ==> manager == old(manager) && error == old(error))
      && (old(manager).None? && construct(token, product).Success? ==>
            manager == Some(construct(token, product).value) && error == old(error))
      && (old(manager).None? && construct(token, product).Failure? ==>
            manager.None? && error == Some(Captured(construct(token, product).error)))
      && loads == old(loads) + (if manager.Some? then AsSeq(manager.value.url) else [])
      && events == old(events) && alertsShown == old(alertsShown)
    }

    /** `setupPlaidManager(token:)`; `construct` stands for the vendor initializer. */
    method SetupPlaidManager(token: Option<Token>, construct: (Option<Token>, Product) -> Result<Manager, ThrownError>)
      requires Valid()
      modifies this`manager, this`error, this`loads, this`instantiations
      ensures SetupEffect(token, construct)
    {
      if manager.None? {
        match construct(token, product)
        case Success(m) =>
          manager := Some(m);
          instantiations := instantiations + 1;
        case Failure(thrown) =>
          error := Some(Captured(thrown));
      }
      if manager.Some? && manager.value.url.Some? {
        loads := loads + [manager.value.url.value];
      }
    }

    /**
     * `loadPlaid(token:)`: in link-token mode with no token, a token is
     * requested from the backend and nothing else happens yet (the answer
     * arrives through `CompleteTokenFetch`); otherwise the manager is set up
     * with the given token straight away. An unreadable provider mode counts
     * as "not link-token mode".
     */
    method LoadPlaid(token: Option<Token>, providerType: Option<ProviderType>,
                     construct: (Option<Token>, Product) -> Result<Manager, ThrownError>)
      returns (fetchRequested: bool)
      requires Valid()
      modifies this`manager, this`error, this`loads, this`instantiations
      ensures fetchRequested <==> providerType == Some(LinkToken) && token.None?
      ensures fetchRequested ==> unchanged(this)
      ensures !fetchRequested ==> SetupEffect(token, construct)
    {
      fetchRequested := providerType == Some(LinkToken) && token.None?;
      if !fetchRequested {
        SetupPlaidManager(token, construct);
      }
    }

    /**
     * The completion of the link-token request: a token leads to manager
     * set-up with that token; no token leads to one alert and nothing else.
     */
    method CompleteTokenFetch(fetched: Option<Token>, construct: (Option<Token>, Product) -> Result<Manager, ThrownError>)
      requires Valid()
      modifies this`manager, this`error, this`loads, this`instantiations, this`alertsShown
      ensures fetched.Some? ==> SetupEffect(fetched, construct)
      ensures fetched.None? ==> alertsShown == old(alertsShown) + 1
      ensures fetched.None? ==> manager == old(manager) && error == old(error) && loads == old(loads)
                                && instantiations == old(instantiations)
    {
      if fetched.Some? {
        SetupPlaidManager(fetched, construct);
      } else {
        alertsShown := alertsShown + 1;
      }
    }

    /**
     * The OAuth-state notification handler. `payload` is the notification's
     * object when it is a URL; `storedUser` is the identifier the keychain
     * holds for the signed-in user. The payload URL is loaded exactly once
     * when `OAuthAccepted` holds, and nothing changes otherwise;
     * `assignedState` is the state id written to the manager's OAuth state.
     */
    method HandleOAuthNotification(payload: Option<Url>, storedUser: Option<string>)
      returns (assignedState: Option<string>)
      requires Valid()
      modifies this`loads
      ensures Valid()
      ensures OAuthAccepted(payload, manager.Some?, storedUser) ==>
                loads == old(loads) + [payload.value]
                && assignedState == LastValue(payload.value.query.value, OAuthStateIdName)
      ensures !OAuthAccepted(payload, manager.Some?, storedUser) ==>
                loads == old(loads) && assignedState.None?
    {
      if payload.None? || payload.value.query.None? {
        return None;
      }
      var url := payload.value;
      var parameter := ReduceOAuthParameters(url.query.value, storedUser);
      if manager.None? || !parameter.currentUser || parameter.stateId.None? {
        return None;
      }
      assignedState := parameter.stateId;
      loads := loads + [url];
    }

    /**
     * `webView(_:decidePolicyFor:decisionHandler:)`. `requestUrl` is the
     * navigation's request URL, which the source force-unwraps once a manager
     * exists; `redirect` and `decision` are the manager's answers for it;
     * `delegateAlive` says whether the weak delegate reference is still set.
     * The returned policy is the one passed to the decision handler.
     */
    method DecidePolicy(requestUrl: Option<Url>, redirect: RedirectResponse, decision: Decision, delegateAlive: bool)
      returns (policy: NavigationPolicy)
      requires Valid()
      requires manager.Some? ==> requestUrl.Some?
      modifies this`loads, this`events
      ensures Valid()
      // No manager: cancel, and nothing else happens.
      ensures manager.None? ==> policy == Cancel && loads == old(loads) && events == old(events)
      // With a manager, a modified URL is loaded whether or not the redirect was handled.
      ensures manager.Some? ==> loads == old(loads) + AsSeq(redirect.modifiedUrl)
      // A handled redirect cancels, whatever the manager would decide, and calls no one.
      ensures manager.Some? && redirect.handled ==> policy == Cancel && events == old(events)
      // Otherwise the manager's policy is used, with at most one callback.
      ensures manager.Some? && !redirect.handled ==> policy == decision.policy
      ensures manager.Some? && !redirect.handled && delegateAlive
              && decision.action == Some(Connected) && decision.linked.Some? ==>
                events == old(events) + [PlaidDidSucceed(decision.linked.value.criteria, decision.linked.value.account)]
      ensures manager.Some? && !redirect.handled && delegateAlive && decision.action == Some(Exit) ==>
                events == old(events) + [UserDidExitPlaid(ErrorFound(requestUrl), GetError(requestUrl))]
      ensures manager.Some? && !redirect.handled
              && (!delegateAlive || decision.action.None? || decision.action.value.OtherAction?
                  || (decision.action == Some(Connected) && decision.linked.None?)) ==>
                events == old(events)
    {
      if manager.None? {
        return Cancel;
      }
      if redirect.handled {
        if redirect.modifiedUrl.Some? {
          loads := loads + [redirect.modifiedUrl.value];
        }
        return Cancel;
      }
      if redirect.modifiedUrl.Some? {
        loads := loads + [redirect.modifiedUrl.value];
      }
      if decision.action.Some? {
        match decision.action.value
        case Connected =>
          if decision.linked.Some? && delegateAlive {
            events := events + [PlaidDidSucceed(decision.linked.value.criteria, decision.linked.value.account)];
          }
        case Exit =>
          var errorCode := GetError(requestUrl);
          if delegateAlive {
            events := events + [UserDidExitPlaid(ErrorFound(requestUrl), errorCode)];
          }
        case OtherAction(_) =>
      }
      policy := decision.policy;
    }

    /** `webView(_:didFailProvisionalNavigation:withError:)`: the error goes to the delegate unchanged. */
    method DidFailProvisionalNavigation(failure: NavigationError, delegateAlive: bool)
      requires Valid()
      modifies this`events
      ensures Valid()
      ensures events == old(events) + (if delegateAlive then [PlaidDidFail(failure)] else [])
    {
      if delegateAlive {
        events := events + [PlaidDidFail(failure)];
      }
    }
  }

  /**
   * A screen's life: set-up runs twice but instantiates once and loads the
   * manager URL each time; an OAuth deep link for the signed-in user reloads
   * at that link; one for another user does nothing.
   */
  method OAuthReentryScenario(start: Url, link: Url, otherLink: Url)
    requires link.query == Some([QueryItem(OAuthStateIdName, Some("abc")), QueryItem(UserIdName, Some("U1"))])
    requires otherLink.query == Some([QueryItem(OAuthStateIdName, Some("abc")), QueryItem(UserIdName, Some("U2"))])
  {
    var screen := new PlaidViewController(Link);
    var construct := (t: Option<Token>, p: Product) => Success(Manager(Some(start)));
    var fetch := screen.LoadPlaid(Some(Token("t")), Some(LinkToken), construct);
    assert !fetch && screen.loads == [start];
    var m := screen.manager;
    screen.SetupPlaidManager(None, construct);
    assert screen.manager == m && screen.loads == [start, start];
    StateAndUserExample();
    var state := screen.HandleOAuthNotification(Some(link), Some("U1"));
    assert state == Some("abc") && screen.loads == [start, start, link];
    assert !NamesUser(otherLink.query.value[1], Some("U1"));
    state := screen.HandleOAuthNotification(Some(otherLink), Some("U1"));
    assert state.None? && screen.loads == [start, start, link];
  }
}
