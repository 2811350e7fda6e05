# Plaid web-view screen controller: a Dafny model of its decision core

`PlaidViewController` is a screen that embeds Plaid's bank-linking web flow in a web view. It turns
web-view navigations and OAuth deep links into delegate callbacks (success, exit, failure). This project
models the part of the controller that makes decisions, with the web view, the vendor SDK and the host
application reduced to inputs and logs:

- `wrappers.dfy` (`Wrappers`): `Option` and `Result`. They stand for Swift optionals and for `throws`.
- `query.dfy` (`QueryItems`): URL query items, plus the `errorFound(url:)` and `getError(url:)` helpers
  that read `error_code` from a navigated URL.
- `oauth.dfy` (`OAuthState`): the `reduce(into:)` fold of the OAuth notification handler. It turns the
  query items into `(currentUser, stateId)`.
- `controller.dfy` (`PlaidController`): the class `PlaidViewController` with these fields:
  - `manager` and `error`;
  - `loads`, the log of URLs passed to `load(url:)`;
  - `events`, the log of delegate callbacks;
  - `alertsShown`, the alerts shown after a failed link-token request.

  Its methods are manager setup, `loadPlaid`, the token-request completion, the OAuth notification
  handler, the navigation-policy decision and the provisional-navigation failure.

Collaborators become inputs, as follows:
- The vendor manager's initializer is a function parameter `construct(token, product)`. It yields a
  manager or the error it throws.
- `handleRedirectFor` and `decisionFor` become the values `redirect` and `decision`.
- The keychain's user identifier is `storedUser`.
- The configured provider mode is `providerType`.
- Whether the weak delegate reference is still set is `delegateAlive`.
- The backend's link-token answer is the `fetched` argument of `CompleteTokenFetch`.

The model follows the code as written. Where a plain reading of the screen's contract suggests
something else, the code wins:
- The OAuth handler accepts a deep link when SOME `user_id` item names the stored user. Other
  `user_id` items with other values do not stop it.
- The state id is the value of the LAST `oauth_state_id` item. A bare `oauth_state_id` after it resets
  the state id to none, and the link is then ignored.
- `setupPlaidManager` loads the manager's URL on every call while a manager exists, not only on the
  call that creates it.
- A failed construction records the error, and a later call tries again. "At most once" holds for
  managers actually instantiated.
- A modified URL from `handleRedirectFor` is loaded whether or not the manager handled the redirect.
  In the handled case it is followed by `.cancel`.

## Model

| member | source | states |
|---|---|---|
| `QueryItems.NamedCounts` | img/2022/0509150822150.swift:164 | The filter keeps every item with the given name, as many times as it occurs, and no other item. |
| `QueryItems.NamedHeadIsFirst` | img/2022/0509150822150.swift:164-169 | The head of the filtered items is what `first(where:)` finds, and the filter is empty exactly when `first(where:)` finds nothing. So `errorFound` and `getError` look at the same item. |
| `QueryItems.NamedDistributes` | img/2022/0509150822150.swift:164 | The filter keeps the items in their order: filtering a concatenation is concatenating the filtered parts. |
| `QueryItems.FirstNamed` | img/2022/0509150822150.swift:169 | `first(where:)` finds an item exactly when some item has the name. What it finds has that name, and no earlier item has it. |
| `QueryItems.ErrorFound` | img/2022/0509150822150.swift:162-165 | `errorFound` is true exactly when the URL exists, has query items and one of them is named `error_code`, whatever its value. |
| `QueryItems.GetError` | img/2022/0509150822150.swift:167-170 | A code returned by `getError` implies `errorFound`. It is the value of the first `error_code` item. |
| `QueryItems.GetErrorIsFirstValue` | img/2022/0509150822150.swift:167-170 | The other direction: whenever the first `error_code` item is at position i, `getError` returns that item's value (absent when bare), and later `error_code` items are never seen. |
| `QueryItems.FoundWithoutCode` | img/2022/0509150822150.swift:162-170 | `errorFound` is true with no code exactly when the first `error_code` item is bare. |
| `QueryItems.InvalidCredentialsExample` | img/2022/0509150822150.swift:162-170 | A URL with `error_code=invalid_credentials` gives "error found" with code `invalid_credentials`. |
| `QueryItems.BareErrorCodeExample` | img/2022/0509150822150.swift:162-170 | A URL with a bare `error_code` gives "error found" with no code. |
| `OAuthState.ReduceOAuthParameters` | img/2022/0509150822150.swift:59-68 | After the fold, `stateId` is the value of the last `oauth_state_id` item. `currentUser` is true exactly when some `user_id` item's value equals the stored identifier. |
| `OAuthState.LastValueIsLast` | img/2022/0509150822150.swift:59-62 | The last item with the name decides the state id, whatever came before it. |
| `OAuthState.LastValueAbsent` | img/2022/0509150822150.swift:59-62 | With no `oauth_state_id` item, the state id stays nil. |
| `OAuthState.LastValueWitness` | img/2022/0509150822150.swift:59-62 | A present state id comes from an `oauth_state_id` item carrying it, and no `oauth_state_id` item follows that one. |
| `OAuthState.LastValueIgnoresSuffix` | img/2022/0509150822150.swift:59-62 | Items not named `oauth_state_id` never change the state id. |
| `OAuthState.BareStateIdResets` | img/2022/0509150822150.swift:60-61 | A bare `oauth_state_id` resets the state id to nil unless a later `oauth_state_id` follows. |
| `OAuthState.CurrentUserSticks` | img/2022/0509150822150.swift:63-67 | Once a `user_id` item has matched the stored user, later items cannot make `currentUser` false again. |
| `OAuthState.StateAndUserExample` | img/2022/0509150822150.swift:59-68 | `?oauth_state_id=abc&user_id=U1` with stored user `U1` folds to the current user with state `abc`. |
| `PlaidController.PlaidViewController.constructor` | img/2022/0509150822150.swift:27-36 | A new screen has no manager, no error, no loads, no callbacks and no alerts. |
| `PlaidController.PlaidViewController.SetupPlaidManager` | img/2022/0509150822150.swift:136-157 | The initializer runs only when there is no manager, so an existing manager is never replaced. On failure the error is recorded and the manager stays nil. A thrown application error is recorded as it is; any other error is wrapped as an `unknown` application error carrying it (`Captured`). Whenever a manager with a URL exists afterwards, exactly that URL is loaded, on repeated calls too. No callback is made. |
| `PlaidController.PlaidViewController.LoadPlaid` | img/2022/0509150822150.swift:112-134 | A token is requested exactly when the mode is link-token and no token was given. In that case nothing changes yet. Otherwise the effect is setup with the given token. |
| `PlaidController.PlaidViewController.CompleteTokenFetch` | img/2022/0509150822150.swift:117-130 | A fetched token leads to setup with that token. No token leads to exactly one alert, and manager, error and loads stay as they were. |
| `PlaidController.PlaidViewController.HandleOAuthNotification` | img/2022/0509150822150.swift:49-82 | The notification URL is loaded exactly once only when all of these hold: the payload is a URL with query items, a manager exists, some `user_id` names the stored user, and the state id is present. Otherwise nothing changes. The state id handed to the manager is the folded one. |
| `PlaidController.PlaidViewController.DecidePolicy` | img/2022/0509150822150.swift:175-228 | With no manager: cancel, and no load or callback. With a manager: a modified URL is loaded if present. A handled redirect cancels with no callback and ignores the manager's decision. Otherwise the manager's policy is returned and callbacks are made as follows: `.connected` with criteria gives exactly one success callback with those criteria and that account; `.exit` gives exactly one exit callback with `(errorFound, getError)` of the request URL; any other or absent action, or `.connected` without criteria, gives none. |
| `PlaidController.PlaidViewController.DidFailProvisionalNavigation` | img/2022/0509150822150.swift:230-233 | The navigation error reaches the delegate unchanged, as exactly one failure callback. |

## Left out

- OAuthState.NamesUser: a `user_id` value and the stored identifier are compared character by character. Swift's `==` on `String` (line 65) compares by Unicode canonical equivalence, so `"cafe\u{301}"` matches a stored `"caf\u{E9}"` in the code but not in the model. This only matters for identifiers that have more than one Unicode spelling; the fixed names `user_id`, `oauth_state_id` and `error_code` have only one.
- UIKit lifecycle, the status-bar override, loading views, alert contents, the pop of the navigation controller and the page-view analytics (lines 23-25, 95-109, 115, 119, 123-127): user interface only. A failed token request is counted in `alertsShown`.
- `viewDidLoad` passing the stored init token to `loadPlaid`: lifecycle glue. `LoadPlaid` takes the token as an argument.
- The asynchronous backend request and the main-queue redispatch (lines 116-130): network and threading. The completion is the separate step `CompleteTokenFetch`. The backend's error value is ignored there, as in the code.
- The keychain and the credentials lookup, and their `try!` aborts (lines 64, 116): foreign calls. The stored user identifier is an input.
- `URLComponents` and `url.queryItems()` parsing: a URL is given with its query items already split.
- The vendor manager's internals (`url`, `handleRedirectFor`, `decisionFor`, the initializer): a vendor SDK that is not part of this model. The manager's URL is modelled as optional, so a manager without a URL loads nothing.
- The write of the state id to `oAuthState` on a `var` copy of the manager (lines 71, 79): whether it reaches the stored manager depends on the SDK's type. The handler returns the state id it writes, and the stored manager is unchanged.
- The `#if DEBUG fatalError` for `.connected` without criteria (lines 211-213): release behaviour is modelled, which makes no callback.
- The crash when the request URL is nil and a manager exists (line 186, a force unwrap): a precondition of `DecidePolicy`.
- Logging, the `description(for:)` formatters (lines 235-264), and observer registration and removal (lines 49, 88-93): side effects only. The `.download` policy needs iOS 15 or later; the model does not restrict it.
