# social_auth_microsoft — a Dafny model of the login flow

The Drupal module `social_auth_microsoft` lets a site log users in with a
Microsoft account through the OAuth 2.0 authorization-code grant (section 4.1
of RFC 6749, with the `state` parameter of section 10.12 against cross-site
request forgery). This project models, as pure functions, the three pieces of
the module that make decisions:

- the network plugin `MicrosoftAuth` (`plugin.dfy`, module `Plugin`): it checks
  that an application id and secret are configured and assembles the options the
  league OAuth2 client is built with;
- the manager `MicrosoftAuthManager` (`manager.dfy`, module `AuthManager`): the
  scope list of the authorization URL, the code exchange that swallows provider
  errors, the memoized resource owner, Graph requests and `getState()`;
- the controller `MicrosoftAuthController` (`controller.dfy`, module
  `Controller`): the route that stores a state and redirects to Microsoft, and the
  callback route with its ordered guards (cancelled login, no client, bad state)
  in front of the code exchange, the profile fetch and the hand-off to the
  social_auth user manager.

Supporting modules: `Wrappers` (an `Option` for PHP `NULL`), `Php` (PHP
truthiness of strings and `explode`/`implode`, proved inverse to each other),
`Session` (the session as a map from key to nullable string, with the data
handler's `get`/`set` and `nullifySessionKeys`) and `External` (the league
client, the provider's answers, and a `Call` trace of every call made on the
client or the user manager, so that the order of calls can be stated).

The league SDK and the network are not modelled; their answers are
parameters: the random state the client generates (`freshState`), the reply to
the code exchange, the resource owner, and the reply to a Graph request. The
absolute callback URL is an opaque string. Whether the library class exists is
a boolean parameter.

Behaviour of the code that the model keeps as it is:

- only an `error` parameter equal to `access_denied` cancels the callback; any
  other `error` value falls through to the later guards;
- the session keys `access_token` and `oauth2state` are nulled only when the
  state check fails, not on the other failure paths (`Controller.Callback`);
- the state is compared but not discarded after a successful login
  (`Controller.SuccessfulCallbackKeepsState`);
- the help text of the settings form
  (`src/Form/MicrosoftAuthSettingsForm.php:128`) says `wl.signin` is requested by
  default, but the manager adds only `wl.basic` and `wl.emails`;
- when the provider rejects the code and the manager held no token before, the
  profile fetch is made with a NULL token, which the league client's
  `getResourceOwner()` refuses with a TypeError; the callback then raises
  instead of handing off (`Controller.Callback`);
- `redirectToMicrosoft()` calls `getMicrosoftLoginUrl()`, which the manager does
  not define; see "## Findings".

## Model

| member | source | states |
|---|---|---|
| Php.Explode | src/MicrosoftAuthManager.php:68 | `explode(',', s)` yields at least one piece and no piece contains the delimiter |
| Php.ImplodeExplode | src/MicrosoftAuthManager.php:68 | joining the exploded pieces with the delimiter gives the original string back: explode drops and trims nothing |
| Php.ExplodeCount | src/MicrosoftAuthManager.php:68 | explode yields one more piece than the string has delimiters |
| Php.ExplodeImplode | src/MicrosoftAuthManager.php:68 | delimiter-free pieces joined and exploded again come back unchanged |
| Session.NullifyKeys | src/Controller/MicrosoftAuthController.php:84 | nulling the listed session keys makes each read NULL and leaves every other key as it was |
| Session.Get | src/Controller/MicrosoftAuthController.php:152 | the data handler's `get` reads NULL for a key never written and the stored value otherwise |
| Session.Set | src/Controller/MicrosoftAuthController.php:125 | the data handler's `set` makes the key read the new value and leaves every other key as it was |
| Plugin.ValidateConfig | src/Plugin/Network/MicrosoftAuth.php:145-156 | the configuration is valid iff neither id nor secret is NULL, `""` or `"0"` |
| Plugin.LeagueOptions | src/Plugin/Network/MicrosoftAuth.php:117-127 | the client options are exactly clientId, clientSecret, redirectUri with the configured values, plus `proxy` equal to the proxy URL iff that URL is truthy |
| Plugin.InitSdk | src/Plugin/Network/MicrosoftAuth.php:105-133 | a missing library raises before settings are read; otherwise the result is FALSE iff validation fails, and a fresh client with the league options when it passes |
| AuthManager.Scopes | src/MicrosoftAuthManager.php:64-69 | the scopes start with `wl.basic`, `wl.emails`; a falsy extra string adds nothing; a truthy one adds commas+1 delimiter-free pieces that join back to it |
| AuthManager.SetClient | src/Controller/MicrosoftAuthController.php:116 | `setClient()` installs the client and changes nothing else in the manager |
| AuthManager.GetState | src/MicrosoftAuthManager.php:102-104 | `getState()` returns the client's state unchanged (after `getAuthorizationUrl()`, the URL's state) |
| AuthManager.GetAuthorizationUrl | src/MicrosoftAuthManager.php:63-75 | the URL carries the scope list and the client's new state, which `getState()` then returns; nothing else in the manager changes |
| AuthManager.Authenticate | src/MicrosoftAuthManager.php:38-47 | the code is exchanged once; a granted token replaces the access token, a provider exception leaves the manager unchanged and does not escape |
| AuthManager.GetUserInfo | src/MicrosoftAuthManager.php:52-58 | a memoized profile is returned without calling the client; otherwise the owner is fetched with the current token and memoized, and a fetch with a NULL token throws |
| AuthManager.GetUserInfoIdempotent | src/MicrosoftAuthManager.php:52-58 | once a profile was obtained, later calls return it again with no client call |
| AuthManager.RequestEndPoint | src/MicrosoftAuthManager.php:83-97 | one request to the Graph host followed by the path, with the current token; NULL iff the provider raises |
| Controller.RedirectToMicrosoft | src/Controller/MicrosoftAuthController.php:105-128 | no client: redirect to login with nothing written and no call; otherwise `oauth2state` holds exactly `getState()`, the URL's state, and no other key changes |
| Controller.Callback | src/Controller/MicrosoftAuthController.php:135-175 | guards in order; no exchange unless all pass; bad state nulls both keys; the session gets the pre-exchange token; a profile fetch with no token raises; the user manager is called once, last, with the profile and post-exchange token |
| Controller.RedirectToMicrosoftAsWritten | src/Controller/MicrosoftAuthController.php:105-128 | with a client the route raises at the undefined `getMicrosoftLoginUrl()` call, building no URL and writing nothing; without one it matches `RedirectToMicrosoft` |
| Controller.LoginUrlCallRaises | src/Controller/MicrosoftAuthController.php:116-127 | for every client, the route as written raises and keeps the old `oauth2state`, while the intended route redirects with the fresh state stored |
| Controller.LoginRoundTrip | src/Controller/MicrosoftAuthController.php:121-165 | a callback returning the redirect URL's state passes the state check against the session the first route left and exchanges the code |
| Controller.UnacceptedStateIsRejected | src/Controller/MicrosoftAuthController.php:152-160 | a falsy or mismatching state never leads to a code exchange or a hand-off, and nulls both transient keys |
| Controller.SuccessfulCallbackKeepsState | src/Controller/MicrosoftAuthController.php:152-174 | after a successful callback the stored state still matches the request's state |
| Controller.UnconfiguredLoginMakesNoRequest | src/Controller/MicrosoftAuthController.php:105-113 | with a missing or empty id or secret, starting a login redirects with the configuration error, calls nothing and writes nothing |

## Left out

- Settings form (`src/Form/MicrosoftAuthSettingsForm.php`) and its functional test: UI and configuration persistence.
- `create()` factories, dependency injection, `setPluginId`, logging and the wording of `drupal_set_message`: only the kind of outcome is modelled (`Controller.Failure`).
- The league SDK: random state generation (a parameter, not proved unguessable), the authorization URL's string form (kept as its scopes and state), the token endpoint, resource-owner fetching and response parsing are parameters.
- Exceptions the source does not catch other than the missing library and the NULL-token fetch: a resource-owner fetch with a token, or `getAuthenticatedRequest`, that raises is not modelled.
- `requestEndPoint`'s `$domain` argument (unused by the source) and `$options` (passed through untouched).
- `NetworkBase::getSdk()` caching and `Url::fromRoute()`: the model takes what `getSdk()` yields and the callback URL as inputs.
- Controller.RedirectToMicrosoft: builds the URL with `getAuthorizationUrl()` in place of the undefined `getMicrosoftLoginUrl()`; the behaviour as written is `Controller.RedirectToMicrosoftAsWritten` (see "## Findings").
- Session.Get, Session.Set: the data handler's prefixing of session keys is not modelled; keys are the plugin's own names.
- The social_auth user manager's `authenticateUser()`: the hand-off is the route's outcome.
- PHP loose equality in `$error == 'access_denied'`: for two strings, one of them not numeric, it is string equality, which is what the model uses; non-string query values (arrays) are not modelled.

## Findings

| source | as written | input that shows it | evidently intended | confidence | as-written member | corrected member |
|---|---|---|---|---|---|---|
| src/Controller/MicrosoftAuthController.php:121 | `redirectToMicrosoft()` builds the login URL with `$this->microsoftManager->getMicrosoftLoginUrl()`, a method `MicrosoftAuthManager` does not define (it defines `getAuthorizationUrl()`), so every configured login throws before `oauth2state` is stored | any request to `user/login/microsoft` with app id and secret configured | build the URL with `getAuthorizationUrl()`, store `getState()` and redirect to the provider | medium (not executed; the base class `OAuth2Manager` is not part of this model) | Controller.RedirectToMicrosoftAsWritten, Controller.LoginUrlCallRaises | Controller.RedirectToMicrosoft, Controller.LoginRoundTrip |
