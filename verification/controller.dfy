/**
 `MicrosoftAuthController`: the two routes of the authorization-code login.
 `user/login/microsoft` stores a fresh state in the session and redirects to the
 provider; `user/login/microsoft/callback` runs an ordered chain of guards
 (cancelled login, missing client, bad state) before exchanging the code,
 loading the profile and handing the user to the social_auth user manager.
 Each route is a function from the request, the client `getSdk()` yields, the
 session, the manager and the provider's answers to a `Response`.
 */
module Controller {
  import opened Wrappers
  import opened Php
  import opened External
  import opened Session
  import opened Plugin
  import opened AuthManager

  /** The callback request's parameters: `error` (any bag), `state` and `code` (query string). */
  datatype Request = Request(error: Option<string>, state: Option<string>, code: Option<string>)

  /** The `error` value with which the provider reports that the user cancelled. */
  const AccessDenied := "access_denied"

  /** Why a route sent the user back to the `user.login` route. */
  datatype Failure =
    | UserCancelled
    | ConfigurationError
    | InvalidState
    | ProfileUnavailable

  /** What a route returns; `Raised` is an exception or error the route does not catch. */
  datatype Outcome =
    | RedirectToLogin(failure: Failure)
    | RedirectToProvider(url: AuthorizationUrl)
    | HandedOff(profile: Profile, token: Option<Token>)
    | Raised

  /** A route's return value with the session, manager and calls it leaves behind. */
  datatype Response = Response(outcome: Outcome, session: Store, manager: Manager, calls: seq<Call>)

  /**
   `redirectToMicrosoft()`: without a client it redirects to login (or lets the
   missing-library exception through) and writes nothing. With one, it stores the
   manager's `getState()` under `oauth2state`, which is the state inside the URL it
   redirects to, and leaves every other session key alone.
   */
  function RedirectToMicrosoft(sdk: SdkResult, session: Store, m: Manager, freshState: string): (r: Response)
    ensures sdk.LibraryMissing? ==> r == Response(Raised, session, m, [])
    ensures sdk.NotConfigured? ==> r == Response(RedirectToLogin(ConfigurationError), session, m, [])
    ensures sdk.Sdk? ==>
              && r.outcome.RedirectToProvider?
              && r.outcome.url == AuthorizationUrl(Scopes(m.extraScopes), freshState)
              && r.manager.client.Some?
              && Get(r.session, StateKey) == GetState(r.manager) == Some(r.outcome.url.state)
              && AgreeOutside(session, r.session, {StateKey})
              && r.calls == [BuildAuthorizationUrl(r.outcome.url.scopes)]
  {
    match sdk
    case LibraryMissing => Response(Raised, session, m, [])
    case NotConfigured => Response(RedirectToLogin(ConfigurationError), session, m, [])
    case Sdk(client) =>
      var built := GetAuthorizationUrl(SetClient(m, client), freshState);
      var state := GetState(built.manager);
      Response(RedirectToProvider(built.value), Set(session, StateKey, state), built.manager, built.calls)
  }

  /**
   `redirectToMicrosoft()` as written: after `setClient()` it calls
   `getMicrosoftLoginUrl()`, which `MicrosoftAuthManager` does not define, so with a
   client PHP throws an Error at that call. No URL is built and nothing is stored.
   Without a client it behaves like `RedirectToMicrosoft`.
   */
  function RedirectToMicrosoftAsWritten(sdk: SdkResult, session: Store, m: Manager, freshState: string): (r: Response)
    ensures !sdk.Sdk? ==> r == RedirectToMicrosoft(sdk, session, m, freshState)
    ensures sdk.Sdk? ==> r == Response(Raised, session, SetClient(m, sdk.client), [])
  {
    match sdk
    case Sdk(client) => Response(Raised, session, SetClient(m, client), [])
    case _ => RedirectToMicrosoft(sdk, session, m, freshState)
  }

  /**
   With a configured client the route as written never reaches the provider: it
   raises, `oauth2state` keeps its old value, and no URL is built, where the
   intended route redirects with the stored state.
   */
  lemma LoginUrlCallRaises(client: Client, session: Store, m: Manager, freshState: string)
    ensures var asWritten := RedirectToMicrosoftAsWritten(Sdk(client), session, m, freshState);
            var intended := RedirectToMicrosoft(Sdk(client), session, m, freshState);
            && asWritten.outcome == Raised && asWritten.calls == []
            && Get(asWritten.session, StateKey) == Get(session, StateKey)
            && intended.outcome.RedirectToProvider?
            && Get(intended.session, StateKey) == Some(freshState)
  {
  }

  /** The state check: the returned state is truthy and identical to the stored one. */
  predicate StateAccepted(req: Request, session: Store) {
    Truthy(req.state) && req.state == Get(session, StateKey)
  }

  /** The manager's access token once `authenticate()` has run with the given provider answer. */
  function TokenAfterExchange(m: Manager, exchange: ExchangeReply): Option<Token> {
    if exchange.Granted? then Some(exchange.token) else m.accessToken
  }

  /** The request gets past every guard before the code exchange. */
  predicate PassesGuards(req: Request, sdk: SdkResult, session: Store) {
    req.error != Some(AccessDenied) && sdk.Sdk? && StateAccepted(req, session)
  }

  /**
   `callback()`. The guards run in order: `error=access_denied`, no client, bad state;
   the first that fires decides the outcome and no code is exchanged, and only the
   state guard touches the session, nulling both transient keys. Past them the code
   is exchanged exactly once, first; the session's `access_token` receives the token
   the manager held BEFORE the exchange; and the user manager is called once, last,
   with the profile and the token held AFTER it, when a profile is available. A
   profile fetch with a NULL token (no token before, none granted) throws.
   */
  function Callback(req: Request, sdk: SdkResult, session: Store, m: Manager,
                    exchange: ExchangeReply, owner: Option<Profile>): (r: Response)
    ensures req.error == Some(AccessDenied) ==> r == Response(RedirectToLogin(UserCancelled), session, m, [])
    ensures req.error != Some(AccessDenied) && sdk.LibraryMissing? ==> r == Response(Raised, session, m, [])
    ensures req.error != Some(AccessDenied) && sdk.NotConfigured? ==>
              r == Response(RedirectToLogin(ConfigurationError), session, m, [])
    ensures req.error != Some(AccessDenied) && sdk.Sdk? && !StateAccepted(req, session) ==>
              && r.outcome == RedirectToLogin(InvalidState)
              && Get(r.session, AccessTokenKey) == None && Get(r.session, StateKey) == None
              && r.manager == m
    ensures AgreeOutside(session, r.session, TransientKeys)
    ensures !PassesGuards(req, sdk, session) ==> r.calls == [] && !r.outcome.HandedOff?
    ensures PassesGuards(req, sdk, session) ==>
              && |r.calls| >= 1 && r.calls[0] == ExchangeCode(req.code)
              && Get(r.session, AccessTokenKey) == m.accessToken
              && Get(r.session, StateKey) == Get(session, StateKey)
              && r.manager.accessToken == TokenAfterExchange(m, exchange)
    ensures forall i :: 0 < i < |r.calls| ==> !r.calls[i].ExchangeCode?
    ensures r.outcome.HandedOff? <==>
              PassesGuards(req, sdk, session) && (m.user.Some? || (TokenAfterExchange(m, exchange).Some? && owner.Some?))
    ensures PassesGuards(req, sdk, session) && m.user.None? && TokenAfterExchange(m, exchange).None? ==>
              r.outcome == Raised && r.calls == [ExchangeCode(req.code), FetchResourceOwner(None)]
    ensures PassesGuards(req, sdk, session) && m.user.None? && TokenAfterExchange(m, exchange).Some? && owner.None? ==>
              r.outcome == RedirectToLogin(ProfileUnavailable)
    ensures r.outcome.HandedOff? && m.user.None? ==> r.outcome.token.Some?
    ensures r.outcome.HandedOff? ==>
              && r.outcome.profile == (if m.user.Some? then m.user.value else owner.value)
              && r.outcome.token == r.manager.accessToken
              && r.calls[|r.calls| - 1] == AuthenticateUser(r.outcome.profile.name, r.outcome.profile.email,
                                                             r.outcome.profile.id, r.outcome.token)
    ensures forall i :: 0 <= i < |r.calls| && r.calls[i].AuthenticateUser? ==> r.outcome.HandedOff? && i == |r.calls| - 1
  {
    if req.error == Some(AccessDenied) then Response(RedirectToLogin(UserCancelled), session, m, [])
    else
      match sdk
      case LibraryMissing => Response(Raised, session, m, [])
      case NotConfigured => Response(RedirectToLogin(ConfigurationError), session, m, [])
      case Sdk(client) =>
        if !Truthy(req.state) || req.state != Get(session, StateKey) then
          Response(RedirectToLogin(InvalidState), NullifyKeys(session, KeysToNullify), m, [])
        else
          var saved := Set(session, AccessTokenKey, m.accessToken);
          var exchanged := Authenticate(SetClient(m, client), req.code, exchange);
          var info := GetUserInfo(exchanged.manager, owner);
          var calls := exchanged.calls + info.calls;
          match info.value
          case NullTokenError => Response(Raised, saved, info.manager, calls)
          case Loaded(None) => Response(RedirectToLogin(ProfileUnavailable), saved, info.manager, calls)
          case Loaded(Some(p)) =>
            var token := info.manager.accessToken;
            Response(HandedOff(p, token), saved, info.manager, calls + [AuthenticateUser(p.name, p.email, p.id, token)])
  }

  /**
   The two routes fit together: a callback that carries back the state of the URL the
   first route redirected to passes the state check against the session that route
   left, whatever the manager of the second request holds, so the code is exchanged.
   */
  lemma LoginRoundTrip(sdk: SdkResult, session: Store, m: Manager, freshState: string,
                       req: Request, sdk2: SdkResult, m2: Manager, exchange: ExchangeReply, owner: Option<Profile>)
    requires sdk.Sdk? && sdk2.Sdk?
    requires Truthy(Some(freshState))
    requires req.error != Some(AccessDenied)
    requires req.state == Some(RedirectToMicrosoft(sdk, session, m, freshState).outcome.url.state)
    ensures var first := RedirectToMicrosoft(sdk, session, m, freshState);
            var second := Callback(req, sdk2, first.session, m2, exchange, owner);
            && second.calls[0] == ExchangeCode(req.code)
            && (second.outcome.HandedOff? <==> m2.user.Some? || (TokenAfterExchange(m2, exchange).Some? && owner.Some?))
  {
  }

  /**
   Anti-forgery: a callback whose state is falsy or differs from the stored one never
   exchanges a code and never reaches the user manager, whatever the provider would
   answer; past the first two guards it nulls both transient session keys.
   */
  lemma UnacceptedStateIsRejected(req: Request, sdk: SdkResult, session: Store, m: Manager,
                                  exchange: ExchangeReply, owner: Option<Profile>)
    requires !StateAccepted(req, session)
    ensures var r := Callback(req, sdk, session, m, exchange, owner);
            && (forall i :: 0 <= i < |r.calls| ==> !r.calls[i].ExchangeCode? && !r.calls[i].AuthenticateUser?)
            && !r.outcome.HandedOff?
            && (req.error != Some(AccessDenied) && sdk.Sdk? ==>
                  Get(r.session, StateKey) == None && Get(r.session, AccessTokenKey) == None)
  {
  }

  /**
   The state is compared but not discarded: after a successful callback the session
   still holds it, so the same request would pass the state check again.
   */
  lemma SuccessfulCallbackKeepsState(req: Request, sdk: SdkResult, session: Store, m: Manager,
                                     exchange: ExchangeReply, owner: Option<Profile>)
    requires Callback(req, sdk, session, m, exchange, owner).outcome.HandedOff?
    ensures StateAccepted(req, Callback(req, sdk, session, m, exchange, owner).session)
  {
  }

  /**
   With the library present but the id or the secret missing or PHP-empty, starting a
   login redirects back to `user.login` with the configuration error, makes no call to
   the provider and leaves the session as it was.
   */
  lemma UnconfiguredLoginMakesNoRequest(settings: Settings, callbackUrl: string, proxyUrl: Option<string>,
                                        session: Store, m: Manager, freshState: string)
    requires settings.appId in {None, Some(""), Some("0")} || settings.appSecret in {None, Some(""), Some("0")}
    ensures var r := RedirectToMicrosoft(InitSdk(true, settings, callbackUrl, proxyUrl), session, m, freshState);
            r.outcome == RedirectToLogin(ConfigurationError) && r.calls == [] && r.session == session
  {
  }
}
