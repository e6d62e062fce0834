/**
 `MicrosoftAuthManager`: the provider-specific OAuth2 manager. It holds the league
 client, the access token and the memoized resource owner, builds the
 authorization URL with its scope list, exchanges the authorization code, and
 makes authenticated Graph requests. Each operation returns the manager's new
 fields, its PHP return value and the calls it made on the client.
 */
module AuthManager {
  import opened Wrappers
  import opened Php
  import opened External

  /**
   The manager's fields: the injected client (`NULL` until `setClient`), the access
   token, the memoized resource owner, and the configured extra scopes that
   `getScopes()` reads from the module settings.
   */
  datatype Manager = Manager(
    client: Option<Client>,
    accessToken: Option<Token>,
    user: Option<Profile>,
    extraScopes: Option<string>)

  /** The outcome of one manager operation. */
  datatype Step<T> = Step(manager: Manager, value: T, calls: seq<Call>)

  /** The scopes requested on every login, in this order. */
  const DefaultScopes: seq<string> := ["wl.basic", "wl.emails"]

  /** The Graph API host that `requestEndPoint` prefixes to every path. */
  const GraphBase := "https://graph.microsoft.com"

  /** The delimiter of the configured extra-scopes string. */
  const ScopeDelimiter := ','

  /** `setClient()`: inject the league client; nothing else in the manager changes. */
  function SetClient(m: Manager, client: Client): (r: Manager)
    ensures r.client == Some(client)
    ensures r.(client := m.client) == m
  {
    m.(client := Some(client))
  }

  /** `getState()`: the state the client generated, passed through unchanged. */
  function GetState(m: Manager): (state: Option<string>)
    requires m.client.Some?
    ensures state == m.client.value.state
  {
    m.client.value.state
  }

  /**
   The scope list of `getAuthorizationUrl()`: always the two default scopes first; when
   the extra-scopes string is truthy they are followed by its comma-separated pieces,
   untrimmed and in order, so that joining them with commas gives the string back.
   */
  function Scopes(extra: Option<string>): (scopes: seq<string>)
    ensures |scopes| >= 2 && scopes[..2] == DefaultScopes
    ensures !Truthy(extra) ==> scopes == DefaultScopes
    ensures Truthy(extra) ==>
              && |scopes| == 2 + Occurrences(ScopeDelimiter, extra.value) + 1
              && Implode(ScopeDelimiter, scopes[2..]) == extra.value
              && (forall i :: 2 <= i < |scopes| ==> ScopeDelimiter !in scopes[i])
  {
    if Truthy(extra) then
      var pieces := Explode(ScopeDelimiter, extra.value);
      ImplodeExplode(ScopeDelimiter, extra.value);
      ExplodeCount(ScopeDelimiter, extra.value);
      assert (DefaultScopes + pieces)[2..] == pieces;
      DefaultScopes + pieces
    else
      DefaultScopes
  }

  /**
   `getAuthorizationUrl()`: asks the client for the URL with the scope list above. The
   client puts the state it generates (`freshState`, the SDK's random value) into the
   URL and remembers it, so `getState()` afterwards returns the URL's state.
   */
  function GetAuthorizationUrl(m: Manager, freshState: string): (r: Step<AuthorizationUrl>)
    requires m.client.Some?
    ensures r.value.scopes == Scopes(m.extraScopes)
    ensures r.manager.client.Some? && GetState(r.manager) == Some(r.value.state)
    ensures r.manager.client.value.options == m.client.value.options
    ensures r.manager.(client := m.client) == m
    ensures r.calls == [BuildAuthorizationUrl(r.value.scopes)]
  {
    var scopes := Scopes(m.extraScopes);
    var client := m.client.value.(state := Some(freshState));
    Step(m.(client := Some(client)), AuthorizationUrl(scopes, freshState), [BuildAuthorizationUrl(scopes)])
  }

  /**
   `authenticate()`: exchanges the request's authorization code. A granted token
   replaces the access token; an IdentityProviderException is swallowed (only logged)
   and leaves the access token as it was. Nothing else in the manager changes.
   */
  function Authenticate(m: Manager, code: Option<string>, reply: ExchangeReply): (r: Step<()>)
    requires m.client.Some?
    ensures reply.IdentityProviderRaised? ==> r.manager == m
    ensures reply.Granted? ==> r.manager.accessToken == Some(reply.token)
    ensures r.manager.(accessToken := m.accessToken) == m
    ensures r.calls == [ExchangeCode(code)]
  {
    var next := match reply
      case Granted(token) => m.(accessToken := Some(token))
      case IdentityProviderRaised(_) => m;
    Step(next, (), [ExchangeCode(code)])
  }

  /** What `getUserInfo()` yields: the resource owner (NULL when the client gave none), or the TypeError of a fetch with a NULL token. */
  datatype UserInfo =
    | Loaded(profile: Option<Profile>)
    | NullTokenError

  /**
   `getUserInfo()`: fetches the resource owner with the current access token only
   while no truthy owner is memoized; once one is, it is returned as is and the
   client is not asked again. The league client's `getResourceOwner()` only accepts
   a token object, so a fetch while the access token is NULL throws a TypeError.
   A loaded result is always what the memo holds afterwards.
   */
  function GetUserInfo(m: Manager, reply: Option<Profile>): (r: Step<UserInfo>)
    requires m.user.Some? || m.client.Some?
    ensures r.value.Loaded? ==> r.manager.user == r.value.profile
    ensures r.manager.(user := m.user) == m
    ensures m.user.Some? ==> r.value == Loaded(m.user) && r.calls == []
    ensures m.user.None? ==> r.calls == [FetchResourceOwner(m.accessToken)]
    ensures m.user.None? && m.accessToken.Some? ==> r.value == Loaded(reply)
    ensures r.value == NullTokenError <==> m.user.None? && m.accessToken.None?
  {
    if m.user.Some? then Step(m, Loaded(m.user), [])
    else if m.accessToken.None? then Step(m, NullTokenError, [FetchResourceOwner(None)])
    else Step(m.(user := reply), Loaded(reply), [FetchResourceOwner(m.accessToken)])
  }

  /** Once `getUserInfo()` has produced a profile, every later call returns it again without calling the client. */
  lemma GetUserInfoIdempotent(m: Manager, first: Option<Profile>, later: Option<Profile>)
    requires m.user.Some? || m.client.Some?
    requires GetUserInfo(m, first).value.Loaded? && GetUserInfo(m, first).value.profile.Some?
    ensures var s := GetUserInfo(m, first);
            GetUserInfo(s.manager, later) == Step(s.manager, s.value, [])
  {
  }

  /**
   `requestEndPoint()`: one authenticated request, with the current access token, to
   the Graph host followed by `path`; the parsed body, or `NULL` when the provider
   raises. The manager does not change.
   */
  function RequestEndPoint(m: Manager, httpMethod: string, path: string, reply: EndpointReply): (r: Step<Option<string>>)
    requires m.client.Some?
    ensures r.manager == m
    ensures r.value.None? <==> reply.EndpointRaised?
    ensures reply.Parsed? ==> r.value == Some(reply.body)
    ensures |r.calls| == 1 && r.calls[0].RequestGraph?
    ensures var c := r.calls[0];
            && c.httpMethod == httpMethod && c.token == m.accessToken
            && |c.url| == |GraphBase| + |path|
            && c.url[..|GraphBase|] == GraphBase && c.url[|GraphBase|..] == path
  {
    var url := GraphBase + path;
    var body := match reply
      case Parsed(b) => Some(b)
      case EndpointRaised(_) => None;
    Step(m, body, [RequestGraph(httpMethod, url, m.accessToken)])
  }
}
