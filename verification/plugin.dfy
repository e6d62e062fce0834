/**
 The `social_auth_microsoft` network plugin (`MicrosoftAuth`): checks that the
 application id and secret are configured and, if so, builds the league client
 from them, the absolute callback URL and the site's outbound HTTP proxy.
 */
module Plugin {
  import opened Wrappers
  import opened Php
  import opened External

  /** The module settings the plugin reads; each value is whatever the configuration holds, `NULL` if unset. */
  datatype Settings = Settings(appId: Option<string>, appSecret: Option<string>)

  /** What `getSdk()` yields: the client, `FALSE` for a plugin that is not configured, or the exception for a missing library. */
  datatype SdkResult =
    | Sdk(client: Client)
    | NotConfigured
    | LibraryMissing

  const ClientIdOption := "clientId"
  const ClientSecretOption := "clientSecret"
  const RedirectUriOption := "redirectUri"
  const ProxyOption := "proxy"

  /** The three options every client is constructed with. */
  const MandatoryOptions: set<string> := {ClientIdOption, ClientSecretOption, RedirectUriOption}

  /**
   `validateConfig()`: the plugin is configured when both the id and the secret are
   truthy, i.e. neither is missing nor PHP-empty (`NULL`, `""`, `"0"`).
   */
  function ValidateConfig(settings: Settings): (ok: bool)
    ensures ok <==> settings.appId !in {None, Some(""), Some("0")} && settings.appSecret !in {None, Some(""), Some("0")}
  {
    FalsyValues(settings.appId);
    FalsyValues(settings.appSecret);
    Truthy(settings.appId) && Truthy(settings.appSecret)
  }

  /**
   The options array `initSdk()` passes to the client constructor: the three mandatory
   settings, plus `proxy` only when the site's HTTP proxy URL is truthy.
   */
  function LeagueOptions(settings: Settings, callbackUrl: string, proxyUrl: Option<string>): (options: map<string, string>)
    requires ValidateConfig(settings)
    ensures options.Keys == MandatoryOptions + (if Truthy(proxyUrl) then {ProxyOption} else {})
    ensures options[ClientIdOption] == settings.appId.value
    ensures options[ClientSecretOption] == settings.appSecret.value
    ensures options[RedirectUriOption] == callbackUrl
    ensures ProxyOption in options ==> Some(options[ProxyOption]) == proxyUrl
  {
    var mandatory := map[
      ClientIdOption := settings.appId.value,
      ClientSecretOption := settings.appSecret.value,
      RedirectUriOption := callbackUrl
    ];
    if Truthy(proxyUrl) then mandatory[ProxyOption := proxyUrl.value] else mandatory
  }

  /**
   `initSdk()`: with the library class absent it raises before reading any setting;
   otherwise it returns `FALSE` exactly when validation fails, and a fresh client
   (no state yet) built from the league options when it succeeds.
   */
  function InitSdk(classExists: bool, settings: Settings, callbackUrl: string, proxyUrl: Option<string>): (r: SdkResult)
    ensures !classExists ==> r == LibraryMissing
    ensures classExists ==> (r == NotConfigured <==> !ValidateConfig(settings))
    ensures r.Sdk? <==> classExists && ValidateConfig(settings)
    ensures r.Sdk? ==> r.client.state == None
    ensures r.Sdk? ==> r.client.options.Keys == MandatoryOptions + (if Truthy(proxyUrl) then {ProxyOption} else {})
    ensures r.Sdk? ==>
              && r.client.options[ClientIdOption] == settings.appId.value
              && r.client.options[ClientSecretOption] == settings.appSecret.value
              && r.client.options[RedirectUriOption] == callbackUrl
    ensures r.Sdk? && Truthy(proxyUrl) ==> r.client.options[ProxyOption] == proxyUrl.value
  {
    if !classExists then LibraryMissing
    else if ValidateConfig(settings) then Sdk(Client(LeagueOptions(settings, callbackUrl, proxyUrl), None))
    else NotConfigured
  }
}
