/**
 What the plugin hands to code outside this model: the league OAuth2 client
 for the Microsoft provider, the provider's answers, and the social_auth user
 manager. The provider's answers are parameters of the model; every call the
 plugin makes across this boundary is recorded as a `Call`, so that the order
 of calls can be stated.
 */
module External {
  import opened Wrappers

  /** The access token object the provider returns; opaque here. */
  type Token = string

  /**
   The league client object: the options it was constructed with and the state it
   generated while building the last authorization URL (`NULL` before that).
   */
  datatype Client = Client(options: map<string, string>, state: Option<string>)

  /** The provider authorization URL, kept as the two parameters the plugin controls. */
  datatype AuthorizationUrl = AuthorizationUrl(scopes: seq<string>, state: string)

  /** The provider's answer to the authorization-code exchange. */
  datatype ExchangeReply =
    | Granted(token: Token)
    | IdentityProviderRaised(message: string)

  /** The provider's answer to an authenticated Graph request. */
  datatype EndpointReply =
    | Parsed(body: string)
    | EndpointRaised(message: string)

  /** The resource owner's profile, as far as the controller reads it. */
  datatype Profile = Profile(name: string, email: string, id: string)

  /** A call made across the boundary, with the arguments that matter. */
  datatype Call =
    | BuildAuthorizationUrl(scopes: seq<string>)
    | ExchangeCode(code: Option<string>)
    | FetchResourceOwner(token: Option<Token>)
    | RequestGraph(httpMethod: string, url: string, token: Option<Token>)
    | AuthenticateUser(name: string, email: string, id: string, token: Option<Token>)
}
