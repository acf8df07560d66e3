/**
 * The generic OpenID Connect provider client: it derives the OAuth2 client
 * configuration from a lazily discovered provider, picks the extra
 * authorization-request options for a login flow, and turns the token
 * exchange result into verified claims.
 *
 * Network discovery, ID-token verification and claim decoding belong to
 * external libraries: the outcome of a discovery request is a parameter of
 * the operations that may issue one, and verification and decoding are
 * function parameters returning a `Result`.
 */
module GenericOIDC {
  import opened Results
  import LoginFlowPersister

  /** The scope OpenID Connect Core 1.0 (section 3.1.2.1) requires in every authentication request. */
  const ScopeOpenID: string := "openid"

  /** The key of the ID token among the token response's extra fields. */
  const IDTokenKey: string := "id_token"

  /** The path, under the public base URL, of the provider callback endpoint. */
  const CallbackPath: string := "/self-service/methods/oidc/callback/"

  /** The reason prefixed to a failed discovery. */
  const DiscoveryFailure: string := "Unable to initialize OpenID Connect ProviderMicrosoftOIDC: "

  /** The static per-provider configuration; `scope` is the configured scope list. */
  datatype Configuration = Configuration(
    id: string,
    issuerURL: string,
    clientID: string,
    clientSecret: string,
    scope: seq<string>)

  /** An OAuth2 authorization/token endpoint pair. */
  datatype Endpoint = Endpoint(authURL: string, tokenURL: string)

  /** What discovery yields: the issuer's metadata, of which the endpoint pair is used here. */
  datatype DiscoveredProvider = DiscoveredProvider(issuer: string, endpoint: Endpoint)

  /** The OAuth2 client configuration handed to the authorization-code flow. */
  datatype OAuth2Config = OAuth2Config(
    clientID: string,
    clientSecret: string,
    endpoint: Endpoint,
    scopes: seq<string>,
    redirectURL: string)

  /** An extra authorization-request parameter. */
  datatype AuthCodeOption = SetAuthURLParam(key: string, value: string)

  /** An extra field of a token response: a string or a value of any other type. */
  datatype ExtraValue = StringValue(s: string) | OtherValue

  /** The token exchange result, with the provider's extra response fields. */
  datatype Token = Token(accessToken: string, extra: map<string, ExtraValue>)

  /** An ID token that passed verification. */
  datatype IDToken = IDToken(subject: string, audience: string, payload: string)

  /** The identity claims decoded from a verified ID token. */
  datatype Claims = Claims(issuer: string, subject: string, attributes: map<string, string>)

  /** The error kinds the provider client reports. */
  datatype ProviderError = InternalServerError(reason: string) | IDTokenMissing | BadRequest(reason: string)

  /**
   * What the authorization-option policy is asked about: a login flow, or a
   * request of any other kind.
   */
  datatype Request = FlowRequest(flow: LoginFlowPersister.Flow) | OtherRequest

  /** Membership test over a string list, as a left-to-right scan. */
  function Has(haystack: seq<string>, needle: string): (b: bool)
    ensures b <==> needle in haystack
  {
    if haystack == [] then false
    else haystack[0] == needle || Has(haystack[1..], needle)
  }

  /**
   * The scopes requested: the configured ones, in their order and with any
   * duplicates, plus `openid` at the end when it is not among them.
   */
  function Scopes(scope: seq<string>): (r: seq<string>)
    ensures ScopeOpenID in r
    ensures |scope| <= |r| <= |scope| + 1 && r[..|scope|] == scope
    ensures |r| == |scope| <==> ScopeOpenID in scope
    ensures |r| == |scope| + 1 ==> r[|scope|] == ScopeOpenID
    ensures forall s :: s in r <==> s in scope || s == ScopeOpenID
  {
    if Has(scope, ScopeOpenID) then scope else scope + [ScopeOpenID]
  }

  /** Deriving the scopes of a derived list changes nothing. */
  lemma ScopesIdempotent(scope: seq<string>)
    ensures Scopes(Scopes(scope)) == Scopes(scope)
  {
  }

  /** The callback URL of the provider under the public base URL. */
  function Redir(config: Configuration, public: string): (u: string)
    ensures |u| == |public| + |CallbackPath| + |config.id|
    ensures u[..|public|] == public && u[|u| - |config.id|..] == config.id
  {
    public + CallbackPath + config.id
  }

  /**
   * The OAuth2 client configuration for a discovered endpoint: credentials
   * and endpoint verbatim, the derived scopes, the callback as redirect.
   */
  function ConfigFromEndpoint(config: Configuration, public: string, endpoint: Endpoint): (c: OAuth2Config)
    ensures c.clientID == config.clientID && c.clientSecret == config.clientSecret
    ensures c.endpoint == endpoint
    ensures ScopeOpenID in c.scopes
    ensures ScopeOpenID in config.scope ==> c.scopes == config.scope
    ensures ScopeOpenID !in config.scope ==> c.scopes == config.scope + [ScopeOpenID]
    ensures c.redirectURL == Redir(config, public)
  {
    OAuth2Config(config.clientID, config.clientSecret, endpoint, Scopes(config.scope), Redir(config, public))
  }

  /** A request asks for forced re-authentication when it is a login flow with its refresh flag set. */
  predicate IsForced(r: Request)
  {
    r.FlowRequest? && r.flow.refresh
  }

  /** The one option a forced request adds. */
  const PromptLogin: AuthCodeOption := SetAuthURLParam("prompt", "login")

  /** A forced request gets exactly `prompt=login`; any other request gets no option. */
  function AuthCodeURLOptions(r: Request): (opts: seq<AuthCodeOption>)
    ensures IsForced(r) <==> opts == [PromptLogin]
    ensures !IsForced(r) <==> opts == []
  {
    if IsForced(r) then [PromptLogin] else []
  }

  /** A flow that `ForceLoginFlow` has just stored asks the provider for a fresh login. */
  lemma ForcedFlowPromptsLogin(rows: map<LoginFlowPersister.Uuid, LoginFlowPersister.Flow>,
                               tenant: LoginFlowPersister.Uuid, id: LoginFlowPersister.Uuid)
    requires LoginFlowPersister.Lookup(rows, tenant, id).Ok?
    ensures LoginFlowPersister.Lookup(LoginFlowPersister.Forced(rows, tenant, id), tenant, id).Ok?
    ensures AuthCodeURLOptions(FlowRequest(
      LoginFlowPersister.Lookup(LoginFlowPersister.Forced(rows, tenant, id), tenant, id).value)) == [PromptLogin]
  {
  }

  /**
   * The raw ID token of a token response: present only as a non-empty
   * string under `id_token`.
   */
  function IDTokenOf(t: Token): (raw: Option<string>)
    ensures raw.Some? <==> IDTokenKey in t.extra && t.extra[IDTokenKey].StringValue? && t.extra[IDTokenKey].s != []
    ensures raw.Some? ==> raw.value != [] && t.extra[IDTokenKey] == StringValue(raw.value)
  {
    if IDTokenKey in t.extra then
      match t.extra[IDTokenKey]
      case StringValue(s) => if s == [] then None else Some(s)
      case OtherValue => None
    else None
  }

  /**
   * Verifies `raw` against the provider with a verifier bound to `clientID`,
   * then decodes the claims of the verified token. Either failure is a bad
   * request carrying the library's message; no claims come back then.
   */
  function VerifyAndDecodeClaims(clientID: string, provider: DiscoveredProvider, raw: string,
                                 verify: (DiscoveredProvider, string, string) -> Result<IDToken, string>,
                                 decode: IDToken -> Result<Claims, string>): (r: Result<Claims, ProviderError>)
    ensures r.Ok? <==>
      verify(provider, clientID, raw).Ok? && decode(verify(provider, clientID, raw).value).Ok?
    ensures r.Ok? ==> r.value == decode(verify(provider, clientID, raw).value).value
    ensures r.Err? ==> r.error.BadRequest?
    ensures verify(provider, clientID, raw).Err? ==> r.error.reason == verify(provider, clientID, raw).error
  {
    match verify(provider, clientID, raw)
    case Err(e) => Err(BadRequest(e))
    case Ok(token) =>
      match decode(token)
      case Err(e) => Err(BadRequest(e))
      case Ok(c) => Ok(c)
  }

  /**
   * A generic OpenID Connect provider client. `p` caches the discovered
   * provider once discovery succeeds; `requests` records the issuer URL of
   * every discovery request issued, in order.
   */
  class ProviderGenericOIDC {
    var p: Option<DiscoveredProvider>
    const config: Configuration
    const public: string
    ghost var requests: seq<string>

    constructor (config: Configuration, public: string)
      ensures this.config == config && this.public == public
      ensures p == None && requests == []
    {
      this.config := config;
      this.public := public;
      p := None;
      requests := [];
    }

    /**
     * The discovered provider. A cached one is returned without a discovery
     * request. Otherwise one request for `config.issuerURL` is issued, whose
     * result is `discovery`: a success is cached and returned, a failure is
     * an internal error that leaves the cache empty.
     */
    method Provider(discovery: Result<DiscoveredProvider, string>) returns (r: Result<DiscoveredProvider, ProviderError>)
      modifies this
      ensures old(p).Some? ==> r == Ok(old(p).value) && p == old(p) && requests == old(requests)
      ensures old(p).None? ==> requests == old(requests) + [config.issuerURL]
      ensures old(p).None? && discovery.Ok? ==> r == Ok(discovery.value) && p == Some(discovery.value)
      ensures old(p).None? && discovery.Err? ==>
        r == Err(InternalServerError(DiscoveryFailure + discovery.error)) && p == None
      ensures r.Err? ==> r.error.InternalServerError?
    {
      if p.None? {
        requests := requests + [config.issuerURL];
        match discovery {
          case Err(e) =>
            return Err(InternalServerError(DiscoveryFailure + e));
          case Ok(d) =>
            p := Some(d);
        }
      }
      return Ok(p.value);
    }

    /**
     * The OAuth2 client configuration: it fails exactly when discovery
     * fails, and is otherwise built from the discovered endpoint.
     */
    method OAuth2(discovery: Result<DiscoveredProvider, string>) returns (r: Result<OAuth2Config, ProviderError>)
      modifies this
      ensures old(p).Some? ==>
        p == old(p) && requests == old(requests)
        && r == Ok(ConfigFromEndpoint(config, public, old(p).value.endpoint))
      ensures old(p).None? ==> requests == old(requests) + [config.issuerURL]
      ensures old(p).None? && discovery.Ok? ==>
        p == Some(discovery.value) && r == Ok(ConfigFromEndpoint(config, public, discovery.value.endpoint))
      ensures old(p).None? && discovery.Err? ==>
        p == None && r == Err(InternalServerError(DiscoveryFailure + discovery.error))
    {
      var provider := Provider(discovery);
      if provider.Err? {
        return Err(provider.error);
      }
      return Ok(ConfigFromEndpoint(config, public, provider.value.endpoint));
    }

    /**
     * The claims of a token exchange. A missing, non-string or empty ID
     * token fails before anything else, with no discovery request; then
     * discovery may fail; then the token is verified for `config.clientID`
     * and its claims decoded.
     */
    method Claims(exchange: Token, discovery: Result<DiscoveredProvider, string>,
                  verify: (DiscoveredProvider, string, string) -> Result<IDToken, string>,
                  decode: IDToken -> Result<Claims, string>) returns (r: Result<Claims, ProviderError>)
      modifies this
      ensures IDTokenOf(exchange).None? ==>
        r == Err(IDTokenMissing) && p == old(p) && requests == old(requests)
      ensures IDTokenOf(exchange).Some? && old(p).Some? ==>
        p == old(p) && requests == old(requests)
        && r == VerifyAndDecodeClaims(config.clientID, old(p).value, IDTokenOf(exchange).value, verify, decode)
      ensures IDTokenOf(exchange).Some? && old(p).None? ==> requests == old(requests) + [config.issuerURL]
      ensures IDTokenOf(exchange).Some? && old(p).None? && discovery.Err? ==>
        p == None && r == Err(InternalServerError(DiscoveryFailure + discovery.error))
      ensures IDTokenOf(exchange).Some? && old(p).None? && discovery.Ok? ==>
        p == Some(discovery.value)
        && r == VerifyAndDecodeClaims(config.clientID, discovery.value, IDTokenOf(exchange).value, verify, decode)
    {
      var raw := IDTokenOf(exchange);
      if raw.None? {
        return Err(IDTokenMissing);
      }
      var provider := Provider(discovery);
      if provider.Err? {
        return Err(provider.error);
      }
      return VerifyAndDecodeClaims(config.clientID, provider.value, raw.value, verify, decode);
    }
  }
}
