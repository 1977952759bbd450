/** The refresh tool (keycloak-agent/tools/refresh.mjs): exchange a refresh
    token for a new token set and pass its fields through. */
module Refresh {
  import opened Wrappers
  import opened Mcp
  import opened Oidc

  const RefreshTokenRequired: string := "Refresh token required"
  const RefreshFailed: string := "Refresh failed: "

  /** The client the exchange goes through: the configured client id, with
      its default. */
  function RefreshClient(env: Env): Client {
    Client(IssuerUrl(env), Some(ClientId(env)))
  }

  /** The `try` block of `refreshTool`. */
  function Refreshing(args: Args, env: Env, provider: Provider): Result<Payload, Raised> {
    var refreshToken := Field(args, "refreshToken");
    if !Truthy(refreshToken) then
      Err(Raised(McpError(InvalidParams, RefreshTokenRequired)))
    else
      match provider.discover(IssuerUrl(env))
      case Failure(m) => Err(Rejected(m))
      case Success(_) =>
        match provider.createClient(RefreshClient(env))
        case Failure(m) => Err(Rejected(m))
        case Success(_) =>
          match provider.refresh(RefreshClient(env), refreshToken.value)
          case Failure(m) => Err(Rejected(m))
          case Success(tokens) => Ok(Refreshed(true, tokens.accessToken, tokens.refreshToken, tokens.expiresAt))
  }

  /** `refreshTool`: a successful token-set payload, or an internal error with
      the prefixed cause; the missing-token `InvalidParams` error is caught
      and re-wrapped like any other. */
  function RefreshTool(args: Args, env: Env, provider: Provider): (r: ToolReply)
    ensures r.Err? ==> r.error.code == InternalError && RefreshFailed <= r.error.message
    ensures r.Ok? ==> |r.value.content| == 1 && r.value.content[0].payload.Refreshed?
                      && r.value.content[0].payload.success
  {
    match Refreshing(args, env, provider)
    case Ok(p) => Ok(TextResult(p))
    case Err(e) => Err(McpError(InternalError, RefreshFailed + e.Message()))
  }

  /** A missing or empty refresh token fails without any call to the provider. */
  lemma MissingRefreshTokenFailsFirst(args: Args, env: Env, provider: Provider)
    requires !Truthy(Field(args, "refreshToken"))
    ensures RefreshTool(args, env, provider) ==
            Err(McpError(InternalError, "Refresh failed: Refresh token required"))
  {
    assert RefreshFailed + RefreshTokenRequired == "Refresh failed: Refresh token required";
  }

  /** The new token set's access token, refresh token and expiry are passed
      through unchanged. */
  lemma RefreshPassesTokenSetThrough(args: Args, env: Env, provider: Provider, tokens: TokenSet)
    requires Truthy(Field(args, "refreshToken"))
    requires provider.discover(IssuerUrl(env)).Success?
    requires provider.createClient(RefreshClient(env)).Success?
    requires provider.refresh(RefreshClient(env), args["refreshToken"]) == Success(tokens)
    ensures RefreshTool(args, env, provider) ==
            Ok(TextResult(Refreshed(true, tokens.accessToken, tokens.refreshToken, tokens.expiresAt)))
  {
  }

  /** A failed discovery, a client that cannot be created or a refused
      exchange is wrapped with its message. */
  lemma ProviderFailureWrapped(args: Args, env: Env, provider: Provider, cause: string)
    requires Truthy(Field(args, "refreshToken"))
    requires || provider.discover(IssuerUrl(env)) == Failure(cause)
             || (provider.discover(IssuerUrl(env)).Success? &&
                 provider.createClient(RefreshClient(env)) == Failure(cause))
             || (provider.discover(IssuerUrl(env)).Success? &&
                 provider.createClient(RefreshClient(env)).Success? &&
                 provider.refresh(RefreshClient(env), args["refreshToken"]) == Failure(cause))
    ensures RefreshTool(args, env, provider) == Err(McpError(InternalError, "Refresh failed: " + cause))
  {
  }

  /** With nothing configured the exchange goes to the local development
      realm as the `coralflow-cli` client. */
  lemma RefreshClientDefaults(env: Env)
    requires !Truthy(env.keycloakUrl) && !Truthy(env.realm) && !Truthy(env.clientId)
    ensures RefreshClient(env) == Client("http://localhost:8080/realms/coralflow", Some("coralflow-cli"))
  {
    IssuerUrlFromSettings(env);
  }
}
