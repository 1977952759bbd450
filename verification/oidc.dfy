/** The identity-provider side of the tools: configuration read from the
    environment, the claims decoded from an access token, and the
    openid-client collaborator reduced to calls that succeed or fail. */
module Oidc {
  import opened Wrappers

  /** The environment variables the tools and the server read; `None` is unset. */
  datatype Env = Env(
    keycloakUrl: Option<string>,
    realm: Option<string>,
    clientId: Option<string>,
    port: Option<string>)

  const DefaultKeycloakUrl: string := "http://localhost:8080"
  const DefaultRealm: string := "coralflow"
  const DefaultClientId: string := "coralflow-cli"

  /** `process.env.KEYCLOAK_URL || 'http://localhost:8080'`. */
  function KeycloakUrl(env: Env): string {
    OrElse(env.keycloakUrl, DefaultKeycloakUrl)
  }

  /** `process.env.KEYCLOAK_REALM || 'coralflow'`. */
  function Realm(env: Env): string {
    OrElse(env.realm, DefaultRealm)
  }

  /** `process.env.KEYCLOAK_CLIENT_ID || 'coralflow-cli'`. */
  function ClientId(env: Env): string {
    OrElse(env.clientId, DefaultClientId)
  }

  /** The issuer every tool discovers: `${KEYCLOAK_URL}/realms/${REALM}`. */
  function IssuerUrl(env: Env): string {
    KeycloakUrl(env) + "/realms/" + Realm(env)
  }

  /** With nothing configured the issuer is the local development realm; each
      variable that is set replaces its own default and nothing else. */
  lemma IssuerUrlFromSettings(env: Env)
    ensures !Truthy(env.keycloakUrl) && !Truthy(env.realm) ==>
              IssuerUrl(env) == "http://localhost:8080/realms/coralflow"
    ensures Truthy(env.keycloakUrl) && Truthy(env.realm) ==>
              IssuerUrl(env) == env.keycloakUrl.value + "/realms/" + env.realm.value
    ensures Truthy(env.keycloakUrl) && !Truthy(env.realm) ==>
              IssuerUrl(env) == env.keycloakUrl.value + "/realms/coralflow"
    ensures !Truthy(env.keycloakUrl) && Truthy(env.realm) ==>
              IssuerUrl(env) == "http://localhost:8080/realms/" + env.realm.value
  {
  }

  /** A client of the discovered issuer, created with
      `token_endpoint_auth_method: 'none'` and this `client_id`. */
  datatype Client = Client(issuerUrl: string, clientId: Option<string>)

  /** What `client.deviceAuthorization(...)` resolves to. */
  datatype DeviceHandle = DeviceHandle(
    verificationUriComplete: Option<string>,
    verificationUri: Option<string>,
    userCode: Option<string>)

  /** The token set the provider issues. */
  datatype TokenSet = TokenSet(
    accessToken: string,
    refreshToken: Option<string>,
    expiresAt: Option<int>)

  /** The claims read from the middle segment of an access token.  They are
      decoded, never verified. `realmRoles` is `realm_access.roles`. */
  datatype Claims = Claims(
    preferredUsername: Option<string>,
    email: Option<string>,
    name: Option<string>,
    realmRoles: Option<seq<string>>,
    exp: Option<int>)

  /** `payload.realm_access?.roles || []`. */
  function RolesOf(claims: Claims): seq<string> {
    claims.realmRoles.GetOr([])
  }

  /** The openid-client calls the tools make, each resolving or rejecting.
      `createClient` is `new issuer.Client(...)` on the discovered issuer,
      which throws, for instance, when the `client_id` is missing. */
  datatype Provider = Provider(
    discover: string -> Outcome<()>,
    createClient: Client -> Outcome<()>,
    deviceAuthorization: (Client, string) -> Outcome<DeviceHandle>,
    poll: DeviceHandle -> Outcome<TokenSet>,
    refresh: (Client, string) -> Outcome<TokenSet>,
    userinfo: (Client, string) -> Outcome<()>)

  /** Splitting a token on `.`, base64-decoding the middle segment and
      `JSON.parse`: a partial step that may throw with a message. */
  type Decoder = string -> Outcome<Claims>
}
