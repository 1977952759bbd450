/** The authenticate tool (keycloak-agent/tools/authenticate.mjs): the OAuth2
    device flow against the realm's issuer, the claims of the issued access
    token, and `mapRole`, which turns the realm roles into one application role. */
module Authenticate {
  import opened Wrappers
  import opened Mcp
  import opened Oidc

  /** Realm role -> application role. */
  const RoleMap: map<string, string> := map[
    "coralflow-admin" := "Admin",
    "coralflow-project-manager" := "ProjectManager",
    "coralflow-spc" := "SPC",
    "coralflow-storeman" := "Storeman",
    "coralflow-system-admin" := "SystemAdmin",
    "coralflow-viewer" := "Viewer"
  ]

  /** The roles checked first, highest first. */
  const Priority: seq<string> := ["coralflow-system-admin", "coralflow-admin", "coralflow-project-manager"]

  /** The role of a user none of whose realm roles is recognised. */
  const DefaultRole: string := "Viewer"

  /** The index of the first element of `xs` that `accept` holds of, or `|xs|`
      when there is none: one `for ... of` loop with an early return. */
  function FirstIndex(xs: seq<string>, accept: string -> bool): (k: nat)
    ensures k <= |xs|
    ensures k < |xs| ==> accept(xs[k])
    ensures forall j :: 0 <= j < k ==> !accept(xs[j])
  {
    if xs == [] then 0
    else if accept(xs[0]) then 0
    else 1 + FirstIndex(xs[1..], accept)
  }

  /** `mapRole`: the first priority role the list includes wins; otherwise the
      first recognised role in list order; otherwise the default. The result
      always comes from the role map, and is either the default or the image
      of a role the user actually holds. */
  function MapRole(roles: seq<string>): (role: string)
    ensures role in RoleMap.Values
    ensures role == DefaultRole || exists i :: 0 <= i < |roles| && roles[i] in RoleMap && RoleMap[roles[i]] == role
  {
    var p := FirstIndex(Priority, held => held in roles);
    if p < |Priority| then
      assert exists i :: 0 <= i < |roles| && roles[i] == Priority[p];
      RoleMap[Priority[p]]
    else
      var k := FirstIndex(roles, known => known in RoleMap);
      if k < |roles| then
        assert roles[k] in RoleMap && RoleMap[roles[k]] in RoleMap.Values;
        RoleMap[roles[k]]
      else
        assert RoleMap["coralflow-viewer"] == DefaultRole;
        DefaultRole
  }

  /** The system administrator role decides the result wherever it appears. */
  lemma SystemAdminWins(roles: seq<string>)
    requires "coralflow-system-admin" in roles
    ensures MapRole(roles) == "SystemAdmin"
  {
    var accept := held => held in roles;
    assert accept(Priority[0]);
  }

  /** Priority is system-admin, then admin, then project-manager, whatever
      the positions of these roles in the list. */
  lemma PriorityOrder(roles: seq<string>)
    requires "coralflow-system-admin" !in roles
    ensures "coralflow-admin" in roles ==> MapRole(roles) == "Admin"
    ensures "coralflow-admin" !in roles && "coralflow-project-manager" in roles ==> MapRole(roles) == "ProjectManager"
  {
    var accept := held => held in roles;
    assert !accept(Priority[0]);
    if "coralflow-admin" in roles {
      assert accept(Priority[1]);
    } else if "coralflow-project-manager" in roles {
      assert !accept(Priority[1]) && accept(Priority[2]);
    }
  }

  /** With no priority role held, the first recognised role in list order
      decides, even when a higher role appears later. */
  lemma FirstRecognisedWins(roles: seq<string>, i: nat)
    requires forall p :: p in Priority ==> p !in roles
    requires i < |roles| && roles[i] in RoleMap
    requires forall j :: 0 <= j < i ==> roles[j] !in RoleMap
    ensures MapRole(roles) == RoleMap[roles[i]]
  {
    var accept := held => held in roles;
    assert forall q :: 0 <= q < |Priority| ==> !accept(Priority[q]);
    var known := r => r in RoleMap;
    assert known(roles[i]);
    assert forall j :: 0 <= j < i ==> !known(roles[j]);
  }

  /** The viewer role listed before the SPC role yields `Viewer`: list order,
      not privilege, breaks ties among non-priority roles. */
  lemma ViewerListedFirst()
    ensures MapRole(["coralflow-viewer", "coralflow-spc"]) == "Viewer"
  {
    FirstRecognisedWins(["coralflow-viewer", "coralflow-spc"], 0);
  }

  /** A list with no recognised role, empty ones included, maps to `Viewer`. */
  lemma UnrecognisedIsViewer(roles: seq<string>)
    requires forall i :: 0 <= i < |roles| ==> roles[i] !in RoleMap
    ensures MapRole(roles) == "Viewer"
  {
    var accept := held => held in roles;
    assert forall q :: 0 <= q < |Priority| ==> !accept(Priority[q]);
  }

  /** A token without `realm_access.roles` is treated as holding no role. */
  lemma MissingRealmRolesIsViewer(claims: Claims)
    requires claims.realmRoles.None?
    ensures RolesOf(claims) == [] && MapRole(RolesOf(claims)) == "Viewer"
  {
    UnrecognisedIsViewer([]);
  }

  /** The scope the device authorization asks for. */
  const DeviceScope: string := "openid profile email roles"

  /** `verification_uri_complete || verification_uri`: the reported URI is one
      the provider sent, the complete one whenever it is usable, and the user
      gets a usable URI exactly when the provider sent at least one. */
  function VerificationUri(handle: DeviceHandle): (uri: Option<string>)
    ensures uri == handle.verificationUriComplete || uri == handle.verificationUri
    ensures Truthy(handle.verificationUriComplete) ==> uri == handle.verificationUriComplete
    ensures Truthy(uri) <==> Truthy(handle.verificationUriComplete) || Truthy(handle.verificationUri)
  {
    if Truthy(handle.verificationUriComplete) then handle.verificationUriComplete else handle.verificationUri
  }

  /** The user record built from the decoded claims. */
  function UserOf(claims: Claims): User {
    User(claims.preferredUsername, claims.email, claims.name, MapRole(RolesOf(claims)), RolesOf(claims))
  }

  /** The client every call after discovery goes through. */
  function DeviceClient(env: Env): Client {
    Client(IssuerUrl(env), Some(ClientId(env)))
  }

  /** The `try` block of `authenticateTool`: discovery, client creation,
      device authorization, polling, decoding; the first step to fail ends it
      with its message. */
  function DeviceFlow(env: Env, provider: Provider, decode: Decoder): Outcome<Payload> {
    match provider.discover(IssuerUrl(env))
    case Failure(m) => Failure(m)
    case Success(_) =>
      match provider.createClient(DeviceClient(env))
      case Failure(m) => Failure(m)
      case Success(_) =>
        match provider.deviceAuthorization(DeviceClient(env), DeviceScope)
        case Failure(m) => Failure(m)
        case Success(handle) =>
          match provider.poll(handle)
          case Failure(m) => Failure(m)
          case Success(tokens) =>
            match decode(tokens.accessToken)
            case Failure(m) => Failure(m)
            case Success(claims) =>
              Success(DeviceLogin(true, VerificationUri(handle), handle.userCode, UserOf(claims),
                                  tokens.accessToken, tokens.refreshToken, tokens.expiresAt))
  }

  const AuthenticationFailed: string := "Authentication failed: "

  /** `authenticateTool`: a device-login payload whose role is the mapping of
      the roles it reports, or an internal error carrying the cause. */
  function AuthenticateTool(args: Args, env: Env, provider: Provider, decode: Decoder): (r: ToolReply)
    ensures r.Err? ==> r.error.code == InternalError && AuthenticationFailed <= r.error.message
    ensures r.Ok? ==> |r.value.content| == 1 && r.value.content[0].payload.DeviceLogin?
    ensures r.Ok? ==> var p := r.value.content[0].payload;
                      p.success && p.user.role == MapRole(p.user.roles)
  {
    match DeviceFlow(env, provider, decode)
    case Success(p) => Ok(TextResult(p))
    case Failure(m) => Err(McpError(InternalError, AuthenticationFailed + m))
  }

  /** When every step succeeds the payload reports the handle's URI (the
      complete one when present), its user code, the user with the mapped
      role and the roles unchanged, and the token set's fields unchanged. */
  lemma AuthenticateSucceeds(args: Args, env: Env, provider: Provider, decode: Decoder,
                             handle: DeviceHandle, tokens: TokenSet, claims: Claims)
    requires provider.discover(IssuerUrl(env)).Success?
    requires provider.createClient(DeviceClient(env)).Success?
    requires provider.deviceAuthorization(DeviceClient(env), DeviceScope) == Success(handle)
    requires provider.poll(handle) == Success(tokens)
    requires decode(tokens.accessToken) == Success(claims)
    ensures AuthenticateTool(args, env, provider, decode) ==
            Ok(TextResult(DeviceLogin(true, VerificationUri(handle), handle.userCode,
                                      User(claims.preferredUsername, claims.email, claims.name,
                                           MapRole(RolesOf(claims)), RolesOf(claims)),
                                      tokens.accessToken, tokens.refreshToken, tokens.expiresAt)))
  {
  }

  /** A failed discovery ends the flow: nothing else is asked of the provider
      and the error carries the discovery's message. */
  lemma DiscoveryFailureWrapped(args: Args, env: Env, provider: Provider, decode: Decoder, cause: string)
    requires provider.discover(IssuerUrl(env)) == Failure(cause)
    ensures AuthenticateTool(args, env, provider, decode) ==
            Err(McpError(InternalError, "Authentication failed: " + cause))
  {
  }

  /** A failure at client creation, device authorization or polling is
      wrapped the same way. */
  lemma DeviceStepFailureWrapped(args: Args, env: Env, provider: Provider, decode: Decoder, cause: string)
    requires provider.discover(IssuerUrl(env)).Success?
    requires || provider.createClient(DeviceClient(env)) == Failure(cause)
             || (provider.createClient(DeviceClient(env)).Success? &&
                 provider.deviceAuthorization(DeviceClient(env), DeviceScope) == Failure(cause))
             || (provider.createClient(DeviceClient(env)).Success? &&
                 exists handle :: provider.deviceAuthorization(DeviceClient(env), DeviceScope) == Success(handle)
                                  && provider.poll(handle) == Failure(cause))
    ensures AuthenticateTool(args, env, provider, decode) ==
            Err(McpError(InternalError, "Authentication failed: " + cause))
  {
  }

  /** A token whose payload cannot be decoded is wrapped the same way, after
      the provider has issued it. */
  lemma DecodeFailureWrapped(args: Args, env: Env, provider: Provider, decode: Decoder,
                             handle: DeviceHandle, tokens: TokenSet, cause: string)
    requires provider.discover(IssuerUrl(env)).Success?
    requires provider.createClient(DeviceClient(env)).Success?
    requires provider.deviceAuthorization(DeviceClient(env), DeviceScope) == Success(handle)
    requires provider.poll(handle) == Success(tokens)
    requires decode(tokens.accessToken) == Failure(cause)
    ensures AuthenticateTool(args, env, provider, decode) ==
            Err(McpError(InternalError, "Authentication failed: " + cause))
  {
  }

  /** The tool never reads its arguments. */
  lemma AuthenticateIgnoresArgs(a1: Args, a2: Args, env: Env, provider: Provider, decode: Decoder)
    ensures AuthenticateTool(a1, env, provider, decode) == AuthenticateTool(a2, env, provider, decode)
  {
  }
}
