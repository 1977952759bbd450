/** The validate tool (keycloak-agent/tools/validate.mjs): a guard on the
    token, a local expiry check on the decoded claims, a userinfo round trip
    with the provider, then the user record. The file carries its own copy of
    `mapRole`, modelled here as written there and proved equal to the one in
    the authenticate tool. */
module Validate {
  import opened Wrappers
  import opened Mcp
  import opened Oidc
  import Authenticate

  /** This file's own role map literal. */
  const RoleMap: map<string, string> := map[
    "coralflow-admin" := "Admin",
    "coralflow-project-manager" := "ProjectManager",
    "coralflow-spc" := "SPC",
    "coralflow-storeman" := "Storeman",
    "coralflow-system-admin" := "SystemAdmin",
    "coralflow-viewer" := "Viewer"
  ]

  /** This file's own priority list. */
  const Priority: seq<string> := ["coralflow-system-admin", "coralflow-admin", "coralflow-project-manager"]

  /** The first loop, from position `i` of the priority list on: the mapped
      value of the first priority role the list includes. */
  function PriorityFrom(roles: seq<string>, i: nat): Option<string>
    requires i <= |Priority|
    decreases |Priority| - i
  {
    if i == |Priority| then None
    else if Priority[i] in roles then Some(RoleMap[Priority[i]])
    else PriorityFrom(roles, i + 1)
  }

  /** The second loop, from position `i` of the role list on: the mapped
      value of the first role the map knows. */
  function ScanFrom(roles: seq<string>, i: nat): Option<string>
    requires i <= |roles|
    decreases |roles| - i
  {
    if i == |roles| then None
    else if roles[i] in RoleMap then Some(RoleMap[roles[i]])
    else ScanFrom(roles, i + 1)
  }

  /** This file's `mapRole`. */
  function MapRole(roles: seq<string>): string {
    match PriorityFrom(roles, 0)
    case Some(role) => role
    case None =>
      match ScanFrom(roles, 0)
      case Some(role) => role
      case None => "Viewer"
  }

  /** The second loop stops at the first recognised role from `i` on, or runs
      off the end when there is none. */
  lemma {:induction false} ScanFromStops(roles: seq<string>, i: nat) returns (k: nat)
    requires i <= |roles|
    ensures i <= k <= |roles|
    ensures forall j :: i <= j < k ==> roles[j] !in RoleMap
    ensures k < |roles| ==> roles[k] in RoleMap && ScanFrom(roles, i) == Some(RoleMap[roles[k]])
    ensures k == |roles| ==> ScanFrom(roles, i) == None
    decreases |roles| - i
  {
    if i == |roles| || roles[i] in RoleMap {
      k := i;
    } else {
      k := ScanFromStops(roles, i + 1);
    }
  }

  /** The two copies of `mapRole` compute the same function. */
  lemma MapRoleCopiesAgree(roles: seq<string>)
    ensures MapRole(roles) == Authenticate.MapRole(roles)
  {
    assert RoleMap == Authenticate.RoleMap;
    if "coralflow-system-admin" in roles {
      Authenticate.SystemAdminWins(roles);
    } else if "coralflow-admin" in roles {
      assert PriorityFrom(roles, 0) == PriorityFrom(roles, 1);
      Authenticate.PriorityOrder(roles);
    } else if "coralflow-project-manager" in roles {
      assert PriorityFrom(roles, 0) == PriorityFrom(roles, 1) == PriorityFrom(roles, 2);
      Authenticate.PriorityOrder(roles);
    } else {
      assert PriorityFrom(roles, 0) == PriorityFrom(roles, 1) == PriorityFrom(roles, 2) == PriorityFrom(roles, 3);
      var k := ScanFromStops(roles, 0);
      if k < |roles| {
        Authenticate.FirstRecognisedWins(roles, k);
      } else {
        Authenticate.UnrecognisedIsViewer(roles);
      }
    }
  }

  const TokenRequired: string := "Token required"
  const TokenExpired: string := "Token expired"
  const TokenRejected: string := "Token validation failed"
  const ValidationFailed: string := "Validation failed: "

  /** `payload.exp && payload.exp < now`: a missing or zero `exp` never
      expires, and a token whose `exp` is `now` is still current. */
  predicate Expired(claims: Claims, now: int) {
    claims.exp.Some? && claims.exp.value != 0 && claims.exp.value < now
  }

  /** The user record built from the decoded claims, with this file's `mapRole`. */
  function UserOf(claims: Claims): User {
    User(claims.preferredUsername, claims.email, claims.name, MapRole(RolesOf(claims)), RolesOf(claims))
  }

  /** The userinfo client: its `client_id` is the raw `KEYCLOAK_CLIENT_ID`,
      with no default. */
  function UserinfoClient(env: Env): Client {
    Client(IssuerUrl(env), env.clientId)
  }

  /** The `try` block of `validateTool`. `now` is the current time in whole
      seconds. */
  function Validation(args: Args, env: Env, now: int, provider: Provider, decode: Decoder): Result<Payload, Raised> {
    var token := Field(args, "token");
    if !Truthy(token) then
      Err(Raised(McpError(InvalidParams, TokenRequired)))
    else
      match decode(token.value)
      case Failure(m) => Err(Rejected(m))
      case Success(claims) =>
        if Expired(claims, now) then
          Ok(Verdict(false, TokenExpired))
        else
          match provider.discover(IssuerUrl(env))
          case Failure(m) => Err(Rejected(m))
          case Success(_) =>
            match provider.createClient(UserinfoClient(env))
            case Failure(m) => Err(Rejected(m))
            case Success(_) =>
              match provider.userinfo(UserinfoClient(env), token.value)
              case Failure(_) => Ok(Verdict(false, TokenRejected))
              case Success(_) => Ok(Verified(true, UserOf(claims)))
  }

  /** `validateTool`: a verdict (expired or rejected) or a verified user whose
      role is the mapping of the roles reported; anything thrown, the missing
      token included, becomes an internal error with the prefixed message. */
  function ValidateTool(args: Args, env: Env, now: int, provider: Provider, decode: Decoder): (r: ToolReply)
    ensures r.Err? ==> r.error.code == InternalError && ValidationFailed <= r.error.message
    ensures r.Ok? ==> |r.value.content| == 1
    ensures r.Ok? ==> var p := r.value.content[0].payload;
                      || (p.Verdict? && !p.valid && (p.error == TokenExpired || p.error == TokenRejected))
                      || (p.Verified? && p.valid && p.user.role == Authenticate.MapRole(p.user.roles))
  {
    match Validation(args, env, now, provider, decode)
    case Ok(p) =>
      if p.Verified? then MapRoleCopiesAgree(p.user.roles); Ok(TextResult(p))
      else Ok(TextResult(p))
    case Err(e) => Err(McpError(InternalError, ValidationFailed + e.Message()))
  }

  /** A missing or empty token fails before anything is decoded or asked of
      the provider, and the `InvalidParams` error it raises surfaces re-wrapped
      as an internal error. */
  lemma MissingTokenFailsFirst(args: Args, env: Env, now: int, provider: Provider, decode: Decoder)
    requires !Truthy(Field(args, "token"))
    ensures ValidateTool(args, env, now, provider, decode) ==
            Err(McpError(InternalError, "Validation failed: Token required"))
  {
    assert ValidationFailed + TokenRequired == "Validation failed: Token required";
  }

  /** A decoding failure is wrapped with its own message. */
  lemma DecodeFailureWrapped(args: Args, env: Env, now: int, provider: Provider, decode: Decoder, cause: string)
    requires Truthy(Field(args, "token")) && decode(args["token"]) == Failure(cause)
    ensures ValidateTool(args, env, now, provider, decode) ==
            Err(McpError(InternalError, "Validation failed: " + cause))
  {
  }

  /** An expired token is answered locally: the provider is never consulted. */
  lemma ExpiredAnsweredLocally(args: Args, env: Env, now: int, provider: Provider, decode: Decoder, claims: Claims)
    requires Truthy(Field(args, "token")) && decode(args["token"]) == Success(claims)
    requires Expired(claims, now)
    ensures ValidateTool(args, env, now, provider, decode) == Ok(TextResult(Verdict(false, "Token expired")))
  {
  }

  /** The boundary of the local check: an `exp` equal to `now`, a zero `exp`
      and a missing `exp` are not rejected locally, one second in the past is. */
  lemma ExpiryBoundary(claims: Claims, now: int)
    ensures claims.exp == Some(now) ==> !Expired(claims, now)
    ensures claims.exp == Some(0) || claims.exp == None ==> !Expired(claims, now)
    ensures claims.exp == Some(now - 1) && now != 1 ==> Expired(claims, now)
  {
  }

  /** A failed discovery after the local check is wrapped with its message. */
  lemma DiscoveryFailureWrapped(args: Args, env: Env, now: int, provider: Provider, decode: Decoder,
                                claims: Claims, cause: string)
    requires Truthy(Field(args, "token")) && decode(args["token"]) == Success(claims)
    requires !Expired(claims, now)
    requires provider.discover(IssuerUrl(env)) == Failure(cause)
    ensures ValidateTool(args, env, now, provider, decode) ==
            Err(McpError(InternalError, "Validation failed: " + cause))
  {
  }

  /** The userinfo client is created outside the inner `try`: when creating it
      throws, the error is wrapped with its message instead of becoming a
      verdict. */
  lemma ClientFailureWrapped(args: Args, env: Env, now: int, provider: Provider, decode: Decoder,
                             claims: Claims, cause: string)
    requires Truthy(Field(args, "token")) && decode(args["token"]) == Success(claims)
    requires !Expired(claims, now)
    requires provider.discover(IssuerUrl(env)).Success?
    requires provider.createClient(UserinfoClient(env)) == Failure(cause)
    ensures ValidateTool(args, env, now, provider, decode) ==
            Err(McpError(InternalError, "Validation failed: " + cause))
  {
  }

  /** With `KEYCLOAK_CLIENT_ID` unset or empty, and a client library that
      refuses a client without an id, no current token is ever accepted or
      refused by the provider: every one ends in an internal error. */
  lemma UnsetClientIdFailsCurrentTokens(args: Args, env: Env, now: int, provider: Provider, decode: Decoder,
                                        claims: Claims)
    requires !Truthy(env.clientId)
    requires forall c: Client :: !Truthy(c.clientId) ==> provider.createClient(c).Failure?
    requires Truthy(Field(args, "token")) && decode(args["token"]) == Success(claims)
    requires !Expired(claims, now)
    requires provider.discover(IssuerUrl(env)).Success?
    ensures ValidateTool(args, env, now, provider, decode).Err?
    ensures ValidateTool(args, env, now, provider, decode).error.code == InternalError
  {
    var cause := provider.createClient(UserinfoClient(env)).message;
    ClientFailureWrapped(args, env, now, provider, decode, claims, cause);
  }

  /** A token the provider's userinfo endpoint refuses is reported as invalid,
      not thrown. */
  lemma UserinfoRefusalIsVerdict(args: Args, env: Env, now: int, provider: Provider, decode: Decoder, claims: Claims)
    requires Truthy(Field(args, "token")) && decode(args["token"]) == Success(claims)
    requires !Expired(claims, now)
    requires provider.discover(IssuerUrl(env)).Success?
    requires provider.createClient(UserinfoClient(env)).Success?
    requires provider.userinfo(UserinfoClient(env), args["token"]).Failure?
    ensures ValidateTool(args, env, now, provider, decode) ==
            Ok(TextResult(Verdict(false, "Token validation failed")))
  {
  }

  /** An accepted token yields the user with the mapped role and the realm
      roles echoed unchanged. */
  lemma AcceptedTokenReportsUser(args: Args, env: Env, now: int, provider: Provider, decode: Decoder, claims: Claims)
    requires Truthy(Field(args, "token")) && decode(args["token"]) == Success(claims)
    requires !Expired(claims, now)
    requires provider.discover(IssuerUrl(env)).Success?
    requires provider.createClient(UserinfoClient(env)).Success?
    requires provider.userinfo(UserinfoClient(env), args["token"]).Success?
    ensures ValidateTool(args, env, now, provider, decode) ==
            Ok(TextResult(Verified(true, User(claims.preferredUsername, claims.email, claims.name,
                                              Authenticate.MapRole(RolesOf(claims)), RolesOf(claims)))))
  {
    MapRoleCopiesAgree(RolesOf(claims));
  }
}
