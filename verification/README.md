# keycloak-agent in Dafny

A model of the keycloak-agent MCP server. The server is an authentication
broker. It exposes four tools over a session-oriented JSON-RPC transport on
HTTP: device-flow login (`authenticate`), token validation (`validate`), token
refresh (`refresh`) and `logout`. Keycloak is the OpenID Connect provider
behind them.

The model has one module per source file, plus three shared modules:

- `Wrappers` (wrappers.dfy): `Option`, `Result` and `Outcome`, and JavaScript
  truthiness for optional strings (`undefined` and `""` are falsy).
- `Mcp` (mcp.dfy): the error kinds `InvalidParams`, `MethodNotFound` and
  `InternalError`; the thrown `McpError`; and the payload each tool serialises
  into its single text content item.
- `Oidc` (oidc.dfy): the environment settings and their defaults, the issuer
  URL, the decoded token claims and the token set. It also holds the
  openid-client collaborator, reduced to calls that either succeed with a
  value or fail with a message. The collaborator is passed in as a parameter.
- `Authenticate` (authenticate.dfy): `mapRole` and `authenticateTool`.
- `Validate` (validate.dfy): `validateTool`, and the file's own copy of
  `mapRole`, proved equal to the one in `Authenticate`.
- `Refresh` (refresh.dfy), `Logout` (logout.dfy): the other two tools.
- `Registry` (registry.dfy): the `tools/call` dispatcher and the `tools/list`
  catalogue.
- `Server` (server.dfy): the HTTP request handler. It is imperative, like the
  source. The class `HttpServer` owns the session table, a field
  `sessions: map<string, Entry>` that the handler and the transport callbacks
  update in place. `Transport` and `McpServerInstance` are classes, so
  "exactly one new pair is created" can be stated with `fresh`. The router's
  decision is the function `Decide` and the reply is `ReplyFor`. The method
  `Serve` is proved to follow both. The module also models the `PORT` default,
  with `parseInt` on decimal numerals.

Behaviour of the code worth knowing, all of it stated and proved below:

- `validate` without a token, and `refresh` without a refresh token, throw
  `InvalidParams` inside the handler's own `try`. The `catch` re-wraps every
  error as `InternalError` with a prefixed message, for example
  `"Validation failed: Token required"`, so `InvalidParams` never reaches
  the caller.
- `mapRole` checks three priority roles first. Among the other roles, list
  order decides, not privilege. So `['coralflow-viewer', 'coralflow-spc']`
  maps to `Viewer` (`Authenticate.ViewerListedFirst`).
- `/health` echoes the raw `KEYCLOAK_URL` and `KEYCLOAK_REALM` values, which
  may be unset. The tools' defaults are not applied there.
- The client in `validate` is created with the raw `KEYCLOAK_CLIENT_ID`,
  with no `coralflow-cli` default (`Validate.UserinfoClient`). It is created
  outside the inner `try` that turns a userinfo failure into a verdict. So
  when client creation throws, for example because the id is unset, a
  current token ends in an `InternalError`
  (`Validate.UnsetClientIdFailsCurrentTokens`).

## Model

| member | source | states |
|---|---|---|
| `Oidc.IssuerUrlFromSettings` | keycloak-agent/tools/authenticate.mjs:3-12 | The issuer is `KEYCLOAK_URL + "/realms/" + REALM`. Each variable that is set replaces only its own default, in all four combinations. With nothing configured it is `http://localhost:8080/realms/coralflow`. |
| `Authenticate.FirstIndex` | keycloak-agent/tools/authenticate.mjs:85-96 | Returns the position of the first element the test accepts, or the length of the list when there is none. No earlier element is accepted. This is each of `mapRole`'s two early-return loops. |
| `Authenticate.MapRole` | keycloak-agent/tools/authenticate.mjs:73-99 | Total. The result is always one of the six role-map values. It is either `Viewer` or the mapping of a role the user actually holds. |
| `Authenticate.SystemAdminWins` | keycloak-agent/tools/authenticate.mjs:84-89 | If `coralflow-system-admin` is anywhere in the list, the result is `SystemAdmin`. |
| `Authenticate.PriorityOrder` | keycloak-agent/tools/authenticate.mjs:84-89 | Without system-admin: admin gives `Admin`. Without both: project-manager gives `ProjectManager`. List position does not matter. |
| `Authenticate.FirstRecognisedWins` | keycloak-agent/tools/authenticate.mjs:91-96 | With no priority role held, the first recognised role in list order decides. |
| `Authenticate.ViewerListedFirst` | keycloak-agent/tools/authenticate.mjs:91-96 | `['coralflow-viewer','coralflow-spc']` maps to `Viewer`. |
| `Authenticate.UnrecognisedIsViewer` | keycloak-agent/tools/authenticate.mjs:91-98 | A list with no recognised role, including the empty list, maps to `Viewer`. |
| `Authenticate.MissingRealmRolesIsViewer` | keycloak-agent/tools/authenticate.mjs:41-42 | A missing `realm_access.roles` counts as the empty list and maps to `Viewer`. |
| `Authenticate.VerificationUri` | keycloak-agent/tools/authenticate.mjs:25 | The reported URI is always one the provider sent, and the complete one whenever it is usable. The user gets a usable URI exactly when the provider sent at least one. |
| `Authenticate.AuthenticateTool` | keycloak-agent/tools/authenticate.mjs:7-70 | Success is one text item carrying a device-login payload with `success: true`, whose role is the mapping of the roles it reports. Failure is always `InternalError`, with a message that starts `"Authentication failed: "`. |
| `Authenticate.AuthenticateSucceeds` | keycloak-agent/tools/authenticate.mjs:11-63 | When every step succeeds, the payload carries the URI fallback and the user code. The user has the mapped role and the roles unchanged. The token, refresh token and expiry are copied from the token set. |
| `Authenticate.DiscoveryFailureWrapped` | keycloak-agent/tools/authenticate.mjs:12-69 | A failed discovery gives `InternalError` `"Authentication failed: " + cause`. No later call matters. |
| `Authenticate.DeviceStepFailureWrapped` | keycloak-agent/tools/authenticate.mjs:15-69 | A failed client creation, device authorization or poll is wrapped the same way, with its own message. |
| `Authenticate.DecodeFailureWrapped` | keycloak-agent/tools/authenticate.mjs:37-69 | A token set whose access token cannot be decoded gives `InternalError` `"Authentication failed: " + cause`. |
| `Authenticate.AuthenticateIgnoresArgs` | keycloak-agent/tools/authenticate.mjs:7 | The tool never reads `args`. |
| `Validate.ScanFromStops` | keycloak-agent/tools/validate.mjs:97-101 | This file's second loop returns the mapping of the first recognised role, or nothing when no role is recognised. |
| `Validate.MapRoleCopiesAgree` | keycloak-agent/tools/validate.mjs:80-104 | This file's `mapRole` computes the same function as the one in authenticate.mjs, for every list. |
| `Validate.ValidateTool` | keycloak-agent/tools/validate.mjs:6-78 | Success is one text item. It is either a `valid: false` verdict (`Token expired` or `Token validation failed`) or a `valid: true` user whose role is `mapRole` of the reported roles. Every error is `InternalError` prefixed `"Validation failed: "`. `InvalidParams` never surfaces. |
| `Validate.MissingTokenFailsFirst` | keycloak-agent/tools/validate.mjs:8-11 | A missing or empty token gives `InternalError` `"Validation failed: Token required"`, because the catch at lines 72-76 re-wraps it. This holds whatever the decoder and the provider would do. |
| `Validate.DecodeFailureWrapped` | keycloak-agent/tools/validate.mjs:14-16 | A decoding failure gives `InternalError` `"Validation failed: " + cause`. |
| `Validate.ExpiredAnsweredLocally` | keycloak-agent/tools/validate.mjs:19-30 | A truthy `exp` below `now` gives `{valid:false, error:'Token expired'}`, whatever the provider would answer. |
| `Validate.ExpiryBoundary` | keycloak-agent/tools/validate.mjs:20 | `exp == now`, `exp == 0` and a missing `exp` all pass the local check. One second in the past fails it. |
| `Validate.DiscoveryFailureWrapped` | keycloak-agent/tools/validate.mjs:33-38 | A failed discovery after the local check gives `InternalError` `"Validation failed: " + cause`. |
| `Validate.ClientFailureWrapped` | keycloak-agent/tools/validate.mjs:35-38 | Client creation happens outside the inner `try`. When it throws, the result is `InternalError` `"Validation failed: " + cause`, not a verdict. |
| `Validate.UnsetClientIdFailsCurrentTokens` | keycloak-agent/tools/validate.mjs:33-41 | With `KEYCLOAK_CLIENT_ID` unset or empty, and a client library that refuses a client without an id, every current token ends in `InternalError`. It is neither accepted nor given a verdict. |
| `Validate.UserinfoRefusalIsVerdict` | keycloak-agent/tools/validate.mjs:40-52 | A userinfo failure gives `{valid:false, error:'Token validation failed'}`, not an error. |
| `Validate.AcceptedTokenReportsUser` | keycloak-agent/tools/validate.mjs:54-71 | On success: `valid: true`, the claims' username, email and name, `role = mapRole(roles)`, and the roles echoed unchanged. |
| `Refresh.RefreshTool` | keycloak-agent/tools/refresh.mjs:7-40 | Success is one text item carrying a refreshed payload with `success: true`. Every error is `InternalError` prefixed `"Refresh failed: "`. |
| `Refresh.MissingRefreshTokenFailsFirst` | keycloak-agent/tools/refresh.mjs:9-12 | A missing or empty `refreshToken` gives `InternalError` `"Refresh failed: Refresh token required"`. The provider is never called. |
| `Refresh.RefreshPassesTokenSetThrough` | keycloak-agent/tools/refresh.mjs:21-33 | `token`, `refresh_token` and `expires_at` are copied unchanged from the new token set. |
| `Refresh.ProviderFailureWrapped` | keycloak-agent/tools/refresh.mjs:14-38 | A failed discovery, client creation or refresh exchange gives `InternalError` `"Refresh failed: " + cause`. |
| `Refresh.RefreshClientDefaults` | keycloak-agent/tools/refresh.mjs:3-18 | With nothing configured, the exchange uses issuer `http://localhost:8080/realms/coralflow` and client `coralflow-cli`. |
| `Logout.LogoutTool` | tools/logout.mjs:1-20 | Always succeeds (the `InternalError` catch is unreachable). The result is exactly one text item: `{success: true, message: 'Logout successful'}`. |
| `Logout.LogoutIgnoresArgs` | tools/logout.mjs:1-13 | The result does not depend on `args`. |
| `Registry.CallTool` | tools/index.mjs:8-32 | An unknown name fails with `MethodNotFound` `"Unknown tool: " + name`. A known name never does. All other errors are the handlers' `InternalError`s. |
| `Registry.DispatchForwards` | tools/index.mjs:12-23 | Each of the four names runs its handler with `args` unchanged. The handler's result or error is returned as is, with no wrapping or retry. |
| `Registry.CatalogueShape` | tools/index.mjs:35-82 | The catalogue lists exactly four tools, in the order authenticate, validate, refresh, logout. Only validate (`token`) and refresh (`refreshToken`) declare required fields. Each required field is a declared string property. |
| `Registry.CatalogueMatchesDispatcher` | tools/index.mjs:12-26 | A name is in the catalogue exactly when calling it does not fail with `MethodNotFound`. |
| `Registry.MissingRequiredFieldRefused` | tools/index.mjs:56-70 | A call without a field the catalogue marks as required fails in the handler with `InternalError`. |
| `Server.RoutingTable` | server.mjs:79-114 | `GET /health` gives the status reply. `POST /mcp` gives a session decision. Every other method and path gives 404. A known session id is resumed whatever the body. An initialize is only considered without a known id. |
| `Server.MalformedBodyIsEmptyObject` | server.mjs:96-101 | A request with an empty or malformed body is decided exactly as one whose body is `{}`. |
| `Server.InternalErrorOnlyBeforeHeaders` | server.mjs:138-147 | A `-32603` 500 is written only when the failure came before any header was sent. After headers are sent, nothing more is written. A 500 on a routed request never comes from its body. |
| `Server.HttpServer.constructor` | server.mjs:61 | The session table starts empty. |
| `Server.HttpServer.OnSessionInitialized` | server.mjs:119-121 | Inserts the entry under the id its transport generated. Nothing else changes. |
| `Server.HttpServer.OnClose` | server.mjs:127-131 | Closes the server. Removes the entry under the transport's id if there is one. Other entries are untouched, and with no entry nothing changes, so closing twice is harmless. Afterwards no entry refers to the closed transport. |
| `Server.HttpServer.Serve` | server.mjs:67-157 | The reply is exactly `ReplyFor(Decide(...))`: health 200, 404, 400 `-32000`, or forwarding. The table is unchanged except when an initialize request without a known session starts a server. Then exactly one fresh transport and server are created and filed under the generated (non-empty) id, not the client's header. A known id is forwarded to its existing entry. |
| `Server.SessionsDoNotShareTransports` | server.mjs:119-120 | Two live session ids never share a transport. |
| `Server.InitializeThenResume` | server.mjs:103-137 | An initialize request, then a request carrying the generated id: both reach the same transport and server, and the table holds that one id. |
| `Server.CloseThenStale` | server.mjs:104-131 | After the transport closes (twice), a non-initialize request with the stale id gets the 400 `-32000` reply, and the table is empty. |
| `Server.ParseIntReadsDecimal` | server.mjs:60 | `parseInt(s, 10)` reads back any decimal numeral and stops at the first non-digit. |
| `Server.ListenPortChoice` | server.mjs:60 | An unset or empty `PORT` gives 7000. A numeral gives its value. |

## Left out

- The openid-client calls (`Issuer.discover`, `new issuer.Client(...)`, `deviceAuthorization`, `poll`, `refresh`, `userinfo`) are network I/O or library code. Each is a parameter that either succeeds with a value or fails with a message. Device-flow timing and the provider's timeout are not modelled.
- MCP SDK internals are foreign code. This covers `McpServer`, `server.connect`, `StreamableHTTPServerTransport.handleRequest` and `isInitializeRequest`, and the registration of the tools and of the `health://status` resource (server.mjs:23-56). One request's SDK behaviour is a parameter `SdkStep`: whether the server starts, the id the new transport generates (if any), and how `handleRequest` ends.
- The SDK's `McpError` may prefix its `message` with `"MCP error <code>: "`. The model takes an error's message to be the message the handler passed in.
- `randomUUID` is the `generatedId` parameter. The model does not assume it is fresh: if it collides with a live id, the entry is overwritten, as the code does.
- Node's `http` module and event-driven body accumulation (server.mjs:93-95) are left out. A request arrives with its whole body as text. Only one request is handled at a time, so asynchronous interleaving is not modelled.
- `JSON.parse`, WHATWG URL parsing, splitting a token and base64-decoding its payload are library code, so they are parameters that may fail. `JSON.stringify` and its formatting are not modelled. A payload datatype stands for the text it serialises to.
- `Date.now()` is the `now` parameter, in whole seconds. Claims and expiry times are integers, so fractional `exp` values are not modelled.
- `console` logging, `process.exit`, the fatal path of `main` and `serverHttp.listen` are left out.
- Values of the wrong JavaScript type are not modelled. This covers non-string tool names and `args` fields, a `realm_access.roles` that is not an array, and a token set without `access_token`.
- The JavaScript prototype lookup in `roleMap[role]` and `sessions[sessionId]` is left out. Names such as `toString` would be truthy there. The role map and the session table are finite maps only.
- `Server.ListenPort`: `parseInt` is modelled for ASCII whitespace, no-break space, line and paragraph separators and the byte-order mark. It does not model the other Unicode space separators, or the loss of precision above 2^53.
