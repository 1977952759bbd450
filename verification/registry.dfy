/** The tool registry (tools/index.mjs): the `tools/call` dispatcher and the
    static `tools/list` catalogue. */
module Registry {
  import opened Wrappers
  import opened Mcp
  import opened Oidc
  import Authenticate
  import Validate
  import Refresh
  import Logout

  /** What the handlers depend on besides their arguments: the environment,
      the clock (whole seconds), the provider and the token decoder. */
  datatype Context = Context(env: Env, now: int, provider: Provider, decode: Decoder)

  /** The `tools/call` handler: dispatch on the tool name, passing `args`
      through; a handler's error is rethrown unchanged. */
  function CallTool(name: string, args: Args, ctx: Context): (r: ToolReply)
    ensures r.Err? ==> r.error.code == InternalError || r.error.code == MethodNotFound
    ensures (r.Err? && r.error.code == MethodNotFound) <==> name !in ToolNames
    ensures name !in ToolNames ==> r == Err(McpError(MethodNotFound, "Unknown tool: " + name))
  {
    if name == "authenticate" then
      Authenticate.AuthenticateTool(args, ctx.env, ctx.provider, ctx.decode)
    else if name == "validate" then
      Validate.ValidateTool(args, ctx.env, ctx.now, ctx.provider, ctx.decode)
    else if name == "refresh" then
      Refresh.RefreshTool(args, ctx.env, ctx.provider)
    else if name == "logout" then
      Logout.LogoutTool(args)
    else
      Err(McpError(MethodNotFound, "Unknown tool: " + name))
  }

  /** The names the dispatcher accepts. */
  const ToolNames: set<string> := {"authenticate", "validate", "refresh", "logout"}

  /** Each known name runs its handler with the arguments unchanged, and the
      handler's answer, error or not, is the answer of the call. */
  lemma DispatchForwards(args: Args, ctx: Context)
    ensures CallTool("authenticate", args, ctx) == Authenticate.AuthenticateTool(args, ctx.env, ctx.provider, ctx.decode)
    ensures CallTool("validate", args, ctx) == Validate.ValidateTool(args, ctx.env, ctx.now, ctx.provider, ctx.decode)
    ensures CallTool("refresh", args, ctx) == Refresh.RefreshTool(args, ctx.env, ctx.provider)
    ensures CallTool("logout", args, ctx) == Logout.LogoutTool(args)
  {
  }

  /** A declared input property: its name, JSON type and description. */
  datatype Property = Property(name: string, kind: string, description: string)

  /** An input schema `{ type, properties, required? }`; `required` is absent
      for the tools that take no input. */
  datatype Schema = Schema(kind: string, properties: seq<Property>, required: Option<seq<string>>)

  /** One catalogue entry. */
  datatype ToolDecl = ToolDecl(name: string, description: string, inputSchema: Schema)

  /** The `tools/list` handler: the static catalogue. */
  function ListTools(): seq<ToolDecl> {
    [ ToolDecl("authenticate", "Start OAuth2 device flow authentication with Keycloak",
               Schema("object", [], None)),
      ToolDecl("validate", "Validate an access token and extract user info",
               Schema("object", [Property("token", "string", "Access token to validate")], Some(["token"]))),
      ToolDecl("refresh", "Refresh an expired access token",
               Schema("object", [Property("refreshToken", "string", "Refresh token")], Some(["refreshToken"]))),
      ToolDecl("logout", "Clear stored authentication tokens",
               Schema("object", [], None)) ]
  }

  /** The names of a list of declarations, in order. */
  function Names(tools: seq<ToolDecl>): (names: seq<string>)
    ensures |names| == |tools|
    ensures forall i :: 0 <= i < |tools| ==> names[i] == tools[i].name
  {
    if tools == [] then [] else [tools[0].name] + Names(tools[1..])
  }

  /** The required fields of a declaration (none when `required` is absent). */
  function RequiredFields(t: ToolDecl): seq<string> {
    t.inputSchema.required.GetOr([])
  }

  /** Exactly four tools, in the order authenticate, validate, refresh,
      logout; only validate and refresh require a field, `token` and
      `refreshToken`; every required field is a declared string property. */
  lemma CatalogueShape()
    ensures Names(ListTools()) == ["authenticate", "validate", "refresh", "logout"]
    ensures ListTools()[0].inputSchema.required == None && ListTools()[3].inputSchema.required == None
    ensures ListTools()[1].inputSchema.required == Some(["token"])
    ensures ListTools()[2].inputSchema.required == Some(["refreshToken"])
    ensures forall t, f :: t in ListTools() && f in RequiredFields(t) ==>
              exists p :: p in t.inputSchema.properties && p.name == f && p.kind == "string"
  {
    var tools := ListTools();
    assert tools[1].inputSchema.properties[0].name == "token";
    assert tools[2].inputSchema.properties[0].name == "refreshToken";
  }

  /** The catalogue and the dispatcher agree: a name is listed exactly when
      calling it does not fail with `MethodNotFound`. */
  lemma CatalogueMatchesDispatcher(name: string, args: Args, ctx: Context)
    ensures name in Names(ListTools()) <==> !(CallTool(name, args, ctx).Err? && CallTool(name, args, ctx).error.code == MethodNotFound)
  {
    CatalogueShape();
  }

  /** A call that leaves out a field the catalogue declares as required is
      refused by the handler before it reaches the provider. */
  lemma MissingRequiredFieldRefused(t: ToolDecl, f: string, args: Args, ctx: Context)
    requires t in ListTools() && f in RequiredFields(t) && f !in args
    ensures CallTool(t.name, args, ctx).Err?
    ensures CallTool(t.name, args, ctx).error.code == InternalError
  {
    if t.name == "validate" {
      Validate.MissingTokenFailsFirst(args, ctx.env, ctx.now, ctx.provider, ctx.decode);
    } else {
      Refresh.MissingRefreshTokenFailsFirst(args, ctx.env, ctx.provider);
    }
  }
}
