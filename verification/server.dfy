/** The HTTP front end (server.mjs): the request router, the JSON body
    fallback, the process-wide session table that binds a session id to its
    transport and server instance, and the listening port. */
module Server {
  import opened Wrappers
  import opened Oidc

  /** A JSON value as `JSON.parse` produces it. */
  datatype Json =
    | JNull
    | JBool(b: bool)
    | JNumber(n: int)
    | JString(s: string)
    | JArray(items: seq<Json>)
    | JObject(members: seq<(string, Json)>)

  /** `{}`. */
  const EmptyObject: Json := JObject([])

  /** One HTTP request: its method, its raw URL, its `mcp-session-id` header
      and its whole body as text. */
  datatype Request = Request(verb: string, url: string, sessionHeader: Option<string>, body: string)

  /** Library and SDK code the handler calls: WHATWG URL parsing (the
      pathname, or `None` when `new URL` throws), `JSON.parse` (`None` when it
      throws) and the SDK's `isInitializeRequest`. */
  datatype Library = Library(
    pathname: string -> Option<string>,
    parseJson: string -> Option<Json>,
    isInitializeRequest: Json -> bool)

  /** How a transport's `handleRequest` ends: it answered, or it threw, after
      or before the response headers went out. */
  datatype HandleOutcome = Answered | Threw(headersSent: bool)

  /** What the SDK does for one request. `serverStarts`: `createServerInstance`
      and `server.connect` resolve; `generatedId`: the id a new transport
      generates and reports through `onsessioninitialized` (`None` when the
      transport does not initialize a session; `randomUUID()` never yields
      the empty string, so only a non-empty id is ever filed); `outcome`: how
      `handleRequest` ends. */
  datatype SdkStep = SdkStep(serverStarts: bool, generatedId: Option<string>, outcome: HandleOutcome)

  /** The JSON bodies the handler itself writes. */
  datatype ReplyBody =
    | HealthStatus(ok: bool, server: string, keycloak: Option<string>, realm: Option<string>)
    | RpcError(jsonrpc: string, code: int, message: string)
    | PlainError(error: string)

  /** What the handler does with the response: writes a JSON body with a
      status (`sendJson`), leaves it to the transport, or only logs an error
      because the headers have already gone out. */
  datatype Reply = Sent(status: int, body: ReplyBody) | ByTransport | LoggedOnly

  /** `url || '/'`. */
  function RequestUrl(url: string): string {
    if url == "" then "/" else url
  }

  /** The request body: `JSON.parse(text || '{}')`, with `{}` when parsing
      throws. Reading the body never fails: the handler always goes on with
      either the value the text denotes or `{}`. */
  function ParseBody(text: string, parseJson: string -> Option<Json>): (body: Json)
    ensures body == EmptyObject || (text != "" && parseJson(text) == Some(body))
    ensures text == "" || parseJson(text).None? ==> body == EmptyObject
  {
    if text == "" then EmptyObject
    else match parseJson(text)
      case Some(v) => v
      case None => EmptyObject
  }

  /** The header names a live session: `sessionId && sessions[sessionId]`. */
  predicate KnownSession(header: Option<string>, live: set<string>) {
    Truthy(header) && header.value in live
  }

  /** What the handler decides to do with a request, given the live session ids. */
  datatype Decision =
    | Status
    | NotFound
    | BadUrl
    | MissingSession
    | Resume(sid: string)
    | Initialize

  function Decide(req: Request, lib: Library, live: set<string>): Decision {
    match lib.pathname(RequestUrl(req.url))
    case None => BadUrl
    case Some(path) =>
      if req.verb == "GET" && path == "/health" then Status
      else if req.verb == "POST" && path == "/mcp" then
        if KnownSession(req.sessionHeader, live) then Resume(req.sessionHeader.value)
        else if lib.isInitializeRequest(ParseBody(req.body, lib.parseJson)) then Initialize
        else MissingSession
      else NotFound
  }

  /** The routing table: `GET /health`, `POST /mcp`, and 404 for every other
      method and path. A known session id is resumed whatever the body; an
      unknown or absent one needs an initialize request. */
  lemma RoutingTable(req: Request, lib: Library, live: set<string>)
    requires lib.pathname(RequestUrl(req.url)).Some?
    ensures var path := lib.pathname(RequestUrl(req.url)).value;
            var d := Decide(req, lib, live);
            && (d == Status <==> req.verb == "GET" && path == "/health")
            && (d.MissingSession? || d.Resume? || d.Initialize? <==> req.verb == "POST" && path == "/mcp")
            && (d == NotFound <==> !(req.verb == "GET" && path == "/health") && !(req.verb == "POST" && path == "/mcp"))
    ensures Decide(req, lib, live).Resume? <==>
              req.verb == "POST" && lib.pathname(RequestUrl(req.url)) == Some("/mcp") && KnownSession(req.sessionHeader, live)
    ensures Decide(req, lib, live).Resume? ==> Decide(req, lib, live).sid == req.sessionHeader.value
    ensures Decide(req, lib, live) == Initialize ==> !KnownSession(req.sessionHeader, live)
  {
  }

  /** An empty or unparseable body is handled exactly like `{}`. */
  lemma MalformedBodyIsEmptyObject(req: Request, lib: Library, live: set<string>)
    requires req.body == "" || lib.parseJson(req.body).None?
    ensures Decide(req, lib, live) == Decide(req.(body := "{}"), lib.(parseJson := s => if s == "{}" then Some(EmptyObject) else lib.parseJson(s)), live)
  {
  }

  /** `sendJson(200, { ok: true, server: 'keycloak-agent', keycloak, realm })`:
      the raw environment values, not the tools' defaults. */
  function HealthReply(env: Env): Reply {
    Sent(200, HealthStatus(true, "keycloak-agent", env.keycloakUrl, env.realm))
  }

  const NotFoundReply: Reply := Sent(404, PlainError("Not Found"))
  const ServerErrorReply: Reply := Sent(500, PlainError("Internal Server Error"))
  const MissingSessionReply: Reply := Sent(400, RpcError("2.0", -32000, "Missing session; send initialize first"))
  const InternalErrorReply: Reply := Sent(500, RpcError("2.0", -32603, "Internal error"))

  /** The inner `catch`: a 500 only while the headers are unsent. */
  function AfterHandle(outcome: HandleOutcome): Reply {
    match outcome
    case Answered => ByTransport
    case Threw(headersSent) => if headersSent then LoggedOnly else InternalErrorReply
  }

  /** The reply for each decision. */
  function ReplyFor(d: Decision, env: Env, step: SdkStep): Reply {
    match d
    case Status => HealthReply(env)
    case NotFound => NotFoundReply
    case BadUrl => ServerErrorReply
    case MissingSession => MissingSessionReply
    case Resume(_) => AfterHandle(step.outcome)
    case Initialize => if step.serverStarts then AfterHandle(step.outcome) else InternalErrorReply
  }

  /** A `-32603` response is written only for a failure that happened before
      any header was sent; once headers are out nothing more is written. And a
      500 on a routed request never comes from its body, only from the SDK. */
  lemma InternalErrorOnlyBeforeHeaders(req: Request, lib: Library, live: set<string>, env: Env, step: SdkStep)
    ensures var d := Decide(req, lib, live);
            ReplyFor(d, env, step) == InternalErrorReply ==>
              (d.Resume? || d.Initialize?) && (step.outcome == Threw(false) || !step.serverStarts)
    ensures var d := Decide(req, lib, live);
            (d.Resume? || d.Initialize?) && step.outcome == Threw(true) && step.serverStarts ==>
              ReplyFor(d, env, step) == LoggedOnly
    ensures var d := Decide(req, lib, live);
            var reply := ReplyFor(d, env, step);
            reply.Sent? && reply.status == 500 && lib.pathname(RequestUrl(req.url)).Some? ==>
              !step.serverStarts || step.outcome == Threw(false)
  {
  }

  /** A transport: the SDK assigns it a session id when it initializes one. */
  class Transport {
    var sessionId: Option<string>

    constructor ()
      ensures sessionId == None
    {
      sessionId := None;
    }
  }

  /** An MCP server instance with the tools registered. */
  class McpServerInstance {
    var closed: bool

    constructor ()
      ensures !closed
    {
      closed := false;
    }
  }

  /** A session table entry `{ transport, server }`. */
  datatype Entry = Entry(transport: Transport, server: McpServerInstance)

  /** The HTTP server and the process-wide session table it owns. */
  class HttpServer {
    const env: Env
    var sessions: map<string, Entry>

    /** The transports the table refers to. */
    ghost function Transports(): set<Transport>
      reads this
    {
      set sid | sid in sessions :: sessions[sid].transport
    }

    /** Every entry is filed under the non-empty id its own transport
        generated. */
    ghost predicate Valid()
      reads this, Transports()
    {
      forall sid :: sid in sessions ==> sid != "" && sessions[sid].transport.sessionId == Some(sid)
    }

    constructor (env: Env)
      ensures this.env == env && sessions == map[] && Valid()
    {
      this.env := env;
      sessions := map[];
    }

    /** `onsessioninitialized`: file the entry under the id its transport
        generated. */
    method OnSessionInitialized(sid: string, entry: Entry)
      requires Valid() && sid != "" && entry.transport.sessionId == Some(sid)
      modifies this
      ensures Valid()
      ensures sessions == old(sessions)[sid := entry]
    {
      sessions := sessions[sid := entry];
    }

    /** `transport.onclose`: close the server (ignoring its errors) and remove
        the entry filed under the transport's id, if there is one. */
    method OnClose(entry: Entry)
      requires Valid()
      modifies this, entry.server
      ensures Valid()
      ensures entry.server.closed
      ensures Truthy(entry.transport.sessionId) ==> sessions == old(sessions) - {entry.transport.sessionId.value}
      ensures !Truthy(entry.transport.sessionId) ==> sessions == old(sessions)
      ensures forall sid :: sid in sessions ==> sessions[sid].transport != entry.transport
    {
      entry.server.closed := true;
      var sid := entry.transport.sessionId;
      if Truthy(sid) && sid.value in sessions {
        sessions := sessions - {sid.value};
      }
    }

    /** The request handler, for one request whose body has fully arrived.
        `handler` is the entry whose transport handles the request. Only an
        initialize request without a known session creates a transport and
        a server, and only the (non-empty) id the transport generated is
        inserted. */
    method Serve(req: Request, lib: Library, step: SdkStep) returns (reply: Reply, handler: Option<Entry>)
      requires Valid()
      modifies this
      ensures Valid()
      ensures reply == ReplyFor(Decide(req, lib, old(sessions).Keys), env, step)
      ensures var d := Decide(req, lib, old(sessions).Keys);
              !(d == Initialize && step.serverStarts) ==> sessions == old(sessions)
      ensures var d := Decide(req, lib, old(sessions).Keys);
              d.Resume? ==> handler == Some(old(sessions)[d.sid])
      ensures var d := Decide(req, lib, old(sessions).Keys);
              !d.Resume? && !(d == Initialize && step.serverStarts) ==> handler == None
      ensures var d := Decide(req, lib, old(sessions).Keys);
              d == Initialize && step.serverStarts ==>
                && handler.Some?
                && fresh(handler.value.transport) && fresh(handler.value.server)
                && handler.value.transport.sessionId == step.generatedId
                && sessions == if Truthy(step.generatedId)
                               then old(sessions)[step.generatedId.value := handler.value]
                               else old(sessions)
    {
      handler := None;
      var path := lib.pathname(RequestUrl(req.url));
      if path.None? {
        reply := ServerErrorReply;
        return;
      }
      if req.verb == "GET" && path.value == "/health" {
        reply := HealthReply(env);
        return;
      }
      if !(req.verb == "POST" && path.value == "/mcp") {
        reply := NotFoundReply;
        return;
      }
      var body := ParseBody(req.body, lib.parseJson);
      var sid := req.sessionHeader;
      if Truthy(sid) && sid.value in sessions {
        handler := Some(sessions[sid.value]);
        reply := AfterHandle(step.outcome);
        return;
      }
      if !lib.isInitializeRequest(body) {
        reply := MissingSessionReply;
        return;
      }
      var transport := new Transport();
      if !step.serverStarts {
        reply := InternalErrorReply;
        return;
      }
      var server := new McpServerInstance();
      var entry := Entry(transport, server);
      handler := Some(entry);
      transport.sessionId := step.generatedId;
      if Truthy(step.generatedId) {
        OnSessionInitialized(step.generatedId.value, entry);
      }
      reply := AfterHandle(step.outcome);
    }
  }

  /** Distinct live sessions never share a transport. */
  lemma SessionsDoNotShareTransports(s: HttpServer, a: string, b: string)
    requires s.Valid() && a in s.sessions && b in s.sessions && a != b
    ensures s.sessions[a].transport != s.sessions[b].transport
  {
    assert s.sessions[a].transport.sessionId == Some(a);
    assert s.sessions[b].transport.sessionId == Some(b);
  }

  /** An initialize request without a session header, then a request carrying
      the id the new transport generated: both reach the same transport and
      server, and the table holds exactly that one session. */
  method InitializeThenResume(env: Env, lib: Library, init: Request, step: SdkStep, sid: string,
                              later: Request, laterStep: SdkStep)
    returns (first: Option<Entry>, second: Option<Entry>, live: set<string>)
    requires Decide(init, lib, {}) == Initialize
    requires step.serverStarts && step.generatedId == Some(sid) && sid != ""
    requires later.verb == "POST" && lib.pathname(RequestUrl(later.url)) == Some("/mcp")
    requires later.sessionHeader == Some(sid)
    ensures first.Some? && second == first
    ensures live == {sid}
  {
    var s := new HttpServer(env);
    var r1, r2;
    r1, first := s.Serve(init, lib, step);
    r2, second := s.Serve(later, lib, laterStep);
    live := s.sessions.Keys;
  }

  /** After the transport closes, a request with the stale id is treated as
      session-missing (unless it is itself an initialize request), and
      closing a second time changes nothing. */
  method CloseThenStale(env: Env, lib: Library, init: Request, step: SdkStep, sid: string,
                        later: Request, laterStep: SdkStep)
    returns (reply: Reply, live: set<string>)
    requires Decide(init, lib, {}) == Initialize
    requires step.serverStarts && step.generatedId == Some(sid) && sid != ""
    requires later.verb == "POST" && lib.pathname(RequestUrl(later.url)) == Some("/mcp")
    requires later.sessionHeader == Some(sid)
    requires !lib.isInitializeRequest(ParseBody(later.body, lib.parseJson))
    ensures reply == Sent(400, RpcError("2.0", -32000, "Missing session; send initialize first"))
    ensures live == {}
  {
    var s := new HttpServer(env);
    var r1, entry := s.Serve(init, lib, step);
    s.OnClose(entry.value);
    s.OnClose(entry.value);
    var h;
    reply, h := s.Serve(later, lib, laterStep);
    live := s.sessions.Keys;
  }

  /** The default port when `PORT` is unset or empty. */
  const DefaultPort: int := 7000

  /** `process.env.PORT ? parseInt(process.env.PORT, 10) : 7000`; `None`
      stands for `NaN`. */
  function ListenPort(port: Option<string>): Option<int> {
    if Truthy(port) then ParseInt(port.value) else Some(DefaultPort)
  }

  /** The whitespace `parseInt` skips before the number. */
  predicate IsSpace(c: char) {
    || c == ' ' || c == '\t' || c == '\n' || c == '\r' || c == '\U{000B}' || c == '\U{000C}'
    || c == '\U{00A0}' || c == '\U{2028}' || c == '\U{2029}' || c == '\U{FEFF}'
  }

  predicate IsDigit(c: char) {
    '0' <= c <= '9'
  }

  predicate AllDigits(s: string) {
    forall i :: 0 <= i < |s| ==> IsDigit(s[i])
  }

  /** `s` without its leading whitespace. */
  function TrimStart(s: string): (t: string)
    ensures |t| <= |s| && t == s[|s| - |t|..]
    ensures t == [] || !IsSpace(t[0])
  {
    if s != [] && IsSpace(s[0]) then TrimStart(s[1..]) else s
  }

  /** The longest prefix of `s` made of decimal digits. */
  function DigitPrefix(s: string): (d: string)
    ensures d <= s && AllDigits(d)
    ensures |d| == |s| || !IsDigit(s[|d|])
  {
    if s != [] && IsDigit(s[0]) then [s[0]] + DigitPrefix(s[1..]) else []
  }

  /** The value of a string of decimal digits. */
  function DigitsValue(d: string): nat
    requires AllDigits(d)
  {
    if d == [] then 0 else DigitsValue(d[..|d| - 1]) * 10 + (d[|d| - 1] - '0') as nat
  }

  /** `parseInt(s, 10)`: skip leading whitespace, read an optional sign and
      the longest run of digits after it; `None` (NaN) when there is none. */
  function ParseInt(s: string): Option<int> {
    var t := TrimStart(s);
    var negative := t != [] && t[0] == '-';
    var digits := DigitPrefix(if t != [] && (t[0] == '-' || t[0] == '+') then t[1..] else t);
    if digits == [] then None
    else
      var value: int := DigitsValue(digits);
      Some(if negative then -value else value)
  }

  /** The decimal numeral of `n`, without leading zeros. */
  function Decimal(n: nat): (s: string)
    ensures s != [] && AllDigits(s)
  {
    if n < 10 then ['0' + n as char] else Decimal(n / 10) + ['0' + (n % 10) as char]
  }

  lemma {:induction false} DecimalValue(n: nat)
    ensures DigitsValue(Decimal(n)) == n
  {
    if n >= 10 {
      DecimalValue(n / 10);
      var s := Decimal(n);
      assert s[..|s| - 1] == Decimal(n / 10);
    }
  }

  lemma {:induction false} DigitPrefixOf(d: string, rest: string)
    requires AllDigits(d)
    requires rest == [] || !IsDigit(rest[0])
    ensures DigitPrefix(d + rest) == d
  {
    if d != [] {
      assert (d + rest)[1..] == d[1..] + rest;
      DigitPrefixOf(d[1..], rest);
    }
  }

  /** `parseInt` reads back the numeral of any port number, ignoring what
      follows it from the first non-digit on. */
  lemma ParseIntReadsDecimal(n: nat, rest: string)
    requires rest == [] || !IsDigit(rest[0])
    ensures ParseInt(Decimal(n) + rest) == Some(n)
  {
    var d := Decimal(n);
    var s := d + rest;
    assert s[0] == d[0] && IsDigit(s[0]);
    assert !IsSpace(s[0]) && s[0] != '-' && s[0] != '+';
    assert TrimStart(s) == s;
    DigitPrefixOf(d, rest);
    DecimalValue(n);
  }

  /** An unset or empty `PORT` listens on 7000; a numeral listens on its value. */
  lemma ListenPortChoice(port: Option<string>, n: nat)
    ensures !Truthy(port) ==> ListenPort(port) == Some(7000)
    ensures port == Some(Decimal(n)) ==> ListenPort(port) == Some(n)
  {
    if port == Some(Decimal(n)) {
      assert Decimal(n) + [] == Decimal(n);
      ParseIntReadsDecimal(n, []);
    }
  }
}
