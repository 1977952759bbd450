/** The protocol vocabulary the tool handlers speak: JSON-RPC error codes,
    the error a handler throws, and the structured payload a handler returns
    (before `JSON.stringify` turns it into the text of a content item). */
module Mcp {
  import opened Wrappers

  /** The three error kinds the handlers raise. */
  datatype ErrorCode = InvalidParams | MethodNotFound | InternalError

  /** An `McpError` as constructed by a handler: its kind and its message. */
  datatype McpError = McpError(code: ErrorCode, message: string)

  /** Something thrown inside a handler's `try` block: either an `McpError` the
      handler raised itself or an error rejected by a collaborator.  The
      handler's `catch` only reads its message. */
  datatype Raised = Raised(error: McpError) | Rejected(reason: string) {
    function Message(): string {
      match this
      case Raised(e) => e.message
      case Rejected(m) => m
    }
  }

  /** The arguments of a tool call: the string-valued fields of `args`
      (an absent `args` has no fields). */
  type Args = map<string, string>

  /** `args?.[key]`. */
  function Field(args: Args, key: string): Option<string> {
    if key in args then Some(args[key]) else None
  }

  /** The user record the authenticate and validate tools report. Claims the
      token does not carry stay `None` (and are dropped by `JSON.stringify`). */
  datatype User = User(
    username: Option<string>,
    email: Option<string>,
    name: Option<string>,
    role: string,
    roles: seq<string>)

  /** The object each tool serialises into its single text content item. */
  datatype Payload =
    | DeviceLogin(success: bool, verificationUri: Option<string>, userCode: Option<string>, user: User,
                  token: string, refreshToken: Option<string>, expiresAt: Option<int>)
    | Verdict(valid: bool, error: string)
    | Verified(valid: bool, user: User)
    | Refreshed(success: bool, token: string, refreshToken: Option<string>, expiresAt: Option<int>)
    | LoggedOut(success: bool, message: string)

  /** A content item `{ type: 'text', text: JSON.stringify(payload) }`. */
  datatype Content = Text(payload: Payload)

  /** `{ content: [...] }`. */
  datatype ToolResult = ToolResult(content: seq<Content>)

  /** The result every handler builds: one text item carrying `p`. */
  function TextResult(p: Payload): ToolResult {
    ToolResult([Text(p)])
  }

  /** The handler's answer: a tool result, or the `McpError` it throws. */
  type ToolReply = Result<ToolResult, McpError>
}
