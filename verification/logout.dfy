/** The logout tool (tools/logout.mjs): an acknowledgement only; removing the
    stored tokens is left to the caller. */
module Logout {
  import opened Wrappers
  import opened Mcp

  const LogoutSuccessful: string := "Logout successful"

  /** `logoutTool`: its `try` block only builds a constant, so the
      `InternalError` branch of its `catch` is never taken and the result is
      always the single success item. */
  function LogoutTool(args: Args): (r: ToolReply)
    ensures r.Ok?
    ensures |r.value.content| == 1
    ensures r.value.content[0].payload == LoggedOut(true, "Logout successful")
  {
    Ok(TextResult(LoggedOut(true, LogoutSuccessful)))
  }

  /** The result does not depend on the arguments. */
  lemma LogoutIgnoresArgs(a1: Args, a2: Args)
    ensures LogoutTool(a1) == LogoutTool(a2)
  {
  }
}
