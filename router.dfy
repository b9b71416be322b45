/** The router (graph.py `route`): a hard ceiling of six steps, then "tools" only for a pending tool request. */
module Router {

  import opened Messages

  /** The two labels `route` returns: `GoTools` is "tools", `GoEnd` is "end". */
  datatype Destination = GoTools | GoEnd

  /** The ceiling `route` compares `steps` against; `build_graph`'s `max_steps` plays no part in it. */
  const StepLimit: int := 6

  /** The last message is an AI message whose tool-call list is non-empty. */
  function RequestsTools(m: Message): (r: bool)
    ensures r <==> |ToolCallsOf(m)| > 0
  {
    m.AI? && |m.toolCalls| > 0
  }

  /**
   * `route`: "end" once `steps` (0 when absent) reaches the ceiling, whatever
   * the history holds; otherwise "tools" exactly when the last message
   * requests tools. The history is only looked at below the ceiling.
   */
  function Route(s: AgentState): (r: Destination)
    requires StepsOf(s) >= StepLimit || |s.messages| > 0
    ensures StepsOf(s) >= StepLimit ==> r == GoEnd
    ensures StepsOf(s) < StepLimit ==> (r == GoTools <==> RequestsTools(Last(s.messages)))
  {
    if StepsOf(s) >= StepLimit then GoEnd
    else if RequestsTools(Last(s.messages)) then GoTools
    else GoEnd
  }

  /** Going to the tools node implies the step count is under the ceiling. */
  lemma ToolsOnlyBelowCeiling(s: AgentState)
    requires StepsOf(s) >= StepLimit || |s.messages| > 0
    ensures Route(s) == GoTools ==> StepsOf(s) < StepLimit && |ToolCallsOf(Last(s.messages))| > 0
  {
  }
}
