/**
 * The agent's state (graph.py `AgentState`): the message history and the
 * step counter, with the way a node's partial update is folded into it
 * (messages are appended, as by `operator.add`; a returned `steps` replaces
 * the old one).
 */
module Messages {

  import opened Wrappers

  /**
   * One entry of an AI message's `additional_kwargs["tool_calls"]` list.
   * Each key may be missing (None); argument values are modelled as strings.
   */
  datatype ToolCall = ToolCall(id: Option<string>, name: Option<string>, args: Option<map<string, string>>)

  /** The message kinds the agent tells apart; `Other` is any message that is none of the three. */
  datatype Message =
    | Human(content: string)
    | AI(content: string, toolCalls: seq<ToolCall>)
    | ToolResult(content: string, callId: string)
    | Other(content: string)

  /** `AgentState`: the history, and `steps`, which may be absent from the dict. */
  datatype AgentState = AgentState(messages: seq<Message>, steps: Option<int>)

  /** What a node returns: messages to append and, optionally, a new `steps`. */
  datatype Update = Update(messages: seq<Message>, steps: Option<int>)

  /** `state.get("steps", 0)`. */
  function StepsOf(s: AgentState): (n: int)
    ensures s.steps.Some? ==> n == s.steps.value
    ensures s.steps.None? ==> n == 0
  {
    s.steps.GetOr(0)
  }

  /** `messages[-1]`. */
  function Last(messages: seq<Message>): (last: Message)
    requires |messages| > 0
    ensures messages == messages[..|messages| - 1] + [last]
  {
    messages[|messages| - 1]
  }

  /** The tool calls a message carries; only AI messages have any. */
  function ToolCallsOf(m: Message): (calls: seq<ToolCall>)
    ensures m.AI? ==> calls == m.toolCalls
    ensures !m.AI? ==> calls == []
  {
    if m.AI? then m.toolCalls else []
  }

  /**
   * Folding a node's update into the state: the history only grows, the new
   * messages come last, and `steps` changes only when the update sets it.
   */
  function Apply(s: AgentState, u: Update): (r: AgentState)
    ensures |r.messages| == |s.messages| + |u.messages|
    ensures r.messages[..|s.messages|] == s.messages
    ensures r.messages[|s.messages|..] == u.messages
    ensures r.steps == if u.steps.Some? then u.steps else s.steps
  {
    AgentState(s.messages + u.messages, if u.steps.Some? then u.steps else s.steps)
  }

  /** `_mk_ai_tool_call`: an AI message requesting exactly one call, with id "1" unless told otherwise. */
  function MkAIToolCall(content: string, name: string, args: map<string, string>, callId: string := "1"): (m: Message)
    ensures m.AI? && m.content == content && |m.toolCalls| == 1
    ensures m.toolCalls[0] == ToolCall(Some(callId), Some(name), Some(args))
  {
    AI(content, [ToolCall(Some(callId), Some(name), Some(args))])
  }
}
