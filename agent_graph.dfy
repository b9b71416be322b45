/**
 * The compiled graph of graph.py `build_graph`: START -> assistant, then
 * route; "tools" runs the executor and goes back to the assistant, "end"
 * finishes. Each node's update is folded into the state as `Apply` says.
 *
 * The graph is stated for any reply function `respond` of the assistant node
 * (the message `assistant` appends for a given last message); `Reply` is the
 * one `build_graph` wires in, and `ReplyIsAssistant` shows it has the two
 * properties the lemmas below assume of it.
 */
module AgentGraph {

  import opened Wrappers
  import opened Messages
  import opened Responder
  import opened Executor
  import opened Router

  /** An assistant reply function that always answers with an AI message. */
  ghost predicate AlwaysReplies(respond: Message -> Message)
  {
    forall m: Message :: respond(m).AI?
  }

  /** An assistant reply function that sums a tool result up as "Result: " and its content, requesting nothing. */
  ghost predicate SummarisesResults(respond: Message -> Message)
  {
    forall m: Message :: m.ToolResult? ==> respond(m) == AI("Result: " + m.content, [])
  }

  /** The responder of graph.py has both properties. */
  lemma ReplyIsAssistant()
    ensures AlwaysReplies(Reply) && SummarisesResults(Reply)
  {
    forall m: Message ensures Reply(m).AI? && (m.ToolResult? ==> Reply(m) == AI("Result: " + m.content, [])) {
      if m.ToolResult? {
        ToolResultIsSummarised(AgentState([m], None));
      }
    }
  }

  /**
   * Every tool the responder asks for is in `Registered`, the key set of
   * `TOOLS_BY_NAME`: the unknown-tool branch of the executor is never taken
   * on its requests.
   */
  lemma RepliesUseRegisteredTools(last: Message)
    ensures forall tc :: tc in ToolCallsOf(Reply(last)) ==> tc.name.Some? && tc.name.value in Registered
  {
    ReplyRequestsAtMostOne(last);
  }

  /** The state after the tools node: the results of the last message's requests appended. */
  function AfterTools(s: AgentState, invoke: ToolInvoker): (t: AgentState)
    requires |s.messages| > 0
    ensures t == AgentState(s.messages + ToolResults(ToolCallsOf(Last(s.messages)), invoke), s.steps)
  {
    Apply(s, Update(ToolResults(ToolCallsOf(Last(s.messages)), invoke), None))
  }

  /** The state after the assistant node: its reply to the last message appended, one more step. */
  function AfterAssistant(s: AgentState, respond: Message -> Message): (a: AgentState)
    requires |s.messages| > 0
    ensures a == AgentState(s.messages + [respond(Last(s.messages))], Some(StepsOf(s) + 1))
  {
    Apply(s, Update([respond(Last(s.messages))], Some(StepsOf(s) + 1)))
  }

  /** The assistant node of graph.py is `AfterAssistant` with `Reply`. */
  lemma AssistantNode(s: AgentState)
    requires |s.messages| > 0
    ensures Apply(s, Assistant(s)) == AfterAssistant(s, Reply)
  {
  }

  /** The rest of a run from a state the assistant has just produced. */
  function Continue(s: AgentState, respond: Message -> Message, invoke: ToolInvoker): (r: AgentState)
    requires |s.messages| > 0
    ensures |s.messages| <= |r.messages| && r.messages[..|s.messages|] == s.messages
    decreases if StepsOf(s) < StepLimit then StepLimit - StepsOf(s) else 0
  {
    if Route(s) == GoEnd then s
    else Continue(AfterAssistant(AfterTools(s, invoke), respond), respond, invoke)
  }

  /** The reference semantics of `graph.invoke(state)`. */
  function Run(s: AgentState, respond: Message -> Message, invoke: ToolInvoker): (r: AgentState)
    requires |s.messages| > 0
    ensures |s.messages| < |r.messages| && r.messages[..|s.messages|] == s.messages
  {
    Continue(AfterAssistant(s, respond), respond, invoke)
  }

  /** `graph.invoke(state)`: the assistant first, then tools and assistant again while the router says "tools". */
  method Invoke(input: AgentState, invoke: ToolInvoker) returns (out: AgentState)
    requires |input.messages| > 0
    ensures out == Run(input, Reply, invoke)
  {
    AssistantNode(input);
    var state := Apply(input, Assistant(input));
    while Route(state) == GoTools
      invariant |state.messages| > 0
      invariant Continue(state, Reply, invoke) == Run(input, Reply, invoke)
      decreases StepLimit - StepsOf(state)
    {
      var results := RunTools(state, invoke);
      state := Apply(state, results);
      AssistantNode(state);
      state := Apply(state, Assistant(state));
    }
    out := state;
  }

  /** The number of AI messages in `ms`, one per assistant step. */
  function CountReplies(ms: seq<Message>): nat
  {
    if ms == [] then 0 else CountReplies(ms[..|ms| - 1]) + (if ms[|ms| - 1].AI? then 1 else 0)
  }

  lemma {:induction false} CountRepliesAppend(a: seq<Message>, b: seq<Message>)
    ensures CountReplies(a + b) == CountReplies(a) + CountReplies(b)
    decreases |b|
  {
    if b != [] {
      assert (a + b)[..|a + b| - 1] == a + b[..|b| - 1];
      CountRepliesAppend(a, b[..|b| - 1]);
    } else {
      assert a + b == a;
    }
  }

  lemma {:induction false} NoRepliesAmongResults(calls: seq<ToolCall>, invoke: ToolInvoker)
    ensures CountReplies(ToolResults(calls, invoke)) == 0
    decreases |calls|
  {
    if calls != [] {
      var rs := ToolResults(calls, invoke);
      assert rs[..|rs| - 1] == ToolResults(calls[..|calls| - 1], invoke);
      NoRepliesAmongResults(calls[..|calls| - 1], invoke);
    }
  }

  /** When `whole` extends `a`, which is `s` followed by `mid`, what follows `s` in `whole` is `mid` and then the rest. */
  lemma SplitAfterPrefix<T>(whole: seq<T>, a: seq<T>, s: seq<T>, mid: seq<T>)
    requires |a| <= |whole| && whole[..|a|] == a && a == s + mid
    ensures whole[|s|..] == mid + whole[|a|..]
  {
    assert whole == a + whole[|a|..];
    assert whole == s + (mid + whole[|a|..]);
  }

  /** One assistant step adds one reply to the count. */
  lemma OneReply(s: AgentState, respond: Message -> Message)
    requires |s.messages| > 0 && AlwaysReplies(respond)
    ensures var a := AfterAssistant(s, respond);
            a.messages == s.messages + [respond(Last(s.messages))]
            && CountReplies([respond(Last(s.messages))]) == 1
  {
    var reply := [respond(Last(s.messages))];
    assert reply[..0] == [];
  }

  /**
   * What one run does to the state: the history only grows (the old history is
   * a prefix), `steps` is moved only by assistant steps, and it counts them:
   * the increase equals the number of AI messages appended.
   */
  lemma {:induction false} ContinueAppendsAndCounts(s: AgentState, respond: Message -> Message, invoke: ToolInvoker)
    requires |s.messages| > 0 && AlwaysReplies(respond)
    ensures var r := Continue(s, respond, invoke);
            && StepsOf(r) - StepsOf(s) == CountReplies(r.messages[|s.messages|..])
            && (r.steps.None? ==> r == s)
    decreases if StepsOf(s) < StepLimit then StepLimit - StepsOf(s) else 0
  {
    if Route(s) != GoEnd {
      var t := AfterTools(s, invoke);
      var a := AfterAssistant(t, respond);
      ContinueAppendsAndCounts(a, respond, invoke);
      var r := Continue(a, respond, invoke);
      var results := ToolResults(ToolCallsOf(Last(s.messages)), invoke);
      var reply := [respond(Last(t.messages))];
      OneReply(t, respond);
      assert a.messages == s.messages + (results + reply);
      SplitAfterPrefix(r.messages, a.messages, s.messages, results + reply);
      NoRepliesAmongResults(ToolCallsOf(Last(s.messages)), invoke);
      CountRepliesAppend(results, reply);
      CountRepliesAppend(results + reply, r.messages[|a.messages|..]);
    } else {
      assert s.messages[|s.messages|..] == [];
    }
  }

  /** Whatever a run passes through, it never takes the step count past the larger of its start and the ceiling. */
  lemma {:induction false} ContinueCeiling(s: AgentState, respond: Message -> Message, invoke: ToolInvoker)
    requires |s.messages| > 0
    ensures StepsOf(s) <= StepsOf(Continue(s, respond, invoke))
    ensures StepsOf(Continue(s, respond, invoke)) <= if StepsOf(s) < StepLimit then StepLimit else StepsOf(s)
    decreases if StepsOf(s) < StepLimit then StepLimit - StepsOf(s) else 0
  {
    if Route(s) != GoEnd {
      ContinueCeiling(AfterAssistant(AfterTools(s, invoke), respond), respond, invoke);
    }
  }

  /** A run always stops right after an assistant step, on a state the router sends to "end". */
  lemma {:induction false} ContinueEndsOnReply(s: AgentState, respond: Message -> Message, invoke: ToolInvoker)
    requires |s.messages| > 0 && Last(s.messages).AI? && AlwaysReplies(respond)
    ensures var r := Continue(s, respond, invoke);
            |r.messages| > 0 && Last(r.messages).AI? && Route(r) == GoEnd
    decreases if StepsOf(s) < StepLimit then StepLimit - StepsOf(s) else 0
  {
    if Route(s) != GoEnd {
      var t := AfterTools(s, invoke);
      assert respond(Last(t.messages)).AI?;
      ContinueEndsOnReply(AfterAssistant(t, respond), respond, invoke);
    }
  }

  /**
   * A whole run appends: the input history is a prefix of the result, at
   * least one message is added, and `steps` grows by the number of AI
   * messages appended, one per assistant step.
   */
  lemma RunAppendsAndCounts(s: AgentState, respond: Message -> Message, invoke: ToolInvoker)
    requires |s.messages| > 0 && AlwaysReplies(respond)
    ensures var r := Run(s, respond, invoke);
            StepsOf(r) - StepsOf(s) == CountReplies(r.messages[|s.messages|..])
  {
    var a := AfterAssistant(s, respond);
    var r := Run(s, respond, invoke);
    ContinueAppendsAndCounts(a, respond, invoke);
    OneReply(s, respond);
    var reply := [respond(Last(s.messages))];
    SplitAfterPrefix(r.messages, a.messages, s.messages, reply);
    CountRepliesAppend(reply, r.messages[|a.messages|..]);
  }

  /** A run ends on an AI message that the router sends to "end", with `steps` set. */
  lemma RunEndsOnReply(s: AgentState, respond: Message -> Message, invoke: ToolInvoker)
    requires |s.messages| > 0 && AlwaysReplies(respond)
    ensures var r := Run(s, respond, invoke);
            |r.messages| > 0 && Last(r.messages).AI? && Route(r) == GoEnd && r.steps.Some?
  {
    var a := AfterAssistant(s, respond);
    assert respond(Last(s.messages)).AI?;
    ContinueEndsOnReply(a, respond, invoke);
    ContinueAppendsAndCounts(a, respond, invoke);
  }

  /**
   * The ceiling: the assistant always runs once, and a run started below the
   * ceiling never takes the step count past it, whatever the responder and the
   * tools do; a run started at 6 or above stops after its first step.
   */
  lemma RunCeiling(s: AgentState, respond: Message -> Message, invoke: ToolInvoker)
    requires |s.messages| > 0
    ensures StepsOf(s) + 1 <= StepsOf(Run(s, respond, invoke))
    ensures StepsOf(Run(s, respond, invoke)) <= (if StepsOf(s) + 1 < StepLimit then StepLimit else StepsOf(s) + 1)
  {
    ContinueCeiling(AfterAssistant(s, respond), respond, invoke);
  }

  /** A turn started at `steps = 0`, as the CLI starts every turn, makes at most six assistant steps. */
  lemma AtMostSixReplies(s: AgentState, respond: Message -> Message, invoke: ToolInvoker)
    requires |s.messages| > 0 && StepsOf(s) == 0 && AlwaysReplies(respond)
    ensures CountReplies(Run(s, respond, invoke).messages[|s.messages|..]) <= 6
  {
    var r := Run(s, respond, invoke);
    RunAppendsAndCounts(s, respond, invoke);
    RunCeiling(s, respond, invoke);
    assert StepsOf(r) <= 6;
  }

  /** After a tool result the assistant appends its summary, and the run ends there. */
  lemma SummaryEndsRun(t: AgentState, respond: Message -> Message, invoke: ToolInvoker)
    requires |t.messages| > 0 && Last(t.messages).ToolResult? && SummarisesResults(respond)
    ensures var a := AfterAssistant(t, respond);
            && a == AgentState(t.messages + [AI("Result: " + Last(t.messages).content, [])], Some(StepsOf(t) + 1))
            && Continue(a, respond, invoke) == a
  {
    assert respond(Last(t.messages)) == AI("Result: " + Last(t.messages).content, []);
  }

  /**
   * The whole of a run: one reply; and when that reply requests tools below the
   * ceiling, their results and a "Result: " summary of the last one, which
   * requests nothing, so the run stops there. A request made at the ceiling is
   * left pending.
   */
  lemma RunShape(s: AgentState, respond: Message -> Message, invoke: ToolInvoker)
    requires |s.messages| > 0 && SummarisesResults(respond)
    ensures var reply := respond(Last(s.messages));
            var r := Run(s, respond, invoke);
            if StepsOf(s) + 1 >= StepLimit || ToolCallsOf(reply) == [] then
              r == AgentState(s.messages + [reply], Some(StepsOf(s) + 1))
            else
              var results := ToolResults(ToolCallsOf(reply), invoke);
              && |results| > 0
              && r == AgentState(s.messages + [reply] + results + [AI("Result: " + Last(results).content, [])],
                                 Some(StepsOf(s) + 2))
  {
    var reply := respond(Last(s.messages));
    var a := AfterAssistant(s, respond);
    assert Last(a.messages) == reply;
    if StepsOf(s) + 1 < StepLimit && ToolCallsOf(reply) != [] {
      assert Route(a) == GoTools;
      var results := ToolResults(ToolCallsOf(reply), invoke);
      var t := AfterTools(a, invoke);
      assert t == AgentState(s.messages + [reply] + results, Some(StepsOf(s) + 1));
      assert Last(t.messages) == Last(results);
      SummaryEndsRun(t, respond, invoke);
      assert Continue(a, respond, invoke) == Continue(AfterAssistant(t, respond), respond, invoke);
    } else {
      assert Route(a) == GoEnd;
    }
  }

  /** Because a tool result is always summarised, a run makes one or two assistant steps, never more. */
  lemma AtMostTwoReplies(s: AgentState, respond: Message -> Message, invoke: ToolInvoker)
    requires |s.messages| > 0 && SummarisesResults(respond)
    ensures StepsOf(s) + 1 <= StepsOf(Run(s, respond, invoke)) <= StepsOf(s) + 2
  {
    RunShape(s, respond, invoke);
  }

  /** A reply that requests nothing ends the run at once, one step later. */
  lemma RunWithoutRequest(s: AgentState, respond: Message -> Message, invoke: ToolInvoker)
    requires |s.messages| > 0 && SummarisesResults(respond) && ToolCallsOf(respond(Last(s.messages))) == []
    ensures Run(s, respond, invoke) == AgentState(s.messages + [respond(Last(s.messages))], Some(StepsOf(s) + 1))
  {
    RunShape(s, respond, invoke);
  }

  /**
   * A reply requesting one tool below the ceiling: the request, its result and
   * the "Result: " summary are appended, two steps later.
   */
  lemma RunWithRequest(s: AgentState, tc: ToolCall, respond: Message -> Message, invoke: ToolInvoker)
    requires |s.messages| > 0 && SummarisesResults(respond) && ToolCallsOf(respond(Last(s.messages))) == [tc]
    requires StepsOf(s) + 1 < StepLimit
    ensures var result := Execute(tc, invoke);
            Run(s, respond, invoke)
            == AgentState(s.messages + [respond(Last(s.messages)), result, AI("Result: " + result.content, [])],
                          Some(StepsOf(s) + 2))
  {
    RunShape(s, respond, invoke);
    var reply := respond(Last(s.messages));
    var result := Execute(tc, invoke);
    assert ToolResults(ToolCallsOf(reply), invoke) == [result];
    assert s.messages + [reply] + [result] + [AI("Result: " + result.content, [])]
        == s.messages + [reply, result, AI("Result: " + result.content, [])];
  }

  /** At the ceiling the first reply ends the run even when it requests a tool: the request is left pending. */
  lemma RunAtCeiling(s: AgentState, respond: Message -> Message, invoke: ToolInvoker)
    requires |s.messages| > 0 && SummarisesResults(respond) && StepsOf(s) + 1 >= StepLimit
    ensures Run(s, respond, invoke) == AgentState(s.messages + [respond(Last(s.messages))], Some(StepsOf(s) + 1))
  {
    RunShape(s, respond, invoke);
  }

  /** The first turn of a session (one user message, `steps = 0`) whose reply requests nothing ends with that reply. */
  lemma FreshTurnWithoutRequest(text: string, respond: Message -> Message, invoke: ToolInvoker)
    requires SummarisesResults(respond) && ToolCallsOf(respond(Human(text))) == []
    ensures Run(AgentState([Human(text)], Some(0)), respond, invoke)
            == AgentState([Human(text), respond(Human(text))], Some(1))
  {
    var s := AgentState([Human(text)], Some(0));
    assert Last(s.messages) == Human(text);
    assert s.messages + [respond(Human(text))] == [Human(text), respond(Human(text))];
    RunWithoutRequest(s, respond, invoke);
  }

  /** The first turn of a session whose reply requests one tool holds the request, its result and the summary. */
  lemma FreshTurnWithRequest(text: string, tc: ToolCall, respond: Message -> Message, invoke: ToolInvoker)
    requires SummarisesResults(respond) && ToolCallsOf(respond(Human(text))) == [tc]
    ensures var result := Execute(tc, invoke);
            Run(AgentState([Human(text)], Some(0)), respond, invoke)
            == AgentState([Human(text), respond(Human(text)), result, AI("Result: " + result.content, [])], Some(2))
  {
    var s := AgentState([Human(text)], Some(0));
    var reply, result := respond(Human(text)), Execute(tc, invoke);
    var summary := AI("Result: " + result.content, []);
    assert Last(s.messages) == Human(text);
    assert s.messages + [reply, result, summary] == [Human(text), reply, result, summary];
    RunWithRequest(s, tc, respond, invoke);
  }

  /** A turn on one user message started at step 5 or later ends with the reply, whatever it requests. */
  lemma TurnAtCeiling(text: string, steps: int, respond: Message -> Message, invoke: ToolInvoker)
    requires SummarisesResults(respond) && steps + 1 >= StepLimit
    ensures Run(AgentState([Human(text)], Some(steps)), respond, invoke)
            == AgentState([Human(text), respond(Human(text))], Some(steps + 1))
  {
    var s := AgentState([Human(text)], Some(steps));
    assert Last(s.messages) == Human(text);
    assert s.messages + [respond(Human(text))] == [Human(text), respond(Human(text))];
    RunAtCeiling(s, respond, invoke);
  }
}
