/**
 * Whole turns as the CLI starts the first one of a session: one user
 * message and `steps = 0` (later turns carry the earlier history, which the
 * general lemmas of `AgentGraph` cover).
 * What the tools return is a hypothesis of each lemma, since `tool.invoke`
 * is outside the model.
 */
module Scenarios {

  import opened Wrappers
  import opened PyText
  import opened Tools
  import opened Messages
  import opened Responder
  import opened Executor
  import opened AgentGraph

  /** The first turn of a session as the CLI starts it: the user's text alone, and `steps = 0`. */
  function Fresh(text: string): AgentState
  {
    AgentState([Human(text)], Some(0))
  }

  /** The calc request the responder makes for `expr`. */
  function CalcRequest(expr: string): ToolCall
  {
    ToolCall(Some("1"), Some("calc"), Some(map["expression" := expr]))
  }

  /** The clock request the responder makes. */
  function ClockRequest(): ToolCall
  {
    ToolCall(Some("1"), Some("utc_now"), Some(map[]))
  }

  /** A fresh turn whose reply requests nothing consists of that reply alone, after one step. */
  lemma FreshWithoutRequest(text: string, reply: Message, invoke: ToolInvoker)
    requires Reply(Human(text)) == reply && ToolCallsOf(reply) == []
    ensures Run(Fresh(text), Reply, invoke) == AgentState([Human(text), reply], Some(1))
  {
    ReplyIsAssistant();
    FreshTurnWithoutRequest(text, Reply, invoke);
  }

  /** A fresh turn whose reply requests one tool holds the request, its result and the summary, after two steps. */
  lemma FreshWithRequest(text: string, reply: Message, tc: ToolCall, invoke: ToolInvoker)
    requires Reply(Human(text)) == reply && ToolCallsOf(reply) == [tc]
    ensures var result := Execute(tc, invoke);
            Run(Fresh(text), Reply, invoke)
            == AgentState([Human(text), reply, result, AI("Result: " + result.content, [])], Some(2))
  {
    ReplyIsAssistant();
    FreshTurnWithRequest(text, tc, Reply, invoke);
  }

  /** A time keyword: `utc_now` is called with no arguments and what it returns is reported. */
  lemma ClockIsReported(content: string, now: string, invoke: ToolInvoker)
    requires AsksForTime(Strip(content))
    requires invoke("utc_now", map[]) == Returned(now)
    ensures Run(Fresh(content), Reply, invoke)
            == AgentState([Human(content), AI("Calling utc_now()", [ClockRequest()]),
                           ToolResult(now, "1"), AI("Result: " + now, [])], Some(2))
  {
    TimeKeywordFirst(content);
    FreshWithRequest(content, AI("Calling utc_now()", [ClockRequest()]), ClockRequest(), invoke);
  }

  /** The reply to a message with arithmetic in it: a `calc` request for the stripped first run. */
  lemma ArithmeticInTextReply(content: string, k: int, n: int)
    requires !AsksForTime(Strip(content)) && IsFirstRun(Strip(content), k, n)
    requires HasDigit(Strip(content)[k..k + n]) && HasOperator(Strip(content)[k..k + n])
    ensures var expr := Strip(Strip(content)[k..k + n]);
            Reply(Human(content)) == AI("Calling calc(" + expr + ")", [CalcRequest(expr)])
  {
    MathDetection(content, k, n);
  }

  /** A message that is an arithmetic expression as a whole, with no time keyword. */
  ghost predicate WholeExpression(content: string)
  {
    var text := Strip(content);
    && |text| > 0 && !AsksForTime(text) && HasDigit(text) && HasOperator(text)
    && forall i :: 0 <= i < |text| ==> InRunClass(text[i])
  }

  /** The reply to a whole-expression message: a `calc` request for the stripped text. */
  lemma ArithmeticReply(content: string)
    requires WholeExpression(content)
    ensures Reply(Human(content)) == AI("Calling calc(" + Strip(content) + ")", [CalcRequest(Strip(content))])
  {
    WholeTextIsExpression(content);
  }

  /**
   * A turn whose reply is a `calc` request for `expr`: whatever `calc` makes
   * of `expr` is recorded under id "1" and reported as "Result: ".
   */
  lemma CalcTurn(content: string, expr: string, eval: string -> EvalOutcome, invoke: ToolInvoker)
    requires Reply(Human(content)) == AI("Calling calc(" + expr + ")", [CalcRequest(expr)])
    requires invoke("calc", map["expression" := expr]) == Returned(Calc(expr, eval))
    ensures var answer := Calc(expr, eval);
            Run(Fresh(content), Reply, invoke)
            == AgentState([Human(content), AI("Calling calc(" + expr + ")", [CalcRequest(expr)]),
                           ToolResult(answer, "1"), AI("Result: " + answer, [])], Some(2))
  {
    var request := CalcRequest(expr);
    assert Execute(request, invoke) == ToolResult(Calc(expr, eval), "1");
    FreshWithRequest(content, AI("Calling calc(" + expr + ")", [request]), request, invoke);
  }

  /** A whole-expression message is sent to `calc` stripped, and what `calc` makes of it is reported. */
  lemma ArithmeticIsCalculated(content: string, eval: string -> EvalOutcome, invoke: ToolInvoker)
    requires WholeExpression(content)
    requires invoke("calc", map["expression" := Strip(content)]) == Returned(Calc(Strip(content), eval))
    ensures var expr := Strip(content);
            var answer := Calc(expr, eval);
            Run(Fresh(content), Reply, invoke)
            == AgentState([Human(content), AI("Calling calc(" + expr + ")", [CalcRequest(expr)]),
                           ToolResult(answer, "1"), AI("Result: " + answer, [])], Some(2))
  {
    ArithmeticReply(content);
    CalcTurn(content, Strip(content), eval, invoke);
  }

  /**
   * An expression `eval` cannot evaluate (10 / 0, say): `calc` catches the
   * error itself, so the turn reports "Error: " and the message, and the
   * executor's "Tool error: " never appears.
   */
  lemma EvalErrorIsReportedByCalc(content: string, expr: string, message: string, eval: string -> EvalOutcome, invoke: ToolInvoker)
    requires Reply(Human(content)) == AI("Calling calc(" + expr + ")", [CalcRequest(expr)])
    requires forall i :: 0 <= i < |expr| ==> IsAllowed(expr[i])
    requires eval(expr) == EvalFailed(message)
    requires invoke("calc", map["expression" := expr]) == Returned(Calc(expr, eval))
    ensures Run(Fresh(content), Reply, invoke)
            == AgentState([Human(content), AI("Calling calc(" + expr + ")", [CalcRequest(expr)]),
                           ToolResult("Error: " + message, "1"), AI("Result: " + ("Error: " + message), [])], Some(2))
  {
    CalcTurn(content, expr, eval, invoke);
  }

  /**
   * A tab, a newline or any whitespace but the space is part of an
   * expression to the extraction pattern but not to `calc`'s whitelist:
   * such an expression is sent to `calc`, which rejects it.
   */
  lemma OtherWhitespaceIsRejected(content: string, i: int, eval: string -> EvalOutcome, invoke: ToolInvoker)
    requires WholeExpression(content)
    requires 0 <= i < |Strip(content)| && IsSpace(Strip(content)[i]) && Strip(content)[i] != ' '
    requires invoke("calc", map["expression" := Strip(content)]) == Returned(Calc(Strip(content), eval))
    ensures var expr := Strip(content);
            Run(Fresh(content), Reply, invoke)
            == AgentState([Human(content), AI("Calling calc(" + expr + ")", [CalcRequest(expr)]),
                           ToolResult(DisallowedMessage, "1"), AI("Result: " + DisallowedMessage, [])], Some(2))
  {
    RejectsOtherWhitespace(Strip(content), i, eval);
    ArithmeticIsCalculated(content, eval, invoke);
  }

  /** Text without the letters u and m, in either case, names neither "utc" nor "time". */
  lemma NoTimeKeyword(text: string)
    requires 'u' !in text && 'U' !in text && 'm' !in text && 'M' !in text
    ensures !AsksForTime(text)
  {
    AbsentFromLower(text, "utc", 0);
    AbsentFromLower(text, "time", 2);
  }

  /**
   * Text with no whitespace at either end and without u or m is already
   * stripped and names no time keyword; the example texts below are such texts.
   */
  lemma PlainText(text: string)
    requires |text| > 0 && !IsSpace(text[0]) && !IsSpace(text[|text| - 1])
    requires 'u' !in text && 'U' !in text && 'm' !in text && 'M' !in text
    ensures Strip(text) == text && !AsksForTime(text)
  {
    StripTrimmed(text);
    NoTimeKeyword(text);
  }

  /**
   * Only the first run is examined: when it is a lone space, the help text
   * comes back, whatever arithmetic follows later in the text.
   */
  lemma LoneSpaceRunGetsHelp(content: string, k: int)
    requires !AsksForTime(Strip(content)) && IsFirstRun(Strip(content), k, 1) && Strip(content)[k] == ' '
    ensures ReplyToUser(content) == AI(HelpText, [])
  {
    var run := Strip(content)[k..k + 1];
    assert |run| == 1 && run[0] == ' ';
    assert !HasDigit(run);
    MathDetection(content, k, 1);
  }

  /** The first run of "hello world 2+2" is the space after "hello". */
  lemma HelloWorldFirstRun(text: string)
    requires text == "hello world 2+2"
    ensures IsFirstRun(text, 5, 1) && text[5] == ' '
  {
  }

  /** So "hello world 2+2" gets the help text: its arithmetic is never seen. */
  lemma FirstRunOnly(text: string)
    requires text == "hello world 2+2"
    ensures ReplyToUser(text) == AI(HelpText, [])
  {
    PlainText(text);
    HelloWorldFirstRun(text);
    LoneSpaceRunGetsHelp(text, 5);
  }

  /** The first run of "what's 2+2" is " 2+2", space included. */
  lemma SumFirstRun(text: string)
    requires text == "what's 2+2"
    ensures IsFirstRun(text, 6, 4) && text[6..10] == " 2+2"
  {
  }

  /** " 2+2" holds a digit and an operator and strips to "2+2". */
  lemma SumExpression(run: string)
    requires run == " 2+2"
    ensures HasDigit(run) && HasOperator(run) && Strip(run) == "2+2"
  {
    assert IsDigit(run[1]) && IsOperator(run[2]);
    StripIs(run, 1, 3);
  }

  /** So "what's 2+2" is answered with a `calc` request for "2+2". */
  lemma SumReply(text: string)
    requires text == "what's 2+2"
    ensures Reply(Human(text)) == AI("Calling calc(" + "2+2" + ")", [CalcRequest("2+2")])
  {
    PlainText(text);
    SumFirstRun(text);
    SumExpression(text[6..10]);
    ArithmeticInTextReply(text, 6, 4);
  }

  /** When `eval` gives "4" for "2+2", `calc` passes it through. */
  lemma SumEvaluates(eval: string -> EvalOutcome)
    requires eval("2+2") == Evaluated("4")
    ensures Calc("2+2", eval) == "4"
  {
  }

  /** When `eval` gives "4" for "2+2", the turn on "what's 2+2" ends with "Result: 4" after two steps. */
  lemma SumIsCalculated(text: string, eval: string -> EvalOutcome, invoke: ToolInvoker)
    requires text == "what's 2+2"
    requires eval("2+2") == Evaluated("4")
    requires invoke("calc", map["expression" := "2+2"]) == Returned(Calc("2+2", eval))
    ensures Run(Fresh(text), Reply, invoke)
            == AgentState([Human(text), AI("Calling calc(" + "2+2" + ")", [CalcRequest("2+2")]),
                           ToolResult("4", "1"), AI("Result: " + "4", [])], Some(2))
  {
    SumReply(text);
    SumEvaluates(eval);
    CalcTurn(text, "2+2", eval, invoke);
  }

  /** The same text at step 5: the `calc` request is the last step the ceiling allows, and it is never run. */
  lemma CeilingLeavesRequestPending(text: string, invoke: ToolInvoker)
    requires text == "what's 2+2"
    ensures Run(AgentState([Human(text)], Some(5)), Reply, invoke)
            == AgentState([Human(text), AI("Calling calc(" + "2+2" + ")", [CalcRequest("2+2")])], Some(6))
  {
    SumReply(text);
    ReplyIsAssistant();
    TurnAtCeiling(text, 5, Reply, invoke);
  }

  /** Every character of "10 / 0" is in the class and passes the whitelist; it holds a digit and an operator. */
  lemma DivisionWhole(text: string)
    requires text == "10 / 0"
    ensures HasDigit(text) && HasOperator(text) && forall i :: 0 <= i < |text| ==> InRunClass(text[i]) && IsAllowed(text[i])
  {
    assert IsDigit(text[0]) && IsOperator(text[3]);
  }

  /**
   * "10 / 0" is sent to `calc` whole; when `eval` fails on it, `calc` reports
   * the failure itself as "Error: " and the message.
   */
  lemma DivisionByZeroIsReportedByCalc(text: string, message: string, eval: string -> EvalOutcome, invoke: ToolInvoker)
    requires text == "10 / 0"
    requires eval(text) == EvalFailed(message)
    requires invoke("calc", map["expression" := text]) == Returned(Calc(text, eval))
    ensures Run(Fresh(text), Reply, invoke)
            == AgentState([Human(text), AI("Calling calc(" + text + ")", [CalcRequest(text)]),
                           ToolResult("Error: " + message, "1"), AI("Result: " + ("Error: " + message), [])], Some(2))
  {
    PlainText(text);
    DivisionWhole(text);
    ArithmeticReply(text);
    EvalErrorIsReportedByCalc(text, text, message, eval, invoke);
  }

  /** "1\t+1" is made of class characters, a tab among them, and holds a digit and an operator. */
  lemma TabWhole(text: string)
    requires text == "1\t+1"
    ensures HasDigit(text) && HasOperator(text) && forall i :: 0 <= i < |text| ==> InRunClass(text[i])
    ensures IsSpace(text[1]) && text[1] != ' '
  {
    assert IsDigit(text[0]) && IsOperator(text[2]);
  }

  /** "1\t+1" is sent to `calc` with its tab, and `calc` rejects it without evaluating. */
  lemma TabPassesExtractionButNotCalc(text: string, eval: string -> EvalOutcome, invoke: ToolInvoker)
    requires text == "1\t+1"
    requires invoke("calc", map["expression" := text]) == Returned(Calc(text, eval))
    ensures Run(Fresh(text), Reply, invoke)
            == AgentState([Human(text), AI("Calling calc(" + text + ")", [CalcRequest(text)]),
                           ToolResult(DisallowedMessage, "1"), AI("Result: " + DisallowedMessage, [])], Some(2))
  {
    PlainText(text);
    TabWhole(text);
    OtherWhitespaceIsRejected(text, 1, eval, invoke);
  }

  /** "what time is it in utc" is already stripped and names "time". */
  lemma ClockTextPlain(text: string)
    requires text == "what time is it in utc"
    ensures Strip(text) == text && AsksForTime(text)
  {
    StripTrimmed(text);
    var lower := Lower(text);
    assert lower[5] == 't' && lower[6] == 'i' && lower[7] == 'm' && lower[8] == 'e';
    assert lower[5..9] == "time";
    assert OccursAt(lower, "time", 5);
  }

  /** "what time is it in utc": `utc_now` is called and its text is reported. */
  lemma ClockExample(text: string, now: string, invoke: ToolInvoker)
    requires text == "what time is it in utc"
    requires invoke("utc_now", map[]) == Returned(now)
    ensures Run(Fresh(text), Reply, invoke)
            == AgentState([Human(text), AI("Calling utc_now()", [ClockRequest()]),
                           ToolResult(now, "1"), AI("Result: " + now, [])], Some(2))
  {
    ClockTextPlain(text);
    ClockIsReported(text, now, invoke);
  }

  /** With the tools of `TOOLS_BY_NAME` and an `eval` that gives "4" for "2+2", "what's 2+2" ends with "Result: 4". */
  lemma SumWithRegisteredTools(eval: string -> EvalOutcome, now: string, invalid: string)
    requires eval("2+2") == Evaluated("4")
    ensures Run(Fresh("what's 2+2"), Reply, ToolsByName(eval, now, invalid))
            == AgentState([Human("what's 2+2"), AI("Calling calc(" + "2+2" + ")", [CalcRequest("2+2")]),
                           ToolResult("4", "1"), AI("Result: " + "4", [])], Some(2))
  {
    SumIsCalculated("what's 2+2", eval, ToolsByName(eval, now, invalid));
  }

  /** With the tools of `TOOLS_BY_NAME`, "what time is it in utc" reports the clock reading. */
  lemma ClockWithRegisteredTools(eval: string -> EvalOutcome, now: string, invalid: string)
    ensures Run(Fresh("what time is it in utc"), Reply, ToolsByName(eval, now, invalid))
            == AgentState([Human("what time is it in utc"), AI("Calling utc_now()", [ClockRequest()]),
                           ToolResult(now, "1"), AI("Result: " + now, [])], Some(2))
  {
    ClockExample("what time is it in utc", now, ToolsByName(eval, now, invalid));
  }

  /**
   * The executor on a request the responder never makes: an unregistered tool
   * name gives an in-band error that names it, under the request's id.
   */
  lemma UnknownToolExample(invoke: ToolInvoker)
    ensures Execute(ToolCall(Some("7"), Some("search"), None), invoke)
            == ToolResult("Error: unknown tool 'search'", "7")
  {
  }

  /** With neither an id nor a name, both the error text and the correlation id read "None". */
  lemma NamelessRequestExample(invoke: ToolInvoker)
    ensures Execute(ToolCall(None, None, None), invoke) == ToolResult("Error: unknown tool 'None'", "None")
  {
  }

  /** An empty id falls back to the tool name. */
  lemma EmptyIdExample(args: map<string, string>, invoke: ToolInvoker)
    ensures Execute(ToolCall(Some(""), Some("calc"), Some(args)), invoke).callId == "calc"
  {
  }
}
