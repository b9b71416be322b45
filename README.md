# simple-cli-agent, modelled in Dafny

The agent answers each user turn without a language model. It runs a small graph:

- **Assistant node.** A rule-based responder that looks at the last message.
- **Router.** Sends the turn to the tools or ends it.
- **Tools node.** Runs every requested tool call and records one result message for each.

The turn runs assistant → router → (tools → assistant → router)* and stops at a ceiling of six steps. Node updates are folded into the state: messages are appended, and `steps` is replaced. The two tools are `calc`, an arithmetic evaluator behind a character whitelist, and `utc_now`, the clock.

The model has these modules:

- `Wrappers`: `Option`.
- `PyText`: the Python string operations the responder uses:
  - whitespace as `str.isspace` and the regex class `\s` see it;
  - `str.strip`;
  - `str.lower` on ASCII letters;
  - the substring test `t in s`.
- `Tools`: `calc`, with `eval` as a function parameter.
- `Messages`: the message kinds, `AgentState`, a node's partial update and how it is applied, and `_mk_ai_tool_call`.
- `Responder`: `assistant`, including the first-maximal-run extraction of `re.findall(...)[0]`.
- `Executor`: `run_tools`. It is a method with a `for` loop, proved against the function `ToolResults`. `tool.invoke` is a function parameter.
- `Router`: `route`.
- `AgentGraph`: the graph `build_graph` compiles.
  - `Run` is the reference semantics.
  - `Invoke` is the loop as a method, proved equal to `Run`.
  - Run-level lemmas are stated for any assistant reply function with two properties: it always answers with an AI message, and it sums up a tool result as "Result: …". `ReplyIsAssistant` proves that the responder's `Reply` has both.
- `Scenarios`: example runs. Most are whole first turns of a session (one user message, `steps = 0`), in general and on example texts; one starts at step 5 to show the ceiling, and a few run the executor alone on requests the responder never makes. Later turns carry the earlier history; the run-level lemmas of `AgentGraph` hold for any history.

Where the intended behaviour and the code differ, the model follows the code:

- The ceiling 6 is hard-coded in `route`. The `max_steps` parameter of `build_graph` is never read.
- `calc` catches its own evaluation errors. So an expression such as `10 / 0` reaches the user as "Error: <message>", never as the executor's "Tool error: <message>".

## Model

| member | source | states |
|---|---|---|
| Messages.StepsOf | graph.py:34 | `state.get("steps", 0)`: the stored count when there is one, 0 when the key is absent |
| Messages.Last | graph.py:28 | `state["messages"][-1]` (also graph.py:66 and :92): the history is everything before it followed by it; an empty history, where the code raises `IndexError`, is excluded by its precondition |
| Messages.ToolCallsOf | graph.py:67 | the calls an AI message carries (the `tool_calls` list, also tested at graph.py:93); every other message carries none, as every non-AI message this program builds has empty `additional_kwargs` |
| Messages.Apply | graph.py:14-16 | folding an update appends its messages after the old history, which stays a prefix; `steps` is replaced only when the update sets it |
| Messages.MkAIToolCall | graph.py:19-24 | an AI message with the given content and exactly one call, carrying the given id (default "1"), name and arguments |
| PyText.IsSpace | graph.py:39 | Python's whitespace set (`str.isspace`), which both `strip` and the regex class `\s` (graph.py:49) use: the space, tab, newline and carriage return are in it, and no digit, letter, operator, parenthesis or dot is |
| PyText.TrimStart | graph.py:39 | `lstrip` result: a suffix of the input; everything dropped is whitespace; it does not start with whitespace |
| PyText.TrimEnd | graph.py:39 | `rstrip` result: a prefix of the input; everything dropped is whitespace; it does not end with whitespace |
| PyText.Strip | graph.py:39 | `strip` result: a slice of the input; all characters before and after it are whitespace; it neither starts nor ends with whitespace |
| PyText.StripIs | graph.py:39 | uniqueness: any slice whose outside is all whitespace and whose ends are not whitespace is the strip result |
| PyText.StripTrimmed | graph.py:39 | a non-empty string with no whitespace at either end strips to itself |
| PyText.StripAllSpace | graph.py:39 | a string of whitespace strips to the empty string |
| PyText.StripKeepsNonSpace | graph.py:50 | every non-whitespace character survives stripping, at its shifted position |
| PyText.Lower | graph.py:40 | same length; each character lower-cased (ASCII letters only) |
| PyText.Contains | graph.py:42 | true exactly when `t` occurs in `s` at some index |
| PyText.AbsentFromLower | graph.py:40-42 | if a letter of `t` occurs in `s` in neither case, `t` is not a substring of `s.lower()` |
| Responder.AsksForTime | graph.py:40-42 | true exactly when "utc" or "time" occurs at some index of the lower-cased text |
| Tools.IsAllowed | tools.py:7-8 | `ch in allowed`: exactly the digits, `+`, `-`, `*`, `/`, the parentheses, the dot and the space; the space is the only whitespace among them |
| Tools.HasDisallowed | tools.py:7-8 | true exactly when some character of the expression is outside "0123456789+-*/(). " |
| Tools.Calc | tools.py:5-14 | a disallowed character gives the fixed rejection message; otherwise it gives the evaluated text, or "Error: " and the evaluation's message |
| Tools.RejectedIgnoresEval | tools.py:8-11 | a rejected expression is never evaluated: the result is the same for every evaluator |
| Tools.RejectsOtherWhitespace | tools.py:7-9 | any whitespace character other than the ASCII space makes `calc` reject the expression |
| Tools.EmptyPassesWhitelist | tools.py:8-14 | the empty expression passes the check, and its result is whatever the evaluator gives for it: the text, or "Error: " and the message |
| Responder.InRunClass | graph.py:49 | the character class of the extraction pattern: digits, `+`, `-`, `*`, `/`, the parentheses, the dot and every whitespace character |
| Responder.RunClassIsWhitelistOrSpace | graph.py:49 | the class is exactly `calc`'s whitelist (tools.py:7) plus every whitespace character; whitespace other than the space is in the class but not the whitelist |
| Responder.FirstRunStart | graph.py:49 | where the first match of the pattern starts: no earlier character is in the class, and the character there is (or the text has none) |
| Responder.RunLength | graph.py:49 | length of the longest prefix made of class characters: all of it is in the class and the next character is not |
| Responder.FirstMatch | graph.py:49-50 | no match exactly when the text has no class character |
| Responder.FirstMatchIsFirstRun | graph.py:49-50 | the first match is exactly the first maximal run of class characters, wherever it lies |
| Responder.Expression | graph.py:50 | the extracted expression is empty when no character is in the class, and otherwise is the stripped first maximal run |
| Responder.StripKeepsNonSpaceClass | graph.py:50-51 | a character property that no whitespace has holds somewhere in a run iff it holds somewhere in the stripped run |
| Responder.StripKeepsMath | graph.py:50-51 | stripping the run loses no digit and no operator |
| Responder.HasDigit | graph.py:51 | `any(ch.isdigit() for ch in expr)`: some character of the text is a digit |
| Responder.HasOperator | graph.py:51 | `any(op in expr for op in ...)`: true exactly when one of "+", "-", "*", "/" is a substring of the text |
| Responder.OperatorOccurs | graph.py:51 | a one-character substring test holds exactly when the character occurs at some index |
| Responder.ReplyToUser | graph.py:38-60 | the reply to a user message is always an AI message |
| Responder.Reply | graph.py:27-62 | whatever the last message, the reply is an AI message |
| Responder.Assistant | graph.py:27-62 | exactly one AI message is appended, and `steps` becomes the old count (0 when absent) plus one |
| Responder.ToolResultIsSummarised | graph.py:31-35 | a tool result with content c is answered with "Result: " + c and no tool call |
| Responder.TimeKeywordFirst | graph.py:42-46 | "utc" or "time" in the stripped, lower-cased text always gives a single `utc_now` call with no arguments and id "1", whatever arithmetic is present |
| Responder.MathDetection | graph.py:48-60 | with no time keyword, `calc` is requested with the stripped first maximal run exactly when that run holds a digit and an operator; otherwise the help text |
| Responder.WholeTextIsExpression | graph.py:49-55 | a stripped message made only of class characters, with a digit and an operator, is sent to `calc` whole |
| Responder.ExpressionOfWholeRun | graph.py:49-50 | a stripped text made only of class characters is its own extracted expression |
| Responder.NoRunGetsHelp | graph.py:49-60 | a text with no class character at all gets the help text |
| Responder.OtherGetsPrompt | graph.py:62 | a last message that is neither a user message nor a tool result gets "Send a question." |
| Responder.ReplyRequestsAtMostOne | graph.py:27-62 | every reply requests at most one tool, always with id "1" and named `utc_now` or `calc`; a tool result's reply requests none |
| Executor.Execute | graph.py:71-84 | one request becomes a tool-result message whose correlation id is the request id, or the name when the id is missing or empty |
| Executor.ToolResults | graph.py:69-86 | one result per request, in request order, and none when there are no requests |
| Executor.RunTools | graph.py:65-86 | the loop appends exactly the results `ToolResults` lists for the last message's requests, and leaves `steps` unset |
| Executor.UnknownToolIsReported | graph.py:75-77 | an unregistered or missing name gives "Error: unknown tool '<name>'" and never raises |
| Executor.RaisedIsReported | graph.py:79-82 | a tool that raises gives "Tool error: " and the exception's message |
| Executor.ReturnedIsRecorded | graph.py:79-84 | a tool's returned text is recorded unchanged |
| Executor.CallIdFallback | graph.py:73 | the correlation id is the id when present and non-empty, else the name ("None" when that is missing too) |
| Executor.NameText | graph.py:73-77 | `str(name)` of the possibly missing name: the name itself, or "None" |
| Executor.ArgsOf | graph.py:72 | `tc.get("args", {}) or {}`: the arguments when present, otherwise the empty map |
| Executor.CallId | graph.py:73 | the request id when present and non-empty, otherwise the tool name ("None" when missing) |
| Executor.Observation | graph.py:75-82 | an unregistered or missing name gives the unknown-tool text without calling anything; a registered tool's returned text is kept and a raised message becomes "Tool error: " and the message |
| Executor.ToolsByName | graph.py:11 | the registry: "calc" with an expression runs `calc` on it (tools.py:5-14), "utc_now" returns the clock reading, and a `calc` call without an expression raises the validation message |
| Executor.ContentIgnoresId | graph.py:71-80 | the request id never changes the result text |
| Router.RequestsTools | graph.py:93 | an AI message with a non-empty tool-call list: true exactly when the message carries some tool call |
| Router.Route | graph.py:89-95 | "end" whenever `steps` is at least 6, whatever the history holds; below that, "tools" exactly when the last message is an AI message with a non-empty call list |
| Router.ToolsOnlyBelowCeiling | graph.py:89-95 | going to the tools implies fewer than 6 steps and a pending request |
| AgentGraph.ReplyIsAssistant | graph.py:27-62 | the responder always answers with an AI message and sums up every tool result as "Result: " with no call |
| AgentGraph.RepliesUseRegisteredTools | graph.py:11 | every tool the responder requests is in `Registered`, the key set of `TOOLS_BY_NAME` that the lookup at graph.py:75-76 tests, so the unknown-tool branch is never taken on its requests |
| AgentGraph.AfterAssistant | graph.py:100-104 | one assistant step: the reply to the last message is appended and `steps` becomes the old count plus one |
| AgentGraph.AfterTools | graph.py:101-105 | one tools step: the results of the last message's requests are appended and `steps` is unchanged |
| AgentGraph.AssistantNode | graph.py:100 | the assistant node's update, once applied, appends the responder's reply to the last message and counts one step |
| AgentGraph.Continue | graph.py:103-105 | the rest of a run keeps the history it starts from as a prefix |
| AgentGraph.Run | graph.py:98-107 | a run adds at least one message and keeps the input history as a prefix |
| AgentGraph.Invoke | graph.py:98-107 | the loop (assistant, then tools and assistant while the router says "tools") computes exactly `Run` |
| AgentGraph.NoRepliesAmongResults | graph.py:84-86 | the tools node adds no AI message |
| AgentGraph.ContinueAppendsAndCounts | graph.py:14-16 | only assistant steps move `steps`, and the increase equals the number of AI messages appended |
| AgentGraph.ContinueCeiling | graph.py:89-91 | a run never takes `steps` past the larger of its start and 6 |
| AgentGraph.ContinueEndsOnReply | graph.py:103-105 | a run stops only right after an assistant step, on a state the router ends |
| AgentGraph.RunAppendsAndCounts | graph.py:14-16 | over a whole run, the growth of `steps` equals the number of AI messages appended |
| AgentGraph.RunEndsOnReply | graph.py:103-105 | a run ends on an AI message, with `steps` set, in a state the router sends to "end" |
| AgentGraph.RunCeiling | graph.py:89-91 | the assistant runs at least once, and `steps` never passes 6 unless the run started at 6 or above, when it ends one step later |
| AgentGraph.AtMostSixReplies | graph.py:89-91 | a turn started at `steps = 0`, as the CLI starts every turn, appends at most six AI messages |
| AgentGraph.SummaryEndsRun | graph.py:31-35 | after tool results the assistant appends the summary and the run ends there |
| AgentGraph.RunShape | graph.py:98-107 | the complete result of a run: the reply alone, or, for a request below the ceiling, the reply, the results and the summary of the last result |
| AgentGraph.AtMostTwoReplies | graph.py:31-35 | because tool results are always summarised, a run makes one or two assistant steps |
| AgentGraph.RunWithoutRequest | graph.py:93-95 | a reply with no request ends the run after one step |
| AgentGraph.RunWithRequest | graph.py:103-105 | one request below the ceiling gives the request, its result and "Result: " + the result text, two steps later |
| AgentGraph.RunAtCeiling | graph.py:89-91 | a request made at the ceiling is left pending: the run ends with the reply |
| AgentGraph.FreshTurnWithoutRequest | main.py:15-16 | the first turn of a session, whose reply requests nothing, ends with that reply, after one step |
| AgentGraph.FreshTurnWithRequest | main.py:15-16 | the first turn of a session, whose reply requests one tool, ends with the request, the result and the summary |
| AgentGraph.TurnAtCeiling | graph.py:89-91 | a turn on one user message started at step 5 or later ends with the reply, whatever it requests |
| Scenarios.FreshWithoutRequest | graph.py:27-62 | the same as `FreshTurnWithoutRequest`, for the responder of graph.py |
| Scenarios.FreshWithRequest | graph.py:27-62 | the same as `FreshTurnWithRequest`, for the responder of graph.py |
| Scenarios.ClockIsReported | graph.py:42-46 | a turn with a time keyword calls `utc_now` and reports the time it returns |
| Scenarios.ArithmeticInTextReply | graph.py:49-55 | arithmetic after other words: the stripped first run is what `calc` is asked for |
| Scenarios.ArithmeticReply | graph.py:49-55 | a message that is an expression as a whole is what `calc` is asked for |
| Scenarios.CalcTurn | graph.py:79-84 | whatever `calc` returns for the requested expression is recorded under id "1" and reported as "Result: " |
| Scenarios.ArithmeticIsCalculated | graph.py:49-55 | the whole turn on a message that is an expression |
| Scenarios.EvalErrorIsReportedByCalc | tools.py:13-14 | an evaluation failure reaches the user as "Result: Error: <message>" |
| Scenarios.OtherWhitespaceIsRejected | tools.py:7-9 | an expression with a tab or other non-space whitespace is sent to `calc` and rejected |
| Scenarios.NoTimeKeyword | graph.py:40-42 | text without u and m, in either case, names neither keyword |
| Scenarios.LoneSpaceRunGetsHelp | graph.py:49-60 | when the first run is a lone space, the help text comes back, whatever arithmetic follows |
| Scenarios.FirstRunOnly | graph.py:49-51 | "hello world 2+2" gets the help text |
| Scenarios.SumReply | graph.py:49-55 | "what's 2+2" gets a `calc` request for "2+2" |
| Scenarios.SumIsCalculated | graph.py:49-55 | the turn on "what's 2+2" ends with "Result: 4" when the evaluator gives 4 |
| Scenarios.CeilingLeavesRequestPending | graph.py:89-91 | "what's 2+2" at step 5 ends with the pending `calc` request, at step 6 |
| Scenarios.DivisionByZeroIsReportedByCalc | tools.py:13-14 | "10 / 0" is sent to `calc` whole, and an evaluator failure comes back as "Error: <message>" |
| Scenarios.TabPassesExtractionButNotCalc | tools.py:7-9 | "1\t+1" is extracted with its tab and then rejected by `calc` |
| Scenarios.ClockExample | graph.py:42-46 | "what time is it in utc" calls `utc_now` and reports its text |
| Scenarios.SumWithRegisteredTools | graph.py:11 | with the registry wired to `calc`, "what's 2+2" ends with "Result: 4" when the evaluator gives 4 |
| Scenarios.ClockWithRegisteredTools | graph.py:11 | with the registry, "what time is it in utc" ends with the clock reading |
| Scenarios.UnknownToolExample | graph.py:76-77 | a request for "search" under id 7 gives "Error: unknown tool 'search'" under id 7 |
| Scenarios.NamelessRequestExample | graph.py:73 | with neither an id nor a name, the text and the id both say "None" |
| Scenarios.EmptyIdExample | graph.py:73 | an empty id falls back to the tool name |

## Left out

- `utc_now`: it reads the wall clock. The time it returns is a parameter: `now` of `ToolsByName`, or whatever `invoke` gives for it.
- Tools.Calc: the call to `eval` is a function parameter. Arithmetic, float division and Python's expression grammar are not modelled; nor is the conversion of the value to text, which is the evaluator's result.
- `tool.invoke` is a function parameter:
  - its argument-schema validation appears only as one fixed message, `invalid` of `ToolsByName`, for a `calc` call without an expression; the text Pydantic would produce is not modelled;
  - the exceptions it raises appear only as the `Raised` outcome.
- Responder.HasDigit: tests ASCII digits only, where `str.isdigit` also accepts other Unicode digits. This does not change the reply: the expression is built only from class characters, and the only digits in the class are the ASCII ones.
- Messages.ToolCall: argument values are strings and keys are always strings. Non-string ids, names and argument values are out of scope.
- Messages.Message: a user message's content is a string. The `or ""` for a missing content is therefore not modelled.
- PyText.Lower: lower-cases ASCII letters only. This cannot change the keyword test. No other character lowers to any of the letters of "utc" or "time", except U+0130, which lowers to "i" followed by a combining dot and so cannot complete "time".
- An empty history, where the code raises `IndexError`: every member that reads the last message requires a non-empty history. The router needs this only below the ceiling, as in the code.
- The LangGraph runtime:
  - `StateGraph`, `compile` and the channel machinery are replaced by `Run` and the explicit loop in `Invoke`;
  - LangGraph's own recursion limit (25 super-steps by default) is not modelled. It is never reached: a tool result is always summarised, so every run ends within three super-steps (`AtMostTwoReplies`). Even a responder that always asked for a tool would reach only 11 super-steps from `steps = 0`, because of the ceiling (`AtMostSixReplies`);
  - the message classes are replaced by the `Message` datatype.
- main.py: the terminal loop, `input`, `print` and the "exit" command are not modelled. Only how it calls the graph is used: each turn starts at `steps = 0` with the whole history (`AtMostSixReplies`, and the first-turn lemmas `FreshTurnWithoutRequest` and `FreshTurnWithRequest`). Printing the last AI message is not modelled.
- `build_graph`'s `max_steps`: it is never read, so it is not a parameter of the model.
- The code has no "step limit reached" message: a run stopped by the ceiling simply ends on its last reply (`RunAtCeiling`).
