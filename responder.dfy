/**
 * The responder (graph.py `assistant`): a rule-based reply to the last
 * message, with keyword detection for the clock tool and a character-run
 * heuristic for the calculator.
 */
module Responder {

  import opened Wrappers
  import opened PyText
  import opened Messages
  import Tools

  const HelpText: string := "Try a math expression (e.g., 12*(7+3)/2) or ask for UTC time."
  const PromptText: string := "Send a question."

  /** The class `[0-9\+\-\*\/\(\)\.\s]` of the extraction pattern. */
  predicate InRunClass(c: char)
  {
    ('0' <= c <= '9') || c in "+-*/()." || IsSpace(c)
  }

  /**
   * The class is the whitelist of `calc` with every whitespace character
   * added: the ASCII space is in both, and every other whitespace is in the
   * class only.
   */
  lemma RunClassIsWhitelistOrSpace(c: char)
    ensures InRunClass(c) <==> Tools.IsAllowed(c) || IsSpace(c)
    ensures IsSpace(c) && c != ' ' ==> InRunClass(c) && !Tools.IsAllowed(c)
  {
  }

  /** Index of the first character of `s` in the class, or `|s|` when there is none. */
  function FirstRunStart(s: string): (k: nat)
    ensures k <= |s|
    ensures forall i :: 0 <= i < k ==> !InRunClass(s[i])
    ensures k < |s| ==> InRunClass(s[k])
  {
    if |s| == 0 || InRunClass(s[0]) then 0 else 1 + FirstRunStart(s[1..])
  }

  /** Length of the longest prefix of `s` made of class characters. */
  function RunLength(s: string): (n: nat)
    ensures n <= |s|
    ensures forall i :: 0 <= i < n ==> InRunClass(s[i])
    ensures n < |s| ==> !InRunClass(s[n])
  {
    if |s| > 0 && InRunClass(s[0]) then 1 + RunLength(s[1..]) else 0
  }

  /**
   * `s[k..k+n]` is the first maximal run of class characters in `s`: nothing
   * before it is in the class, all of it is, and it cannot be extended.
   */
  ghost predicate IsFirstRun(s: string, k: int, n: int)
  {
    && 0 <= k && 0 < n && k + n <= |s|
    && (forall i :: 0 <= i < k ==> !InRunClass(s[i]))
    && (forall i :: k <= i < k + n ==> InRunClass(s[i]))
    && (k + n == |s| || !InRunClass(s[k + n]))
  }

  /** `re.findall(pattern, s)[0]`, or None when the list is empty. */
  function FirstMatch(s: string): (m: Option<string>)
    ensures m.None? <==> forall i :: 0 <= i < |s| ==> !InRunClass(s[i])
  {
    var k := FirstRunStart(s);
    if k == |s| then None else Some(s[k..k + RunLength(s[k..])])
  }

  /** A maximal run of class characters at the front of `t` has length `RunLength(t)`. */
  lemma {:induction false} RunLengthIsMaximal(t: string, n: int)
    requires 0 <= n <= |t|
    requires forall i :: 0 <= i < n ==> InRunClass(t[i])
    requires n == |t| || !InRunClass(t[n])
    ensures RunLength(t) == n
  {
    if n > 0 {
      assert InRunClass(t[0]);
      assert forall i :: 0 <= i < n - 1 ==> t[1..][i] == t[i + 1];
      assert n - 1 < |t| - 1 ==> t[1..][n - 1] == t[n];
      RunLengthIsMaximal(t[1..], n - 1);
    }
  }

  /** The first class character of `s` is at `FirstRunStart(s)`. */
  lemma {:induction false} FirstRunStartIsFirst(s: string, k: int)
    requires 0 <= k < |s| && InRunClass(s[k])
    requires forall i :: 0 <= i < k ==> !InRunClass(s[i])
    ensures FirstRunStart(s) == k
  {
    if k > 0 {
      assert !InRunClass(s[0]);
      assert forall i :: 0 <= i < k - 1 ==> s[1..][i] == s[i + 1];
      FirstRunStartIsFirst(s[1..], k - 1);
    }
  }

  /** The first match is exactly the first maximal run, wherever that run lies. */
  lemma FirstMatchIsFirstRun(s: string, k: int, n: int)
    requires IsFirstRun(s, k, n)
    ensures FirstMatch(s) == Some(s[k..k + n])
  {
    FirstRunStartIsFirst(s, k);
    RunAfterStart(s, k, n);
    FirstMatchAt(s, k, n);
  }

  /** Once the start and the length of the first run are known, so is the first match. */
  lemma FirstMatchAt(s: string, k: int, n: int)
    requires 0 <= k < |s| && FirstRunStart(s) == k && k + n <= |s| && RunLength(s[k..]) == n
    ensures FirstMatch(s) == Some(s[k..k + n])
  {
  }

  /** The maximal run starting at `k` has length `n`. */
  lemma RunAfterStart(s: string, k: int, n: int)
    requires IsFirstRun(s, k, n)
    ensures RunLength(s[k..]) == n
  {
    var t := s[k..];
    assert forall i :: 0 <= i < |t| ==> t[i] == s[k + i];
    RunLengthIsMaximal(t, n);
  }

  /**
   * `m[0].strip() if m else ""`: empty when no character is in the class,
   * otherwise the stripped first maximal run.
   */
  function Expression(text: string): (expr: string)
    ensures (forall i :: 0 <= i < |text| ==> !InRunClass(text[i])) ==> expr == ""
    ensures forall k, n :: IsFirstRun(text, k, n) ==> expr == Strip(text[k..k + n])
  {
    assert forall k, n :: IsFirstRun(text, k, n) ==> FirstMatch(text) == Some(text[k..k + n]) by {
      forall k, n | IsFirstRun(text, k, n) ensures FirstMatch(text) == Some(text[k..k + n]) {
        FirstMatchIsFirstRun(text, k, n);
      }
    }
    match FirstMatch(text)
    case Some(run) => Strip(run)
    case None => ""
  }

  predicate IsDigit(c: char)
  {
    '0' <= c <= '9'
  }

  predicate IsOperator(c: char)
  {
    c == '+' || c == '-' || c == '*' || c == '/'
  }

  /** `any(ch.isdigit() for ch in expr)`. */
  function HasDigit(s: string): (r: bool)
    ensures r <==> exists c :: c in s && IsDigit(c)
  {
    exists i :: 0 <= i < |s| && IsDigit(s[i])
  }

  /** `any(op in expr for op in ...)` over the four operators `+`, `-`, `*` and `/`. */
  function HasOperator(s: string): (r: bool)
    ensures r <==> Contains(s, "+") || Contains(s, "-") || Contains(s, "*") || Contains(s, "/")
  {
    OperatorOccurs(s, '+');
    OperatorOccurs(s, '-');
    OperatorOccurs(s, '*');
    OperatorOccurs(s, '/');
    exists i :: 0 <= i < |s| && IsOperator(s[i])
  }

  /** A one-character substring test is a character search. */
  lemma OperatorOccurs(s: string, c: char)
    ensures Contains(s, [c]) <==> exists i :: 0 <= i < |s| && s[i] == c
  {
    forall i | 0 <= i < |s| && s[i] == c
      ensures OccursAt(s, [c], i)
    {
      assert s[i..i + 1] == [c];
    }
    forall i | OccursAt(s, [c], i)
      ensures s[i] == c
    {
      assert s[i..i + 1][0] == s[i];
    }
  }

  /** A character predicate that holds of no whitespace holds somewhere in `run` iff it does in `run.strip()`. */
  lemma StripKeepsNonSpaceClass(run: string, p: char -> bool)
    requires forall c :: p(c) ==> !IsSpace(c)
    ensures (exists i :: 0 <= i < |Strip(run)| && p(Strip(run)[i])) <==> (exists i :: 0 <= i < |run| && p(run[i]))
  {
    var k, r := LeadingSpace(run), Strip(run);
    forall i | 0 <= i < |run| && p(run[i])
      ensures exists j :: 0 <= j < |r| && p(r[j])
    {
      StripKeepsNonSpace(run, i);
      assert p(r[i - k]);
    }
    forall j | 0 <= j < |r| && p(r[j])
      ensures exists i :: 0 <= i < |run| && p(run[i])
    {
      StripAt(run, j);
    }
  }

  /** Stripping a run loses no digit and no operator, since neither is whitespace. */
  lemma StripKeepsMath(run: string)
    ensures HasDigit(Strip(run)) <==> HasDigit(run)
    ensures HasOperator(Strip(run)) <==> HasOperator(run)
  {
    StripKeepsNonSpaceClass(run, IsDigit);
    StripKeepsNonSpaceClass(run, IsOperator);
  }

  /** The two time keywords, looked for in the lower-cased text: one of them occurs in it at some index. */
  function AsksForTime(text: string): (r: bool)
    ensures r <==> exists i :: OccursAt(Lower(text), "utc", i) || OccursAt(Lower(text), "time", i)
  {
    var lower := Lower(text);
    Contains(lower, "utc") || Contains(lower, "time")
  }

  /** The reply to a user message with content `content`. */
  function ReplyToUser(content: string): (reply: Message)
    ensures reply.AI?
  {
    var text := Strip(content);
    if AsksForTime(text) then
      MkAIToolCall("Calling utc_now()", "utc_now", map[])
    else
      var expr := Expression(text);
      if HasDigit(expr) && HasOperator(expr) then
        MkAIToolCall("Calling calc(" + expr + ")", "calc", map["expression" := expr])
      else
        AI(HelpText, [])
  }

  /** The reply `assistant` builds from the last message, dispatching on its kind. */
  function Reply(last: Message): (reply: Message)
    ensures reply.AI?
  {
    match last
    case ToolResult(content, _) => AI("Result: " + content, [])
    case Human(content) => ReplyToUser(content)
    case _ => AI(PromptText, [])
  }

  /**
   * `assistant`: whatever the last message, exactly one AI message is
   * appended and `steps` becomes the old count (0 when absent) plus one.
   */
  function Assistant(s: AgentState): (u: Update)
    requires |s.messages| > 0
    ensures |u.messages| == 1 && u.messages[0].AI?
    ensures u.steps == Some(StepsOf(s) + 1)
  {
    Update([Reply(Last(s.messages))], Some(StepsOf(s) + 1))
  }

  /** A tool result is summarised as "Result: " and its content, with no further tool call. */
  lemma ToolResultIsSummarised(s: AgentState)
    requires |s.messages| > 0 && Last(s.messages).ToolResult?
    ensures Assistant(s).messages == [AI("Result: " + Last(s.messages).content, [])]
  {
  }

  /**
   * A time keyword anywhere in the stripped, lower-cased text wins over any
   * arithmetic in it: the reply requests `utc_now` alone, with no arguments and id "1".
   */
  lemma TimeKeywordFirst(content: string)
    requires AsksForTime(Strip(content))
    ensures ReplyToUser(content) == AI("Calling utc_now()", [ToolCall(Some("1"), Some("utc_now"), Some(map[]))])
  {
  }

  /**
   * Without a time keyword, `calc` is requested, with the stripped first
   * maximal run as its only argument, exactly when that run holds a digit and
   * an operator; otherwise the reply is the help text.
   */
  lemma {:induction false} MathDetection(content: string, k: int, n: int)
    requires !AsksForTime(Strip(content))
    requires IsFirstRun(Strip(content), k, n)
    ensures var run := Strip(content)[k..k + n];
            var expr := Strip(run);
            ReplyToUser(content) ==
              if HasDigit(run) && HasOperator(run) then
                AI("Calling calc(" + expr + ")", [ToolCall(Some("1"), Some("calc"), Some(map["expression" := expr]))])
              else
                AI(HelpText, [])
  {
    FirstMatchIsFirstRun(Strip(content), k, n);
    StripKeepsMath(Strip(content)[k..k + n]);
  }

  /**
   * A message that, once stripped, is made of class characters only and holds
   * a digit and an operator (and no time keyword) is sent to `calc` whole.
   */
  lemma WholeTextIsExpression(content: string)
    requires var text := Strip(content);
             && |text| > 0 && !AsksForTime(text) && HasDigit(text) && HasOperator(text)
             && forall i :: 0 <= i < |text| ==> InRunClass(text[i])
    ensures var expr := Strip(content);
            ReplyToUser(content) == AI("Calling calc(" + expr + ")", [ToolCall(Some("1"), Some("calc"), Some(map["expression" := expr]))])
  {
    ExpressionOfWholeRun(Strip(content));
  }

  /** A stripped text made of class characters only is its own expression. */
  lemma ExpressionOfWholeRun(text: string)
    requires |text| > 0 && !IsSpace(text[0]) && !IsSpace(text[|text| - 1])
    requires forall i :: 0 <= i < |text| ==> InRunClass(text[i])
    ensures Expression(text) == text
  {
    assert IsFirstRun(text, 0, |text|);
    FirstMatchIsFirstRun(text, 0, |text|);
    assert text[0..|text|] == text;
    StripTrimmed(text);
  }

  /** Text with no class character at all gets the help text (unless it asks for the time). */
  lemma NoRunGetsHelp(content: string)
    requires !AsksForTime(Strip(content))
    requires forall i :: 0 <= i < |Strip(content)| ==> !InRunClass(Strip(content)[i])
    ensures ReplyToUser(content) == AI(HelpText, [])
  {
  }

  /** Any last message that is neither a user message nor a tool result gets the fixed prompt. */
  lemma OtherGetsPrompt(s: AgentState)
    requires |s.messages| > 0 && !Last(s.messages).Human? && !Last(s.messages).ToolResult?
    ensures Assistant(s).messages == [AI(PromptText, [])]
  {
  }

  /** Every reply requests at most one tool, with id "1", and only `utc_now` or `calc`. */
  lemma {:induction false} ReplyRequestsAtMostOne(last: Message)
    ensures |Reply(last).toolCalls| <= 1
    ensures |Reply(last).toolCalls| == 1 ==>
              var tc := Reply(last).toolCalls[0];
              tc.id == Some("1") && (tc.name == Some("utc_now") || tc.name == Some("calc"))
    ensures last.ToolResult? ==> Reply(last).toolCalls == []
  {
    if last.Human? {
      var text := Strip(last.content);
      if !AsksForTime(text) {
        var expr := Expression(text);
        if HasDigit(expr) && HasOperator(expr) {
          assert Reply(last).toolCalls[0].name == Some("calc");
        }
      }
    }
  }
}
