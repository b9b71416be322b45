/**
 * The `calc` tool: a character whitelist in front of Python's `eval`.
 * `eval` (and the `str` of its value) is outside this model and is passed in
 * as an opaque total function that either renders a value or fails with a message.
 */
module Tools {

  import PyText

  /** What `str(eval(expression, ...))` does: yields the text of a value, or raises with a message. */
  datatype EvalOutcome = Evaluated(text: string) | EvalFailed(message: string)

  /** The characters `calc` lets through to `eval`; the only whitespace among them is the ASCII space. */
  const AllowedChars: string := "0123456789+-*/(). "

  const DisallowedMessage: string := "Error: expression contains disallowed characters."

  /** `ch in allowed`: a digit, one of `+-*` and `/`, a parenthesis, the dot or the ASCII space. */
  function IsAllowed(c: char): (r: bool)
    ensures r <==> ('0' <= c <= '9') || c == '+' || c == '-' || c == '*' || c == '/'
                   || c == '(' || c == ')' || c == '.' || c == ' '
    ensures r && PyText.IsSpace(c) ==> c == ' '
  {
    c in AllowedChars
  }

  /** `any(ch not in allowed for ch in expression)`. */
  function HasDisallowed(expression: string): (r: bool)
    ensures r <==> exists i :: 0 <= i < |expression| && !IsAllowed(expression[i])
  {
    if |expression| == 0 then false
    else !IsAllowed(expression[0]) || HasDisallowed(expression[1..])
  }

  /**
   * The `calc` tool. It never raises: a disallowed character gives the fixed
   * message without consulting `eval`, an evaluation failure is returned as
   * "Error: " followed by its message, and a success as the value's text.
   */
  function Calc(expression: string, eval: string -> EvalOutcome): (r: string)
    ensures (exists i :: 0 <= i < |expression| && !IsAllowed(expression[i])) ==> r == DisallowedMessage
    ensures (forall i :: 0 <= i < |expression| ==> IsAllowed(expression[i])) ==>
              match eval(expression)
              case Evaluated(text) => r == text
              case EvalFailed(message) => r == "Error: " + message
  {
    if HasDisallowed(expression) then DisallowedMessage
    else
      match eval(expression)
      case Evaluated(text) => text
      case EvalFailed(message) => "Error: " + message
  }

  /** A rejected expression is never evaluated: the result does not depend on `eval` at all. */
  lemma RejectedIgnoresEval(expression: string, eval1: string -> EvalOutcome, eval2: string -> EvalOutcome)
    requires exists i :: 0 <= i < |expression| && !IsAllowed(expression[i])
    ensures Calc(expression, eval1) == Calc(expression, eval2) == DisallowedMessage
  {
  }

  /** Tabs, newlines and every other whitespace character but the ASCII space are rejected. */
  lemma {:induction false} RejectsOtherWhitespace(expression: string, i: int, eval: string -> EvalOutcome)
    requires 0 <= i < |expression| && PyText.IsSpace(expression[i]) && expression[i] != ' '
    ensures Calc(expression, eval) == DisallowedMessage
  {
    assert !IsAllowed(expression[i]);
  }

  /** The empty expression passes the whitelist (`any` over no characters is false) and goes to `eval`. */
  lemma EmptyPassesWhitelist(eval: string -> EvalOutcome)
    ensures !HasDisallowed("")
    ensures Calc("", eval) == match eval("")
                              case Evaluated(text) => text
                              case EvalFailed(message) => "Error: " + message
  {
  }
}
