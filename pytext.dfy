/**
 * The few Python string operations the agent relies on: whitespace as
 * `str.isspace` and the regular-expression class `\s` see it, `str.strip`,
 * `str.lower` and the substring test `t in s`.
 */
module PyText {

  /** Python's `str.isspace`; `\s` in a `str` pattern matches exactly these characters. */
  function IsSpace(c: char): (r: bool)
    ensures c == ' ' || c == '\t' || c == '\n' || c == '\r' ==> r
    ensures ('0' <= c <= '9') || ('a' <= c <= 'z') || ('A' <= c <= 'Z') ==> !r
    ensures c == '+' || c == '-' || c == '*' || c == '/' || c == '(' || c == ')' || c == '.' ==> !r
  {
    || c == ' '
    || ('\t' <= c <= '\r')
    || ('\U{1c}' <= c <= '\U{1f}')
    || c == '\U{85}' || c == '\U{a0}' || c == '\U{1680}'
    || ('\U{2000}' <= c <= '\U{200a}')
    || c == '\U{2028}' || c == '\U{2029}' || c == '\U{202f}' || c == '\U{205f}' || c == '\U{3000}'
  }

  /** What `s.lstrip()` leaves: a suffix of `s` that drops only whitespace and starts with none. */
  function TrimStart(s: string): (r: string)
    ensures |r| <= |s| && r == s[|s| - |r|..]
    ensures forall i :: 0 <= i < |s| - |r| ==> IsSpace(s[i])
    ensures r == [] || !IsSpace(r[0])
  {
    if |s| > 0 && IsSpace(s[0]) then TrimStart(s[1..]) else s
  }

  /** What `s.rstrip()` leaves: a prefix of `s` that drops only whitespace and ends with none. */
  function TrimEnd(s: string): (r: string)
    ensures |r| <= |s| && r == s[..|r|]
    ensures forall i :: |r| <= i < |s| ==> IsSpace(s[i])
    ensures r == [] || !IsSpace(r[|r| - 1])
  {
    if |s| > 0 && IsSpace(s[|s| - 1]) then TrimEnd(s[..|s| - 1]) else s
  }

  /** Number of leading whitespace characters of `s`. */
  function LeadingSpace(s: string): nat
  {
    |s| - |TrimStart(s)|
  }

  /**
   * Python's `s.strip()`: the slice of `s` left after removing whitespace at
   * both ends; everything removed is whitespace and the slice neither starts
   * nor ends with whitespace.
   */
  function Strip(s: string): (r: string)
    ensures LeadingSpace(s) + |r| <= |s|
    ensures r == s[LeadingSpace(s)..LeadingSpace(s) + |r|]
    ensures forall i :: 0 <= i < LeadingSpace(s) ==> IsSpace(s[i])
    ensures forall i :: LeadingSpace(s) + |r| <= i < |s| ==> IsSpace(s[i])
    ensures r == [] || (!IsSpace(r[0]) && !IsSpace(r[|r| - 1]))
  {
    var t := TrimStart(s);
    var r := TrimEnd(t);
    TrimBoth(s, t, r);
    r
  }

  /** How the two trims of `Strip` compose: the kept slice and the trailing whitespace, in `s`'s own indices. */
  lemma TrimBoth(s: string, t: string, r: string)
    requires |t| <= |s| && t == s[|s| - |t|..]
    requires |r| <= |t| && r == t[..|r|]
    requires forall i :: |r| <= i < |t| ==> IsSpace(t[i])
    ensures r == s[|s| - |t|..|s| - |t| + |r|]
    ensures forall i :: |s| - |t| + |r| <= i < |s| ==> IsSpace(s[i])
  {
    var k := |s| - |t|;
    forall i | k + |r| <= i < |s|
      ensures IsSpace(s[i])
    {
      assert s[i] == t[i - k];
    }
  }

  /** Every character of `s` that is not whitespace survives `s.strip()`. */
  lemma {:induction false} StripKeepsNonSpace(s: string, i: int)
    requires 0 <= i < |s| && !IsSpace(s[i])
    ensures LeadingSpace(s) <= i < LeadingSpace(s) + |Strip(s)|
    ensures Strip(s)[i - LeadingSpace(s)] == s[i]
  {
    var k, r := LeadingSpace(s), Strip(s);
    assert r == s[k..k + |r|];
  }

  /** The `j`-th character of `s.strip()` is the `j`-th after the leading whitespace. */
  lemma StripAt(s: string, j: int)
    requires 0 <= j < |Strip(s)|
    ensures LeadingSpace(s) + j < |s| && Strip(s)[j] == s[LeadingSpace(s) + j]
  {
    var k, r := LeadingSpace(s), Strip(s);
    assert r == s[k..k + |r|];
  }

  /**
   * `s.strip()` is `s[k..k+n]` whenever everything outside that slice is
   * whitespace and the slice starts and ends with a non-whitespace character.
   */
  lemma {:induction false} StripIs(s: string, k: int, n: int)
    requires 0 <= k && 0 < n && k + n <= |s|
    requires forall i :: 0 <= i < k ==> IsSpace(s[i])
    requires forall i :: k + n <= i < |s| ==> IsSpace(s[i])
    requires !IsSpace(s[k]) && !IsSpace(s[k + n - 1])
    ensures Strip(s) == s[k..k + n]
  {
    var r := Strip(s);
    assert LeadingSpace(s) == k;
    assert |r| == n;
  }

  /** A string with no whitespace at either end is its own `strip()`. */
  lemma StripTrimmed(s: string)
    requires |s| > 0 && !IsSpace(s[0]) && !IsSpace(s[|s| - 1])
    ensures Strip(s) == s
  {
    StripIs(s, 0, |s|);
    assert s[0..|s|] == s;
  }

  /** A string of whitespace strips to the empty string. */
  lemma StripAllSpace(s: string)
    requires forall i :: 0 <= i < |s| ==> IsSpace(s[i])
    ensures Strip(s) == ""
  {
  }

  /** Lower-casing as `str.lower` does it on ASCII letters. */
  function LowerChar(c: char): char
  {
    if 'A' <= c <= 'Z' then (c as int - 'A' as int + 'a' as int) as char else c
  }

  /** `s.lower()`, restricted to ASCII letters; every other character is kept. */
  function Lower(s: string): (r: string)
    ensures |r| == |s|
    ensures forall i :: 0 <= i < |s| ==> r[i] == LowerChar(s[i])
  {
    seq(|s|, i requires 0 <= i < |s| => LowerChar(s[i]))
  }

  /** `t` occurs in `s` starting at index `i`. */
  predicate OccursAt(s: string, t: string, i: int)
  {
    0 <= i && i + |t| <= |s| && s[i..i + |t|] == t
  }

  /** Python's substring test `t in s`. */
  function Contains(s: string, t: string): (r: bool)
    ensures r <==> exists i :: OccursAt(s, t, i)
    decreases |s|
  {
    if |t| > |s| then
      false
    else if s[..|t|] == t then
      assert OccursAt(s, t, 0);
      true
    else
      var r := Contains(s[1..], t);
      assert forall i :: OccursAt(s[1..], t, i) ==> OccursAt(s, t, i + 1) by {
        forall i | OccursAt(s[1..], t, i) ensures OccursAt(s, t, i + 1) {
          assert s[1..][i..i + |t|] == s[i + 1..i + 1 + |t|];
        }
      }
      assert forall i :: OccursAt(s, t, i) && i > 0 ==> OccursAt(s[1..], t, i - 1) by {
        forall i | OccursAt(s, t, i) && i > 0 ensures OccursAt(s[1..], t, i - 1) {
          assert s[1..][i - 1..i - 1 + |t|] == s[i..i + |t|];
        }
      }
      r
  }

  /** If some letter of `t` occurs in `s` in neither case, `t` is not a substring of `s.lower()`. */
  lemma {:induction false} AbsentFromLower(s: string, t: string, j: int)
    requires 0 <= j < |t| && 'a' <= t[j] <= 'z'
    requires t[j] !in s && (t[j] as int - 'a' as int + 'A' as int) as char !in s
    ensures !Contains(Lower(s), t)
  {
    var lower := Lower(s);
    forall i | 0 <= i && i + |t| <= |s|
      ensures !OccursAt(lower, t, i)
    {
      assert s[i + j] in s;
      assert LowerChar(s[i + j]) != t[j];
      assert lower[i..i + |t|][j] != t[j];
    }
  }
}
