/** The severity list of the classified exception, shared with the logger. */
module Severities {

  /** The severities a classified exception may carry, in the source's order. */
  const ERROR_TYPES: seq<string> :=
    ["emergency", "alert", "critical", "error", "warning", "notice", "info", "debug", "log"]

  /** Entry #3 of ERROR_TYPES, the fallback severity. */
  const DEFAULT_TYPE: string := "error"

  /** From position `i` on, `s` is made of the letters a to z only. */
  predicate LowerFrom(s: string, i: nat)
    decreases |s| - i
  {
    i >= |s| || ('a' <= s[i] <= 'z' && LowerFrom(s, i + 1))
  }

  lemma {:induction false} LowerFromLetters(s: string, i: nat)
    requires LowerFrom(s, i)
    ensures forall j :: i <= j < |s| ==> 'a' <= s[j] <= 'z'
    decreases |s| - i
  {
    if i < |s| {
      LowerFromLetters(s, i + 1);
    }
  }

  /** Every listed severity is a word of lower-case letters. */
  lemma ListedAreLowerWords()
    ensures forall i :: 0 <= i < |ERROR_TYPES| ==> LowerFrom(ERROR_TYPES[i], 0)
  {
    assert LowerFrom("emergency", 0);
    assert LowerFrom("alert", 0);
    assert LowerFrom("critical", 0);
    assert LowerFrom("error", 0);
    assert LowerFrom("warning", 0);
    assert LowerFrom("notice", 0);
    assert LowerFrom("info", 0);
    assert LowerFrom("debug", 0);
    assert LowerFrom("log", 0);
  }
}
