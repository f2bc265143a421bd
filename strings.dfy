/** String helpers that mirror Python's built-in `str` methods. */
module Strings {

  /** `s.rfind(c)`: the index of the last occurrence of `c` in `s`, or -1 when there is none.
      `s.rindex(c)` raises instead of returning -1; callers that catch the error and use -1
      compute the same value. */
  function LastIndexOf(s: string, c: char): (i: int)
    ensures -1 <= i < |s|
    ensures i >= 0 ==> s[i] == c
    ensures forall j :: i < j < |s| ==> s[j] != c
  {
    if |s| == 0 then -1
    else if s[|s| - 1] == c then |s| - 1
    else LastIndexOf(s[..|s| - 1], c)
  }

  /** `s.endswith(suffix)`. */
  predicate EndsWith(s: string, suffix: string) {
    |suffix| <= |s| && s[|s| - |suffix|..] == suffix
  }
}
