/** The C string functions that plugin and command names are compared with. */
module Strings {
  import opened Common

  function Lower(c: char): char {
    if 'A' <= c <= 'Z' then 'a' + (c - 'A') else c
  }

  /** strcasecmp(a, b) == 0 */
  predicate SameName(a: string, b: string) {
    |a| == |b| && forall i :: 0 <= i < |a| ==> Lower(a[i]) == Lower(b[i])
  }

  /** strncasecmp(a, prefix, strlen(prefix)) == 0 */
  predicate HasPrefix(a: string, prefix: string) {
    |prefix| <= |a| && SameName(a[..|prefix|], prefix)
  }

  /** strrchr(s, c), as a position. */
  function LastIndexOf(s: string, c: char): (r: Option<nat>)
    ensures r.Some? ==> r.value < |s| && s[r.value] == c && c !in s[r.value + 1..]
    ensures r.None? ==> c !in s
  {
    if s == "" then None
    else if s[|s|-1] == c then Some(|s|-1)
    else
      var r := LastIndexOf(s[..|s|-1], c);
      assert s == s[..|s|-1] + [s[|s|-1]];
      assert r.Some? ==> s[r.value + 1..] == s[..|s|-1][r.value + 1..] + [s[|s|-1]];
      r
  }
}
