/** What the comparisons of Strings mean, letter by letter. */
module StringLaws {
  import opened Common
  import opened Strings

  /** The same character, or one letter in two cases: they are 32 apart. */
  predicate OneLetter(a: char, b: char) {
    || a == b
    || ('A' <= a <= 'Z' && b as int == a as int + 32)
    || ('A' <= b <= 'Z' && a as int == b as int + 32)
  }

  lemma LowerMeaning(a: char, b: char)
    ensures Lower(a) == Lower(b) <==> OneLetter(a, b)
  {
  }

  /** strcasecmp: as long as each other, and the same letters in the same places. */
  lemma SameNameMeaning(a: string, b: string)
    ensures SameName(a, b) <==> |a| == |b| && forall i :: 0 <= i < |a| ==> OneLetter(a[i], b[i])
  {
    if |a| == |b| {
      forall i | 0 <= i < |a| ensures Lower(a[i]) == Lower(b[i]) <==> OneLetter(a[i], b[i]) {
        LowerMeaning(a[i], b[i]);
      }
    }
  }

  /** It is an equivalence. */
  lemma SameNameIsEquivalence(a: string, b: string, c: string)
    ensures SameName(a, a) && (SameName(a, b) ==> SameName(b, a))
    ensures SameName(a, b) && SameName(b, c) ==> SameName(a, c)
  {
  }

  lemma SomeNames()
    ensures SameName("meta_Version", "META_vERSION") && SameName("a1_[", "A1_[") && SameName("", "")
    ensures !SameName("meta", "meta ") && !SameName("a[", "a{") && !SameName("abc", "abd") && !SameName("a@", "a`")
  {
    assert "a["[1] == '[' && "a{"[1] == '{' && "abc"[2] == 'c' && "abd"[2] == 'd' && "a@"[1] == '@' && "a`"[1] == '`';
  }

  /** strncasecmp with the length of the prefix. */
  predicate StartsWith(a: string, prefix: string) {
    |prefix| <= |a| && forall i :: 0 <= i < |prefix| ==> OneLetter(a[i], prefix[i])
  }

  lemma HasPrefixMeaning(a: string, prefix: string)
    ensures HasPrefix(a, prefix) <==> StartsWith(a, prefix)
  {
    if |prefix| <= |a| {
      SameNameMeaning(a[..|prefix|], prefix);
    }
  }
}
