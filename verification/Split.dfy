/**
 Cutting a string at a separator (src/utils/string_utils.cpp).
 */
module Split {
  import opened Common

  // ----- std::string::find -----

  predicate Occurs(s: string, sep: string, i: nat) {
    i + |sep| <= |s| && s[i..i + |sep|] == sep
  }

  /** The first occurrence at or after `from`. */
  function FindFrom(s: string, sep: string, from: nat): (r: Option<nat>)
    ensures r.Some? ==>
              && r.value >= from && Occurs(s, sep, r.value)
              && forall j :: from <= j < r.value ==> !Occurs(s, sep, j)
    ensures r.None? ==> forall j :: j >= from ==> !Occurs(s, sep, j)
    decreases |s| + 1 - from
  {
    if from + |sep| > |s| then None
    else if Occurs(s, sep, from) then Some(from)
    else FindFrom(s, sep, from + 1)
  }

  function Find(s: string, sep: string): (r: Option<nat>)
    ensures r.Some? ==> Occurs(s, sep, r.value) && forall j :: 0 <= j < r.value ==> !Occurs(s, sep, j)
    ensures r.None? ==> forall j :: j >= 0 ==> !Occurs(s, sep, j)
  {
    FindFrom(s, sep, 0)
  }

  // ----- what the loop computes -----

  function Tokens(s: string, sep: string): (r: seq<string>)
    requires sep != ""
    ensures r != []
    decreases |s|
  {
    match Find(s, sep)
    case None => [s]
    case Some(i) => [s[..i]] + Tokens(s[i + |sep|..], sep)
  }

  function Join(tokens: seq<string>, sep: string): string
    requires tokens != []
  {
    if |tokens| == 1 then tokens[0] else tokens[0] + sep + Join(tokens[1..], sep)
  }

  /** One turn of the loop, when it goes on. */
  function Turn(tokens: seq<string>, sep: string): Option<seq<string>>
    requires tokens != []
  {
    var frag := tokens[|tokens|-1];
    match Find(frag, sep)
    case None => None
    case Some(i) => Some(tokens[..|tokens|-1] + [frag[..i], frag[i + |sep|..]])
  }

  /** The loop, which never ends for an empty separator.  Tokens that were there before stay. */
  method SplitInto(str: string, splitBy: string, before: seq<string>) returns (tokens: seq<string>)
    requires splitBy != ""
    ensures tokens == before + Tokens(str, splitBy)
  {
    hide Find;
    tokens := before + [str];
    while true
      invariant tokens != []
      invariant tokens[..|tokens|-1] + Tokens(tokens[|tokens|-1], splitBy) == before + Tokens(str, splitBy)
      decreases |tokens[|tokens|-1]|
    {
      var frag := tokens[|tokens|-1];
      var splitAt := Find(frag, splitBy);
      if splitAt.None? {
        break;
      }
      ghost var front, head, rest := tokens[..|tokens|-1], frag[..splitAt.value], frag[splitAt.value + |splitBy|..];
      tokens := tokens[|tokens|-1 := frag[..splitAt.value]];
      tokens := tokens + [frag[splitAt.value + |splitBy|..]];
      assert tokens == front + [head] + [rest] && tokens[..|tokens|-1] == front + [head];
      assert front + [head] + Tokens(rest, splitBy) == front + ([head] + Tokens(rest, splitBy));
    }
    assert tokens == tokens[..|tokens|-1] + [tokens[|tokens|-1]];
  }

  /** With an empty separator the loop goes on for ever: after any number of turns it holds that many empty tokens. */
  ghost function Turns(tokens: seq<string>, sep: string, n: nat): Option<seq<string>>
    requires tokens != []
    ensures n == 0 ==> Turns(tokens, sep, n) == Some(tokens)
    ensures Turns(tokens, sep, n).Some? ==> Turns(tokens, sep, n).value != []
  {
    if n == 0 then Some(tokens)
    else
      match Turns(tokens, sep, n - 1)
      case None => None
      case Some(t) => Turn(t, sep)
  }

  lemma {:induction false} EmptySeparatorNeverEnds(before: seq<string>, s: string, n: nat)
    ensures Turns(before + [s], "", n) == Some(before + seq(n, _ => "") + [s])
  {
    if n == 0 {
      assert before + seq(0, _ => "") + [s] == before + [s];
    } else {
      EmptySeparatorNeverEnds(before, s, n - 1);
      var t := before + seq(n - 1, _ => "") + [s];
      assert t[|t|-1] == s && Occurs(s, "", 0) && Find(s, "") == Some(0);
      assert t[..|t|-1] + [s[..0], s[0..]] == before + seq(n, _ => "") + [s];
    }
  }

  // ----- what the tokens are -----

  lemma CutOff(s: string, sep: string, i: nat)
    requires Occurs(s, sep, i)
    ensures s == s[..i] + sep + s[i + |sep|..]
  {
  }

  lemma JoinOfCut(head: string, rest: seq<string>, sep: string)
    requires rest != []
    ensures Join([head] + rest, sep) == head + sep + Join(rest, sep)
  {
    assert ([head] + rest)[1..] == rest;
  }

  lemma {:induction false} JoinUndoesSplit(s: string, sep: string)
    requires sep != ""
    ensures Join(Tokens(s, sep), sep) == s
    decreases |s|
  {
    var i := Find(s, sep);
    if i.Some? {
      var rest := s[i.value + |sep|..];
      JoinUndoesSplit(rest, sep);
      JoinOfCut(s[..i.value], Tokens(rest, sep), sep);
      CutOff(s, sep, i.value);
    }
  }

  lemma {:induction false} NoTokenHoldsTheSeparator(s: string, sep: string, k: nat, j: nat)
    requires sep != "" && k < |Tokens(s, sep)|
    ensures !Occurs(Tokens(s, sep)[k], sep, j)
    decreases |s|
  {
    var i := Find(s, sep);
    if i.Some? {
      if k > 0 {
        NoTokenHoldsTheSeparator(s[i.value + |sep|..], sep, k - 1, j);
      } else {
        assert Tokens(s, sep)[k] == s[..i.value];
        if j + |sep| <= i.value {
          assert s[..i.value][j..j + |sep|] == s[j..j + |sep|] && !Occurs(s, sep, j);
        }
      }
    }
  }

  /** Each separator that Join puts in is the first one from there on. */
  ghost predicate Leftmost(tokens: seq<string>, sep: string)
    requires tokens != []
  {
    && Find(tokens[|tokens|-1], sep).None?
    && forall k :: 0 <= k < |tokens| - 1 ==> Find(Join(tokens[k..], sep), sep) == Some(|tokens[k]|)
  }

  lemma OneMoreLeftmost(tokens: seq<string>, sep: string)
    requires |tokens| > 1 && Find(Join(tokens, sep), sep) == Some(|tokens[0]|)
    ensures Leftmost(tokens, sep) <==> Leftmost(tokens[1..], sep)
  {
    hide Find, Join;
    var rest := tokens[1..];
    assert tokens[0..] == tokens;
    if Leftmost(rest, sep) {
      forall k | 0 <= k < |tokens| - 1 ensures Find(Join(tokens[k..], sep), sep) == Some(|tokens[k]|) {
        if k > 0 {
          assert tokens[k..] == rest[k - 1..] && tokens[k] == rest[k - 1];
        }
      }
    }
    if Leftmost(tokens, sep) {
      forall k | 0 <= k < |rest| - 1 ensures Find(Join(rest[k..], sep), sep) == Some(|rest[k]|) {
        assert rest[k..] == tokens[k + 1..] && rest[k] == tokens[k + 1];
      }
    }
  }

  /** A first cut elsewhere than behind the first token gives other tokens. */
  lemma OtherFirstCut(tokens: seq<string>, sep: string)
    requires sep != "" && |tokens| > 1 && Find(Join(tokens, sep), sep) != Some(|tokens[0]|)
    ensures Tokens(Join(tokens, sep), sep) != tokens && !Leftmost(tokens, sep)
  {
    var s := Join(tokens, sep);
    hide Find, Join;
    assert tokens[0..] == tokens;
    if Find(s, sep).Some? {
      assert |Tokens(s, sep)[0]| == Find(s, sep).value;
    }
  }

  lemma FirstCut(tokens: seq<string>, sep: string)
    requires sep != "" && |tokens| > 1 && Find(Join(tokens, sep), sep) == Some(|tokens[0]|)
    ensures Tokens(Join(tokens, sep), sep) == [tokens[0]] + Tokens(Join(tokens[1..], sep), sep)
  {
    var s := Join(tokens, sep);
    assert s[..|tokens[0]|] == tokens[0] && s[|tokens[0]| + |sep|..] == Join(tokens[1..], sep);
  }

  /** The tokens are the only way to cut a string at leftmost separators; so split undoes join for these lists only. */
  lemma {:induction false} SplitUndoesJoinIff(tokens: seq<string>, sep: string)
    requires sep != "" && tokens != []
    ensures Tokens(Join(tokens, sep), sep) == tokens <==> Leftmost(tokens, sep)
    decreases |tokens|
  {
    var s := Join(tokens, sep);
    if |tokens| == 1 {
      if Find(s, sep).Some? {
        assert |Tokens(s, sep)| >= 2;
      }
    } else {
      hide Find, Join, Tokens, Leftmost;
      if Find(s, sep) == Some(|tokens[0]|) {
        SplitUndoesJoinIff(tokens[1..], sep);
        FirstCut(tokens, sep);
        OneMoreLeftmost(tokens, sep);
        assert tokens == [tokens[0]] + tokens[1..];
        assert Tokens(s, sep)[1..] == Tokens(Join(tokens[1..], sep), sep);
      } else {
        OtherFirstCut(tokens, sep);
      }
    }
  }

  lemma NoSeparatorInside(s: string, c: char, n: nat)
    requires n <= |s| && forall j :: 0 <= j < n ==> s[j] != c
    ensures forall j :: 0 <= j < n ==> !Occurs(s, [c], j)
  {
    forall j: nat | j < n ensures !Occurs(s, [c], j) {
      if j + 1 <= |s| {
        assert s[j..j + 1] == [s[j]];
      }
    }
  }

  /** The first separator stands behind the first token. */
  lemma FirstPlainCut(tokens: seq<string>, c: char)
    requires |tokens| > 1 && c !in tokens[0]
    ensures Find(Join(tokens, [c]), [c]) == Some(|tokens[0]|)
  {
    var s, n := Join(tokens, [c]), |tokens[0]|;
    assert s == tokens[0] + [c] + Join(tokens[1..], [c]);
    hide Join;
    NoSeparatorInside(s, c, n);
    assert s[n..n + 1] == [c];
    assert Occurs(s, [c], n);
  }

  /** For a separator of one character the lists are those without it. */
  lemma {:induction false} SplitUndoesJoinOfPlainTokens(tokens: seq<string>, c: char)
    requires tokens != [] && forall k :: 0 <= k < |tokens| ==> c !in tokens[k]
    ensures Tokens(Join(tokens, [c]), [c]) == tokens
    decreases |tokens|
  {
    if |tokens| == 1 {
      NoSeparatorInside(tokens[0], c, |tokens[0]|);
    } else {
      SplitUndoesJoinOfPlainTokens(tokens[1..], c);
      FirstPlainCut(tokens, c);
      FirstCut(tokens, [c]);
      assert tokens == [tokens[0]] + tokens[1..];
    }
  }
}
