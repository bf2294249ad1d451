/**
 The file names that stand for a plugin path (MPlugin::resolve_suffix in dep/metamod/mplugin.cpp, as compiled on
 Linux).  Names are short enough for their buffers.
 */
module ResolveSuffix {
  import opened Common
  import opened Split

  const ENDINGS: seq<string> := [".so", "_i386.so", "_i486.so", "_i586.so", "_i686.so", "_amd64.so"]

  /** strstr(s, part) != NULL */
  predicate Contains(s: string, part: string) {
    Find(s, part).Some?
  }

  function Missing(path: string): nat {
    (if Contains(path, "_mm") then 0 else 1) + (if Contains(path, "_MM") then 0 else 1)
  }

  lemma ContainsAppended(path: string, part: string, other: string)
    ensures Contains(path + part, part)
    ensures Contains(path, other) ==> Contains(path + part, other)
  {
    assert Occurs(path + part, part, |path|);
    if Contains(path, other) {
      var i := Find(path, other).value;
      assert (path + part)[i..i + |other|] == path[i..i + |other|];
      assert Occurs(path + part, other, i);
    }
  }

  lemma AppendingGetsOn(path: string)
    ensures !Contains(path, "_mm") ==> Missing(path + "_mm") < Missing(path)
    ensures !Contains(path, "_MM") ==> Missing(path + "_MM") < Missing(path)
  {
    ContainsAppended(path, "_mm", "_MM");
    ContainsAppended(path, "_MM", "_mm");
  }

  function WithEndings(path: string, endings: seq<string>): (r: seq<string>)
    ensures |r| == |endings| && forall i :: 0 <= i < |r| ==> r[i] == path + endings[i]
  {
    if endings == [] then [] else [path + endings[0]] + WithEndings(path, endings[1..])
  }

  /** The names that are tried, in their order. */
  function Candidates(path: string): seq<string>
    decreases Missing(path), 1
  {
    CandidatesMm(path) + CandidatesMM(path) + WithEndings(path, ENDINGS)
  }

  function CandidatesMm(path: string): seq<string>
    decreases Missing(path), 0
  {
    AppendingGetsOn(path);
    if Contains(path, "_mm") then [] else Candidates(path + "_mm")
  }

  function CandidatesMM(path: string): seq<string>
    decreases Missing(path), 0
  {
    AppendingGetsOn(path);
    if Contains(path, "_MM") then [] else Candidates(path + "_MM")
  }

  lemma Unfold(path: string)
    ensures Candidates(path) == CandidatesMm(path) + CandidatesMM(path) + WithEndings(path, ENDINGS)
    ensures Candidates(path) == CandidatesMm(path) + (CandidatesMM(path) + WithEndings(path, ENDINGS))
  {
    hide Contains, WithEndings, CandidatesMm, CandidatesMM;
  }

  /** The first of the names that is a regular file was found; or none is one. */
  ghost predicate FoundFirst(names: seq<string>, files: set<string>, found: Option<string>) {
    match found
    case Some(f) => exists i :: 0 <= i < |names| && names[i] == f && f in files && NoneBefore(names, files, i)
    case None => NoneBefore(names, files, |names|)
  }

  ghost predicate NoneBefore(names: seq<string>, files: set<string>, n: nat)
    requires n <= |names|
  {
    forall j :: 0 <= j < n ==> names[j] !in files
  }

  lemma GoOn(names: seq<string>, more: seq<string>, files: set<string>, found: Option<string>)
    requires FoundFirst(names, files, None) && FoundFirst(more, files, found)
    ensures FoundFirst(names + more, files, found)
  {
    if found.Some? {
      var i :| 0 <= i < |more| && more[i] == found.value && found.value in files && NoneBefore(more, files, i);
      assert (names + more)[|names| + i] == found.value && NoneBefore(names + more, files, |names| + i);
    }
  }

  lemma Stop(names: seq<string>, more: seq<string>, files: set<string>, found: Option<string>)
    requires FoundFirst(names, files, found) && found.Some?
    ensures FoundFirst(names + more, files, found)
  {
    var i :| 0 <= i < |names| && names[i] == found.value && found.value in files && NoneBefore(names, files, i);
    assert (names + more)[i] == found.value && NoneBefore(names + more, files, i);
  }

  lemma NothingToTry(files: set<string>)
    ensures FoundFirst([], files, None)
  {
  }

  /** `files` are the regular files there are. */
  method Resolve(path: string, files: set<string>) returns (found: Option<string>)
    ensures FoundFirst(Candidates(path), files, found)
    decreases Missing(path)
  {
    hide Contains, FoundFirst, Candidates, WithEndings, Missing;
    AppendingGetsOn(path);
    Unfold(path);
    ghost var mm, MM, plain := CandidatesMm(path), CandidatesMM(path), WithEndings(path, ENDINGS);
    NothingToTry(files);
    if !Contains(path, "_mm") {
      found := Resolve(path + "_mm", files);
      if found.Some? {
        Stop(mm, MM + plain, files, found);
        return;
      }
    }
    if !Contains(path, "_MM") {
      found := Resolve(path + "_MM", files);
      if found.Some? {
        Stop(MM, plain, files, found);
        GoOn(mm, MM + plain, files, found);
        return;
      }
    }
    found := TryEndings(path, files);
    GoOn(MM, plain, files, found);
    GoOn(mm, MM + plain, files, found);
  }

  /** The path with each ending. */
  method TryEndings(path: string, files: set<string>) returns (found: Option<string>)
    ensures FoundFirst(WithEndings(path, ENDINGS), files, found)
  {
    ghost var names := WithEndings(path, ENDINGS);
    for i := 0 to |ENDINGS|
      invariant NoneBefore(names, files, i)
    {
      if path + ENDINGS[i] in files {
        assert names[i] == path + ENDINGS[i];
        return Some(path + ENDINGS[i]);
      }
    }
    return None;
  }

  lemma AppendedOnlyHasItself(path: string, part: string, other: string)
    requires |part| == |other| == 3 && other[2] !in part && !Contains(path, other)
    ensures !Contains(path + part, other)
  {
    forall i: nat ensures !Occurs(path + part, other, i) {
      if i + 3 <= |path| {
        assert path[i..i + 3] == (path + part)[i..i + 3] && !Occurs(path, other, i);
      } else if i + 3 <= |path + part| {
        assert (path + part)[i..i + 3][2] == part[i + 2 - |path|];
      }
    }
  }

  /** A path with both, anywhere in it, gets no further one. */
  lemma PathWithBoth(path: string)
    requires Contains(path, "_mm") && Contains(path, "_MM")
    ensures Candidates(path) == WithEndings(path, ENDINGS)
  {
    hide Contains, WithEndings, Candidates;
    Unfold(path);
  }

  lemma PathWithMm(path: string)
    requires Contains(path, "_mm") && !Contains(path, "_MM")
    ensures Candidates(path) == WithEndings(path + "_MM", ENDINGS) + WithEndings(path, ENDINGS)
  {
    hide Contains, WithEndings, Candidates;
    ContainsAppended(path, "_MM", "_mm");
    Unfold(path);
    PathWithBoth(path + "_MM");
  }

  lemma PathWithMM(path: string)
    requires Contains(path, "_MM") && !Contains(path, "_mm")
    ensures Candidates(path) == WithEndings(path + "_mm", ENDINGS) + WithEndings(path, ENDINGS)
  {
    hide Contains, WithEndings, Candidates;
    ContainsAppended(path, "_mm", "_MM");
    Unfold(path);
    PathWithBoth(path + "_mm");
  }

  /** A path without either: the longer names first, 30 in all; and never "path", "path_mm" or "path_MM" as they are. */
  lemma PlainPath(path: string)
    requires !Contains(path, "_mm") && !Contains(path, "_MM")
    ensures Candidates(path) ==
            WithEndings(path + "_mm" + "_MM", ENDINGS) + WithEndings(path + "_mm", ENDINGS)
            + (WithEndings(path + "_MM" + "_mm", ENDINGS) + WithEndings(path + "_MM", ENDINGS))
            + WithEndings(path, ENDINGS)
  {
    hide Contains, Candidates, WithEndings;
    ContainsAppended(path, "_mm", "_mm");
    ContainsAppended(path, "_MM", "_MM");
    AppendedOnlyHasItself(path, "_mm", "_MM");
    AppendedOnlyHasItself(path, "_MM", "_mm");
    PathWithMm(path + "_mm");
    PathWithMM(path + "_MM");
    Unfold(path);
  }

  /** The endings in their order: the plain one first, then the processors. */
  function SixNames(path: string): (names: seq<string>)
    ensures |names| == 6
  {
    [path + ".so", path + "_i386.so", path + "_i486.so", path + "_i586.so", path + "_i686.so", path + "_amd64.so"]
  }

  lemma EndingsInOrder(path: string)
    ensures WithEndings(path, ENDINGS) == SixNames(path)
  {
    var names := WithEndings(path, ENDINGS);
    assert names[0] == path + ".so" && names[1] == path + "_i386.so" && names[2] == path + "_i486.so";
    assert names[3] == path + "_i586.so" && names[4] == path + "_i686.so" && names[5] == path + "_amd64.so";
  }

  lemma FiveLists(a: seq<string>, b: seq<string>, c: seq<string>, d: seq<string>, e: seq<string>)
    requires |a| == |b| == |c| == |d| == |e| == 6
    ensures var all := a + b + (c + d) + e;
            |all| == 30 && all[..6] == a && all[6..12] == b && all[12..18] == c && all[18..24] == d && all[24..] == e
  {
    var all := a + b + (c + d) + e;
    assert all == a + (b + (c + (d + e)));
    assert all[6..] == b + (c + (d + e)) && all[12..] == c + (d + e) && all[18..] == d + e;
  }

  /** For a path without "_mm" and "_MM" the names are, in this order, those of five stems with six endings each. */
  lemma PlainNames(path: string)
    requires !Contains(path, "_mm") && !Contains(path, "_MM")
    ensures var all := Candidates(path);
            && |all| == 30
            && all[..6] == SixNames(path + "_mm_MM") && all[6..12] == SixNames(path + "_mm")
            && all[12..18] == SixNames(path + "_MM_mm") && all[18..24] == SixNames(path + "_MM")
            && all[24..] == SixNames(path)
  {
    PlainPath(path);
    EndingsInOrder(path + "_mm" + "_MM");
    EndingsInOrder(path + "_mm");
    EndingsInOrder(path + "_MM" + "_mm");
    EndingsInOrder(path + "_MM");
    EndingsInOrder(path);
    assert path + "_mm" + "_MM" == path + "_mm_MM" && path + "_MM" + "_mm" == path + "_MM_mm";
    hide Contains, Candidates, WithEndings, SixNames;
    FiveLists(SixNames(path + "_mm_MM"), SixNames(path + "_mm"), SixNames(path + "_MM_mm"), SixNames(path + "_MM"),
              SixNames(path));
  }

  /** Every name that is tried is the path and more, ending in ".so". */
  lemma {:induction false} EveryCandidateIsLonger(path: string, i: nat)
    requires i < |Candidates(path)|
    ensures var s := Candidates(path)[i]; |s| >= |path| + 3 && path < s && s[|s| - 3..] == ".so"
    decreases Missing(path)
  {
    hide Contains, Candidates, Missing, Find;
    AppendingGetsOn(path);
    Unfold(path);
    var mm, MM := CandidatesMm(path), CandidatesMM(path);
    if i < |mm| {
      EveryCandidateIsLonger(path + "_mm", i);
    } else if i < |mm| + |MM| {
      EveryCandidateIsLonger(path + "_MM", i - |mm|);
    } else {
      SoIsLast(path, i - |mm| - |MM|);
    }
  }

  lemma SoIsLast(path: string, k: nat)
    requires k < |ENDINGS|
    ensures var s := path + ENDINGS[k]; |s| >= |path| + 3 && path < s && s[|s| - 3..] == ".so"
  {
    var e := ENDINGS[k];
    assert k == 0 || k == 1 || k == 2 || k == 3 || k == 4 || k == 5;
    assert |e| >= 3 && e[|e| - 3..] == ".so";
    assert (path + e)[|path + e| - 3..] == e[|e| - 3..];
  }
}
