/** Which of several entries for the same plugin reading plugins.ini at startup keeps, and what a load makes of it. */
module IniChoice {
  import opened Common
  import opened Strings
  import opened Plugin
  import opened PluginRuns
  import opened PluginLaws
  import opened PluginListSpec
  import opened PluginListLaws
  import opened IniLaws

  // ----- what lines are about -----

  /** No path is listed twice. */
  ghost predicate DistinctLines(lines: seq<Line>) {
    forall i, j :: 0 <= i < j < |lines| && lines[i].Line? && lines[j].Line? ==>
      lines[i].entry.pathname != lines[j].entry.pathname
  }

  /** Entries that are both like a third one are like each other. */
  ghost predicate Consistent(lines: seq<Line>) {
    forall i: nat, j: nat, k: nat ::
      i < |lines| && j < |lines| && k < |lines| && Like(lines, i, j) && Like(lines, j, k) ==> Like(lines, i, k)
  }

  ghost predicate Like(lines: seq<Line>, i: nat, j: nat)
    requires i < |lines| && j < |lines|
  {
    lines[i].Line? && lines[j].Line? && Alike(lines[i].entry, lines[j].entry)
  }

  lemma LikeBack(lines: seq<Line>, i: nat, j: nat)
    requires i < |lines| && j < |lines|
    ensures Like(lines, i, j) <==> Like(lines, j, i)
  {
    if lines[i].Line? && lines[j].Line? {
      AlikeIsSymmetric(lines[i].entry, lines[j].entry);
    }
  }

  predicate Beats(a: Entry, i: nat, b: Entry, j: nat) {
    a.pfspecific > b.pfspecific || (a.pfspecific == b.pfspecific && i <= j)
  }

  /** Of the entries like it among the first k, line j has the highest pfspecific, and is the first that has it. */
  ghost predicate Best(lines: seq<Line>, k: nat, j: nat)
    requires k <= |lines|
  {
    && j < k && lines[j].Line?
    && forall i: nat :: i < k && Like(lines, i, j) ==> Beats(lines[j].entry, j, lines[i].entry, i)
  }

  lemma BestIsOne(lines: seq<Line>, k: nat, i: nat, j: nat)
    requires k <= |lines| && Best(lines, k, i) && Best(lines, k, j) && Like(lines, i, j)
    ensures i == j
  {
    LikeBack(lines, i, j);
    hide Alike;
  }

  lemma {:induction false} BestExists(lines: seq<Line>, k: nat, i: nat) returns (b: nat)
    requires i < k <= |lines| && lines[i].Line? && Consistent(lines)
    ensures Best(lines, k, b) && Like(lines, b, i)
    decreases k
  {
    hide Alike;
    assert Like(lines, i, i) by {
      LikeItself(lines, i);
    }
    if i == k - 1 {
      if exists x: nat :: x < k - 1 && Like(lines, x, i) {
        var x: nat :| x < k - 1 && Like(lines, x, i);
        var c := BestExists(lines, k - 1, x);
        b := Better(lines, k, c, i);
      } else {
        b := i;
      }
    } else {
      var c := BestExists(lines, k - 1, i);
      LikeBack(lines, k - 1, c);
      if lines[k-1].Line? && Like(lines, c, k - 1) {
        b := Better(lines, k, c, k - 1);
      } else {
        b := c;
      }
    }
  }

  lemma LikeItself(lines: seq<Line>, i: nat)
    requires i < |lines| && lines[i].Line?
    ensures Like(lines, i, i)
  {
  }

  /** The best so far, or the new one. */
  lemma Better(lines: seq<Line>, k: nat, c: nat, n: nat) returns (b: nat)
    requires 0 < k <= |lines| && n == k - 1 && Best(lines, n, c) && Like(lines, c, n) && Consistent(lines)
    ensures Best(lines, k, b) && (b == c || b == n) && Like(lines, b, n) && Like(lines, b, c)
    ensures forall i: nat :: i < |lines| && Like(lines, c, i) ==> Like(lines, b, i)
  {
    LikeBack(lines, c, n);
    LikeItself(lines, c);
    LikeItself(lines, n);
    hide Alike;
    b := if lines[n].entry.pfspecific > lines[c].entry.pfspecific then n else c;
    forall i: nat | i < k && Like(lines, i, b) ensures Beats(lines[b].entry, b, lines[i].entry, i) {
      assert Like(lines, i, c);
    }
  }

  // ----- what is kept -----

  /** Of the first k lines exactly the best of their kind are in the list. */
  ghost predicate Chosen(l: Plist, lines: seq<Line>, k: nat)
    requires Bounded(l) && k <= |lines|
  {
    forall j: nat :: j < k && lines[j].Line? ==> (IsHeld(l, lines[j].entry) <==> Best(lines, k, j))
  }

  lemma BestLater(lines: seq<Line>, k: nat, j: nat)
    requires j < k < |lines|
    ensures Best(lines, k + 1, j) <==>
              Best(lines, k, j) && (Like(lines, k, j) ==> lines[j].entry.pfspecific >= lines[k].entry.pfspecific)
  {
    hide Alike;
  }

  /** A slot holds the entry of one line only. */
  lemma HeldAlone(l: Plist, lines: seq<Line>, k: nat, s: nat, j: nat)
    requires Bounded(l) && k <= |lines| && FromLines(l, lines, k) && DistinctLines(lines)
    requires j < |lines| && lines[j].Line? && InUse(l, s) && l.slots[s].pathname == lines[j].entry.pathname
    ensures j < k && Holds(l, s, lines[j].entry)
  {
    InUseIsHeld(l, lines, k, s);
    hide FromLines;
    var i :| 0 <= i < k && lines[i].Line? && Holds(l, s, lines[i].entry);
  }

  lemma HolderIsLine(l: Plist, lines: seq<Line>, k: nat, s: nat) returns (i: nat)
    requires Bounded(l) && k <= |lines| && FromLines(l, lines, k) && InUse(l, s)
    ensures i < k && lines[i].Line? && Holds(l, s, lines[i].entry)
  {
    InUseIsHeld(l, lines, k, s);
    hide FromLines;
    var j :| 0 <= j < k && lines[j].Line? && Holds(l, s, lines[j].entry);
    i := j;
  }

  /** A new line for a plugin that no earlier line is about. */
  lemma ChosenWithoutRival(l: Plist, lines: seq<Line>, k: nat, r: Plist)
    requires Bounded(l) && Bounded(r) && k < |lines| && FromLines(l, lines, k) && Chosen(l, lines, k)
    requires DistinctLines(lines) && Consistent(lines) && lines[k].Line? && FirstAlike(l, lines[k].entry, None)
    requires r.endlist == l.endlist + 1 && Holds(r, l.endlist, lines[k].entry)
    requires forall s :: 0 <= s < l.endlist ==> r.slots[s] == l.slots[s]
    ensures Chosen(r, lines, k + 1)
  {
    hide Alike, FromLines;
    forall i: nat | i < k ensures !Like(lines, k, i) {
      if Like(lines, k, i) {
        LikeBack(lines, i, k);
        var b := BestExists(lines, k, i);
        assert Like(lines, b, k);
        LikeBack(lines, b, k);
        HeldIsAlike(l, lines[b].entry, lines[k].entry);
      }
    }
    forall i: nat | i < k ensures !Like(lines, i, k) {
      LikeBack(lines, i, k);
    }
    forall j: nat | j < k + 1 && lines[j].Line? ensures IsHeld(r, lines[j].entry) <==> Best(lines, k + 1, j) {
      if j < k {
        BestLater(lines, k, j);
        SameHeld(l, r, lines[j].entry, lines[k].entry);
      }
    }
  }

  /** What is held below the end is what was. */
  lemma SameHeld(l: Plist, r: Plist, e: Entry, x: Entry)
    requires Bounded(l) && Bounded(r) && r.endlist == l.endlist + 1
    requires Holds(r, l.endlist, x) && x.pathname != e.pathname
    requires forall s :: 0 <= s < l.endlist ==> r.slots[s] == l.slots[s]
    ensures IsHeld(r, e) <==> IsHeld(l, e)
  {
    if s: nat :| Holds(l, s, e) {
      assert Holds(r, s, e);
    }
    if s: nat :| Holds(r, s, e) {
      assert Holds(l, s, e);
    }
  }

  lemma HeldIsAlike(l: Plist, held: Entry, e: Entry)
    requires Bounded(l) && IsHeld(l, held) && Alike(e, held)
    ensures exists s: nat :: AlikeSlot(l, s, e)
  {
    hide AlikeFiles, AlikeDescs;
    var s: nat :| Holds(l, s, held);
    assert AlikeSlot(l, s, e);
  }

  /** One that is not more specific than the plugin it is for. */
  lemma ChosenWithBetter(l: Plist, lines: seq<Line>, k: nat, r: Plist, b: nat, s: nat)
    requires Bounded(l) && Bounded(r) && k < |lines| && FromLines(l, lines, k) && Chosen(l, lines, k)
    requires DistinctLines(lines) && Consistent(lines) && lines[k].Line?
    requires b < k && lines[b].Line? && Holds(l, s, lines[b].entry) && Like(lines, k, b)
    requires lines[b].entry.pfspecific >= lines[k].entry.pfspecific
    requires r.endlist == l.endlist && forall s :: 0 <= s < l.endlist ==> r.slots[s] == l.slots[s]
    ensures Chosen(r, lines, k + 1)
  {
    hide Alike, FromLines;
    LikeBack(lines, k, b);
    forall j: nat | j < k + 1 && lines[j].Line? ensures IsHeld(r, lines[j].entry) <==> Best(lines, k + 1, j) {
      EquallyHeld(l, r, lines[j].entry);
      if j < k {
        BestLater(lines, k, j);
        if Best(lines, k, j) && Like(lines, k, j) {
          assert Like(lines, b, j);
          assert IsHeld(l, lines[b].entry);
          BestIsOne(lines, k, b, j);
        }
      } else {
        if x: nat :| Holds(l, x, lines[k].entry) {
          HeldAlone(l, lines, k, x, k);
        }
      }
    }
  }

  lemma EquallyHeld(l: Plist, r: Plist, e: Entry)
    requires Bounded(l) && Bounded(r) && r.endlist == l.endlist
    requires forall s :: 0 <= s < l.endlist ==> r.slots[s] == l.slots[s]
    ensures IsHeld(r, e) <==> IsHeld(l, e)
  {
    if s: nat :| Holds(l, s, e) {
      assert Holds(r, s, e);
    }
    if s: nat :| Holds(r, s, e) {
      assert Holds(l, s, e);
    }
  }

  /** One that is more specific takes its place. */
  lemma ChosenWithWorse(l: Plist, lines: seq<Line>, k: nat, r: Plist, b: nat, s: nat)
    requires Inv(l) && Bounded(r) && k < |lines| && FromLines(l, lines, k) && Chosen(l, lines, k)
    requires DistinctLines(lines) && Consistent(lines) && lines[k].Line?
    requires b < k && lines[b].Line? && Holds(l, s, lines[b].entry) && Like(lines, k, b)
    requires lines[b].entry.pfspecific < lines[k].entry.pfspecific
    requires r.endlist == l.endlist + 1 && Holds(r, l.endlist, lines[k].entry)
    requires forall i :: 0 <= i < l.endlist ==> r.slots[i] == if i == s then EmptySlot(i + 1) else l.slots[i]
    ensures Chosen(r, lines, k + 1)
  {
    OnePlace(l, s, lines[b].entry);
    assert IsHeld(l, lines[b].entry) && Best(lines, k, b);
    hide Alike, FromLines, Inv, Best;
    forall j: nat | j < k + 1 && lines[j].Line? ensures IsHeld(r, lines[j].entry) <==> Best(lines, k + 1, j) {
      BestWhenBeaten(lines, k, b, j);
      if j < k {
        hide IsHeld, Holds;
        HeldButOne(l, r, s, lines[b].entry, lines[k].entry, lines[j].entry);
      }
    }
  }

  lemma BestWhenBeaten(lines: seq<Line>, k: nat, b: nat, j: nat)
    requires k < |lines| && Consistent(lines) && Best(lines, k, b) && Like(lines, k, b) && j <= k
    requires lines[b].entry.pfspecific < lines[k].entry.pfspecific
    ensures Best(lines, k + 1, j) <==> j == k || (Best(lines, k, j) && j != b)
  {
    hide Alike;
    LikeBack(lines, k, b);
    LikeItself(lines, k);
    if j < k {
      BestLater(lines, k, j);
      if Best(lines, k, j) && Like(lines, k, j) {
        assert Like(lines, b, j);
        BestIsOne(lines, k, b, j);
      }
    } else {
      forall i: nat | i < k && Like(lines, i, k) ensures Beats(lines[k].entry, k, lines[i].entry, i) {
        assert Like(lines, i, b);
      }
    }
  }

  lemma OnePlace(l: Plist, s: nat, e: Entry)
    requires Inv(l) && Holds(l, s, e)
    ensures forall i: nat :: InUse(l, i) && l.slots[i].pathname == e.pathname ==> i == s
  {
  }

  lemma HeldButOne(l: Plist, r: Plist, s: nat, gone: Entry, x: Entry, e: Entry)
    requires Bounded(l) && Bounded(r) && r.endlist == l.endlist + 1
    requires Holds(r, l.endlist, x) && x.pathname != e.pathname
    requires Holds(l, s, gone) && forall i: nat :: InUse(l, i) && l.slots[i].pathname == gone.pathname ==> i == s
    requires forall i :: 0 <= i < l.endlist ==> r.slots[i] == if i == s then EmptySlot(i + 1) else l.slots[i]
    ensures IsHeld(r, e) <==> IsHeld(l, e) && e.pathname != gone.pathname
  {
    if i: nat :| Holds(l, i, e) {
      if e.pathname != gone.pathname {
        assert Holds(r, i, e);
      }
    }
    if i: nat :| Holds(r, i, e) {
      assert Holds(l, i, e);
    }
  }

  lemma ChosenStep(lines: seq<Line>, k: nat)
    requires k < |lines| && IsRead(lines, k) && DistinctLines(lines) && Consistent(lines)
    requires Chosen(StartupLines(EmptyList(), lines, k), lines, k)
    ensures Chosen(StartupLines(EmptyList(), lines, k + 1), lines, k + 1)
  {
    var l := StartupLines(EmptyList(), lines, k);
    var r := StartupLines(EmptyList(), lines, k + 1);
    assert r == StartupLine(l, lines[k]);
    ReadLines(lines, k);
    EmptyListIsFine();
    StartupKeeps(EmptyList(), lines, k);
    if lines[k].Line? {
      var m := FirstAlikeIsThere(l, lines[k].entry);
      assert l.endlist < MAX_PLUGINS;
      hide StartupLine, StartupLines, EmptyList, Chosen, FromLines, Inv, FirstAlike, DistinctLines, Consistent, Alike;
      PathIsNew(l, lines, k);
      LineDecision(l, lines, k, m);
      if m.None? {
        ChosenWithoutRival(l, lines, k, r);
      } else {
        FirstIsAlike(l, lines[k].entry, m.value);
        var b := HolderIsLine(l, lines, k, m.value);
        if lines[b].entry.pfspecific >= lines[k].entry.pfspecific {
          ChosenWithBetter(l, lines, k, r, b, m.value);
        } else {
          ChosenWithWorse(l, lines, k, r, b, m.value);
        }
      }
    } else {
      NoEntryChooses(l, lines, k);
    }
  }

  lemma PathIsNew(l: Plist, lines: seq<Line>, k: nat)
    requires Bounded(l) && k < |lines| && FromLines(l, lines, k) && DistinctLines(lines) && lines[k].Line?
    ensures !exists s: nat :: InUse(l, s) && l.slots[s].pathname == lines[k].entry.pathname
  {
    hide FromLines;
    forall s: nat | InUse(l, s) ensures l.slots[s].pathname != lines[k].entry.pathname {
      if l.slots[s].pathname == lines[k].entry.pathname {
        HeldAlone(l, lines, k, s, k);
      }
    }
  }

  lemma FirstIsAlike(l: Plist, e: Entry, i: nat)
    requires Bounded(l) && FirstAlike(l, e, Some(i))
    ensures InUse(l, i) && forall f: Entry :: Holds(l, i, f) ==> Alike(e, f)
  {
    hide AlikeFiles, AlikeDescs;
  }

  lemma NoEntryChooses(l: Plist, lines: seq<Line>, k: nat)
    requires Bounded(l) && k < |lines| && Chosen(l, lines, k) && lines[k].NoEntry?
    ensures Chosen(l, lines, k + 1)
  {
    hide Alike, IsHeld;
    forall j: nat | j < k ensures Best(lines, k + 1, j) <==> Best(lines, k, j) {
      BestLater(lines, k, j);
    }
  }

  /** Of the entries for one plugin, among the lines that are read, the list keeps exactly the first of those with the
      highest pfspecific. */
  lemma {:induction false} BestAreHeld(lines: seq<Line>, k: nat)
    requires k <= |lines| && DistinctLines(lines) && Consistent(lines) && forall j: nat :: j < k ==> IsRead(lines, j)
    ensures Chosen(StartupLines(EmptyList(), lines, k), lines, k)
  {
    hide StartupLines, IsRead, DistinctLines, Consistent, Best, IsHeld;
    if k == 0 {
    } else {
      BestAreHeld(lines, k - 1);
      ChosenStep(lines, k - 1);
    }
  }

  /** Once the list is full nothing changes it. */
  lemma {:induction false} FullListStays(lines: seq<Line>, j: nat, k: nat)
    requires j <= k <= |lines| && StartupLines(EmptyList(), lines, j).endlist == MAX_PLUGINS
    ensures StartupLines(EmptyList(), lines, k) == StartupLines(EmptyList(), lines, j)
    decreases k
  {
    hide FindByPath, FindMatch;
    if j == k {
    } else {
      FullListStays(lines, j, k - 1);
    }
  }

  // ----- loading what was read -----

  /** A load at startup attaches a plugin that was read iff it has its names, its file can be opened and queried, it may
      be attached at startup, and that succeeds; what it leaves otherwise is `LoadedFrom`. */
  lemma HeldIsLoaded(l: Plist, s: nat, e: Entry, env: Env)
    requires Bounded(l) && Holds(l, s, e)
    ensures var o := LoadOutcome(l.slots[s], Startup, env);
            && (o.ok <==> e.file != "" && e.filename != "" && e.pathname != "" && CanBeLoaded(Startup, env))
            && (o.ok ==> o.plugin.status == Running && o.plugin.handle == Some(env.query.handle))
            && (e.file != "" && e.filename != "" && e.pathname != "" ==>
                  LoadedFrom(l.slots[s], Startup, env, o.plugin, o.ok, o.events))
  {
    LoadMeaning(l.slots[s], Startup, env);
    hide LoadOutcome;
  }

  // ----- without the hypothesis -----

  lemma FirstTaken(lines: seq<Line>)
    requires |lines| == 3 && lines[0].Line?
    ensures var l := StartupLines(EmptyList(), lines, 1); l.endlist == 1 && Holds(l, 0, lines[0].entry)
  {
    var l := StartupLines(EmptyList(), lines, 0);
    ReadLines(lines, 0);
    assert FirstAlike(l, lines[0].entry, None);
    assert StartupLines(EmptyList(), lines, 1) == StartupLine(l, lines[0]);
    hide StartupLine, FirstAlike, FromLines;
    LineDecision(l, lines, 0, None);
  }

  lemma SecondTaken(lines: seq<Line>)
    requires |lines| == 3 && lines[0].Line? && lines[1].Line? && !Alike(lines[1].entry, lines[0].entry)
    requires lines[0].entry.pathname != lines[1].entry.pathname
    ensures var l := StartupLines(EmptyList(), lines, 2);
            l.endlist == 2 && Holds(l, 0, lines[0].entry) && Holds(l, 1, lines[1].entry)
  {
    var l := StartupLines(EmptyList(), lines, 1);
    FirstTaken(lines);
    ReadLines(lines, 1);
    hide AlikeFiles, AlikeDescs;
    assert FirstAlike(l, lines[1].entry, None);
    assert StartupLines(EmptyList(), lines, 2) == StartupLine(l, lines[1]);
    hide StartupLine, StartupLines, FirstAlike, FromLines;
    LineDecision(l, lines, 1, None);
  }

  /** Three lines, the last of which is for the same plugin as each of the others, which are not alike: however specific
      it is, it makes room by the first of these only, and two entries for one plugin are loaded. */
  lemma OnlyTheFirstMakesRoom(lines: seq<Line>)
    requires |lines| == 3 && DistinctLines(lines) && forall i :: 0 <= i < 3 ==> lines[i].Line?
    requires Like(lines, 2, 0) && Like(lines, 2, 1) && !Like(lines, 1, 0)
    requires lines[2].entry.pfspecific > lines[0].entry.pfspecific
    ensures var l := StartupLines(EmptyList(), lines, 3);
            !IsHeld(l, lines[0].entry) && IsHeld(l, lines[1].entry) && IsHeld(l, lines[2].entry)
  {
    hide AlikeFiles, AlikeDescs, StartupLine, FromLines, IsHeld;
    var l := StartupLines(EmptyList(), lines, 2);
    assert StartupLines(EmptyList(), lines, 3) == StartupLine(l, lines[2]);
    hide StartupLines;
    SecondTaken(lines);
    ReadLines(lines, 2);
    hide Holds;
    ThirdTaken(l, lines);
  }

  lemma ThirdTaken(l: Plist, lines: seq<Line>)
    requires Bounded(l) && |lines| == 3 && FromLines(l, lines, 2) && l.endlist == 2
    requires forall i :: 0 <= i < 3 ==> lines[i].Line?
    requires Holds(l, 0, lines[0].entry) && Holds(l, 1, lines[1].entry) && Like(lines, 2, 0)
    requires DistinctLines(lines)
    requires lines[2].entry.pfspecific > lines[0].entry.pfspecific
    ensures var r := StartupLine(l, lines[2]);
            !IsHeld(r, lines[0].entry) && IsHeld(r, lines[1].entry) && IsHeld(r, lines[2].entry)
  {
    var r := StartupLine(l, lines[2]);
    hide AlikeFiles, AlikeDescs, StartupLine, FromLines;
    assert FirstAlike(l, lines[2].entry, Some(0));
    hide FirstAlike, AlikeSlot, Alike;
    LineDecision(l, lines, 2, Some(0));
    assert Holds(r, 1, lines[1].entry) && Holds(r, 2, lines[2].entry);
    assert forall s: nat :: !Holds(r, s, lines[0].entry);
  }

  /** There are such lines. */
  lemma SuchLinesAreThere()
    ensures var b := Line(Entry("b", "b", "Stats", "/b", 0, FromIni));
            var d := Line(Entry("d", "d", "Other", "/d", 0, FromIni));
            var lines := [b, d, Line(Entry("d", "d", "Stats", "/c", 1, FromIni))];
            DistinctLines(lines) && Like(lines, 2, 0) && Like(lines, 2, 1) && !Like(lines, 1, 0)
  {
    NoStem("d");
    assert Lower("Other"[0]) == 'o' && Lower("Stats"[0]) == 's';
    assert !AlikeDescs("Other", "Stats");
  }

  lemma NoStem(a: string)
    requires '.' !in a && '_' !in a
    ensures forall b :: AlikeFiles(a, b) <==> a == b
  {
  }
}
