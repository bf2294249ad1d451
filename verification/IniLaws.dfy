/** What reading plugins.ini at startup puts into the list, told from the lines. */
module IniLaws {
  import opened Common
  import opened Strings
  import opened Plugin
  import opened PluginRuns
  import opened PluginListSpec
  import opened PluginListLaws

  // ----- when two entries are for the same plugin -----

  predicate IsLast(s: string, c: char, k: nat) {
    k < |s| && s[k] == c && c !in s[k + 1..]
  }

  /** Where a postfix for a platform begins, if the file has one. */
  predicate PlatformAt(file: string, k: nat) {
    && IsLast(file, '_', k)
    && var s := file[k..];
       "_i386." <= s || "_i486." <= s || "_i586." <= s || "_i686." <= s || "_amd64." <= s
  }

  /** The file has this many characters before its platform, or else before its last dot. */
  ghost predicate IsStem(file: string, k: nat) {
    PlatformAt(file, k) || (IsLast(file, '.', k) && forall i :: !PlatformAt(file, i))
  }

  lemma LastIsOne(s: string, c: char, i: nat, j: nat)
    requires IsLast(s, c, i) && IsLast(s, c, j)
    ensures i == j
  {
  }

  lemma LastIndexMeaning(s: string, c: char, k: nat)
    ensures LastIndexOf(s, c) == Some(k) <==> IsLast(s, c, k)
  {
    var r := LastIndexOf(s, c);
    if IsLast(s, c, k) {
      assert s[k] in s;
      LastIsOne(s, c, k, r.value);
    }
  }

  lemma StemMeaning(file: string, k: nat)
    ensures StemLength(file) == Some(k) <==> IsStem(file, k)
  {
    LastIndexMeaning(file, '.', k);
    forall i: nat ensures LastIndexOf(file, '_') == Some(i) <==> IsLast(file, '_', i) {
      LastIndexMeaning(file, '_', i);
    }
    hide LastIndexOf;
    var u := LastIndexOf(file, '_');
    if u.Some? {
      assert IsLast(file, '_', u.value);
      assert PlatformAt(file, u.value) <==> IsPlatformPostfix(file[u.value..]);
    }
  }

  /** The same file, the same description in any case, or files that differ after their stems only. */
  ghost predicate AlikeFiles(a: string, b: string) {
    a == b || exists k: nat :: IsStem(a, k) && IsStem(b, k) && k <= |a| && k <= |b| && a[..k] == b[..k]
  }

  predicate AlikeDescs(a: string, b: string) {
    a != "" && SameName(a, b)
  }

  ghost predicate Alike(a: Entry, b: Entry) {
    AlikeFiles(a.file, b.file) || AlikeDescs(a.desc, b.desc)
  }

  lemma AlikeFilesMeaning(a: string, b: string)
    ensures AlikeFiles(a, b) <==> a == b || SameStem(a, b)
  {
    forall k: nat ensures StemLength(a) == Some(k) <==> IsStem(a, k) {
      StemMeaning(a, k);
    }
    forall k: nat ensures StemLength(b) == Some(k) <==> IsStem(b, k) {
      StemMeaning(b, k);
    }
    hide StemLength, IsStem;
    if SameStem(a, b) {
      assert IsStem(a, StemLength(a).value);
    }
  }

  lemma AlikeIsSymmetric(a: Entry, b: Entry)
    ensures Alike(a, b) <==> Alike(b, a)
  {
    hide IsStem;
  }

  /** A plugin that is not open yet matches another by its file or its description only. */
  lemma MatchMeaning(p: Record, q: Record)
    requires p.status == Valid && q.status != Empty && InfoKnown(q)
    ensures PlatformMatch(p, q) <==> AlikeFiles(p.file, q.file) || AlikeDescs(p.desc, q.desc)
  {
    AlikeFilesMeaning(p.file, q.file);
    hide AlikeFiles, SameStem;
  }

  /** Some files and their platforms. */
  lemma StemExamples()
    ensures AlikeFiles("stats_i386.so", "stats_amd64.so") && AlikeFiles("stats.so", "stats_i386.so")
    ensures !AlikeFiles("stats.so", "stats_mm.so")
  {
    PlatformExample("stats_i386.so", "_i386.so");
    PlatformExample("stats_amd64.so", "_amd64.so");
    PlainExample();
    OtherExample();
    hide IsStem, AlikeFiles;
    SameStems("stats_i386.so", "stats_amd64.so", 5);
    SameStems("stats.so", "stats_i386.so", 5);
    DifferentStems("stats.so", 5, "stats_mm.so", 8);
  }

  lemma SameStems(a: string, b: string, k: nat)
    requires IsStem(a, k) && IsStem(b, k) && k <= |a| && k <= |b| && a[..k] == b[..k]
    ensures AlikeFiles(a, b)
  {
    hide IsStem;
  }

  lemma DifferentStems(a: string, i: nat, b: string, j: nat)
    requires IsStem(a, i) && IsStem(b, j) && i != j && a != b
    ensures !AlikeFiles(a, b)
  {
    StemMeaning(a, i);
    StemMeaning(b, j);
    AlikeFilesMeaning(a, b);
    hide StemLength, IsStem;
  }

  lemma PlatformExample(file: string, postfix: string)
    requires file == "stats" + postfix && (postfix == "_i386.so" || postfix == "_amd64.so")
    ensures IsStem(file, 5)
  {
    assert file[5..] == postfix;
    assert PlatformAt(file, 5);
  }

  lemma PlainExample()
    ensures IsStem("stats.so", 5)
  {
    assert '_' !in "stats.so" && '.' !in "stats.so"[6..];
    forall i: nat ensures !PlatformAt("stats.so", i) {
    }
  }

  lemma OtherExample()
    ensures IsStem("stats_mm.so", 8)
  {
    var s := "stats_mm.so";
    assert IsLast(s, '_', 5) && s[5..] == "_mm.so" && s[5..][1] == 'm' && '.' !in s[9..];
    forall i: nat ensures !PlatformAt(s, i) {
      if IsLast(s, '_', i) {
        LastIsOne(s, '_', i, 5);
      }
    }
  }

  // ----- what the lines have put into the list -----

  /** Slot s holds the entry, and waits to be loaded; its other fields are empty. */
  predicate Holds(l: Plist, s: nat, e: Entry)
    requires Bounded(l)
  {
    && s < l.endlist
    && l.slots[s] == Record(s + 1, e.filename, e.file, e.desc, e.pathname, e.pfspecific, Valid, ToLoad, FromIni,
                            None, None, 0, 0, false)
  }

  ghost predicate IsHeld(l: Plist, e: Entry)
    requires Bounded(l)
  {
    exists s: nat :: Holds(l, s, e)
  }

  /** A slot that is not in use is empty, but for the remains of a line that was parsed into it. */
  predicate Spare(p: Record, s: nat) {
    && p == EmptySlot(s + 1).(filename := p.filename, file := p.file, desc := p.desc, pathname := p.pathname,
                              pfspecific := p.pfspecific, status := p.status)
    && (p.status == Empty || p.status == Valid)
  }

  /** Every used slot holds the entry of one of the first k lines. */
  ghost predicate FromLines(l: Plist, lines: seq<Line>, k: nat)
    requires Bounded(l) && k <= |lines|
  {
    && l.endlist <= k
    && (forall s :: 0 <= s < l.endlist && l.slots[s].status != Empty ==>
          exists j :: 0 <= j < k && lines[j].Line? && Holds(l, s, lines[j].entry))
    && (forall s :: 0 <= s < l.endlist && l.slots[s].status == Empty ==> l.slots[s] == EmptySlot(s + 1))
    && (forall s :: l.endlist <= s < MAX_PLUGINS ==> Spare(l.slots[s], s))
  }

  /** What one line does: nothing, or its entry comes into use, perhaps in the place of another. */
  lemma LineMeaning(l: Plist, lines: seq<Line>, k: nat)
    requires Bounded(l) && k < |lines| && FromLines(l, lines, k)
    ensures var r := StartupLine(l, lines[k]);
            && FromLines(r, lines, k + 1)
            && (forall s :: 0 <= s < l.endlist && r.slots[s] != l.slots[s] ==> r.slots[s] == EmptySlot(s + 1))
            && l.endlist <= r.endlist <= l.endlist + 1
            && (r.endlist > l.endlist ==> lines[k].Line? && Holds(r, l.endlist, lines[k].entry))
            && (r.endlist == l.endlist ==> forall s :: 0 <= s < l.endlist ==> r.slots[s] == l.slots[s])
  {
    hide PlatformMatch, FindByPath, FindMatch;
    if lines[k].Line? && l.endlist < MAX_PLUGINS {
      var e := lines[k].entry;
      var n := l.endlist;
      var p := Filled(l.slots[n], e).(pfspecific := e.pfspecific, source := FromIni);
      assert Spare(p, n);
    }
  }

  ghost predicate AlikeSlot(l: Plist, s: nat, e: Entry)
    requires Bounded(l)
  {
    InUse(l, s) && (AlikeFiles(e.file, l.slots[s].file) || AlikeDescs(e.desc, l.slots[s].desc))
  }

  ghost predicate FirstAlike(l: Plist, e: Entry, m: Option<nat>)
    requires Bounded(l)
  {
    match m
    case None => forall s :: !AlikeSlot(l, s, e)
    case Some(i) => AlikeSlot(l, i, e) && forall s: nat :: s < i ==> !AlikeSlot(l, s, e)
  }

  lemma MatchIsFirstAlike(l: Plist, e: Entry, p: Record, m: Option<nat>)
    requires Bounded(l) && FirstAlike(l, e, m) && p.status == Valid && p.file == e.file && p.desc == e.desc
    ensures FindMatch(l, p) == m
  {
    forall s: nat | s < l.endlist ensures PlatformMatch(p, l.slots[s]) <==> AlikeSlot(l, s, e) {
      if l.slots[s].status != Empty {
        MatchMeaning(p, l.slots[s]);
      }
    }
    hide PlatformMatch, AlikeSlot;
  }

  lemma NoSuchPath(l: Plist, path: string)
    requires Bounded(l)
    ensures FindByPath(l, path).None? <==> forall s: nat :: InUse(l, s) ==> l.slots[s].pathname != path
  {
  }

  /** A line whose path is in use is skipped; so is one for which a plugin that is as specific is there; else it comes
      into use, and the first plugin that is alike goes. */
  lemma LineDecision(l: Plist, lines: seq<Line>, k: nat, m: Option<nat>)
    requires Bounded(l) && k < |lines| && FromLines(l, lines, k) && lines[k].Line? && l.endlist < MAX_PLUGINS
    requires FirstAlike(l, lines[k].entry, m)
    ensures var e := lines[k].entry; var r := StartupLine(l, lines[k]);
            if (exists s: nat :: InUse(l, s) && l.slots[s].pathname == e.pathname)
               || (m.Some? && l.slots[m.value].pfspecific >= e.pfspecific)
            then r.endlist == l.endlist && forall s :: 0 <= s < l.endlist ==> r.slots[s] == l.slots[s]
            else
              && r.endlist == l.endlist + 1 && Holds(r, l.endlist, e)
              && forall s :: 0 <= s < l.endlist ==>
                   r.slots[s] == if m == Some(s) then EmptySlot(s + 1) else l.slots[s]
  {
    var e, n := lines[k].entry, l.endlist;
    var p := Filled(l.slots[n], e).(pfspecific := e.pfspecific, source := FromIni);
    var l1 := l.(slots := l.slots[n := p]);
    assert Spare(l.slots[n], n);
    SameUse(l, l1, e, m);
    NoSuchPath(l1, e.pathname);
    MatchIsFirstAlike(l1, e, p, m);
    hide FindByPath, FindMatch, FirstAlike, AlikeSlot;
  }

  /** What stands at endlist is not in use. */
  lemma SameUse(l: Plist, l1: Plist, e: Entry, m: Option<nat>)
    requires Bounded(l) && Bounded(l1) && l1.endlist == l.endlist < MAX_PLUGINS
    requires l1.slots == l.slots[l.endlist := l1.slots[l.endlist]]
    requires FirstAlike(l, e, m)
    ensures FirstAlike(l1, e, m) && forall s: nat :: InUse(l1, s) <==> InUse(l, s)
  {
    hide AlikeFiles, AlikeDescs;
    forall s: nat ensures AlikeSlot(l1, s, e) <==> AlikeSlot(l, s, e) {
    }
  }

  lemma {:induction false} FirstAlikeExists(l: Plist, e: Entry, n: nat) returns (m: Option<nat>)
    requires Bounded(l) && n <= MAX_PLUGINS
    ensures match m
            case None => forall s: nat :: s < n ==> !AlikeSlot(l, s, e)
            case Some(i) => i < n && AlikeSlot(l, i, e) && forall s: nat :: s < i ==> !AlikeSlot(l, s, e)
  {
    hide AlikeSlot;
    if n == 0 {
      m := None;
    } else {
      m := FirstAlikeExists(l, e, n - 1);
      if m.None? && AlikeSlot(l, n - 1, e) {
        m := Some(n - 1);
      }
    }
  }

  lemma FirstAlikeIsThere(l: Plist, e: Entry) returns (m: Option<nat>)
    requires Bounded(l)
    ensures FirstAlike(l, e, m)
  {
    m := FirstAlikeExists(l, e, MAX_PLUGINS);
  }

  lemma {:induction false} ReadLines(lines: seq<Line>, k: nat)
    requires k <= |lines|
    ensures FromLines(StartupLines(EmptyList(), lines, k), lines, k)
  {
    hide StartupLine, FromLines;
    if k == 0 {
      NothingRead(lines);
    } else {
      ReadLines(lines, k - 1);
      LineMeaning(StartupLines(EmptyList(), lines, k - 1), lines, k - 1);
    }
  }

  lemma NothingRead(lines: seq<Line>)
    ensures FromLines(EmptyList(), lines, 0)
  {
  }

  /** The line is read: it stands before the list is full. */
  predicate IsRead(lines: seq<Line>, j: nat)
    requires j < |lines|
  {
    StartupLines(EmptyList(), lines, j).endlist < MAX_PLUGINS
  }

  /** Every line of a file of at most 50 lines is. */
  lemma ShortFileIsRead(lines: seq<Line>, j: nat)
    requires j < |lines| <= MAX_PLUGINS
    ensures IsRead(lines, j)
  {
    ReadLines(lines, j);
  }

  ghost predicate HeldFrom(l: Plist, s: nat, lines: seq<Line>, k: nat)
    requires Bounded(l) && k <= |lines|
  {
    exists j :: 0 <= j < k && lines[j].Line? && Holds(l, s, lines[j].entry)
  }

  lemma InUseIsHeld(l: Plist, lines: seq<Line>, k: nat, s: nat)
    requires Bounded(l) && k <= |lines| && FromLines(l, lines, k) && InUse(l, s)
    ensures HeldFrom(l, s, lines, k)
  {
  }

  /** Nothing is in the list but entries of the file, each waiting to be loaded. */
  lemma OnlyLinesAreHeld(lines: seq<Line>, s: nat)
    requires InUse(StartupLines(EmptyList(), lines, |lines|), s)
    ensures HeldFrom(StartupLines(EmptyList(), lines, |lines|), s, lines, |lines|)
  {
    hide StartupLines, FromLines, HeldFrom;
    ReadLines(lines, |lines|);
    InUseIsHeld(StartupLines(EmptyList(), lines, |lines|), lines, |lines|, s);
  }

  // ----- an entry that no other is like -----

  /** No earlier line has the path, no later one has another path and is for the same plugin, and no earlier one is. */
  ghost predicate Unrivalled(lines: seq<Line>, j: nat)
    requires j < |lines| && lines[j].Line?
  {
    forall i :: 0 <= i < |lines| && i != j && lines[i].Line? ==>
      && (i < j ==> lines[i].entry.pathname != lines[j].entry.pathname)
      && (i < j || lines[i].entry.pathname != lines[j].entry.pathname ==> !Alike(lines[i].entry, lines[j].entry))
  }

  lemma NothingIsLike(l: Plist, lines: seq<Line>, j: nat, s: nat)
    requires Bounded(l) && j < |lines| && FromLines(l, lines, j) && InUse(l, s)
    requires lines[j].Line? && Unrivalled(lines, j)
    ensures !AlikeSlot(l, s, lines[j].entry) && l.slots[s].pathname != lines[j].entry.pathname
  {
    InUseIsHeld(l, lines, j, s);
    hide FromLines, AlikeFiles, AlikeDescs;
    var i :| 0 <= i < j && lines[i].Line? && Holds(l, s, lines[i].entry);
    AlikeIsSymmetric(lines[i].entry, lines[j].entry);
  }

  /** It comes into the list when it is read. */
  lemma UnrivalledIsTaken(lines: seq<Line>, j: nat)
    requires j < |lines| && lines[j].Line? && Unrivalled(lines, j) && IsRead(lines, j)
    ensures IsHeld(StartupLines(EmptyList(), lines, j + 1), lines[j].entry)
  {
    var l := StartupLines(EmptyList(), lines, j);
    assert l.endlist < MAX_PLUGINS && StartupLines(EmptyList(), lines, j + 1) == StartupLine(l, lines[j]);
    hide AlikeSlot, Unrivalled, StartupLine, StartupLines, FromLines, Holds;
    ReadLines(lines, j);
    forall s: nat | InUse(l, s)
      ensures !AlikeSlot(l, s, lines[j].entry) && l.slots[s].pathname != lines[j].entry.pathname
    {
      NothingIsLike(l, lines, j, s);
    }
    NoneIsFirst(l, lines[j].entry);
    LineDecision(l, lines, j, None);
  }

  lemma NoneIsFirst(l: Plist, e: Entry)
    requires Bounded(l) && forall s: nat :: InUse(l, s) ==> !AlikeSlot(l, s, e)
    ensures FirstAlike(l, e, None)
  {
  }

  /** And it stays there. */
  lemma HeldStays(lines: seq<Line>, j: nat, k: nat)
    requires j < k < |lines| && lines[j].Line? && Unrivalled(lines, j)
    requires IsHeld(StartupLines(EmptyList(), lines, k), lines[j].entry)
    ensures IsHeld(StartupLines(EmptyList(), lines, k + 1), lines[j].entry)
  {
    var l := StartupLines(EmptyList(), lines, k);
    ReadLines(lines, k);
    var s: nat :| Holds(l, s, lines[j].entry);
    if lines[k].Line? && l.endlist < MAX_PLUGINS {
      var m := FirstAlikeIsThere(l, lines[k].entry);
      if lines[k].entry.pathname != lines[j].entry.pathname {
        assert m != Some(s);
      } else {
        assert InUse(l, s);
      }
      hide AlikeSlot, Alike, StartupLine, FirstAlike;
      LineDecision(l, lines, k, m);
      assert Holds(StartupLine(l, lines[k]), s, lines[j].entry);
    }
  }

  /** An entry that is read, whose path no earlier line has, and that no other path is like, is in the list in the
      end. */
  lemma {:induction false} UnrivalledIsHeld(lines: seq<Line>, j: nat, k: nat)
    requires j < k <= |lines| && lines[j].Line? && Unrivalled(lines, j) && IsRead(lines, j)
    ensures IsHeld(StartupLines(EmptyList(), lines, k), lines[j].entry)
  {
    hide Unrivalled, IsHeld, IsRead, StartupLines;
    if k == j + 1 {
      UnrivalledIsTaken(lines, j);
    } else {
      UnrivalledIsHeld(lines, j, k - 1);
      HeldStays(lines, j, k - 1);
    }
  }
}
