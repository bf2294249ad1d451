/** What a refresh makes of plugins whose files are newer, and of plugins that plugins.ini lists for the first time. */
module SweepLaws {
  import opened Common
  import opened Strings
  import opened Plugin
  import opened PluginRuns
  import opened PluginLaws
  import opened PluginListSpec
  import opened PluginListLaws
  import opened RefreshLaws
  import opened IniLaws

  // ----- a newer file -----

  /** The new file is running: it was opened, attached at this time, and nothing is pending. */
  predicate RunsAgain(q: Record, env: Env) {
    && q.status == Running && q.action == NoAction && q.timeLoaded == env.clock
    && env.query.Accepted? && q.handle == Some(env.query.handle) && q.info == Some(env.query.info)
  }

  /** There is time to attach the old plugin and to detach it, its detach succeeds, the file can be opened and queried,
      there is time to attach what it holds, and that succeeds. */
  predicate CanBeReplaced(info: Info, now: LoadTime, env: Env) {
    && !info.loadable.Before(now) && !info.unloadable.Before(now) && env.detachError.None?
    && CanBeLoaded(now, env)
  }

  lemma ReloadedOrNot(p: Record, now: LoadTime, env: Env, q: Record, ok: bool, t: seq<Event>)
    requires p.info.Some? && p.handle.Some? && p.timeLoaded != env.clock
    requires ReloadedFrom(p, now, FileNewer, env, q, ok, t)
    ensures RunsAgain(q, env) <==> CanBeReplaced(p.info.value, now, env)
  {
  }

  lemma SweepReloads(p: Record, q: Record, now: LoadTime, env: Env)
    requires Exact(p) && HasNames(p) && (p.status == Running || p.status == Paused)
    requires q == p.(desc := q.desc, action := ToReload)
    ensures var r := SweepSlot(q, now, env); ReloadedFrom(q, now, FileNewer, env, r.plugin, r.ok, r.events)
  {
    ReloadMeaning(q, now, FileNewer, env);
    hide ReloadedFrom, ReloadOutcome;
  }

  /** A plugin that runs, with nothing pending, and is listed with a newer file: on a refresh its file is replaced as
      `ReloadedFrom` says, case by case; when the clock has moved since it was loaded, it runs with the new file in the
      end iff everything that a reload needs is allowed and succeeds. */
  lemma NewerFileIsReloaded(l: Plist, lines: seq<Line>, disk: Disk, now: LoadTime, envs: seq<Env>, s: nat)
    requires Inv(l) && |envs| == MAX_PLUGINS && s < l.endlist
    requires (l.slots[s].status == Running || l.slots[s].status == Paused) && l.slots[s].action == NoAction
    requires Listed(l, lines, |lines|, disk, l.slots[s].pathname)
    requires l.slots[s].pathname in disk && disk[l.slots[s].pathname] > l.slots[s].timeLoaded
    ensures l.slots[s].info.Some? && l.slots[s].handle.Some?
    ensures exists desc, ok, t ::
              ReloadedFrom(l.slots[s].(desc := desc, action := ToReload), now, FileNewer, envs[s],
                           Refresh(l, lines, disk, now, envs).slots[s], ok, t)
    ensures l.slots[s].timeLoaded != envs[s].clock ==>
              (RunsAgain(Refresh(l, lines, disk, now, envs).slots[s], envs[s]) <==>
               CanBeReplaced(l.slots[s].info.value, now, envs[s]))
  {
    hide MarkLines, Listed, DistinctPaths, SweepSlot, ReloadedFrom;
    MarkOfRunning(l, lines, |lines|, disk, s);
    MarkKeeps(l, lines, |lines|, disk);
    var p, q := l.slots[s], MarkLines(l, lines, |lines|, disk).0.slots[s];
    SweepReloads(p, q, now, envs[s]);
    var r := SweepSlot(q, now, envs[s]);
    assert q == p.(desc := q.desc, action := ToReload);
    assert Refresh(l, lines, disk, now, envs).slots[s] == r.plugin;
    assert ReloadedFrom(p.(desc := q.desc, action := ToReload), now, FileNewer, envs[s], r.plugin, r.ok, r.events);
    if p.timeLoaded != envs[s].clock {
      ReloadedOrNot(q, now, envs[s], r.plugin, r.ok, r.events);
    }
  }

  /** A plugin that was put off earlier: a sweep unloads it, or attaches it, when there is time now. */
  lemma PendingIsRetried(p: Record, now: LoadTime, env: Env)
    requires Exact(p) && HasNames(p)
    ensures var o := SweepSlot(p, now, env);
            && ((p.status == Running || p.status == Paused) && p.action == ToUnload ==>
                  UnloadedFrom(p, now, Delay, env, o.plugin, o.ok, o.events))
            && (p.status == Opened && (p.action == ToLoad || p.action == ToAttach) ==>
                  AttachedFrom(p, p.info.value, now, env, o.plugin, o.ok, o.events))
  {
    hide UnloadedFrom, AttachedFrom, LoadedFrom, LoadOutcome, UnloadOutcome;
    LoadMeaning(p, now, env);
    if (p.status == Running || p.status == Paused) && p.action == ToUnload {
      UnloadMeaning(p, now, Delay, env);
    }
  }

  // ----- a new line -----

  /** Nothing in the slot is like the entry: not the path, nor the file, nor the description. */
  ghost predicate Unlike(p: Record, e: Entry) {
    p.pathname != e.pathname && !AlikeFiles(p.file, e.file) && !AlikeDescs(p.desc, e.desc)
  }

  ghost predicate UnlikeEntry(x: Entry, e: Entry) {
    x.pathname != e.pathname && !AlikeFiles(x.file, e.file) && !AlikeDescs(x.desc, e.desc)
  }

  /** Neither a plugin in use nor another line is for the same plugin. */
  ghost predicate NewLine(l: Plist, lines: seq<Line>, j: nat)
    requires Bounded(l) && j < |lines| && lines[j].Line?
  {
    && (forall s: nat :: InUse(l, s) ==> Unlike(l.slots[s], lines[j].entry))
    && (forall i: nat :: i < |lines| && i != j && lines[i].Line? ==> UnlikeEntry(lines[i].entry, lines[j].entry))
  }

  ghost predicate AllUnlike(l: Plist, e: Entry)
    requires Bounded(l)
  {
    forall s: nat :: InUse(l, s) ==> Unlike(l.slots[s], e)
  }

  lemma BackAndForth(a: string, b: string)
    ensures AlikeFiles(a, b) <==> AlikeFiles(b, a)
    ensures AlikeDescs(a, b) <==> AlikeDescs(b, a)
  {
    hide IsStem;
  }

  lemma SetActionStaysUnlike(l: Plist, k: nat, a: Action, e: Entry)
    requires Bounded(l) && k < MAX_PLUGINS && AllUnlike(l, e)
    ensures AllUnlike(SetAction(l, k, a), e)
  {
    hide AlikeFiles, AlikeDescs;
  }

  lemma AddStaysUnlike(l: Plist, x: Entry, e: Entry)
    requires Bounded(l) && AllUnlike(l, e) && UnlikeEntry(x, e) && Add(l, x).Some?
    ensures AllUnlike(Add(l, x).value.0, e)
  {
    hide AlikeFiles, AlikeDescs;
  }

  lemma WipeStaysUnlike(l: Plist, k: nat, e: Entry)
    requires Bounded(l) && k < MAX_PLUGINS && AllUnlike(l, e)
    ensures AllUnlike(Wipe(l, k), e)
  {
    hide AlikeFiles, AlikeDescs;
  }

  /** Another line brings nothing that is like the entry. */
  lemma LineStaysUnlike(l: Plist, n: nat, line: Line, disk: Disk, e: Entry)
    requires Bounded(l) && AllUnlike(l, e) && (line.Line? ==> UnlikeEntry(line.entry, e))
    ensures AllUnlike(RefreshLine(l, n, line, disk).0, e)
  {
    if line.Line? && n < MAX_PLUGINS {
      hide AllUnlike, UnlikeEntry, FindMatch, FindByPath, PlatformMatch, Add, Wipe, SetAction;
      var x := line.entry.(source := FromIni);
      match FindByPath(l, line.entry.pathname)
      case Some(k) => KnownStaysUnlike(l, n, k, line.entry, disk, e);
      case None =>
        var m := FindMatch(l, Parsed(line.entry).(source := FromIni));
        if m.Some? {
          WipeStaysUnlike(l, m.value, e);
        }
        var l1 := if m.Some? then Wipe(l, m.value) else l;
        SameEntryUnlike(line.entry, e);
        if Add(l1, x).Some? {
          AddStaysUnlike(l1, x, e);
          SetActionStaysUnlike(Add(l1, x).value.0, Add(l1, x).value.1, ToLoad, e);
        }
    }
  }

  lemma SameEntryUnlike(x: Entry, e: Entry)
    requires UnlikeEntry(x, e)
    ensures UnlikeEntry(x.(source := FromIni), e)
  {
  }

  lemma KnownStaysUnlike(l: Plist, n: nat, k: nat, x: Entry, disk: Disk, e: Entry)
    requires Bounded(l) && AllUnlike(l, e) && UnlikeEntry(x, e) && k < MAX_PLUGINS
    ensures AllUnlike(RefreshKnown(l, n, k, x, disk).0, e)
  {
    hide AlikeFiles, AlikeDescs;
  }

  lemma {:induction false} UnlikeBefore(l: Plist, lines: seq<Line>, j: nat, k: nat, disk: Disk)
    requires Bounded(l) && k <= j < |lines| && lines[j].Line? && NewLine(l, lines, j)
    ensures AllUnlike(MarkLines(l, lines, k, disk).0, lines[j].entry)
  {
    hide RefreshLine, AllUnlike, UnlikeEntry;
    if k == 0 {
      assert AllUnlike(l, lines[j].entry) by {
        NewMeansUnlike(l, lines, j);
      }
    } else {
      UnlikeBefore(l, lines, j, k - 1, disk);
      var (m, n) := MarkLines(l, lines, k - 1, disk);
      LineStaysUnlike(m, n, lines[k-1], disk, lines[j].entry);
    }
  }

  lemma NewMeansUnlike(l: Plist, lines: seq<Line>, j: nat)
    requires Bounded(l) && j < |lines| && lines[j].Line? && NewLine(l, lines, j)
    ensures AllUnlike(l, lines[j].entry)
  {
    hide Unlike;
  }

  /** Slot s holds a new entry, waiting to be loaded; the fields that its file will fill are empty. */
  predicate HoldsNew(l: Plist, s: nat, e: Entry)
    requires Bounded(l)
  {
    && s < l.endlist
    && var p := l.slots[s];
       && p.index == s + 1 && p.filename == e.filename && p.file == e.file
       && p.desc == e.desc && p.pathname == e.pathname
       && p.status == Valid && p.action == ToLoad && p.source == FromIni && p.handle.None? && p.info.None?
  }

  /** The least empty slot takes it. */
  lemma NewLineIsAdded(l: Plist, n: nat, e: Entry, disk: Disk) returns (s: nat)
    requires Inv(l) && AllUnlike(l, e) && n < MAX_PLUGINS
    requires l.endlist < MAX_PLUGINS || exists i :: 0 <= i < MAX_PLUGINS && l.slots[i].status == Empty
    ensures HoldsNew(RefreshLine(l, n, Line(e), disk).0, s, e)
    ensures l.slots[s].status == Empty || s == l.endlist
  {
    var x := e.(source := FromIni);
    assert FindByPath(l, e.pathname).None? by {
      hide AlikeFiles, AlikeDescs;
    }
    assert FindMatch(l, Parsed(e).(source := FromIni)).None? by {
      NothingMatches(l, e);
    }
    AddTakesLeastEmpty(l, x);
    s := Add(l, x).value.1;
    hide FindMatch, FindByPath, PlatformMatch, AllUnlike;
  }

  lemma NothingMatches(l: Plist, e: Entry)
    requires Bounded(l) && AllUnlike(l, e)
    ensures FindMatch(l, Parsed(e).(source := FromIni)).None?
  {
    var p := Parsed(e).(source := FromIni);
    forall s: nat | s < l.endlist ensures !PlatformMatch(p, l.slots[s]) {
      if l.slots[s].status != Empty {
        MatchMeaning(p, l.slots[s]);
        BackAndForth(p.file, l.slots[s].file);
        BackAndForth(p.desc, l.slots[s].desc);
        assert InUse(l, s);
      }
    }
    hide PlatformMatch;
  }

  lemma InvIsBounded(l: Plist)
    requires Inv(l)
    ensures Bounded(l)
  {
  }

  lemma KnownLeavesNew(l: Plist, n: nat, k: nat, x: Entry, disk: Disk, s: nat, e: Entry)
    requires Bounded(l) && HoldsNew(l, s, e) && k < MAX_PLUGINS && k != s
    ensures HoldsNew(RefreshKnown(l, n, k, x, disk).0, s, e)
  {
  }

  lemma WipeLeavesNew(l: Plist, k: nat, s: nat, e: Entry)
    requires Inv(l) && HoldsNew(l, s, e) && k < l.endlist && k != s
    ensures HoldsNew(Wipe(l, k), s, e) && Inv(Wipe(l, k))
  {
    WipeKeeps(l, k);
  }

  lemma AddLeavesNew(l: Plist, x: Entry, s: nat, e: Entry)
    requires Inv(l) && HoldsNew(l, s, e)
    ensures match Add(l, x)
            case None => true
            case Some((r, k)) => k != s && HoldsNew(SetAction(r, k, ToLoad), s, e)
  {
    AddTakesLeastEmpty(l, x);
    hide Add;
  }

  lemma MatchIsOther(l: Plist, x: Entry, s: nat, e: Entry)
    requires Bounded(l) && HoldsNew(l, s, e) && UnlikeEntry(x, e)
    ensures FindMatch(l, Parsed(x).(source := FromIni)) != Some(s) && FindByPath(l, x.pathname) != Some(s)
  {
    MatchMeaning(Parsed(x).(source := FromIni), l.slots[s]);
    hide PlatformMatch, AlikeFiles, AlikeDescs;
  }

  /** A line for another plugin leaves it alone. */
  lemma HoldsNewStays(l: Plist, n: nat, line: Line, disk: Disk, s: nat, e: Entry)
    requires Inv(l) && HoldsNew(l, s, e) && (line.Line? ==> UnlikeEntry(line.entry, e))
    ensures HoldsNew(RefreshLine(l, n, line, disk).0, s, e)
  {
    InvIsBounded(l);
    if line.Line? && n < MAX_PLUGINS {
      var x := line.entry;
      MatchIsOther(l, x, s, e);
      hide HoldsNew, Inv, FindMatch, FindByPath, Add, Wipe, SetAction, RefreshKnown, UnlikeEntry, Bounded;
      match FindByPath(l, x.pathname)
      case Some(k) => KnownLeavesNew(l, n, k, x, disk, s, e);
      case None =>
        var m := FindMatch(l, Parsed(x).(source := FromIni));
        if m.Some? {
          WipeLeavesNew(l, m.value, s, e);
        }
        AddLeavesNew(if m.Some? then Wipe(l, m.value) else l, x.(source := FromIni), s, e);
    }
  }

  lemma {:induction false} HoldsNewAfter(l: Plist, lines: seq<Line>, j: nat, k: nat, disk: Disk, s: nat)
    requires Inv(l) && j < k <= |lines| && lines[j].Line? && NewLine(l, lines, j)
    requires HoldsNew(MarkLines(l, lines, j + 1, disk).0, s, lines[j].entry)
    ensures HoldsNew(MarkLines(l, lines, k, disk).0, s, lines[j].entry)
  {
    hide RefreshLine, HoldsNew, Inv, UnlikeEntry;
    InvIsBounded(l);
    if k == j + 1 {
    } else {
      HoldsNewAfter(l, lines, j, k - 1, disk, s);
      var (m, n) := MarkLines(l, lines, k - 1, disk);
      MarkKeeps(l, lines, k - 1, disk);
      HoldsNewStays(m, n, lines[k-1], disk, s, lines[j].entry);
    }
  }

  // ----- one line on a refresh -----

  /** The entry is in the least slot that is not in use once the plugin at m has gone. */
  ghost predicate TakesSlot(l: Plist, m: Option<nat>, e: Entry, r: Plist, s: nat)
    requires Bounded(l) && Bounded(r)
  {
    && HoldsNew(r, s, e)
    && (forall i :: 0 <= i < s ==> l.slots[i].status != Empty && m != Some(i))
    && (s < l.endlist ==> (l.slots[s].status == Empty || m == Some(s)) && r.endlist == l.endlist)
    && (s >= l.endlist ==> s == l.endlist && r.endlist == s + 1)
    && forall i :: 0 <= i < MAX_PLUGINS && i != s ==>
         r.slots[i] == if m == Some(i) then EmptySlot(i + 1) else l.slots[i]
  }

  ghost predicate Full(l: Plist)
    requires Bounded(l)
  {
    forall i :: 0 <= i < MAX_PLUGINS ==> l.slots[i].status != Empty
  }

  /** A path that is new: the line is skipped when the first plugin that is alike is as specific or does not wait to be
      loaded, or when there is no room; else it gets a slot, and that plugin goes. */
  lemma NewPathMeaning(l: Plist, n: nat, e: Entry, disk: Disk, m: Option<nat>)
    requires Inv(l) && Bounded(l) && n < MAX_PLUGINS && FirstAlike(l, e, m)
    requires forall s: nat :: InUse(l, s) ==> l.slots[s].pathname != e.pathname
    ensures var (r, c) := RefreshLine(l, n, Line(e), disk);
            if m.Some? && (l.slots[m.value].pfspecific >= e.pfspecific || l.slots[m.value].action != ToLoad)
            then r == l && c == n
            else if m.None? && l.endlist == MAX_PLUGINS && Full(l) then r == l && c == n
            else c == n + 1 && exists s: nat :: TakesSlot(l, m, e, r, s)
  {
    NoSuchPath(l, e.pathname);
    MatchIsFirstAlike(l, e, Parsed(e).(source := FromIni), m);
    hide FindByPath, FindMatch, FirstAlike, AlikeSlot, DistinctPaths, Add, TakesSlot, Full, Exact, Named, Bounded,
         Filled;
    InvIsBounded(l);
    if m.Some? {
      assert m.value < l.endlist && l.slots[m.value].status != Empty by {
        FirstAlikeIsUsed(l, e, m.value);
      }
      if l.slots[m.value].pfspecific < e.pfspecific && l.slots[m.value].action == ToLoad {
        WipeKeeps(l, m.value);
        RoomIsTaken(l, m, e, Wipe(l, m.value));
      }
    } else {
      RoomIsTaken(l, m, e, l);
    }
  }

  lemma FirstAlikeIsUsed(l: Plist, e: Entry, m: nat)
    requires Bounded(l) && FirstAlike(l, e, Some(m))
    ensures m < l.endlist && l.slots[m].status != Empty
  {
  }

  lemma RoomIsTaken(l: Plist, m: Option<nat>, e: Entry, w: Plist)
    requires Inv(l) && Inv(w) && Bounded(l) && Bounded(w) && w.endlist == l.endlist
    requires m.Some? ==> m.value < l.endlist
    requires forall i :: 0 <= i < MAX_PLUGINS ==> w.slots[i] == if m == Some(i) then EmptySlot(i + 1) else l.slots[i]
    ensures match Add(w, e.(source := FromIni))
            case None => m.None? && l.endlist == MAX_PLUGINS && Full(l)
            case Some((r, k)) => TakesSlot(l, m, e, SetAction(r, k, ToLoad), k)
                                 && !(m.None? && l.endlist == MAX_PLUGINS && Full(l))
  {
    hide DistinctPaths;
    AddTakesLeastEmpty(w, e.(source := FromIni));
  }

  /** A path that is in use: its plugin gets the description, and is to be kept, or loaded again when its file has
      changed since and it is open; other plugins stay as they are, and the line counts iff the file is there. */
  lemma KnownPathMeaning(l: Plist, n: nat, e: Entry, disk: Disk, k: nat)
    requires Inv(l) && Bounded(l) && InUse(l, k) && l.slots[k].pathname == e.pathname
    ensures var (r, c) := RefreshLine(l, n, Line(e), disk); var p := l.slots[k];
            if n >= 50 then r == l && c == n
            else
              && c == (if e.pathname in disk then n + 1 else n)
              && r.endlist == l.endlist && (forall i :: 0 <= i < MAX_PLUGINS && i != k ==> r.slots[i] == l.slots[i])
              && r.slots[k].desc == (if e.desc != "" && e.desc[0] == '<' then p.desc else e.desc)
              && r.slots[k].action ==
                   (if e.pathname !in disk then p.action
                    else if disk[e.pathname] <= p.timeLoaded then Keep
                    else if p.status == Opened || p.status == Failed || p.status == Running || p.status == Paused
                    then ToReload
                    else p.action)
              && r.slots[k] == p.(desc := r.slots[k].desc, action := r.slots[k].action)
  {
    assert FindByPath(l, e.pathname) == Some(k) by {
      hide Exact;
    }
    hide FindByPath, Inv;
  }

  lemma SweepLoads(p: Record, now: LoadTime, env: Env)
    requires p.status == Valid && p.action == ToLoad && p.info.None? && HasNames(p)
    ensures var o := SweepSlot(p, now, env); LoadedFrom(p, now, env, o.plugin, o.ok, o.events)
    ensures var q := SweepSlot(p, now, env).plugin; q.index == p.index && q.pathname == p.pathname
  {
    LoadMeaning(p, now, env);
    hide LoadedFrom, LoadOutcome;
  }

  /** The slot in which a new line ends up. */
  ghost predicate NewPluginAt(l: Plist, lines: seq<Line>, j: nat, disk: Disk, now: LoadTime, envs: seq<Env>, s: nat)
    requires Bounded(l) && |envs| == MAX_PLUGINS && j < |lines| && lines[j].Line?
  {
    && s < MAX_PLUGINS
    && var q := Refresh(l, lines, disk, now, envs).slots[s];
       && q.pathname == lines[j].entry.pathname
       && (q.status == Running <==> CanBeLoaded(now, envs[s]))
       && (q.status == Running ==> RunsAgain(q, envs[s]))
  }

  /** A line for a plugin that is not there yet, which is read while a slot is free, and which no other line is about:
      on a refresh it gets a slot, and runs in the end iff its file can be opened, queried and attached now. */
  lemma NewLineIsLoaded(l: Plist, lines: seq<Line>, j: nat, disk: Disk, now: LoadTime, envs: seq<Env>)
    requires Inv(l) && |envs| == MAX_PLUGINS && j < |lines| && lines[j].Line? && NewLine(l, lines, j)
    requires var (m, n) := MarkLines(l, lines, j, disk);
             && n < MAX_PLUGINS
             && (m.endlist < MAX_PLUGINS || exists i :: 0 <= i < MAX_PLUGINS && m.slots[i].status == Empty)
    requires lines[j].entry.file != "" && lines[j].entry.filename != "" && lines[j].entry.pathname != ""
    ensures exists s: nat :: NewPluginAt(l, lines, j, disk, now, envs, s)
  {
    var e := lines[j].entry;
    var (m, n) := MarkLines(l, lines, j, disk);
    InvIsBounded(l);
    MarkKeeps(l, lines, j, disk);
    UnlikeBefore(l, lines, j, j, disk);
    var s := NewLineIsAdded(m, n, e, disk);
    assert MarkLines(l, lines, j + 1, disk) == RefreshLine(m, n, lines[j], disk);
    hide MarkLines, RefreshLine, NewLine, AllUnlike, Inv;
    HoldsNewAfter(l, lines, j, |lines|, disk, s);
    MarkKeeps(l, lines, |lines|, disk);
    NewPluginIsSwept(l, lines, j, disk, now, envs, s);
  }

  lemma NewPluginIsSwept(l: Plist, lines: seq<Line>, j: nat, disk: Disk, now: LoadTime, envs: seq<Env>, s: nat)
    requires Bounded(l) && |envs| == MAX_PLUGINS && j < |lines| && lines[j].Line?
    requires HoldsNew(MarkLines(l, lines, |lines|, disk).0, s, lines[j].entry)
    requires lines[j].entry.file != "" && lines[j].entry.filename != "" && lines[j].entry.pathname != ""
    ensures NewPluginAt(l, lines, j, disk, now, envs, s)
  {
    hide MarkLines, SweepSlot;
    var p := MarkLines(l, lines, |lines|, disk).0.slots[s];
    SweepLoads(p, now, envs[s]);
    var o := SweepSlot(p, now, envs[s]);
    assert Refresh(l, lines, disk, now, envs).slots[s] == o.plugin;
    hide Refresh;
  }
}
