/** A refresh of the plugin list is a mark and sweep against plugins.ini. */
module RefreshLaws {
  import opened Common
  import opened Plugin
  import opened PluginRuns
  import opened PluginListSpec
  import opened PluginListLaws

  // ----- marking -----

  /** A line for this path stands among the first k, early enough to be read. */
  ghost predicate Listed(l: Plist, lines: seq<Line>, k: nat, disk: Disk, path: string)
    requires Bounded(l) && k <= |lines|
  {
    exists j :: 0 <= j < k && lines[j].Line? && lines[j].entry.pathname == path
        && MarkLines(l, lines, j, disk).1 < MAX_PLUGINS
  }

  /** One line changes a plugin that is not waiting to be loaded only if it names it. */
  lemma LineOnOtherSlot(l: Plist, n: nat, line: Line, disk: Disk, s: nat)
    requires Inv(l) && s < l.endlist && l.slots[s].status != Empty && l.slots[s].action != ToLoad
    ensures var r := RefreshLine(l, n, line, disk);
            if line.Line? && n < MAX_PLUGINS && line.entry.pathname == l.slots[s].pathname
            then FindByPath(l, line.entry.pathname) == Some(s) && r == RefreshKnown(l, n, s, line.entry, disk)
            else r.0.slots[s] == l.slots[s]
    ensures l.endlist <= RefreshLine(l, n, line, disk).0.endlist
  {
    hide RefreshNew, RefreshKnown;
    if line.Line? && n < MAX_PLUGINS {
      var found := FindByPath(l, line.entry.pathname);
      if found.None? {
        NewLineOnOtherSlot(l, n, line.entry, s);
      } else {
        KnownLineOnOtherSlot(l, n, found.value, line.entry, disk, s);
      }
    }
  }

  lemma NewLineOnOtherSlot(l: Plist, n: nat, e: Entry, s: nat)
    requires Inv(l) && s < l.endlist && l.slots[s].status != Empty && l.slots[s].action != ToLoad
    ensures var r := RefreshNew(l, n, e).0; l.endlist <= r.endlist && r.slots[s] == l.slots[s]
  {
    hide FindMatch, PlatformMatch;
  }

  lemma KnownLineOnOtherSlot(l: Plist, n: nat, k: nat, e: Entry, disk: Disk, s: nat)
    requires s < |l.slots| && k < |l.slots|
    ensures var r := RefreshKnown(l, n, k, e, disk).0; r.endlist == l.endlist && (k != s ==> r.slots[s] == l.slots[s])
  {
  }

  /** The mark a running plugin has after the first k lines. */
  ghost function MarkFor(l: Plist, lines: seq<Line>, k: nat, disk: Disk, p: Record): Action
    requires Bounded(l) && k <= |lines|
  {
    if !Listed(l, lines, k, disk, p.pathname) || p.pathname !in disk then NoAction
    else if disk[p.pathname] <= p.timeLoaded then Keep
    else ToReload
  }

  /** Marking leaves a running plugin alone, but for its description and its mark. */
  lemma {:induction false} MarkOfRunning(l: Plist, lines: seq<Line>, k: nat, disk: Disk, s: nat)
    requires Inv(l) && k <= |lines| && s < l.endlist
    requires l.slots[s].status.Rank() >= Running.Rank() && l.slots[s].action == NoAction
    ensures var m := MarkLines(l, lines, k, disk).0;
            && s < m.endlist
            && m.slots[s] == l.slots[s].(desc := m.slots[s].desc, action := MarkFor(l, lines, k, disk, l.slots[s]))
  {
    hide RefreshLine, Listed, DistinctPaths, Exact, Named, Unused;
    if k == 0 {
      NothingListed(l, lines, disk, l.slots[s].pathname);
    } else {
      MarkOfRunning(l, lines, k - 1, disk, s);
      MarkKeeps(l, lines, k - 1, disk);
      var (m, n) := MarkLines(l, lines, k - 1, disk);
      LineOnOtherSlot(m, n, lines[k-1], disk, s);
      OneMoreListed(l, lines, k, disk, l.slots[s].pathname);
    }
  }

  lemma NothingListed(l: Plist, lines: seq<Line>, disk: Disk, path: string)
    requires Bounded(l)
    ensures !Listed(l, lines, 0, disk, path)
  {
  }

  lemma OneMoreListed(l: Plist, lines: seq<Line>, k: nat, disk: Disk, path: string)
    requires Bounded(l) && 0 < k <= |lines|
    ensures Listed(l, lines, k, disk, path) <==>
              || Listed(l, lines, k - 1, disk, path)
              || (&& lines[k-1].Line? && lines[k-1].entry.pathname == path
                  && MarkLines(l, lines, k - 1, disk).1 < MAX_PLUGINS)
  {
    hide RefreshLine;
  }

  // ----- sweeping -----

  /** What a sweep makes of a running plugin of plugins.ini, marked or not. */
  lemma SweepOfRunning(p: Record, q: Record, mark: Action, now: LoadTime, env: Env)
    requires Exact(p) && HasNames(p) && p.status.Rank() >= Running.Rank() && p.source == FromIni && p.action == NoAction
    requires q == p.(desc := q.desc, action := mark) && (mark == Keep || mark == NoAction)
    ensures var r := SweepSlot(q, now, env).plugin;
            var limit := p.info.value.unloadable;
            && (r == p.(desc := r.desc) <==> mark == Keep || (limit.Before(now) && !Startup.Before(limit)))
            && (r.status == Empty <==> mark == NoAction && !limit.Before(now) && env.detachError.None?)
            && (r.status != Empty ==>
                  r == p.(desc := r.desc, action := r.action) && (r.action == NoAction || r.action == ToUnload))
  {
    hide LoadOutcome, ReloadOutcome, RetryOutcome;
  }

  /** A plugin of plugins.ini that runs with nothing pending survives a refresh, unchanged but for its
      description, iff it is listed and its file is there, or it may never be unloaded after startup.
      It is unloaded iff it is not listed or has no file, and its own limit and its detach allow;
      else its unload stays pending.  (A newer file is reloaded; see Marked and SweepSlot.) */
  lemma MarkAndSweep(l: Plist, lines: seq<Line>, disk: Disk, now: LoadTime, envs: seq<Env>, s: nat)
    requires Inv(l) && |envs| == MAX_PLUGINS && s < l.endlist
    requires l.slots[s].status.Rank() >= Running.Rank() && l.slots[s].action == NoAction && l.slots[s].source == FromIni
    requires l.slots[s].pathname in disk ==> disk[l.slots[s].pathname] <= l.slots[s].timeLoaded
    ensures var p := l.slots[s];
            var q := Refresh(l, lines, disk, now, envs).slots[s];
            var limit := p.info.value.unloadable;
            var kept := Listed(l, lines, |lines|, disk, p.pathname) && p.pathname in disk;
            && (q == p.(desc := q.desc) <==> kept || (limit.Before(now) && !Startup.Before(limit)))
            && (q.status == Empty <==> !kept && !limit.Before(now) && envs[s].detachError.None?)
            && (q.status != Empty ==>
                  q == p.(desc := q.desc, action := q.action) && (q.action == NoAction || q.action == ToUnload))
  {
    hide MarkLines, Listed, DistinctPaths, SweepSlot;
    MarkOfRunning(l, lines, |lines|, disk, s);
    MarkKeeps(l, lines, |lines|, disk);
    var p := l.slots[s];
    var m := MarkLines(l, lines, |lines|, disk).0;
    SweepOfRunning(p, m.slots[s], MarkFor(l, lines, |lines|, disk, p), now, envs[s]);
  }

  /** When every plugin in use runs and is listed, and no file is missing or newer, a refresh changes
      no status, action, handle or info of theirs. */
  lemma RefreshIsIdentity(l: Plist, lines: seq<Line>, disk: Disk, now: LoadTime, envs: seq<Env>)
    requires Inv(l) && |envs| == MAX_PLUGINS
    requires forall s :: 0 <= s < l.endlist ==>
               var p := l.slots[s];
               && p.status.Rank() >= Running.Rank() && p.action == NoAction
               && Listed(l, lines, |lines|, disk, p.pathname)
               && p.pathname in disk && disk[p.pathname] <= p.timeLoaded
    ensures var r := Refresh(l, lines, disk, now, envs);
            forall s :: 0 <= s < l.endlist ==> r.slots[s] == l.slots[s].(desc := r.slots[s].desc)
  {
    hide MarkLines, Listed, DistinctPaths;
    forall s | 0 <= s < l.endlist
      ensures var q := Refresh(l, lines, disk, now, envs).slots[s]; q == l.slots[s].(desc := q.desc)
    {
      MarkOfRunning(l, lines, |lines|, disk, s);
    }
  }

  /** The count of lines taken grows by at most one a line, so a file of at most 50 lines is read to its end. */
  lemma {:induction false} CountOfLines(l: Plist, lines: seq<Line>, k: nat, disk: Disk)
    requires Bounded(l) && k <= |lines|
    ensures MarkLines(l, lines, k, disk).1 <= k
  {
    if k == 0 {
    } else {
      CountOfLines(l, lines, k - 1, disk);
    }
  }

  lemma ShortFileIsReadToItsEnd(l: Plist, lines: seq<Line>, disk: Disk, path: string)
    requires Bounded(l) && |lines| <= MAX_PLUGINS
    ensures Listed(l, lines, |lines|, disk, path) <==>
              exists j :: 0 <= j < |lines| && lines[j].Line? && lines[j].entry.pathname == path
  {
    forall j | 0 <= j < |lines| ensures MarkLines(l, lines, j, disk).1 < MAX_PLUGINS {
      CountOfLines(l, lines, j, disk);
    }
  }

  /** Repeated lines are counted each time: a plugin that runs and is listed twice more than there are
      slots hides the plugins listed after it, which a refresh then unloads. */
  lemma {:induction false} RepeatedLineIsCounted(l: Plist, line: Line, k: nat, disk: Disk, a: nat)
    requires Inv(l) && k <= MAX_PLUGINS && a < l.endlist
    requires l.slots[a].status.Rank() >= Running.Rank() && l.slots[a].action == NoAction
    requires line.Line? && line.entry.pathname == l.slots[a].pathname
    requires l.slots[a].pathname in disk && disk[l.slots[a].pathname] <= l.slots[a].timeLoaded
    ensures MarkLines(l, seq(MAX_PLUGINS, _ => line), k, disk).1 == k
  {
    hide RefreshLine, Listed, DistinctPaths;
    if k == 0 {
    } else {
      var lines := seq(MAX_PLUGINS, _ => line);
      RepeatedLineIsCounted(l, line, k - 1, disk, a);
      MarkOfRunning(l, lines, k - 1, disk, a);
      MarkKeeps(l, lines, k - 1, disk);
      LineOnOtherSlot(MarkLines(l, lines, k - 1, disk).0, k - 1, line, disk, a);
    }
  }

  lemma {:induction false} MarkOnPrefix(l: Plist, a: seq<Line>, b: seq<Line>, k: nat, disk: Disk)
    requires Bounded(l) && k <= |a|
    ensures MarkLines(l, a + b, k, disk) == MarkLines(l, a, k, disk)
  {
    if k == 0 {
    } else {
      MarkOnPrefix(l, a, b, k - 1, disk);
    }
  }

  lemma RepeatedLinesHideAPlugin(l: Plist, line: Line, last: Line, disk: Disk, now: LoadTime, envs: seq<Env>, a: nat,
                                 b: nat)
    requires Inv(l) && |envs| == MAX_PLUGINS && a < l.endlist && b < l.endlist && a != b
    requires forall s :: s == a || s == b ==>
               var p := l.slots[s];
               && p.status == Running && p.action == NoAction && p.source == FromIni
               && p.pathname in disk && disk[p.pathname] <= p.timeLoaded
    requires line.Line? && line.entry.pathname == l.slots[a].pathname
    requires last.Line? && last.entry.pathname == l.slots[b].pathname
    requires !l.slots[b].info.value.unloadable.Before(now) && envs[b].detachError.None?
    ensures Refresh(l, seq(MAX_PLUGINS, _ => line) + [last], disk, now, envs).slots[b].status == Empty
  {
    var head := seq(MAX_PLUGINS, _ => line);
    var lines := head + [last];
    RepeatedLineIsCounted(l, line, MAX_PLUGINS, disk, a);
    MarkOnPrefix(l, head, [last], MAX_PLUGINS, disk);
    assert l.slots[a].pathname != l.slots[b].pathname;
    hide Inv, MarkLines, Refresh;
    assert !Listed(l, lines, |lines|, disk, l.slots[b].pathname) by {
      assert lines[MAX_PLUGINS] == last;
      assert forall j :: 0 <= j < MAX_PLUGINS ==> lines[j] == line;
    }
    MarkAndSweep(l, lines, disk, now, envs, b);
  }

  // ----- handles -----

  /** The line makes room for a better plugin by zeroing a slot that still has its file open. */
  predicate WipesOpenFile(l: Plist, n: nat, line: Line)
    requires Bounded(l)
  {
    && line.Line? && n < MAX_PLUGINS && FindByPath(l, line.entry.pathname).None?
    && var m := FindMatch(l, Parsed(line.entry).(source := FromIni));
       && m.Some? && l.slots[m.value].pfspecific < line.entry.pfspecific && l.slots[m.value].action == ToLoad
       && l.slots[m.value].handle.Some?
  }

  ghost predicate NoOpenFileWiped(l: Plist, lines: seq<Line>, k: nat, disk: Disk)
    requires Bounded(l) && k <= |lines|
  {
    forall j :: 0 <= j < k ==> !WipesOpenFile(MarkLines(l, lines, j, disk).0, MarkLines(l, lines, j, disk).1, lines[j])
  }

  ghost predicate SameDlls(l: Plist, r: Plist)
    requires Bounded(l) && Bounded(r)
  {
    forall s :: 0 <= s < MAX_PLUGINS ==> DllOf(r.slots[s]) == DllOf(l.slots[s])
  }

  ghost predicate SameOrLost(l: Plist, r: Plist)
    requires Bounded(l) && Bounded(r)
  {
    forall s :: 0 <= s < MAX_PLUGINS ==>
      DllOf(r.slots[s]) == DllOf(l.slots[s]) || (l.slots[s].handle.Some? && r.slots[s].handle.None?)
  }

  lemma ComposeDlls(l: Plist, m: Plist, r: Plist)
    requires Bounded(l) && Bounded(m) && Bounded(r) && SameOrLost(l, m) && SameOrLost(m, r)
    ensures SameOrLost(l, r) && (SameDlls(l, r) <==> SameDlls(l, m) && SameDlls(m, r))
  {
    if SameDlls(l, r) {
      forall s | 0 <= s < MAX_PLUGINS ensures DllOf(m.slots[s]) == DllOf(l.slots[s]) {
        assert DllOf(r.slots[s]) == DllOf(l.slots[s]);
      }
    }
  }

  lemma WipeConservesIff(l: Plist, i: nat)
    requires Inv(l) && i < MAX_PLUGINS
    ensures var r := Wipe(l, i);
            Bounded(r) && SameOrLost(l, r) && (SameDlls(l, r) <==> l.slots[i].handle.None?)
  {
    hide DistinctPaths;
    assert DllOf(Wipe(l, i).slots[i]) == Dll(false, false);
  }

  lemma AddConserves(l: Plist, e: Entry)
    requires Inv(l) && Add(l, e).Some?
    ensures var (r, k) := Add(l, e).value; Bounded(SetAction(r, k, ToLoad)) && SameDlls(l, SetAction(r, k, ToLoad))
  {
    hide DistinctPaths;
    AddTakesLeastEmpty(l, e);
  }

  lemma NewConservesIff(l: Plist, n: nat, e: Entry)
    requires Inv(l)
    ensures var r := RefreshNew(l, n, e).0;
            var m := FindMatch(l, Parsed(e).(source := FromIni));
            && SameOrLost(l, r)
            && (SameDlls(l, r) <==>
                  !(m.Some? && l.slots[m.value].pfspecific < e.pfspecific && l.slots[m.value].action == ToLoad
                    && l.slots[m.value].handle.Some?))
  {
    hide DistinctPaths, FreeSlot;
    var ini := e.(source := FromIni);
    var m := FindMatch(l, Parsed(e).(source := FromIni));
    if !(m.Some? && (l.slots[m.value].pfspecific >= e.pfspecific || l.slots[m.value].action != ToLoad)) {
      var l1 := if m.Some? then Wipe(l, m.value) else l;
      if m.Some? {
        WipeConservesIff(l, m.value);
        WipeKeeps(l, m.value);
      }
      if Add(l1, ini).Some? {
        AddConserves(l1, ini);
        ComposeDlls(l, l1, SetAction(Add(l1, ini).value.0, Add(l1, ini).value.1, ToLoad));
      }
    }
  }

  lemma LineConservesIff(l: Plist, n: nat, line: Line, disk: Disk)
    requires Inv(l)
    ensures var r := RefreshLine(l, n, line, disk).0;
            SameOrLost(l, r) && (SameDlls(l, r) <==> !WipesOpenFile(l, n, line))
  {
    if line.Line? && n < MAX_PLUGINS && FindByPath(l, line.entry.pathname).None? {
      hide DistinctPaths, RefreshNew, SameDlls, SameOrLost;
      NewConservesIff(l, n, line.entry);
    }
  }

  lemma SameDllsReflexive(l: Plist)
    requires Bounded(l)
    ensures SameDlls(l, l) && SameOrLost(l, l)
  {
  }

  /** Marking neither opens nor closes a file; it conserves every open file iff it wipes none. */
  lemma {:induction false} MarkConservesIff(l: Plist, lines: seq<Line>, k: nat, disk: Disk)
    requires Inv(l) && k <= |lines|
    ensures var m := MarkLines(l, lines, k, disk).0;
            SameOrLost(l, m) && (SameDlls(l, m) <==> NoOpenFileWiped(l, lines, k, disk))
  {
    hide RefreshLine, WipesOpenFile, DistinctPaths, SameDlls, SameOrLost;
    if k == 0 {
      SameDllsReflexive(l);
    } else {
      MarkConservesIff(l, lines, k - 1, disk);
      MarkKeeps(l, lines, k - 1, disk);
      var (m, n) := MarkLines(l, lines, k - 1, disk);
      LineConservesIff(m, n, lines[k-1], disk);
      ComposeDlls(l, m, RefreshLine(m, n, lines[k-1], disk).0);
      assert NoOpenFileWiped(l, lines, k, disk) <==>
             NoOpenFileWiped(l, lines, k - 1, disk) && !WipesOpenFile(m, n, lines[k-1]);
    }
  }

  /** A refresh that wipes no open file uses every DLL legally, and leaves each slot holding what it opened. */
  lemma RefreshConserves(l: Plist, lines: seq<Line>, disk: Disk, now: LoadTime, envs: seq<Env>, s: nat)
    requires Inv(l) && |envs| == MAX_PLUGINS && s < MAX_PLUGINS && Tidy(envs[s])
    requires NoOpenFileWiped(l, lines, |lines|, disk)
    ensures var m := MarkLines(l, lines, |lines|, disk).0;
            var t := if s < m.endlist then SweepSlot(m.slots[s], now, envs[s]).events else [];
            Explains(l.slots[s], t, Refresh(l, lines, disk, now, envs).slots[s])
  {
    MarkConservesIff(l, lines, |lines|, disk);
    MarkKeeps(l, lines, |lines|, disk);
    var m := MarkLines(l, lines, |lines|, disk).0;
    SweepKeepsSlot(m.slots[s], now, envs[s]);
    assert DllOf(m.slots[s]) == DllOf(l.slots[s]);
  }
}
