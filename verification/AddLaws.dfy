/** Finding plugins by the start of a name, adding plugins, and what plugins.ini says about those that run. */
module AddLaws {
  import opened Common
  import opened Strings
  import opened StringLaws
  import opened Plugin
  import opened PluginRuns
  import opened PluginLaws
  import opened PluginListSpec
  import opened PluginList
  import opened PluginListLaws
  import opened RefreshLaws

  /** What a plugin answers to: the start, in any case, of its name, description, file, file after "mm_", or log tag. */
  lemma AnswersMeaning(p: Record, prefix: string)
    ensures AnswersTo(p, prefix) <==>
              && p.status != Empty
              && (|| StartsWith(p.desc, prefix) || StartsWith(p.file, prefix)
                  || StartsWith(p.file, ['m', 'm', '_'] + prefix)
                  || (p.info.Some?
                      && (StartsWith(p.info.value.name, prefix) || StartsWith(p.info.value.logtag, prefix))))
  {
    HasPrefixMeaning(p.desc, prefix);
    HasPrefixMeaning(p.file, prefix);
    HasPrefixMeaning(p.file, "mm_" + prefix);
    if p.info.Some? {
      HasPrefixMeaning(p.info.value.name, prefix);
      HasPrefixMeaning(p.info.value.logtag, prefix);
    }
  }

  /** add() copies exactly these fields into the slot. */
  lemma AddFills(l: Plist, e: Entry)
    requires Bounded(l) && Add(l, e).Some?
    ensures var (r, k) := Add(l, e).value;
            && |r.slots| == MAX_PLUGINS && k < MAX_PLUGINS
            && r.slots == l.slots[k := l.slots[k].(filename := e.filename, file := e.file, desc := e.desc,
                                                   pathname := e.pathname, source := e.source, status := Valid)]
  {
  }

  /** A console command or a plugin adds a plugin and loads it. */
  ghost predicate Added(l: Plist, e: Entry, now: LoadTime, env: Env, k: nat, r: Plist, ok: bool, errno: Errno)
    requires Bounded(l)
  {
    var p := if k < MAX_PLUGINS then l.slots[k].(filename := e.filename, file := e.file, desc := e.desc,
                                                 pathname := e.pathname, source := e.source, status := Valid,
                                                 action := ToLoad) else EmptySlot(0);
    && k < MAX_PLUGINS && |r.slots| == MAX_PLUGINS
    && (k < l.endlist ==> l.slots[k].status == Empty && r.endlist == l.endlist)
    && (k >= l.endlist ==> k == l.endlist && r.endlist == k + 1)
    && (forall s :: 0 <= s < k ==> l.slots[s].status != Empty)
    && (forall s :: 0 <= s < MAX_PLUGINS && s != k ==> r.slots[s] == l.slots[s])
    && r.slots[k].index == l.slots[k].index && r.slots[k].pathname == e.pathname
    && (ok ==> r.slots[k].status == Running && r.slots[k].action == NoAction)
    && (ok <==> CanBeLoaded(now, env))
    && if !ok && (errno == NotAllowed || (errno == Delayed && e.source == FromPlugin))
       then r.slots[k].status == Empty && r.slots[k].handle == None
       else exists t :: LoadedFrom(p, now, env, r.slots[k], ok, t)
  }

  /** When it is too late to attach it, the answer says whether it waits, or has been dropped. */
  lemma AddLoadMeaning(l: Plist, e: Entry, now: LoadTime, env: Env)
    requires Inv(l) && e.file != "" && e.filename != "" && e.pathname != ""
    ensures var (r, ok, errno) := AddLoad(l, e, now, env);
            if exists s: nat :: InUse(l, s) && l.slots[s].pathname == e.pathname
            then r == l && !ok && errno == Already
            else if l.endlist == MAX_PLUGINS && forall s :: 0 <= s < MAX_PLUGINS ==> l.slots[s].status != Empty
            then r == l && !ok && errno == MaxReached
            else
              && (exists k :: Added(l, e, now, env, k, r, ok, errno))
              && (env.query.Accepted? && env.query.info.loadable.Before(now) ==>
                    errno == if LaterThanStartup(env.query.info.loadable) then Delayed else NotAllowed)
  {
    hide LoadAdded, FindByPath, Add, LoadedFrom, DistinctPaths;
    AddTakesLeastEmpty(l, e);
    if Add(l, e).Some? {
      AddFills(l, e);
      var (l1, k) := Add(l, e).value;
      LoadAddedMeaning(l1.slots[k], e.source, now, env);
      if FindByPath(l, e.pathname).None? {
        var (r, ok, errno) := AddLoad(l, e, now, env);
        assert Added(l, e, now, env, k, r, ok, errno);
      }
    }
  }

  lemma LoadAddedMeaning(p: Record, source: Source, now: LoadTime, env: Env)
    requires HasNames(p) && p.status == Valid && p.info.None?
    ensures var o := LoadAdded(p, source, now, env); var q := o.plugin;
            && q.index == p.index && q.pathname == p.pathname
            && (o.ok <==> CanBeLoaded(now, env))
            && (o.ok ==> q.status == Running && q.action == NoAction)
            && (if !o.ok && (o.errno == NotAllowed || (o.errno == Delayed && source == FromPlugin))
                then q.status == Empty && q.handle == None
                else LoadedFrom(p.(action := ToLoad), now, env, q, o.ok, o.events))
            && (env.query.Accepted? && env.query.info.loadable.Before(now) ==>
                  o.errno == if LaterThanStartup(env.query.info.loadable) then Delayed else NotAllowed)
  {
    var w := p.(action := ToLoad);
    LoadMeaning(w, now, env);
    LateLoad(w, now, env);
    if env.query.Accepted? {
      TimesInOrder(Startup, env.query.info.loadable);
    }
    hide LoadOutcome;
  }

  // ----- descriptions -----

  /** Line j is read, is for this path, and gives a description of its own. */
  ghost predicate Describes(l: Plist, lines: seq<Line>, j: int, disk: Disk, path: string)
    requires Bounded(l)
  {
    && 0 <= j < |lines| && lines[j].Line? && lines[j].entry.pathname == path
    && MarkLines(l, lines, j, disk).1 < MAX_PLUGINS
    && (lines[j].entry.desc == "" || lines[j].entry.desc[0] != '<')
  }

  /** The last of the first k lines that does, or the description that was there. */
  ghost predicate IsDescription(l: Plist, lines: seq<Line>, k: nat, disk: Disk, p: Record, desc: string)
    requires Bounded(l) && k <= |lines|
  {
    || (exists j :: LastDescribes(l, lines, k, disk, p.pathname, j) && desc == lines[j].entry.desc)
    || (desc == p.desc && forall j :: 0 <= j < k ==> !Describes(l, lines, j, disk, p.pathname))
  }

  ghost predicate LastDescribes(l: Plist, lines: seq<Line>, k: nat, disk: Disk, path: string, j: int)
    requires Bounded(l) && k <= |lines|
  {
    && 0 <= j < k && Describes(l, lines, j, disk, path)
    && forall i :: j < i < k ==> !Describes(l, lines, i, disk, path)
  }

  lemma DescriptionStays(l: Plist, lines: seq<Line>, k: nat, disk: Disk, p: Record, desc: string)
    requires Bounded(l) && k < |lines|
    requires !Describes(l, lines, k, disk, p.pathname) && IsDescription(l, lines, k, disk, p, desc)
    ensures IsDescription(l, lines, k + 1, disk, p, desc)
  {
    hide MarkLines;
    var end := k + 1;
    if j :| LastDescribes(l, lines, k, disk, p.pathname, j) && desc == lines[j].entry.desc {
      assert LastDescribes(l, lines, end, disk, p.pathname, j);
    }
  }

  /** plugins.ini gives a plugin that runs its description: the last line that has one. */
  lemma {:induction false} DescriptionOfRunning(l: Plist, lines: seq<Line>, k: nat, disk: Disk, s: nat)
    requires Inv(l) && k <= |lines| && s < l.endlist
    requires l.slots[s].status.Rank() >= Running.Rank() && l.slots[s].action == NoAction
    ensures s < MarkLines(l, lines, k, disk).0.endlist
    ensures IsDescription(l, lines, k, disk, l.slots[s], MarkLines(l, lines, k, disk).0.slots[s].desc)
  {
    hide RefreshLine, Inv, Listed;
    InvIsBounded(l);
    if k == 0 {
    } else {
      DescriptionOfRunning(l, lines, k - 1, disk, s);
      MarkOfRunning(l, lines, k - 1, disk, s);
      MarkKeeps(l, lines, k - 1, disk);
      var (m, n) := MarkLines(l, lines, k - 1, disk);
      InvIsBounded(m);
      LineDescribes(m, n, lines[k-1], disk, s);
      if Describes(l, lines, k - 1, disk, l.slots[s].pathname) {
        assert LastDescribes(l, lines, k, disk, l.slots[s].pathname, k - 1);
      } else {
        DescriptionStays(l, lines, k - 1, disk, l.slots[s], m.slots[s].desc);
      }
    }
  }

  lemma InvIsBounded(l: Plist)
    requires Inv(l)
    ensures Bounded(l)
  {
  }

  lemma LineDescribes(m: Plist, n: nat, line: Line, disk: Disk, s: nat)
    requires Inv(m) && s < m.endlist && m.slots[s].status != Empty && m.slots[s].action != ToLoad
    ensures var r := RefreshLine(m, n, line, disk).0;
            && s < r.endlist
            && r.slots[s].desc ==
                 if line.Line? && n < MAX_PLUGINS && line.entry.pathname == m.slots[s].pathname
                    && (line.entry.desc == "" || line.entry.desc[0] != '<')
                 then line.entry.desc else m.slots[s].desc
  {
    LineOnOtherSlot(m, n, line, disk, s);
    hide RefreshLine, Inv;
  }
}
