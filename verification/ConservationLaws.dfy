/** DLL handles over whole runs of the plugin list. */
module ConservationLaws {
  import opened Common
  import opened Plugin
  import opened PluginRuns
  import opened PluginListSpec
  import opened UnloadNest
  import opened UnloadNestStates
  import opened PluginListLaws
  import opened RefreshLaws

  /** What a step does to the DLL of slot s. */
  ghost function SlotEvents(l: Plist, op: ListOp, s: nat): seq<Event>
    requires Inv(l) && TidyListOp(l, op) && s < MAX_PLUGINS
  {
    match op
    case ReadStartup(_) => []
    case DoRefresh(lines, disk, now, envs) =>
      var m := MarkLines(l, lines, |lines|, disk).0;
      if s < m.endlist then SweepSlot(m.slots[s], now, envs[s]).events else []
    case DoAddLoad(e, now, env) =>
      if FindByPath(l, e.pathname).None? && Add(l, e).Some? && Add(l, e).value.1 == s
      then LoadAdded(Add(l, e).value.0.slots[s], e.source, now, env).events
      else []
    case OnPlugin(k, o) =>
      if k == s && InUse(l, k) then Step(l.slots[k], o).events else []
    case _ => Nest(l, op).traces[s]
  }

  /** A step zeroes no slot that still has its file open. */
  ghost predicate Careful(l: Plist, op: ListOp)
    requires Inv(l)
  {
    match op
    case DoRefresh(lines, disk, _, _) => NoOpenFileWiped(l, lines, |lines|, disk)
    case _ => true
  }

  ghost predicate NothingOpen(l: Plist)
    requires Bounded(l)
  {
    forall i :: 0 <= i < MAX_PLUGINS ==> l.slots[i].handle.None?
  }

  lemma {:induction false} StartupOpensNothing(l: Plist, lines: seq<Line>, k: nat)
    requires Inv(l) && NothingOpen(l) && k <= |lines|
    ensures NothingOpen(StartupLines(l, lines, k))
  {
    if k == 0 {
    } else {
      StartupOpensNothing(l, lines, k - 1);
    }
  }

  lemma StepConserves(l: Plist, op: ListOp, s: nat)
    requires Inv(l) && TidyListOp(l, op) && Careful(l, op) && s < MAX_PLUGINS
    ensures Explains(l.slots[s], SlotEvents(l, op, s), ListStep(l, op).slots[s])
  {
    match op
    case ReadStartup(lines) =>
      assert NothingOpen(l);
      StartupOpensNothing(l, lines, |lines|);
      StartupKeeps(l, lines, |lines|);
      NothingKeeps(l.slots[s], StartupLines(l, lines, |lines|).slots[s]);
    case DoRefresh(lines, disk, now, envs) =>
      RefreshConserves(l, lines, disk, now, envs, s);
    case DoAddLoad(e, now, env) =>
      AddLoadConserves(l, e, now, env, s);
    case OnPlugin(k, o) =>
      if k == s && InUse(l, k) {
        StepKeeps(l.slots[k], o);
      } else {
        NothingKeeps(l.slots[s], l.slots[s]);
      }
    case _ => NestConserves(l, op, s);
  }

  lemma NestConserves(l: Plist, op: ListOp, s: nat)
    requires Inv(l) && (op.AskFor? || op.UnloadWithin?) && s < MAX_PLUGINS
    ensures Explains(l.slots[s], Nest(l, op).traces[s], Nest(l, op).list.slots[s])
  {
    hide Serve, ServeUnload, Stranded, DistinctPaths, Exact, Replay;
    match op
    case AskFor(r) =>
      ServeStaysExactIff(l, r, s);
      LedFromCalm(l, Nest(l, op), s);
    case UnloadWithin(k, r) =>
      if InUse(l, k) {
        var m := SetAction(l, k, ToUnload);
        SetActionKeeps(l, k, ToUnload);
        UnloadStaysExactIff(m, k, r, s);
        LedFromCalm(m, Nest(l, op), s);
        SameDll(l.slots[s], m.slots[s]);
      } else {
        NothingKeeps(l.slots[s], l.slots[s]);
      }
  }

  lemma LedFromCalm(l: Plist, v: World, s: nat)
    requires Bounded(l) && Led(Calm(l), v) && s < MAX_PLUGINS
    ensures Explains(l.slots[s], v.traces[s], v.list.slots[s])
  {
    assert SlotLed(l.slots[s], [], v.list.slots[s], v.traces[s]);
    assert v.traces[s][0..] == v.traces[s];
  }

  lemma AddLoadConserves(l: Plist, e: Entry, now: LoadTime, env: Env, s: nat)
    requires Inv(l) && Tidy(env) && s < MAX_PLUGINS
    ensures Explains(l.slots[s], SlotEvents(l, DoAddLoad(e, now, env), s), AddLoad(l, e, now, env).0.slots[s])
  {
    hide DistinctPaths, LoadAdded;
    if FindByPath(l, e.pathname).None? && Add(l, e).Some? {
      AddTakesLeastEmpty(l, e);
      var (l1, k) := Add(l, e).value;
      assert Exact(l1.slots[k]) && DllOf(l1.slots[k]) == DllOf(l.slots[k]);
      LoadAddedKeeps(l1.slots[k], e.source, now, env);
    }
  }

  ghost predicate CarefulRun(l: Plist, ops: seq<ListOp>)
    requires Inv(l) && TidyRun(l, ops)
    decreases |ops|
  {
    ops == [] || (Careful(l, ops[0]) && (ListStepKeeps(l, ops[0]); CarefulRun(ListStep(l, ops[0]), ops[1..])))
  }

  ghost function SlotTrace(l: Plist, ops: seq<ListOp>, s: nat): seq<Event>
    requires Inv(l) && TidyRun(l, ops) && s < MAX_PLUGINS
    decreases |ops|
  {
    if ops == [] then []
    else
      ListStepKeeps(l, ops[0]);
      SlotEvents(l, ops[0], s) + SlotTrace(ListStep(l, ops[0]), ops[1..], s)
  }

  /** Over any interleaving of startup, refreshes, added plugins, operations on plugins, and requests with the requests
      nested in them, handle, info and status of each plugin agree after each step, each slot uses its DLL legally and
      in time, and holds exactly what it has opened and not closed. */
  lemma {:induction false} EveryListRun(l: Plist, ops: seq<ListOp>, s: nat)
    requires Inv(l) && TidyRun(l, ops) && CarefulRun(l, ops) && s < MAX_PLUGINS
    ensures var p := l.slots[s];
            var q := ListRun(l, ops).slots[s];
            var t := SlotTrace(l, ops, s);
            && Exact(q)
            && Explains(p, t, q)
            && Held(DllOf(p)) + Opens(t) == Closes(t) + Held(DllOf(q))
    decreases |ops|
  {
    hide SlotEvents, ListStep, Explains, Opens, Closes, DistinctPaths;
    if ops == [] {
      NothingKeeps(l.slots[s], l.slots[s]);
    } else {
      var r := ListStep(l, ops[0]);
      ListStepKeeps(l, ops[0]);
      StepConserves(l, ops[0], s);
      EveryListRun(r, ops[1..], s);
      ExplainsConcat(l.slots[s], SlotEvents(l, ops[0], s), r.slots[s],
                     SlotTrace(r, ops[1..], s), ListRun(r, ops[1..]).slots[s]);
    }
    ExplainsIsLegal(l.slots[s], SlotTrace(l, ops, s), ListRun(l, ops).slots[s]);
    HandlesAreConserved(DllOf(l.slots[s]), SlotTrace(l, ops, s));
  }

  lemma ExplainsIsLegal(p: Record, t: seq<Event>, q: Record)
    requires Explains(p, t, q)
    ensures Replay(Some(DllOf(p)), t) == Some(DllOf(q))
  {
  }

  const LATE_ENTRY: Entry := Entry("a.so", "a.so", "<a.so>", "/dlls/a.so", 0, FromCommand)

  const LATE_INFO: Info := Info(1, "A", "A", ChangeLevel, AnyTime)

  /** A console command adds a plugin, and it is too late to attach it. */
  const LATE_LOAD: ListOp := DoAddLoad(LATE_ENTRY, AnyTime, Env(Accepted(7, LATE_INFO), None, None, false, 0))

  /** The plugin has been opened and waits. */
  function DelayedList(): (l: Plist)
    ensures Bounded(l)
  {
    Plist(EmptyList().slots[0 := Filled(EmptySlot(1), LATE_ENTRY).(desc := "A", status := Opened, action := ToLoad,
                                                                  handle := Some(7), info := Some(LATE_INFO))], 1)
  }

  lemma LateLoadDelays()
    ensures AddLoad(EmptyList(), LATE_ENTRY, AnyTime, LATE_LOAD.env).0 == DelayedList()
  {
    var l := EmptyList();
    assert FindByPath(l, LATE_ENTRY.pathname).None? && FreeSlot(l, 0) == 0;
    assert LoadAdded(Filled(EmptySlot(1), LATE_ENTRY), FromCommand, AnyTime, LATE_LOAD.env).plugin
           == DelayedList().slots[0];
  }

  lemma DelayedListIsReached()
    ensures Inv(EmptyList()) && TidyRun(EmptyList(), [LATE_LOAD]) && ListRun(EmptyList(), [LATE_LOAD]) == DelayedList()
  {
    EmptyListIsFine();
    LateLoadDelays();
    hide Inv, AddLoad;
    ListStepKeeps(EmptyList(), LATE_LOAD);
    assert [LATE_LOAD][1..] == [];
  }

  /** A plugin that was opened too late to be attached keeps its file and waits; a line of plugins.ini
      for the same plugin, built more specifically, then zeroes the slot and the file stays open. */
  lemma DelayedPluginIsForgotten()
    ensures Inv(EmptyList()) && TidyRun(EmptyList(), [LATE_LOAD])
    ensures var l := ListRun(EmptyList(), [LATE_LOAD]);
            var line := Line(Entry("b/a.so", "a.so", "<a.so>", "/dlls/b/a.so", 1, FromIni));
            && Inv(l) && WipesOpenFile(l, 0, line)
            && l.slots[0].status == Opened && l.slots[0].handle.Some?
            && RefreshLine(l, 0, line, map[]).0.slots[0].handle.None?
  {
    DelayedListIsReached();
    hide Inv, TidyRun, ListRun;
    var l := DelayedList();
    var line := Line(Entry("b/a.so", "a.so", "<a.so>", "/dlls/b/a.so", 1, FromIni));
    assert FindByPath(l, line.entry.pathname).None?;
    var temp := Parsed(line.entry).(source := FromIni);
    assert PlatformMatch(temp, l.slots[0]);
    assert FindMatch(l, temp) == Some(0);
    assert WipesOpenFile(l, 0, line);
    assert RefreshLine(l, 0, line, map[]).0.slots[0].handle.None?;
  }
}
