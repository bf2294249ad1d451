/** What every run over the plugin list of PluginListSpec keeps. */
module PluginListLaws {
  import opened Common
  import opened Plugin
  import opened PluginRuns
  import opened PluginListSpec
  import opened UnloadNest
  import opened UnloadNestLaws
  import opened UnloadNestStates

  // ----- the invariant -----

  ghost predicate DistinctPaths(l: Plist)
    requires Bounded(l)
  {
    forall i, j :: 0 <= i < j < l.endlist && l.slots[i].status != Empty && l.slots[j].status != Empty ==>
      l.slots[i].pathname != l.slots[j].pathname
  }

  /** At most the remains of a line that plugins.ini listed twice at startup. */
  predicate Unused(p: Record) {
    p.handle.None? && (p.status == Empty || p.status == Valid)
  }

  /** A plugin whose file has been opened has its names. */
  predicate Named(p: Record) {
    p.status.Rank() >= Opened.Rank() ==> HasNames(p)
  }

  ghost predicate Inv(l: Plist) {
    && Bounded(l)
    && (forall i :: 0 <= i < MAX_PLUGINS ==> l.slots[i].index == i + 1 && Exact(l.slots[i]) && Named(l.slots[i]))
    && (forall i :: 0 <= i < MAX_PLUGINS ==> !l.slots[i].isUnloader)
    && (forall i :: l.endlist <= i < MAX_PLUGINS ==> Unused(l.slots[i]))
    && DistinctPaths(l)
  }

  function EmptyList(): (l: Plist)
    ensures |l.slots| == MAX_PLUGINS
  {
    Plist(seq(MAX_PLUGINS, (i: nat) => EmptySlot(i + 1)), 0)
  }

  lemma EmptyListIsFine()
    ensures Inv(EmptyList())
  {
  }

  // ----- adding -----

  /** add() fails exactly when all 50 slots are in use; otherwise it takes the least empty slot, or
      the one at endlist, and touches no other. */
  lemma AddTakesLeastEmpty(l: Plist, e: Entry)
    requires Inv(l)
    ensures Add(l, e).None? <==>
              l.endlist == MAX_PLUGINS && forall i :: 0 <= i < MAX_PLUGINS ==> l.slots[i].status != Empty
    ensures Add(l, e).Some? ==>
              var (r, k) := Add(l, e).value;
              && k < r.endlist && (r.endlist == l.endlist || (k == l.endlist && r.endlist == k + 1))
              && (k < l.endlist ==> l.slots[k].status == Empty)
              && (forall i :: 0 <= i < k ==> l.slots[i].status != Empty)
              && l.slots[k].handle.None?
              && (forall i :: 0 <= i < MAX_PLUGINS && i != k ==> r.slots[i] == l.slots[i])
              && r.slots[k].pathname == e.pathname && r.slots[k].status == Valid
  {
  }

  lemma AddKeeps(l: Plist, e: Entry)
    requires Inv(l) && FindByPath(l, e.pathname).None? && Add(l, e).Some?
    ensures Inv(Add(l, e).value.0)
  {
    AddTakesLeastEmpty(l, e);
  }

  lemma WipeKeeps(l: Plist, i: nat)
    requires Inv(l) && i < l.endlist
    ensures Inv(Wipe(l, i))
    ensures forall path :: FindByPath(l, path).None? ==> FindByPath(Wipe(l, i), path).None?
  {
  }

  lemma SetActionKeeps(l: Plist, i: nat, a: Action)
    requires Inv(l) && i < MAX_PLUGINS
    ensures Inv(SetAction(l, i, a))
  {
  }

  // ----- plugins.ini -----

  /** An entry is parsed into the slot at endlist, which is not in use yet. */
  lemma ParsedKeeps(l: Plist, e: Entry)
    requires Inv(l) && l.endlist < MAX_PLUGINS
    ensures var p := Filled(l.slots[l.endlist], e).(pfspecific := e.pfspecific, source := FromIni);
            Inv(l.(slots := l.slots[l.endlist := p])) && Unused(p) && p.pathname == e.pathname
  {
  }

  /** The slot comes into use, when no other has its path. */
  lemma EndlistGrows(l: Plist)
    requires Inv(l) && l.endlist < MAX_PLUGINS && FindByPath(l, l.slots[l.endlist].pathname).None?
    ensures Inv(SetAction(l, l.endlist, ToLoad).(endlist := l.endlist + 1))
  {
    SetActionKeeps(l, l.endlist, ToLoad);
  }

  lemma StartupLineKeeps(l: Plist, line: Line)
    requires Inv(l)
    ensures Inv(StartupLine(l, line))
  {
    hide DistinctPaths, Exact, Named, Unused, PlatformMatch, SetAction;
    if line.Line? && l.endlist < MAX_PLUGINS {
      var n := l.endlist;
      var p := Filled(l.slots[n], line.entry).(pfspecific := line.entry.pfspecific, source := FromIni);
      var l1 := l.(slots := l.slots[n := p]);
      ParsedKeeps(l, line.entry);
      if FindByPath(l1, p.pathname).None? {
        var m := FindMatch(l1, p);
        if m.Some? {
          WipeKeeps(l1, m.value);
        }
        var l2 := if m.Some? then Wipe(l1, m.value) else l1;
        EndlistGrows(l2);
      }
    }
  }

  lemma RefreshLineKeeps(l: Plist, n: nat, line: Line, disk: Disk)
    requires Inv(l)
    ensures Inv(RefreshLine(l, n, line, disk).0)
  {
    hide DistinctPaths, PlatformMatch, Exact;
    if line.Line? && n < MAX_PLUGINS {
      var e := line.entry;
      match FindByPath(l, e.pathname) {
        case None =>
          var m := FindMatch(l, Parsed(e).(source := FromIni));
          if m.Some? {
            WipeKeeps(l, m.value);
          }
          var l1 := if m.Some? then Wipe(l, m.value) else l;
          if Add(l1, e.(source := FromIni)).Some? {
            AddKeeps(l1, e.(source := FromIni));
            var (l2, k) := Add(l1, e.(source := FromIni)).value;
            SetActionKeeps(l2, k, ToLoad);
          }
        case Some(k) =>
          RefreshKnownKeeps(l, n, k, e, disk);
      }
    }
  }

  lemma RefreshKnownKeeps(l: Plist, n: nat, k: nat, e: Entry, disk: Disk)
    requires Inv(l) && k < MAX_PLUGINS
    ensures Inv(RefreshKnown(l, n, k, e, disk).0)
  {
  }

  lemma {:induction false} StartupKeeps(l: Plist, lines: seq<Line>, k: nat)
    requires Inv(l) && k <= |lines|
    ensures Inv(StartupLines(l, lines, k))
  {
    if k == 0 {
    } else {
      StartupKeeps(l, lines, k - 1);
      StartupLineKeeps(StartupLines(l, lines, k - 1), lines[k-1]);
    }
  }

  lemma {:induction false} MarkKeeps(l: Plist, lines: seq<Line>, k: nat, disk: Disk)
    requires Inv(l) && k <= |lines|
    ensures Inv(MarkLines(l, lines, k, disk).0)
  {
    hide RefreshLine;
    if k == 0 {
    } else {
      MarkKeeps(l, lines, k - 1, disk);
      var (m, n) := MarkLines(l, lines, k - 1, disk);
      RefreshLineKeeps(m, n, lines[k-1], disk);
    }
  }

  // ----- one slot -----

  lemma StepKeepsSlot(p: Record, op: Op)
    requires InfoKnown(p) && !op.Fill?
    ensures KeepsSlot(p, Step(p, op).plugin)
  {
    hide LoadOutcome, UnloadOutcome, ReloadOutcome, RetryOutcome, RequestOutcome, PauseOutcome, UnpauseOutcome,
         ClearOutcome;
  }

  lemma SlotsKeep(l: Plist, slots: seq<Record>)
    requires Inv(l) && |slots| == MAX_PLUGINS
    requires forall i :: 0 <= i < MAX_PLUGINS ==> SameSlot(l.slots[i], slots[i]) && Exact(slots[i])
    requires forall i :: 0 <= i < MAX_PLUGINS ==> !slots[i].isUnloader
    requires forall i :: l.endlist <= i < MAX_PLUGINS ==> slots[i] == l.slots[i]
    ensures Inv(l.(slots := slots))
  {
    assert forall i :: 0 <= i < MAX_PLUGINS ==> Named(l.slots[i]) && Named(slots[i]);
  }

  lemma SweepKeepsSlot(p: Record, now: LoadTime, env: Env)
    requires Exact(p) && Tidy(env)
    ensures var o := SweepSlot(p, now, env);
            KeepsSlot(p, o.plugin) && Exact(o.plugin) && Explains(p, o.events, o.plugin)
  {
    hide LoadOutcome, UnloadOutcome, ReloadOutcome, RetryOutcome, Explains;
    if DllOf(SweepSlot(p, now, env).plugin) == DllOf(p) {
      NothingKeeps(p, SweepSlot(p, now, env).plugin);
    }
    if p.status != Empty {
      var op := match p.action
        case Keep => Mark(NoAction)
        case ToLoad => DoLoad(now, env)
        case ToReload => DoReload(now, FileNewer, env)
        case NoAction => DoUnload(now, IniDeleted, env)
        case ToAttach => DoRetry(now, Delay, env)
        case ToUnload => DoRetry(now, Delay, env)
        case NullAction => Mark(NullAction);
      StepKeepsSlot(p, op);
      StepKeeps(p, op);
    }
  }

  lemma RefreshKeeps(l: Plist, lines: seq<Line>, disk: Disk, now: LoadTime, envs: seq<Env>)
    requires Inv(l) && |envs| == MAX_PLUGINS && forall i :: 0 <= i < MAX_PLUGINS ==> Tidy(envs[i])
    ensures Inv(Refresh(l, lines, disk, now, envs))
  {
    hide SweepSlot, DistinctPaths, MarkLines, Tidy, Explains, Exact, Named;
    MarkKeeps(l, lines, |lines|, disk);
    var m := MarkLines(l, lines, |lines|, disk).0;
    forall i | 0 <= i < MAX_PLUGINS
      ensures var q := Swept(m.slots, m.endlist, now, envs)[i]; SameSlot(m.slots[i], q) && Exact(q) && !q.isUnloader
    {
      SweepKeepsSlot(m.slots[i], now, envs[i]);
    }
    SlotsKeep(m, Swept(m.slots, m.endlist, now, envs));
  }

  lemma AddLoadKeeps(l: Plist, e: Entry, now: LoadTime, env: Env)
    requires Inv(l) && Tidy(env)
    ensures Inv(AddLoad(l, e, now, env).0)
  {
    if FindByPath(l, e.pathname).None? && Add(l, e).Some? {
      AddKeeps(l, e);
      AddTakesLeastEmpty(l, e);
      var (l1, k) := Add(l, e).value;
      LoadAddedKeeps(l1.slots[k], e.source, now, env);
      SlotsKeep(l1, AddLoad(l, e, now, env).0.slots);
    }
  }

  lemma LoadAddedKeeps(p: Record, source: Source, now: LoadTime, env: Env)
    requires Exact(p) && Tidy(env)
    ensures var o := LoadAdded(p, source, now, env);
            KeepsSlot(p, o.plugin) && Exact(o.plugin) && Explains(p, o.events, o.plugin)
  {
    hide LoadOutcome, ClearOutcome, Explains;
    SameDll(p, p.(action := ToLoad));
    var o := LoadOutcome(p.(action := ToLoad), now, env);
    StepKeeps(p.(action := ToLoad), DoLoad(now, env));
    StepKeeps(o.plugin, DoClear);
    var c := ClearOutcome(o.plugin);
    ExplainsConcat(p, o.events, o.plugin, c.events, c.plugin);
  }

  lemma NestKeeps(l: Plist, v: World)
    requires Inv(l) && Led(Calm(l), v) && NoNewFlag(Calm(l), v) && AllExact(v.list)
    ensures Inv(v.list)
  {
    hide Explains;
    SlotsKeep(l, v.list.slots);
  }

  // ----- runs -----

  /** `AskFor` is plugin_unload, and `UnloadWithin` any other unload, with the requests that plugins make during it. */
  datatype ListOp =
    | ReadStartup(lines: seq<Line>)
    | DoRefresh(lines: seq<Line>, disk: Disk, now: LoadTime, envs: seq<Env>)
    | DoAddLoad(entry: Entry, now: LoadTime, env: Env)
    | OnPlugin(slot: nat, op: Op)
    | AskFor(request: Request)
    | UnloadWithin(slot: nat, request: Request)

  predicate InUse(l: Plist, k: nat)
    requires Bounded(l)
  {
    k < l.endlist && l.slots[k].status != Empty
  }

  /** The world after a nest. */
  function Nest(l: Plist, op: ListOp): (w: World)
    requires Bounded(l) && (op.AskFor? || op.UnloadWithin?)
    ensures Sized(w)
  {
    match op
    case AskFor(r) => Serve(Calm(l), r).world
    case UnloadWithin(k, r) =>
      if InUse(l, k) then ServeUnload(Calm(SetAction(l, k, ToUnload)), k, r).world else Calm(l)
  }

  /** No query is refused in a way that keeps its file open, and no nest strands a plugin. */
  ghost predicate TidyListOp(l: Plist, op: ListOp)
    requires Bounded(l)
  {
    match op
    case ReadStartup(_) => l.endlist == 0  // it is read once, into the empty list
    case DoRefresh(_, _, _, envs) => |envs| == MAX_PLUGINS && forall i :: 0 <= i < MAX_PLUGINS ==> Tidy(envs[i])
    case DoAddLoad(_, _, env) => Tidy(env)
    case OnPlugin(_, o) => TidyOp(o) && !o.Fill?
    case _ => forall s :: 0 <= s < MAX_PLUGINS ==> !Stranded(Nest(l, op).log, s)
  }

  ghost function ListStep(l: Plist, op: ListOp): Plist
    requires Inv(l) && TidyListOp(l, op)
  {
    match op
    case ReadStartup(lines) => StartupLines(l, lines, |lines|)
    case DoRefresh(lines, disk, now, envs) => Refresh(l, lines, disk, now, envs)
    case DoAddLoad(e, now, env) => AddLoad(l, e, now, env).0
    case OnPlugin(k, o) => if InUse(l, k) then l.(slots := l.slots[k := Step(l.slots[k], o).plugin]) else l
    case _ => Nest(l, op).list
  }

  /** A nest keeps the list in order iff it strands no plugin. */
  lemma NestKeepsIff(l: Plist, op: ListOp)
    requires Inv(l) && (op.AskFor? || op.UnloadWithin?)
    ensures Inv(Nest(l, op).list) <==> forall s :: 0 <= s < MAX_PLUGINS ==> !Stranded(Nest(l, op).log, s)
  {
    hide Serve, ServeUnload, Stranded, Exact, Led, DistinctPaths;
    var v := Nest(l, op);
    match op {
      case AskFor(r) =>
        NestIsExactIff(l, v, r);
        ServeLeavesNoFlag(Calm(l), r);
        if AllExact(v.list) {
          NestKeeps(l, v);
        }
      case UnloadWithin(k, r) =>
        if InUse(l, k) {
          SetActionKeeps(l, k, ToUnload);
          UnloadIsExactIff(SetAction(l, k, ToUnload), v, k, r);
          ServeUnloadLeavesNoFlag(Calm(SetAction(l, k, ToUnload)), k, r);
          if AllExact(v.list) {
            NestKeeps(SetAction(l, k, ToUnload), v);
          }
        } else {
          assert forall s :: !Stranded(v.log, s) by {
            NothingIsStranded();
          }
        }
    }
  }

  /** In every list that a run can reach, whatever plugins ask of each other, the guard of plugin_unload holds as
      long as no plugin asks again while its first request is open. */
  lemma RequestIsGuarded(l: Plist, r: Request)
    requires Inv(l) && !Serve(Calm(l), r).world.reopened
    ensures Guarded(Calm(l), Serve(Calm(l), r).world)
  {
    ServeIsGuarded(Calm(l), r);
  }

  lemma NothingIsStranded()
    ensures forall s :: !Stranded([], s)
  {
  }

  lemma ExactIffNoneStranded(v: World)
    requires Sized(v) && forall s :: 0 <= s < MAX_PLUGINS ==> Exact(v.list.slots[s]) == !Stranded(v.log, s)
    ensures AllExact(v.list) <==> forall s :: 0 <= s < MAX_PLUGINS ==> !Stranded(v.log, s)
  {
    hide Exact, Stranded;
    if AllExact(v.list) {
      forall s | 0 <= s < MAX_PLUGINS ensures !Stranded(v.log, s) {
        assert Exact(v.list.slots[s]);
      }
    } else {
      var s :| 0 <= s < MAX_PLUGINS && !Exact(v.list.slots[s]);
      assert Stranded(v.log, s);
    }
  }

  lemma NestIsExactIff(l: Plist, v: World, r: Request)
    requires Inv(l) && v == Serve(Calm(l), r).world
    ensures Led(Calm(l), v) && (AllExact(v.list) <==> forall s :: 0 <= s < MAX_PLUGINS ==> !Stranded(v.log, s))
  {
    hide Serve, Stranded, Led, Exact;
    ServeStaysExactIff(l, r, 0);
    forall s | 0 <= s < MAX_PLUGINS ensures Exact(v.list.slots[s]) == !Stranded(v.log, s) {
      ServeStaysExactIff(l, r, s);
    }
    ExactIffNoneStranded(v);
  }

  lemma UnloadIsExactIff(l: Plist, v: World, k: nat, r: Request)
    requires Inv(l) && InUse(l, k) && l.slots[k].action == ToUnload && v == ServeUnload(Calm(l), k, r).world
    ensures Led(Calm(l), v) && (AllExact(v.list) <==> forall s :: 0 <= s < MAX_PLUGINS ==> !Stranded(v.log, s))
  {
    hide ServeUnload, Stranded, Led, Exact;
    UnloadStaysExactIff(l, k, r, 0);
    forall s | 0 <= s < MAX_PLUGINS ensures Exact(v.list.slots[s]) == !Stranded(v.log, s) {
      UnloadStaysExactIff(l, k, r, s);
    }
    ExactIffNoneStranded(v);
  }

  lemma ListStepKeeps(l: Plist, op: ListOp)
    requires Inv(l) && TidyListOp(l, op)
    ensures Inv(ListStep(l, op))
  {
    hide DistinctPaths, Nest, Stranded;
    match op
    case ReadStartup(lines) => StartupKeeps(l, lines, |lines|);
    case DoRefresh(lines, disk, now, envs) => RefreshKeeps(l, lines, disk, now, envs);
    case DoAddLoad(e, now, env) => AddLoadKeeps(l, e, now, env);
    case OnPlugin(k, o) =>
      if InUse(l, k) {
        StepKeepsSlot(l.slots[k], o);
        StepKeeps(l.slots[k], o);
        SlotsKeep(l, l.slots[k := Step(l.slots[k], o).plugin]);
      }
    case _ => NestKeepsIff(l, op);
  }

  ghost predicate TidyRun(l: Plist, ops: seq<ListOp>)
    requires Inv(l)
    decreases |ops|
  {
    ops == [] || (TidyListOp(l, ops[0]) && (ListStepKeeps(l, ops[0]); TidyRun(ListStep(l, ops[0]), ops[1..])))
  }

  ghost function ListRun(l: Plist, ops: seq<ListOp>): (r: Plist)
    requires Inv(l) && TidyRun(l, ops)
    ensures Inv(r)
    decreases |ops|
  {
    if ops == [] then l
    else
      ListStepKeeps(l, ops[0]);
      ListRun(ListStep(l, ops[0]), ops[1..])
  }

  // ----- the lists of the examples can be reached -----

  function LoadOf(i: nat, unloadable: LoadTime): ListOp {
    DoAddLoad(Entry("p.so", "p.so", "p", seq(i + 1, _ => 'p'), 0, FromCommand), Startup,
              Env(Accepted(i, Info(i, "p", "p", AnyTime, unloadable)), None, None, false, 0))
  }

  lemma LoadedIsAdded(n: nat, unloadable: LoadTime)
    requires n < MAX_PLUGINS
    ensures var op := LoadOf(n, unloadable); var l := Loaded(n, unloadable);
            && FindByPath(l, op.entry.pathname).None?
            && Add(l, op.entry) == Some((Plist(l.slots[n := Filled(EmptySlot(n + 1), op.entry)], n + 1), n))
  {
    var op := LoadOf(n, unloadable);
    var l := Loaded(n, unloadable);
    forall i | 0 <= i < n ensures l.slots[i].pathname != op.entry.pathname {
      assert |l.slots[i].pathname| == i + 1;
    }
    assert FreeSlot(l, 0) == n;
  }

  lemma LoadedIsLoaded(n: nat, unloadable: LoadTime)
    ensures var op := LoadOf(n, unloadable);
            LoadAdded(Filled(EmptySlot(n + 1), op.entry), FromCommand, op.now, op.env).plugin
            == LoadedPlugin(n, unloadable)
  {
  }

  /** A console command adds and loads one more plugin. */
  lemma OneMoreLoaded(n: nat, unloadable: LoadTime)
    requires n < MAX_PLUGINS
    ensures var op := LoadOf(n, unloadable);
            AddLoad(Loaded(n, unloadable), op.entry, op.now, op.env).0 == Loaded(n + 1, unloadable)
  {
    var op := LoadOf(n, unloadable);
    LoadedIsAdded(n, unloadable);
    LoadedIsLoaded(n, unloadable);
    hide Add, LoadAdded, FindByPath, LoadedPlugin;
    assert AddLoad(Loaded(n, unloadable), op.entry, op.now, op.env).0.slots == Loaded(n + 1, unloadable).slots;
  }

  function Loads(n: nat, unloadable: LoadTime): seq<ListOp> {
    if n == 0 then [] else Loads(n - 1, unloadable) + [LoadOf(n - 1, unloadable)]
  }

  lemma {:induction false} OneMoreStep(l: Plist, ops: seq<ListOp>, op: ListOp)
    requires Inv(l) && TidyRun(l, ops) && TidyListOp(ListRun(l, ops), op)
    ensures TidyRun(l, ops + [op])
    ensures ListRun(l, ops + [op]) == ListStep(ListRun(l, ops), op)
    decreases |ops|
  {
    hide Inv, ListStep, TidyListOp;
    if ops == [] {
      assert [] + [op] == [op] && [op][1..] == [];
      ListStepKeeps(l, op);
    } else {
      assert (ops + [op])[1..] == ops[1..] + [op];
      ListStepKeeps(l, ops[0]);
      OneMoreStep(ListStep(l, ops[0]), ops[1..], op);
    }
  }

  /** So the lists of `SecondRequestBreaksTheGuard` and `ForcedUnloadStrandsAPlugin` occur in runs. */
  lemma {:induction false} LoadedIsReached(n: nat, unloadable: LoadTime)
    requires n <= MAX_PLUGINS
    ensures Inv(EmptyList()) && TidyRun(EmptyList(), Loads(n, unloadable))
    ensures ListRun(EmptyList(), Loads(n, unloadable)) == Loaded(n, unloadable)
  {
    hide Inv;
    EmptyListIsFine();
    if n == 0 {
      assert EmptyList().slots == Loaded(0, unloadable).slots;
    } else {
      LoadedIsReached(n - 1, unloadable);
      hide ListRun, TidyRun;
      OneMoreStep(EmptyList(), Loads(n - 1, unloadable), LoadOf(n - 1, unloadable));
      OneMoreLoaded(n - 1, unloadable);
    }
  }
}
