/** What every run of the operations of Plugin keeps, and what its DLL trace looks like. */
module PluginRuns {
  import opened Common
  import opened Plugin

  // ----- invariants -----

  /** A plugin has its file open exactly when its info is known, and exactly from Opened on. */
  predicate Exact(p: Record) {
    && (p.handle.Some? <==> p.info.Some?)
    && (p.info.Some? <==> p.status.Rank() >= Opened.Rank())
  }

  /** The weaker form that also holds in the middle of a reload, whose info is a dangling pointer. */
  predicate HandleMatches(p: Record) {
    InfoKnown(p) && (p.handle.Some? <==> p.status.Rank() >= Opened.Rank())
  }

  /** A refused query has not been made to look like a failure to open the file. */
  predicate Tidy(env: Env) {
    !(env.query.Refused? && env.query.errno == DlOpen)
  }

  // ----- legal use of a DLL -----

  datatype Dll = Dll(open: bool, attached: bool)

  /** Open only a closed file, close only an open one; attach only an open file that is not attached;
      detach only an open one. */
  function Use(d: Dll, e: Event): Option<Dll> {
    match e
    case Open(_) => if d.open then None else Some(Dll(true, false))
    case Close(_) => if d.open then Some(Dll(false, false)) else None
    case Attach(_, _, ok) => if d.open && !d.attached then Some(Dll(true, ok)) else None
    case Detach(_, _, _, _) => if d.open then Some(d) else None
    case GameInit => if d.attached then Some(d) else None
    case Disabled(_) => Some(d)
  }

  function Replay(d: Option<Dll>, t: seq<Event>): Option<Dll>
    decreases |t|
  {
    if t == [] then d
    else Replay(if d.None? then None else Use(d.value, t[0]), t[1..])
  }

  lemma {:induction false} ReplayConcat(d: Option<Dll>, a: seq<Event>, b: seq<Event>)
    ensures Replay(d, a + b) == Replay(Replay(d, a), b)
    decreases |a|
  {
    if a == [] {
      assert a + b == b;
    } else {
      assert (a + b)[1..] == a[1..] + b;
      ReplayConcat(if d.None? then None else Use(d.value, a[0]), a[1..], b);
    }
  }

  lemma {:induction false} ReplayOfNone(t: seq<Event>)
    ensures Replay(None, t) == None
    decreases |t|
  {
    if t == [] {
    } else {
      ReplayOfNone(t[1..]);
    }
  }

  /** An attach is in time, and so is a detach unless the console forces it. */
  predicate InTime(e: Event) {
    match e
    case Attach(now, loadable, _) => !loadable.Before(now)
    case Detach(now, unloadable, reason, _) =>
      unloadable.Some? && (reason == CmdForced || !unloadable.value.Before(now))
    case _ => true
  }

  ghost predicate AllInTime(t: seq<Event>) {
    forall i :: 0 <= i < |t| ==> InTime(t[i])
  }

  function DllOf(p: Record): Dll {
    Dll(p.handle.Some?, p.handle.Some? && p.status.Rank() >= Running.Rank())
  }

  // ----- one operation -----

  /** The trace t is a legal one that takes the DLL of p to the DLL of q. */
  ghost predicate Explains(p: Record, t: seq<Event>, q: Record) {
    Replay(Some(DllOf(p)), t) == Some(DllOf(q)) && AllInTime(t)
  }

  lemma ExplainsConcat(p: Record, a: seq<Event>, q: Record, b: seq<Event>, r: Record)
    requires Explains(p, a, q) && Explains(q, b, r)
    ensures Explains(p, a + b, r)
  {
    ReplayConcat(Some(DllOf(p)), a, b);
  }

  lemma {:induction false} ReplayShort(d: Dll, t: seq<Event>)
    ensures |t| == 1 ==> Replay(Some(d), t) == Use(d, t[0])
    ensures |t| == 2 && Use(d, t[0]).Some? ==> Replay(Some(d), t) == Use(Use(d, t[0]).value, t[1])
    decreases |t|
  {
    if |t| == 2 && Use(d, t[0]).Some? {
      ReplayShort(Use(d, t[0]).value, t[1..]);
    }
  }

  lemma AttachKeeps(p: Record, now: LoadTime, env: Env)
    requires p.info.Some? && p.handle.Some? && Opened.Rank() <= p.status.Rank() < Running.Rank()
    ensures var o := AttachOutcome(p, now, env); Exact(o.plugin) && Explains(p, o.events, o.plugin)
  {
    ReplayShort(DllOf(p), AttachOutcome(p, now, env).events);
  }

  lemma QueryKeeps(p: Record, env: Env)
    requires Tidy(env) && p.handle.None? && p.status.Rank() < Opened.Rank()
    ensures var o := QueryResult(p, env); Exact(o.plugin) && Explains(p, o.events, o.plugin)
  {
    ReplayShort(DllOf(p), QueryResult(p, env).events);
  }

  /** A load makes the state exact again wherever it gets as far as the file. */
  lemma LoadKeeps(p: Record, now: LoadTime, env: Env)
    requires HandleMatches(p) && Tidy(env)
    ensures var o := LoadOutcome(p, now, env);
            && Explains(p, o.events, o.plugin)
            && HandleMatches(o.plugin)
            && (Exact(p) ==> Exact(o.plugin))
            && (HasNames(p) && p.status == Valid && p.action == ToLoad ==> Exact(o.plugin))
  {
    var q := Described(p);
    if HasNames(p) && q.status.Rank() < Running.Rank() && (q.action == ToLoad || q.action == ToAttach) {
      if q.status.Rank() >= Opened.Rank() {
        AttachKeeps(q, now, env);
      } else {
        QueryKeeps(q, env);
        var o := QueryResult(q, env);
        if o.ok {
          AttachKeeps(o.plugin, now, env);
          ExplainsConcat(q, o.events, o.plugin, AttachOutcome(o.plugin, now, env).events,
                         AttachOutcome(o.plugin, now, env).plugin);
        }
      }
    }
  }

  lemma QueryIsExactIff(p: Record, env: Env)
    requires p.handle.None? && p.status.Rank() < Opened.Rank()
    ensures Exact(QueryResult(p, env).plugin) <==> Tidy(env)
    ensures var o := QueryResult(p, env);
            o.ok ==> o.plugin.status == Opened && o.plugin.handle.Some? && Tidy(env)
  {
  }

  lemma AttachIsExact(p: Record, now: LoadTime, env: Env)
    requires p.info.Some? && p.handle.Some? && Opened.Rank() <= p.status.Rank() < Running.Rank()
    ensures Exact(AttachOutcome(p, now, env).plugin)
  {
  }

  /** A load gets as far as opening and querying the file. */
  predicate LoadQueries(p: Record) {
    HasNames(p) && p.status.Rank() < Opened.Rank() && (p.action == ToLoad || p.action == ToAttach)
  }

  /** A load breaks the invariant exactly when the query of a closed file is refused with ME_DLOPEN
      (left by a load that the plugin's own Meta_Query tried): the file then stays open, without info. */
  lemma LoadKeepsExactIff(p: Record, now: LoadTime, env: Env)
    requires Exact(p)
    ensures Exact(LoadOutcome(p, now, env).plugin) <==> (LoadQueries(p) ==> Tidy(env))
  {
    hide QueryResult, AttachOutcome;
    var q := Described(p);
    if HasNames(p) && q.status.Rank() < Running.Rank() && (q.action == ToLoad || q.action == ToAttach) {
      if q.status.Rank() >= Opened.Rank() {
        AttachIsExact(q, now, env);
      } else {
        QueryIsExactIff(q, env);
        var o := QueryResult(q, env);
        if o.ok {
          AttachIsExact(o.plugin, now, env);
        }
      }
    }
  }

  /** And the next load then opens a file for a slot that still holds one. */
  lemma UntidyLoadLeaks(p: Record, h: Handle, left: Option<Info>, now: LoadTime, env: Env)
    requires Exact(p) && HasNames(p) && p.status == Valid && p.action == ToLoad
    requires env.query.Accepted?
    ensures var first := LoadOutcome(p, now, env.(query := Refused(h, DlOpen, left)));
            && !first.ok && first.plugin.handle == Some(h)
            && Replay(Some(DllOf(p)), first.events + LoadOutcome(first.plugin, now, env).events) == None
  {
    var first := LoadOutcome(p, now, env.(query := Refused(h, DlOpen, left)));
    var second := LoadOutcome(first.plugin, now, env);
    ReplayShort(DllOf(p), first.events);
    ReplayConcat(Some(DllOf(p)), first.events, second.events);
    ReplayOfNone(second.events[1..]);
  }

  lemma ClearKeeps(p: Record)
    requires Exact(p)
    ensures var o := ClearOutcome(p); Exact(o.plugin) && Explains(p, o.events, o.plugin)
  {
    ReplayShort(DllOf(p), ClearOutcome(p).events);
  }

  /** The detach of an unload that may proceed is in time and leaves the file open. */
  lemma DetachKeeps(p: Record, now: LoadTime, reason: Reason, error: Option<Errno>)
    requires p.handle.Some? ==> p.info.Some?
    requires p.info.Some? ==> reason == CmdForced || !p.info.value.unloadable.Before(now)
    ensures Explains(p, DetachEvents(p, now, reason, error), p)
  {
    ReplayShort(DllOf(p), DetachEvents(p, now, reason, error));
  }

  /** And what follows closes it, whatever has become of the pending action. */
  lemma CloseKeeps(p: Record)
    ensures UnloadFinish(p).handle.None? && Explains(p, FinishEvents(p), UnloadFinish(p))
  {
    ReplayShort(DllOf(p), FinishEvents(p));
  }

  lemma FinishKeeps(p: Record, now: LoadTime, reason: Reason, error: Option<Errno>)
    requires p.handle.Some? ==> p.info.Some?
    requires p.info.Some? ==> reason == CmdForced || !p.info.value.unloadable.Before(now)
    ensures Explains(p, DetachEvents(p, now, reason, error) + FinishEvents(p), UnloadFinish(p))
  {
    DetachKeeps(p, now, reason, error);
    CloseKeeps(p);
    ExplainsConcat(p, DetachEvents(p, now, reason, error), p, FinishEvents(p), UnloadFinish(p));
  }

  lemma NothingKeeps(p: Record, q: Record)
    requires DllOf(p) == DllOf(q)
    ensures Explains(p, [], q)
  {
  }

  lemma UnloadExplains(p: Record, now: LoadTime, reason: Reason, env: Env)
    requires Exact(p)
    ensures var o := UnloadOutcome(p, now, reason, env); Explains(p, o.events, o.plugin)
  {
    hide Explains, DetachEvents, FinishEvents;
    match UnloadDecision(p, now, reason)
    case Refuse(q, _) => NothingKeeps(p, q);
    case Proceed(q) =>
      SameDll(p, q);
      DetachKeeps(q, now, reason, env.detachError);
      FinishKeeps(q, now, reason, env.detachError);
  }

  lemma SameDll(p: Record, q: Record)
    requires DllOf(p) == DllOf(q)
    ensures forall t, r :: Explains(p, t, r) <==> Explains(q, t, r)
  {
  }

  /** Only an unload that stops halfway through a reload leaves the info dangling. */
  lemma UnloadKeeps(p: Record, now: LoadTime, reason: Reason, env: Env)
    requires Exact(p)
    ensures var o := UnloadOutcome(p, now, reason, env);
            && Explains(p, o.events, o.plugin)
            && HandleMatches(o.plugin)
            && (Exact(o.plugin) <==> !(o.ok && p.action == ToReload && p.info.Some?))
            && (o.ok && p.action == ToReload ==>
                  HasNames(o.plugin) && o.plugin.status == Valid && o.plugin.action == ToLoad)
  {
    hide Explains, DetachEvents, FinishEvents;
    UnloadExplains(p, now, reason, env);
  }

  lemma UnloadAndLoadKeeps(p: Record, now: LoadTime, reason: Reason, env: Env)
    requires Exact(p) && p.action == ToReload && Tidy(env)
    ensures var o := UnloadAndLoad(p, now, reason, env); Exact(o.plugin) && Explains(p, o.events, o.plugin)
  {
    UnloadKeeps(p, now, reason, env);
    var u := UnloadOutcome(p, now, reason, env);
    if u.ok {
      var l := LoadOutcome(u.plugin, now, env);
      LoadKeeps(u.plugin, now, env);
      ExplainsConcat(p, u.events, u.plugin, l.events, l.plugin);
    }
  }

  lemma ReloadKeeps(p: Record, now: LoadTime, reason: Reason, env: Env)
    requires Exact(p) && p.action == ToReload && Tidy(env)
    ensures var o := ReloadOutcome(p, now, reason, env); Exact(o.plugin) && Explains(p, o.events, o.plugin)
  {
    hide UnloadAndLoad, Explains;
    var q := Described(p);
    SameDll(p, q);
    NothingKeeps(p, p);
    NothingKeeps(p, q);
    NothingKeeps(p, q.(action := NoAction));
    UnloadAndLoadKeeps(q, now, if q.status.Rank() < Running.Rank() then Reloading else reason, env);
  }

  function ReloadReason(p: Record, reason: Reason): Reason {
    if p.status.Rank() < Running.Rank() then Reloading else reason
  }

  /** So does a reload whose unload is not refused. */
  predicate ReloadQueries(p: Record, now: LoadTime, reason: Reason, env: Env) {
    && HasNames(p) && !(p.info.Some? && p.info.value.loadable.Before(now))
    && UnloadOutcome(Described(p), now, ReloadReason(p, reason), env).ok
  }

  /** The second half of a reload opens the file again. */
  lemma LoadAfterUnloadIsExactIff(p: Record, now: LoadTime, env: Env)
    requires HasNames(p) && p.status == Valid && p.action == ToLoad && p.handle.None?
    ensures Exact(LoadOutcome(p, now, env).plugin) <==> Tidy(env)
  {
    hide QueryResult, AttachOutcome;
    var q := Described(p);
    QueryIsExactIff(q, env);
    var o := QueryResult(q, env);
    if o.ok {
      AttachIsExact(o.plugin, now, env);
    }
  }

  lemma UnloadAndLoadKeepsExactIff(p: Record, now: LoadTime, reason: Reason, env: Env)
    requires Exact(p) && p.action == ToReload
    ensures Exact(UnloadAndLoad(p, now, reason, env).plugin) <==>
              (UnloadOutcome(p, now, reason, env).ok ==> Tidy(env))
  {
    hide UnloadOutcome, LoadOutcome, Explains;
    UnloadKeeps(p, now, reason, env);
    var u := UnloadOutcome(p, now, reason, env);
    if u.ok {
      LoadAfterUnloadIsExactIff(u.plugin, now, env);
    }
  }

  /** A reload breaks the invariant in the same way and in no other. */
  lemma ReloadKeepsExactIff(p: Record, now: LoadTime, reason: Reason, env: Env)
    requires Exact(p) && p.action == ToReload
    ensures Exact(ReloadOutcome(p, now, reason, env).plugin) <==> (ReloadQueries(p, now, reason, env) ==> Tidy(env))
  {
    hide UnloadAndLoad, UnloadOutcome;
    UnloadAndLoadKeepsExactIff(Described(p), now, ReloadReason(p, reason), env);
  }

  // ----- runs -----

  /** The operations as their callers use them: an unload and a reload are marked first. */
  datatype Op =
    | Fill(filename: string, file: string, desc: string, pathname: string, source: Source)
    | Mark(action: Action)
    | DoLoad(now: LoadTime, env: Env)
    | DoUnload(now: LoadTime, reason: Reason, env: Env)
    | DoReload(now: LoadTime, reason: Reason, env: Env)
    | DoRetry(now: LoadTime, reason: Reason, env: Env)
    | DoRequest(unloader: nat, now: LoadTime, reason: Reason, env: Env)
    | DoPause
    | DoUnpause
    | DoClear

  predicate TidyOp(op: Op) {
    (op.DoLoad? || op.DoReload? || op.DoRetry?) ==> Tidy(op.env)
  }

  function Step(p: Record, op: Op): Outcome
    requires InfoKnown(p)
  {
    match op
    case Fill(filename, file, desc, pathname, source) =>
      if p.status != Empty then Outcome(p, false, MaxReached, [])
      else Outcome(p.(filename := filename, file := file, desc := desc, pathname := pathname, source := source,
                      status := Valid), true, NoError, [])
    case Mark(a) => Outcome(p.(action := a), true, NoError, [])
    case DoLoad(now, env) => LoadOutcome(p, now, env)
    case DoUnload(now, reason, env) => UnloadOutcome(p.(action := ToUnload), now, reason, env)
    case DoReload(now, reason, env) => ReloadOutcome(p.(action := ToReload), now, reason, env)
    case DoRetry(now, reason, env) => RetryOutcome(p, now, reason, env)
    case DoRequest(unloader, now, reason, env) => RequestOutcome(p, unloader, now, reason, env)
    case DoPause => PauseOutcome(p)
    case DoUnpause => UnpauseOutcome(p)
    case DoClear => ClearOutcome(p)
  }

  /** No operation, whatever the DLL does, leaves a plugin whose missing info would be looked at. */
  lemma StepKnowsInfo(p: Record, op: Op)
    requires InfoKnown(p)
    ensures InfoKnown(Step(p, op).plugin)
  {
  }

  /** The state and the trace after a run. */
  function Run(p: Record, ops: seq<Op>): (Record, seq<Event>)
    requires InfoKnown(p)
    decreases |ops|
  {
    if ops == [] then (p, [])
    else
      var o := Step(p, ops[0]);
      StepKnowsInfo(p, ops[0]);
      var (q, t) := Run(o.plugin, ops[1..]);
      (q, o.events + t)
  }

  lemma RestoredKeeps(o: Outcome, a: Action)
    ensures forall p, t :: Explains(p, t, o.plugin) ==> Explains(p, t, o.plugin.(action := a))
    ensures Exact(o.plugin) ==> Exact(o.plugin.(action := a))
  {
  }

  lemma StepKeeps(p: Record, op: Op)
    requires Exact(p) && TidyOp(op)
    ensures var o := Step(p, op); Exact(o.plugin) && Explains(p, o.events, o.plugin)
  {
    hide Explains, LoadOutcome, UnloadOutcome, ReloadOutcome;
    var q := Step(p, op).plugin;
    if DllOf(q) == DllOf(p) {
      NothingKeeps(p, q);
    }
    match op
    case DoLoad(now, env) => LoadKeeps(p, now, env);
    case DoUnload(now, reason, env) =>
      SameDll(p, p.(action := ToUnload));
      UnloadKeeps(p.(action := ToUnload), now, reason, env);
    case DoReload(now, reason, env) =>
      SameDll(p, p.(action := ToReload));
      ReloadKeeps(p.(action := ToReload), now, reason, env);
    case DoRetry(now, reason, env) =>
      if p.action == ToLoad || p.action == ToAttach {
        LoadKeeps(p, now, env);
      } else if p.action == ToUnload {
        UnloadKeeps(p, now, reason, env);
      } else if p.action == ToReload {
        ReloadKeeps(p, now, reason, env);
      }
    case DoRequest(unloader, now, reason, env) =>
      SameDll(p, p.(unloaderIndex := unloader, action := ToUnload));
      RestoredKeeps(UnloadOutcome(p.(unloaderIndex := unloader, action := ToUnload), now, reason, env), p.action);
      UnloadKeeps(p.(unloaderIndex := unloader, action := ToUnload), now, reason, env);
    case DoClear => ClearKeeps(p);
    case _ =>
  }

  /** The operation opens and queries the plugin's file. */
  predicate Queries(p: Record, op: Op) {
    match op
    case DoLoad(_, _) => LoadQueries(p)
    case DoReload(now, reason, env) => ReloadQueries(p.(action := ToReload), now, reason, env)
    case DoRetry(now, reason, env) => LoadQueries(p) || (p.action == ToReload && ReloadQueries(p, now, reason, env))
    case _ => false
  }

  predicate QueriesTidily(p: Record, op: Op) {
    (op.DoLoad? || op.DoReload? || op.DoRetry?) && Queries(p, op) ==> Tidy(op.env)
  }

  /** Of all operations, in every state, exactly those break the invariant whose query is refused with ME_DLOPEN. */
  lemma StepKeepsExactIff(p: Record, op: Op)
    requires Exact(p)
    ensures Exact(Step(p, op).plugin) <==> QueriesTidily(p, op)
  {
    hide LoadOutcome, UnloadOutcome, ReloadOutcome, LoadQueries, ReloadQueries, Tidy;
    match op
    case DoLoad(now, env) => LoadKeepsExactIff(p, now, env);
    case DoReload(now, reason, env) => ReloadKeepsExactIff(p.(action := ToReload), now, reason, env);
    case DoRetry(now, reason, env) => RetryKeepsExactIff(p, now, reason, env);
    case _ => StepKeeps(p, op);
  }

  lemma RetryKeepsExactIff(p: Record, now: LoadTime, reason: Reason, env: Env)
    requires Exact(p)
    ensures Exact(RetryOutcome(p, now, reason, env).plugin) <==> QueriesTidily(p, DoRetry(now, reason, env))
  {
    hide LoadOutcome, UnloadOutcome, ReloadOutcome, ReloadQueries, Tidy;
    if p.action == ToLoad || p.action == ToAttach {
      LoadKeepsExactIff(p, now, env);
    } else if p.action == ToUnload {
      UnloadKeeps(p, now, reason, env);
    } else if p.action == ToReload {
      ReloadKeepsExactIff(p, now, reason, env);
    }
  }

  /** Handle, info and status agree after each operation of a run. */
  predicate StaysExact(p: Record, ops: seq<Op>)
    requires InfoKnown(p)
    decreases |ops|
  {
    Exact(p) && (ops == [] || (StepKnowsInfo(p, ops[0]); StaysExact(Step(p, ops[0]).plugin, ops[1..])))
  }

  predicate TidyAlong(p: Record, ops: seq<Op>)
    requires InfoKnown(p)
    decreases |ops|
  {
    ops == [] ||
    (QueriesTidily(p, ops[0]) && (StepKnowsInfo(p, ops[0]); TidyAlong(Step(p, ops[0]).plugin, ops[1..])))
  }

  /** A run keeps the agreement iff no query in it is refused with ME_DLOPEN. */
  lemma {:induction false} RunStaysExactIff(p: Record, ops: seq<Op>)
    requires Exact(p)
    ensures StaysExact(p, ops) <==> TidyAlong(p, ops)
    decreases |ops|
  {
    hide Step, QueriesTidily;
    if ops == [] {
    } else {
      StepKnowsInfo(p, ops[0]);
      StepKeepsExactIff(p, ops[0]);
      if QueriesTidily(p, ops[0]) {
        RunStaysExactIff(Step(p, ops[0]).plugin, ops[1..]);
      }
    }
  }

  /** In every run from an empty slot: handle, info and status agree after each operation, the DLL is
      used legally, and no attach or unforced detach happens too late. */
  lemma {:induction false} EveryRun(p: Record, ops: seq<Op>)
    requires Exact(p)
    requires forall i :: 0 <= i < |ops| ==> TidyOp(ops[i])
    ensures var (q, t) := Run(p, ops); Exact(q) && Explains(p, t, q)
    decreases |ops|
  {
    if ops == [] {
    } else {
      StepKeeps(p, ops[0]);
      var o := Step(p, ops[0]);
      EveryRun(o.plugin, ops[1..]);
      var (q, t) := Run(o.plugin, ops[1..]);
      ExplainsConcat(p, o.events, o.plugin, t, q);
    }
  }

  // ----- what a legal trace means -----

  function Opens(t: seq<Event>): nat {
    if t == [] then 0 else (if t[0].Open? then 1 else 0) + Opens(t[1..])
  }

  function Closes(t: seq<Event>): nat {
    if t == [] then 0 else (if t[0].Close? then 1 else 0) + Closes(t[1..])
  }

  function Held(d: Dll): nat {
    if d.open then 1 else 0
  }

  /** Handles are conserved: what was opened is either closed or held. */
  lemma {:induction false} HandlesAreConserved(d: Dll, t: seq<Event>)
    requires Replay(Some(d), t).Some?
    ensures Held(d) + Opens(t) == Closes(t) + Held(Replay(Some(d), t).value)
    decreases |t|
  {
    if t == [] {
    } else {
      if Use(d, t[0]).None? {
        ReplayOfNone(t[1..]);
      } else {
        HandlesAreConserved(Use(d, t[0]).value, t[1..]);
      }
    }
  }

  /** An attached plugin is closed before it can be attached again. */
  lemma {:induction false} CloseBeforeAttach(d: Dll, t: seq<Event>, j: nat)
    requires Replay(Some(d), t).Some?
    requires d.open && d.attached && j < |t| && t[j].Attach?
    ensures exists k :: 0 <= k < j && t[k].Close?
    decreases |t|
  {
    var next := Use(d, t[0]);
    if next.None? {
      ReplayOfNone(t[1..]);
    } else if !t[0].Close? {
      CloseBeforeAttach(next.value, t[1..], j - 1);
      var k :| 0 <= k < j - 1 && t[1..][k].Close?;
      assert t[k + 1].Close?;
    }
  }

  /** Between two successful attaches of one slot its file is closed. */
  lemma {:induction false} CloseBetweenAttaches(d: Dll, t: seq<Event>, i: nat, j: nat)
    requires Replay(Some(d), t).Some?
    requires i < j < |t| && t[i].Attach? && t[i].ok && t[j].Attach?
    ensures exists k :: i < k < j && t[k].Close?
    decreases i
  {
    var next := Use(d, t[0]);
    if next.None? {
      ReplayOfNone(t[1..]);
    } else if i == 0 {
      CloseBeforeAttach(next.value, t[1..], j - 1);
      var k :| 0 <= k < j - 1 && t[1..][k].Close?;
      assert t[k + 1].Close?;
    } else {
      CloseBetweenAttaches(next.value, t[1..], i - 1, j - 1);
      var k :| i - 1 < k < j - 1 && t[1..][k].Close?;
      assert t[k + 1].Close?;
    }
  }

  // ----- delays -----

  predicate Marked(p: Record) {
    p.action == ToUnload || p.action == ToReload
  }

  /** The limit that a load looks at, if it gets there: for a closed file the one that the query brings. */
  function LoadLimit(p: Record, env: Env): Option<LoadTime>
    requires InfoKnown(p)
  {
    if !HasNames(p) || p.status.Rank() >= Running.Rank() || (p.action != ToLoad && p.action != ToAttach) then None
    else if p.status.Rank() >= Opened.Rank() then Some(p.info.value.loadable)
    else if env.query.Accepted? then Some(env.query.info.loadable)
    else None
  }

  function UnloadLimit(p: Record, reason: Reason): Option<LoadTime> {
    if !HasNames(p) || !Marked(p) || p.info.None? || reason == CmdForced then None
    else if p.status.Rank() < Running.Rank() && reason != Reloading then None
    else Some(p.info.value.unloadable)
  }

  /** What is left pending when it is too late for a plugin with this limit. */
  function PendingAfter(limit: LoadTime, action: Action): Action {
    if Startup.Before(limit) then action else NoAction
  }

  function LateErrno(limit: LoadTime): Errno {
    if Startup.Before(limit) then Delayed else NotAllowed
  }

  ghost predicate NoAttach(t: seq<Event>) {
    forall i :: 0 <= i < |t| ==> !t[i].Attach?
  }

  /** Too late to attach: nothing is attached, and the action stays pending iff a later time will do.  In time: the
      plugin is attached, or its attach has failed. */
  lemma LateLoad(p: Record, now: LoadTime, env: Env)
    requires InfoKnown(p)
    ensures var o := LoadOutcome(p, now, env);
            match LoadLimit(p, env)
            case Some(limit) =>
              if limit.Before(now) then
                && !o.ok && NoAttach(o.events)
                && o.plugin.status == (if p.status.Rank() < Opened.Rank() then Opened else p.status)
                && o.plugin.action == PendingAfter(limit, p.action) && o.errno == LateErrno(limit)
              else
                && o.ok == env.attachError.None? && o.plugin.status == (if o.ok then Running else Failed)
                && (!o.ok ==> o.plugin.action == p.action)
            case None => !o.ok && NoAttach(o.events) && o.plugin.action == p.action
  {
    hide AttachOutcome;
    var q := Described(p);
    match LoadLimit(p, env)
    case Some(_) =>
      if q.status.Rank() >= Opened.Rank() {
        LateAttach(q, now, env);
      } else {
        LateAttach(QueryResult(q, env).plugin, now, env);
      }
    case None =>
  }

  lemma LateAttach(p: Record, now: LoadTime, env: Env)
    requires p.info.Some?
    ensures var o := AttachOutcome(p, now, env);
            var limit := p.info.value.loadable;
            if limit.Before(now) then
              && !o.ok && o.events == [] && o.plugin.status == p.status
              && o.plugin.action == PendingAfter(limit, p.action) && o.errno == LateErrno(limit)
            else
              && o.ok == env.attachError.None? && o.plugin.status == (if o.ok then Running else Failed)
              && (!o.ok ==> o.plugin.action == p.action)
  {
  }

  function LoadTooLate(p: Record, now: LoadTime, env: Env): Option<(LoadTime, Action)>
    requires InfoKnown(p)
  {
    match LoadLimit(p, env)
    case Some(limit) => if limit.Before(now) then Some((limit, p.action)) else None
    case None => None
  }

  function UnloadTooLate(p: Record, now: LoadTime, reason: Reason): Option<(LoadTime, Action)> {
    match UnloadLimit(p, reason)
    case Some(limit) => if limit.Before(now) then Some((limit, p.action)) else None
    case None => None
  }

  /** Too late to detach: nothing happens to the plugin, and the action stays pending iff a later time will do.  Any
      other failure leaves the action as it was; success leaves the slot empty, or Valid in the middle of a reload. */
  lemma LateUnload(p: Record, now: LoadTime, reason: Reason, env: Env)
    ensures var o := UnloadOutcome(p, now, reason, env);
            match UnloadTooLate(p, now, reason)
            case Some((limit, pending)) =>
              && !o.ok && o.events == [] && o.plugin == Described(p).(action := PendingAfter(limit, pending))
              && o.errno == LateErrno(limit)
            case None => if o.ok then o.plugin.handle.None? && (o.plugin.status == Empty || o.plugin.status == Valid)
                         else o.plugin.action == p.action
  {
    hide FinishEvents, DetachEvents;
  }

  /** In time, or when the console forces it, a plugin that is marked and runs is unloaded unless its own detach
      fails. */
  lemma TimelyUnload(p: Record, now: LoadTime, reason: Reason, env: Env)
    requires HasNames(p) && Marked(p)
    requires p.status.Rank() >= Running.Rank() || reason == CmdForced || reason == Reloading
    ensures UnloadOutcome(p, now, reason, env).ok <==>
              && UnloadTooLate(p, now, reason).None?
              && (p.handle.None? || env.detachError.None? || reason == Reloading || reason == CmdForced)
  {
    hide FinishEvents, DetachEvents, UnloadFinish;
  }

  /** The limit that stops an operation because it is too late, with what was pending when it did. */
  function TooLate(p: Record, op: Op): Option<(LoadTime, Action)>
    requires InfoKnown(p)
  {
    match op
    case DoLoad(now, env) => LoadTooLate(p, now, env)
    case DoUnload(now, reason, env) => UnloadTooLate(p.(action := ToUnload), now, reason)
    case DoReload(now, reason, env) => ReloadTooLate(p.(action := ToReload), now, reason, env)
    case DoRetry(now, reason, env) =>
      if p.action == ToLoad || p.action == ToAttach then LoadTooLate(p, now, env)
      else if p.action == ToUnload then UnloadTooLate(p, now, reason)
      else if p.action == ToReload then ReloadTooLate(p, now, reason, env)
      else None
    case DoRequest(unloader, now, reason, env) =>
      if p.index == unloader || p.isUnloader then None
      else
        var late := UnloadTooLate(p.(action := ToUnload), now, reason);
        if late.Some? then Some((late.value.0, p.action)) else late  // what was pending before the request
    case _ => None
  }

  function SwitchTooLate(p: Record, now: LoadTime, reason: Reason, env: Env): Option<(LoadTime, Action)>
    requires InfoKnown(p)
  {
    var late := UnloadTooLate(p, now, reason);
    var u := UnloadOutcome(p, now, reason, env);
    if late.None? && u.ok then LoadTooLate(u.plugin, now, env) else late
  }

  /** A reload can be too late to attach again, to detach, or to attach what it then finds. */
  function ReloadTooLate(p: Record, now: LoadTime, reason: Reason, env: Env): Option<(LoadTime, Action)>
    requires InfoKnown(p)
  {
    if !HasNames(p) then None
    else if p.info.Some? && p.info.value.loadable.Before(now) then Some((p.info.value.loadable, p.action))
    else SwitchTooLate(Described(p), now, ReloadReason(p, reason), env)
  }

  /** A pause changes what is pending iff it is refused for the plugin's limit; whatever was to be done later is then
      forgotten. */
  lemma PauseWithdrawsIff(p: Record, now: LoadTime, reason: Reason, env: Env)
    requires InfoKnown(p)
    ensures var q := PauseOutcome(p).plugin;
            q.action != p.action <==>
              p.status == Running && p.info.value.unloadable.Before(AnyPause) && p.action != NoAction
    ensures var o := PauseOutcome(p);
            o.plugin.action != p.action ==>
              && !o.ok && o.errno == NotAllowed
              && RetryOutcome(o.plugin, now, reason, env) == Outcome(o.plugin, false, BadReq, [])
  {
    hide LoadOutcome, UnloadOutcome, ReloadOutcome;
  }

  /** A load, unload, reload, retry or request that stops because it is too late attaches nothing and leaves its action
      pending iff the limit is later than startup.  No other failure of these, and no clear or unpause, withdraws an
      action. */
  ghost predicate StopsForTime(p: Record, op: Op)
    requires InfoKnown(p)
  {
    var o := Step(p, op);
    match TooLate(p, op)
    case Some((limit, pending)) =>
      && !o.ok && NoAttach(o.events) && o.plugin.action == PendingAfter(limit, pending)
      && o.errno == (if op.DoRequest? then NotAllowed else LateErrno(limit))
    case None => op.DoPause? || op.Mark? || o.ok || o.plugin.action != NoAction || p.action == NoAction
  }

  lemma LateSwitch(p: Record, now: LoadTime, reason: Reason, env: Env)
    requires InfoKnown(p) && p.action == ToReload
    ensures var o := UnloadAndLoad(p, now, reason, env);
            match SwitchTooLate(p, now, reason, env)
            case Some((limit, pending)) =>
              && !o.ok && NoAttach(o.events)
              && o.plugin.action == PendingAfter(limit, pending) && o.errno == LateErrno(limit)
            case None => o.ok || o.plugin.action != NoAction
  {
    hide UnloadOutcome, LoadOutcome, LoadLimit, UnloadLimit, LateErrno, LoadTime.Before;
    LateUnload(p, now, reason, env);
    UnloadAttachesNothing(p, now, reason, env);
    var u := UnloadOutcome(p, now, reason, env);
    LateLoad(u.plugin, now, env);
  }

  /** A reload that would not be able to attach the plugin again keeps it as it is. */
  lemma LateReload(p: Record, now: LoadTime, reason: Reason, env: Env)
    requires InfoKnown(p) && p.action == ToReload
    ensures var o := ReloadOutcome(p, now, reason, env);
            match ReloadTooLate(p, now, reason, env)
            case Some((limit, pending)) =>
              && !o.ok && NoAttach(o.events)
              && o.plugin.action == PendingAfter(limit, pending) && o.errno == LateErrno(limit)
            case None => o.ok || o.plugin.action != NoAction
    ensures HasNames(p) && p.info.Some? && p.info.value.loadable.Before(now) ==>
              && ReloadOutcome(p, now, reason, env).events == []
              && ReloadOutcome(p, now, reason, env).plugin.status == p.status
  {
    hide UnloadAndLoad, SwitchTooLate;
    LateSwitch(Described(p), now, ReloadReason(p, reason), env);
  }

  lemma UnloadAttachesNothing(p: Record, now: LoadTime, reason: Reason, env: Env)
    ensures var o := UnloadOutcome(p, now, reason, env);
            NoAttach(o.events) && (o.ok && p.action == ToReload ==> o.plugin.action == ToLoad)
  {
  }

  lemma RetryStopsForTime(p: Record, now: LoadTime, reason: Reason, env: Env)
    requires InfoKnown(p)
    ensures StopsForTime(p, DoRetry(now, reason, env))
  {
    hide LoadOutcome, UnloadOutcome, ReloadOutcome, ReloadTooLate, LoadLimit;
    if p.action == ToLoad || p.action == ToAttach {
      LateLoad(p, now, env);
    } else if p.action == ToUnload {
      LateUnload(p, now, reason, env);
    } else if p.action == ToReload {
      LateReload(p, now, reason, env);
    }
  }

  lemma EveryStepStopsForTime(p: Record, op: Op)
    requires InfoKnown(p)
    ensures StopsForTime(p, op)
  {
    hide LoadOutcome, UnloadOutcome, ReloadOutcome, ReloadTooLate, LoadLimit;
    match op
    case DoLoad(now, env) => LateLoad(p, now, env);
    case DoUnload(now, reason, env) => LateUnload(p.(action := ToUnload), now, reason, env);
    case DoReload(now, reason, env) => LateReload(p.(action := ToReload), now, reason, env);
    case DoRetry(now, reason, env) => RetryStopsForTime(p, now, reason, env);
    case DoRequest(unloader, now, reason, env) =>
      LateUnload(p.(unloaderIndex := unloader, action := ToUnload), now, reason, env);
    case _ =>
  }
}
