/**
 Metamod's hook dispatch (dep/metamod/metamod.h): every API call runs the plugins' pre hooks, the
 real routine and the plugins' post hooks, all of them sharing one mutable `PublicMetaGlobals` and
 the depth counter `CALL_API_count`.  A hook, and the real routine, may issue further API calls,
 so one call unfolds into a finite tree of calls.
 */
module HookDispatch {
  import opened Common

  type Value = int

  /** META_RES; the order of the constructors matters, see Rank. */
  datatype MetaRes = Unset | Ignored | Handled | Override | Supercede {
    function Rank(): nat {
      match this
      case Unset => 0
      case Ignored => 1
      case Handled => 2
      case Override => 3
      case Supercede => 4
    }

    /** The higher of two results. */
    function Max(other: MetaRes): MetaRes {
      if other.Rank() > Rank() then other else this
    }
  }

  /** Whether the API routine returns a value (then with its `ret_init`) or nothing. */
  datatype Kind = Typed(retInit: Value) | Void {
    function Init(): Value {
      if Typed? then retInit else 0
    }
  }

  /** One API call: what the plugin loops find in each slot of the plugin list, and the real routine. */
  datatype ApiCall = ApiCall(kind: Kind, pre: seq<Slot>, actual: Real, post: seq<Slot>)

  /** A slot of the plugin list, as the loop finds it on arriving there. */
  datatype Slot = Slot(plugin: nat, running: bool, routine: Routine)

  datatype Routine = Absent | Routine(steps: seq<Step>, ret: Value)

  /** What a plugin routine does: issue an API call, set its result flag, read the globals. */
  datatype Step = Call(call: ApiCall) | SetResult(res: MetaRes) | Observe

  /** The real routine; the engine's own table is never missing, so NoTable is for the game only. */
  datatype Real = NoTable | NullRoutine(newApi: bool) | Present(calls: seq<ApiCall>, ret: Value)

  /** What a plugin sees in the globals; a return value is there only when the macro provides one. */
  datatype View = View(mres: MetaRes, prevMres: MetaRes, status: MetaRes,
                       origRet: Option<Value>, overrideRet: Option<Value>)

  /** The trace; `depth` is the nesting depth of the API call an event belongs to. */
  datatype Event =
    | HookRun(depth: nat, plugin: nat, post: bool)
    | RealRun(depth: nat)
    | Observed(depth: nat, view: View)

  // ----- what one call means -----

  /** The flag a plugin leaves after the first n of its steps; nested calls do not touch it. */
  function FinalMres(steps: seq<Step>, n: nat): MetaRes
    requires n <= |steps|
  {
    if n == 0 then Unset
    else if steps[n-1].SetResult? then steps[n-1].res
    else FinalMres(steps, n - 1)
  }

  predicate Runs(s: Slot) {
    s.running && s.routine.Routine?
  }

  function Verdict(s: Slot): MetaRes
    requires Runs(s)
  {
    FinalMres(s.routine.steps, |s.routine.steps|)
  }

  datatype LoopState = LoopState(status: MetaRes, prevMres: MetaRes, overrideRet: Value)

  /** The locals of a plugin loop after its first n slots; `wanted` is the macro's MRES_TYPE. */
  function LoopAfter(slots: seq<Slot>, n: nat, wanted: MetaRes, status: MetaRes, init: Value): LoopState
    requires n <= |slots|
  {
    if n == 0 then LoopState(status, Unset, init)
    else LoopNext(LoopAfter(slots, n - 1, wanted, status, init), slots[n-1], wanted)
  }

  function LoopNext(l: LoopState, s: Slot, wanted: MetaRes): LoopState {
    if !Runs(s) then l
    else LoopState(l.status.Max(Verdict(s)), Verdict(s),
                   if Verdict(s) == wanted then s.routine.ret else l.overrideRet)
  }

  function PreLoop(call: ApiCall): LoopState {
    LoopAfter(call.pre, |call.pre|, Supercede, Unset, call.kind.Init())
  }

  predicate RealIsCalled(call: ApiCall) {
    PreLoop(call).status != Supercede && call.actual.Present?
  }

  /** A missing routine forgets what the pre hooks said, unless its table is the optional one. */
  function StatusAfterReal(call: ApiCall): MetaRes {
    if PreLoop(call).status != Supercede && call.actual == NullRoutine(false) then Unset
    else PreLoop(call).status
  }

  function OrigRet(call: ApiCall): Value {
    if PreLoop(call).status == Supercede then PreLoop(call).overrideRet
    else if call.actual.Present? then call.actual.ret
    else call.kind.Init()
  }

  function PostLoop(call: ApiCall): LoopState {
    LoopAfter(call.post, |call.post|, Override, StatusAfterReal(call), call.kind.Init())
  }

  /** The value a typed API call returns. */
  function Result(call: ApiCall): Value {
    if PostLoop(call).status == Override then PostLoop(call).overrideRet else OrigRet(call)
  }

  /** What a plugin sees when the loop state on its turn is l. */
  function ViewFor(kind: Kind, l: LoopState, wanted: MetaRes, orig: Value): View {
    View(Unset, l.prevMres, l.status,
         if kind.Typed? then Some(orig) else None,
         if kind.Typed? && l.status == wanted then Some(l.overrideRet) else None)
  }

  function CallTrace(call: ApiCall, depth: nat): seq<Event>
    decreases call, 0
  {
    PhaseTrace(call.pre, |call.pre|, call.kind, false, Supercede, Unset, call.kind.Init(), depth)
    + (if RealIsCalled(call) then RealTrace(call.actual, depth) else [])
    + PhaseTrace(call.post, |call.post|, call.kind, true, Override, StatusAfterReal(call), OrigRet(call), depth)
  }

  function RealTrace(r: Real, depth: nat): seq<Event>
    requires r.Present?
    decreases r, 0
  {
    [RealRun(depth)] + NestedTrace(r.calls, |r.calls|, depth + 1)
  }

  function NestedTrace(calls: seq<ApiCall>, n: nat, depth: nat): seq<Event>
    requires n <= |calls|
    decreases calls, n
  {
    if n == 0 then [] else NestedTrace(calls, n - 1, depth) + CallTrace(calls[n-1], depth)
  }

  function PhaseTrace(slots: seq<Slot>, n: nat, kind: Kind, post: bool, wanted: MetaRes,
                      status: MetaRes, orig: Value, depth: nat): seq<Event>
    requires n <= |slots|
    decreases slots, n
  {
    if n == 0 then []
    else
      var s := slots[n-1];
      var l := LoopAfter(slots, n - 1, wanted, status, kind.Init());
      PhaseTrace(slots, n - 1, kind, post, wanted, status, orig, depth)
      + SlotTrace(s, post, ViewFor(kind, l, wanted, orig), depth)
  }

  function SlotTrace(s: Slot, post: bool, view: View, depth: nat): seq<Event>
    decreases s, 0
  {
    if !Runs(s) then []
    else [HookRun(depth, s.plugin, post)] + RoutineTrace(s.routine, view, depth)
  }

  function RoutineTrace(r: Routine, view: View, depth: nat): seq<Event>
    requires r.Routine?
    decreases r, 0
  {
    StepsTrace(r.steps, |r.steps|, view, depth)
  }

  function StepsTrace(steps: seq<Step>, n: nat, view: View, depth: nat): seq<Event>
    requires n <= |steps|
    decreases steps, n
  {
    if n == 0 then []
    else StepsTrace(steps, n - 1, view, depth)
         + StepTrace(steps[n-1], view.(mres := FinalMres(steps, n - 1)), depth)
  }

  function StepTrace(step: Step, view: View, depth: nat): seq<Event>
    decreases step, 0
  {
    match step
    case Call(c) => CallTrace(c, depth + 1)
    case SetResult(_) => []
    case Observe => [Observed(depth, view)]
  }

  // ----- the macros -----

  /** A local `pub_orig_ret` or `pub_override_ret`, whose address is handed to the plugins. */
  class ReturnCell {
    var value: Value

    constructor (value: Value)
      ensures this.value == value
    {
      this.value := value;
    }
  }

  /** meta_globals_t. */
  datatype Globals = Globals(mres: MetaRes, prevMres: MetaRes, status: MetaRes,
                             origRet: ReturnCell?, overrideRet: ReturnCell?)

  class Metamod {
    var callApiCount: nat
    var globals: Globals
    ghost var trace: seq<Event>

    constructor ()
      ensures callApiCount == 0 && trace == []
    {
      callApiCount := 0;
      globals := Globals(Unset, Unset, Unset, null, null);
      trace := [];
    }

    /** SETUP, CALL_PLUGIN for the pre hooks, CALL_GAME or CALL_ENGINE, CALL_PLUGIN for the post hooks,
        RETURN.  A backup is read only where one was taken, and the counter never goes below zero:
        both are checked by the types of `backup` and `callApiCount`. */
    method Dispatch(call: ApiCall, ghost depth: nat) returns (ret: Value)
      modifies this
      ensures callApiCount == old(callApiCount)
      ensures old(callApiCount) > 0 ==> globals == old(globals)
      ensures trace == old(trace) + CallTrace(call, depth)
      ensures call.kind.Typed? ==> ret == Result(call)
      decreases call, 0
    {
      hide LoopAfter, PhaseTrace, RealTrace;
      // SETUP
      var origRet := call.kind.Init();
      var pubOrig := new ReturnCell(origRet);
      var pubOverride := new ReturnCell(origRet);
      var backup: Option<Globals> := None;
      if callApiCount > 0 {
        backup := Some(globals);
      }
      callApiCount := callApiCount + 1;

      // pre hooks
      var status, overrideRet :=
        CallPlugins(call.pre, call.kind, false, Supercede, Unset, origRet, pubOrig, pubOverride, depth);

      // the real routine
      status, origRet := CallReal(call.actual, call.kind, status, overrideRet, pubOrig, depth);

      // post hooks
      status, overrideRet :=
        CallPlugins(call.post, call.kind, true, Override, status, origRet, pubOrig, pubOverride, depth);

      // RETURN
      callApiCount := callApiCount - 1;
      if callApiCount > 0 {
        globals := backup.value;
      }
      ret := if status == Override then overrideRet else origRet;
    }

    /** CALL_GAME and CALL_ENGINE; the real routine runs at the depth of the caller. */
    method CallReal(actual: Real, kind: Kind, status: MetaRes, overrideRet: Value, pubOrig: ReturnCell,
                    ghost depth: nat)
      returns (newStatus: MetaRes, origRet: Value)
      requires callApiCount > 0
      modifies this, pubOrig
      ensures callApiCount == old(callApiCount)
      ensures newStatus == if status != Supercede && actual == NullRoutine(false) then Unset else status
      ensures origRet == if status == Supercede then overrideRet
                         else if actual.Present? then actual.ret
                         else kind.Init()
      ensures trace == old(trace) + if status != Supercede && actual.Present? then RealTrace(actual, depth) else []
      decreases actual, 0
    {
      newStatus := status;
      origRet := kind.Init();
      callApiCount := callApiCount - 1;
      if status == Supercede {
        origRet := overrideRet;
        pubOrig.value := origRet;
        if kind.Typed? {
          globals := globals.(origRet := pubOrig);
        }
      } else {
        match actual {
          case Present(calls, realRet) =>
            trace := trace + [RealRun(depth)];
            for i := 0 to |calls|
              invariant callApiCount == old(callApiCount) - 1
              invariant trace == old(trace) + ([RealRun(depth)] + NestedTrace(calls, i, depth + 1))
            {
              var _ := Dispatch(calls[i], depth + 1);
            }
            origRet := realRet;
          case NullRoutine(newApi) =>
            if !newApi {
              newStatus := Unset;
            }
          case NoTable =>
        }
      }
      callApiCount := callApiCount + 1;
    }

    /** CALL_PLUGIN: the loop over the plugin list. */
    method CallPlugins(slots: seq<Slot>, kind: Kind, post: bool, wanted: MetaRes, initStatus: MetaRes,
                       origRet: Value, pubOrig: ReturnCell, pubOverride: ReturnCell, ghost depth: nat)
      returns (status: MetaRes, overrideRet: Value)
      requires callApiCount > 0
      requires pubOrig != pubOverride
      modifies this, pubOrig, pubOverride
      ensures callApiCount == old(callApiCount)
      ensures var l := LoopAfter(slots, |slots|, wanted, initStatus, kind.Init());
              status == l.status && overrideRet == l.overrideRet
      ensures trace == old(trace)
                       + PhaseTrace(slots, |slots|, kind, post, wanted, initStatus, origRet, depth)
      decreases slots, 0
    {
      status := initStatus;
      overrideRet := kind.Init();
      var prevMres := Unset;
      for i := 0 to |slots|
        invariant callApiCount == old(callApiCount)
        invariant LoopState(status, prevMres, overrideRet) == LoopAfter(slots, i, wanted, initStatus, kind.Init())
        invariant trace == old(trace) + PhaseTrace(slots, i, kind, post, wanted, initStatus, origRet, depth)
      {
        status, prevMres, overrideRet :=
          CallPlugin(slots[i], kind, post, wanted, status, prevMres, overrideRet,
                     origRet, pubOrig, pubOverride, depth);
      }
    }

    /** The body of that loop. */
    method CallPlugin(s: Slot, kind: Kind, post: bool, wanted: MetaRes,
                      status: MetaRes, prevMres: MetaRes, overrideRet: Value,
                      origRet: Value, pubOrig: ReturnCell, pubOverride: ReturnCell, ghost depth: nat)
      returns (newStatus: MetaRes, newPrevMres: MetaRes, newOverrideRet: Value)
      requires callApiCount > 0
      requires pubOrig != pubOverride
      modifies this, pubOrig, pubOverride
      ensures callApiCount == old(callApiCount)
      ensures LoopState(newStatus, newPrevMres, newOverrideRet)
           == LoopNext(LoopState(status, prevMres, overrideRet), s, wanted)
      ensures trace == old(trace)
                       + SlotTrace(s, post, ViewFor(kind, LoopState(status, prevMres, overrideRet), wanted, origRet),
                                   depth)
      decreases s, 0
    {
      newStatus, newPrevMres, newOverrideRet := status, prevMres, overrideRet;
      if !s.running || s.routine.Absent? {
        return;
      }
      globals := globals.(mres := Unset, prevMres := prevMres, status := status);
      if kind.Typed? {
        pubOrig.value := origRet;
        globals := globals.(origRet := pubOrig);
        if status == wanted {
          pubOverride.value := overrideRet;
          globals := globals.(overrideRet := pubOverride);
        }
      }
      ghost var view := ViewFor(kind, LoopState(status, prevMres, overrideRet), wanted, origRet);
      trace := trace + [HookRun(depth, s.plugin, post)];
      RunHook(s.routine, kind, wanted, view, depth);
      var mres := globals.mres;
      newStatus := status.Max(mres);
      newPrevMres := mres;
      if mres == wanted {
        newOverrideRet := s.routine.ret;
        pubOverride.value := newOverrideRet;
      }
    }

    /** What the globals show through the two pointers. */
    ghost function CurrentView(kind: Kind, wanted: MetaRes): View
      reads this, globals.origRet, globals.overrideRet
      requires kind.Typed? ==> globals.origRet != null && (globals.status == wanted ==> globals.overrideRet != null)
    {
      View(globals.mres, globals.prevMres, globals.status,
           if kind.Typed? then Some(globals.origRet.value) else None,
           if kind.Typed? && globals.status == wanted then Some(globals.overrideRet.value) else None)
    }

    /** A plugin routine: whatever it calls, it goes on seeing the globals it was given. */
    method RunHook(routine: Routine, kind: Kind, wanted: MetaRes, ghost view: View, ghost depth: nat)
      requires callApiCount > 0 && routine.Routine?
      requires kind.Typed? ==> globals.origRet != null && (globals.status == wanted ==> globals.overrideRet != null)
      requires view.mres == Unset && CurrentView(kind, wanted) == view
      modifies this
      ensures callApiCount == old(callApiCount)
      ensures globals == old(globals).(mres := FinalMres(routine.steps, |routine.steps|))
      ensures trace == old(trace) + RoutineTrace(routine, view, depth)
      decreases routine, 0
    {
      var steps := routine.steps;
      for i := 0 to |steps|
        invariant callApiCount == old(callApiCount)
        invariant globals == old(globals).(mres := FinalMres(steps, i))
        invariant trace == old(trace) + StepsTrace(steps, i, view, depth)
      {
        var step := steps[i];
        match step {
          case Call(c) =>
            assert c < step;
            var _ := Dispatch(c, depth + 1);
          case SetResult(res) =>
            globals := globals.(mres := res);
          case Observe =>
            trace := trace + [Observed(depth, CurrentView(kind, wanted))];
        }
      }
    }
  }
}
