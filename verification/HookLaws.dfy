/** What the dispatch of HookDispatch promises to the plugins and to the caller. */
module HookLaws {
  import opened Common
  import opened HookDispatch

  // ----- verdicts of the plugins, without the loop -----

  /** Some plugin among the first n slots runs the hook and leaves this flag. */
  ghost predicate SomeVerdict(slots: seq<Slot>, n: nat, m: MetaRes)
    requires n <= |slots|
  {
    exists i :: 0 <= i < n && Runs(slots[i]) && Verdict(slots[i]) == m
  }

  /** The value returned by the last plugin that leaves this flag. */
  function LastWith(slots: seq<Slot>, n: nat, m: MetaRes): (r: Option<Value>)
    requires n <= |slots|
    ensures r.Some? <==> SomeVerdict(slots, n, m)
  {
    if n == 0 then None
    else
      var s := slots[n-1];
      if Runs(s) && Verdict(s) == m then Some(s.routine.ret)
      else LastWith(slots, n - 1, m)
  }

  /** The loop's status is the highest flag, and its override value the last one that was wanted. */
  lemma {:induction false} LoopAfterMeaning(slots: seq<Slot>, n: nat, wanted: MetaRes, status: MetaRes, init: Value)
    requires n <= |slots|
    ensures var l := LoopAfter(slots, n, wanted, status, init);
            && l.overrideRet == LastWith(slots, n, wanted).GetOr(init)
            && l.status.Rank() >= status.Rank()
            && (forall i :: 0 <= i < n && Runs(slots[i]) ==> l.status.Rank() >= Verdict(slots[i]).Rank())
            && (l.status == status || SomeVerdict(slots, n, l.status))
  {
    if n == 0 {
    } else {
      LoopAfterMeaning(slots, n - 1, wanted, status, init);
      assert Runs(slots[n-1]) ==> SomeVerdict(slots, n, Verdict(slots[n-1]));
      var l := LoopAfter(slots, n - 1, wanted, status, init);
      assert SomeVerdict(slots, n - 1, l.status) ==> SomeVerdict(slots, n, l.status);
    }
  }

  lemma SupercededMeaning(call: ApiCall)
    ensures PreLoop(call).status == Supercede <==> SomeVerdict(call.pre, |call.pre|, Supercede)
  {
    LoopAfterMeaning(call.pre, |call.pre|, Supercede, Unset, call.kind.Init());
  }

  // ----- the value a typed call returns -----

  /** With the real routine present, no pre hook overriding and no post hook superceding. */
  lemma TypedResult(call: ApiCall)
    requires call.kind.Typed? && call.actual.Present?
    requires !SomeVerdict(call.pre, |call.pre|, Override)
    requires !SomeVerdict(call.post, |call.post|, Supercede)
    ensures Result(call) == match LastWith(call.pre, |call.pre|, Supercede)
                            case Some(v) => v
                            case None => LastWith(call.post, |call.post|, Override).GetOr(call.actual.ret)
  {
    LoopAfterMeaning(call.pre, |call.pre|, Supercede, Unset, call.kind.Init());
    LoopAfterMeaning(call.post, |call.post|, Override, StatusAfterReal(call), call.kind.Init());
  }

  /** What the documentation of the flags promises: a superceding value replaces the routine, an
      overriding one its result, wherever the hook that gives it stands. */
  function DocumentedResult(call: ApiCall): Value
    requires call.actual.Present?
  {
    match LastWith(call.pre, |call.pre|, Supercede)
    case Some(v) => v
    case None =>
      match LastWith(call.post, |call.post|, Override)
      case Some(v) => v
      case None => LastWith(call.pre, |call.pre|, Override).GetOr(call.actual.ret)
  }

  /** The flags under which no override is lost. */
  ghost predicate OverrideIsKept(call: ApiCall) {
    || SomeVerdict(call.pre, |call.pre|, Supercede)
    || (SomeVerdict(call.post, |call.post|, Override) && !SomeVerdict(call.post, |call.post|, Supercede))
    || (!SomeVerdict(call.pre, |call.pre|, Override) && !SomeVerdict(call.post, |call.post|, Override))
  }

  /** An override is lost to `ret_init` when only pre hooks give it, and to the real routine's
      value when a post hook supercedes; in every other case the call returns what is documented. */
  lemma DocumentedResultIff(call: ApiCall)
    requires call.kind.Typed? && call.actual.Present?
    ensures OverrideIsKept(call) ==> Result(call) == DocumentedResult(call)
    ensures !OverrideIsKept(call) ==>
              Result(call) == if SomeVerdict(call.post, |call.post|, Supercede) then call.actual.ret
                              else call.kind.retInit
    ensures Result(call) == DocumentedResult(call) <==>
            || OverrideIsKept(call)
            || DocumentedResult(call) == (if SomeVerdict(call.post, |call.post|, Supercede) then call.actual.ret
                                          else call.kind.retInit)
  {
    LoopAfterMeaning(call.pre, |call.pre|, Supercede, Unset, call.kind.Init());
    LoopAfterMeaning(call.post, |call.post|, Override, StatusAfterReal(call), call.kind.Init());
  }

  /** A pre hook that overrides with 5, a routine that returns 3: the caller gets neither. */
  lemma PreOverrideIsLost()
    ensures var hook := Slot(1, true, Routine([SetResult(Override)], 5));
            var call := ApiCall(Typed(0), [hook], Present([], 3), []);
            && DocumentedResult(call) == 5
            && Result(call) == 0
  {
    var hook := Slot(1, true, Routine([SetResult(Override)], 5));
    var call := ApiCall(Typed(0), [hook], Present([], 3), []);
    assert Runs(hook) && Verdict(hook) == Override by {
      assert FinalMres(hook.routine.steps, 1) == Override;
    }
    assert call.pre[0] == hook;
    assert LastWith(call.pre, 0, Override) == None;
    assert LastWith(call.pre, 1, Override) == Some(5);
    assert LastWith(call.pre, 1, Supercede) == LastWith(call.pre, 0, Supercede) == None;
    DocumentedResultIff(call);
  }

  // ----- which routines run -----

  /** The runs of the hooks in the first n slots, in list order. */
  function HookRuns(slots: seq<Slot>, n: nat, post: bool, depth: nat): seq<Event>
    requires n <= |slots|
  {
    if n == 0 then []
    else HookRuns(slots, n - 1, post, depth)
         + if Runs(slots[n-1]) then [HookRun(depth, slots[n-1].plugin, post)] else []
  }

  /** The routines run on behalf of the API calls at this depth. */
  function RoutinesAt(t: seq<Event>, depth: nat): seq<Event> {
    if t == [] then []
    else RoutinesAt(t[..|t|-1], depth)
         + if !t[|t|-1].Observed? && t[|t|-1].depth == depth then [t[|t|-1]] else []
  }

  lemma {:induction false} RoutinesAtConcat(a: seq<Event>, b: seq<Event>, depth: nat)
    ensures RoutinesAt(a + b, depth) == RoutinesAt(a, depth) + RoutinesAt(b, depth)
    decreases |b|
  {
    if b == [] {
      assert a + b == a;
    } else {
      assert (a + b)[..|a + b|-1] == a + b[..|b|-1];
      RoutinesAtConcat(a, b[..|b|-1], depth);
    }
  }

  ghost predicate DeeperThan(t: seq<Event>, depth: nat) {
    forall i :: 0 <= i < |t| ==> t[i].depth > depth
  }

  lemma {:induction false} NothingRunsAbove(t: seq<Event>, depth: nat)
    requires DeeperThan(t, depth)
    ensures RoutinesAt(t, depth) == []
    decreases |t|
  {
    if t == [] {
    } else {
      NothingRunsAbove(t[..|t|-1], depth);
    }
  }

  // Nested calls leave only deeper events.

  lemma {:induction false} CallIsDeeper(call: ApiCall, depth: nat, d: nat)
    requires d < depth
    ensures DeeperThan(CallTrace(call, depth), d)
    decreases call, 0
  {
    PhaseIsDeeper(call.pre, |call.pre|, call.kind, false, Supercede, Unset, call.kind.Init(), depth, d);
    if RealIsCalled(call) {
      RealIsDeeper(call.actual, depth, d);
    }
    PhaseIsDeeper(call.post, |call.post|, call.kind, true, Override, StatusAfterReal(call), OrigRet(call), depth, d);
  }

  lemma {:induction false} RealIsDeeper(r: Real, depth: nat, d: nat)
    requires d < depth && r.Present?
    ensures DeeperThan(RealTrace(r, depth), d)
    decreases r, 0
  {
    NestedIsDeeper(r.calls, |r.calls|, depth + 1, d);
  }

  lemma {:induction false} NestedIsDeeper(calls: seq<ApiCall>, n: nat, depth: nat, d: nat)
    requires d < depth && n <= |calls|
    ensures DeeperThan(NestedTrace(calls, n, depth), d)
    decreases calls, n
  {
    if n == 0 {
    } else {
      NestedIsDeeper(calls, n - 1, depth, d);
      CallIsDeeper(calls[n-1], depth, d);
    }
  }

  lemma {:induction false} PhaseIsDeeper(slots: seq<Slot>, n: nat, kind: Kind, post: bool, wanted: MetaRes,
                                         status: MetaRes, orig: Value, depth: nat, d: nat)
    requires d < depth && n <= |slots|
    ensures DeeperThan(PhaseTrace(slots, n, kind, post, wanted, status, orig, depth), d)
    decreases slots, n
  {
    if n == 0 {
    } else {
      PhaseIsDeeper(slots, n - 1, kind, post, wanted, status, orig, depth, d);
      var s := slots[n-1];
      if Runs(s) {
        assert s.routine < s;
        var view := ViewFor(kind, LoopAfter(slots, n - 1, wanted, status, kind.Init()), wanted, orig);
        StepsAreDeeper(s.routine, |s.routine.steps|, view, depth, d);
        assert DeeperThan(SlotTrace(s, post, view, depth), d);
      }
    }
  }

  lemma {:induction false} StepsAreDeeper(r: Routine, n: nat, view: View, depth: nat, d: nat)
    requires d < depth && r.Routine? && n <= |r.steps|
    ensures DeeperThan(StepsTrace(r.steps, n, view, depth), d)
    decreases r, n
  {
    if n == 0 {
    } else {
      StepsAreDeeper(r, n - 1, view, depth, d);
      var step := r.steps[n-1];
      if step.Call? {
        assert step.call < step;
        CallIsDeeper(step.call, depth + 1, d);
      }
    }
  }

  /** A routine's own steps run nothing on behalf of its own call. */
  lemma {:induction false} StepsRunNothing(r: Routine, n: nat, view: View, depth: nat)
    requires r.Routine? && n <= |r.steps|
    ensures RoutinesAt(StepsTrace(r.steps, n, view, depth), depth) == []
    decreases n
  {
    if n == 0 {
    } else {
      StepsRunNothing(r, n - 1, view, depth);
      var step := r.steps[n-1];
      var v := view.(mres := FinalMres(r.steps, n - 1));
      if step.Call? {
        CallIsDeeper(step.call, depth + 1, depth);
        NothingRunsAbove(StepTrace(step, v, depth), depth);
      }
      RoutinesAtConcat(StepsTrace(r.steps, n - 1, view, depth), StepTrace(step, v, depth), depth);
    }
  }

  lemma {:induction false} PhaseRuns(slots: seq<Slot>, n: nat, kind: Kind, post: bool, wanted: MetaRes,
                                     status: MetaRes, orig: Value, depth: nat)
    requires n <= |slots|
    ensures RoutinesAt(PhaseTrace(slots, n, kind, post, wanted, status, orig, depth), depth)
         == HookRuns(slots, n, post, depth)
    decreases n
  {
    if n == 0 {
    } else {
      PhaseRuns(slots, n - 1, kind, post, wanted, status, orig, depth);
      var s := slots[n-1];
      var view := ViewFor(kind, LoopAfter(slots, n - 1, wanted, status, kind.Init()), wanted, orig);
      RoutinesAtConcat(PhaseTrace(slots, n - 1, kind, post, wanted, status, orig, depth),
                       SlotTrace(s, post, view, depth), depth);
      if Runs(s) {
        var run := [HookRun(depth, s.plugin, post)];
        assert RoutinesAt(run, depth) == RoutinesAt([], depth) + run;
        RoutinesAtConcat(run, RoutineTrace(s.routine, view, depth), depth);
        StepsRunNothing(s.routine, |s.routine.steps|, view, depth);
      }
    }
  }

  lemma {:induction false} RealRunsOnce(r: Real, depth: nat)
    requires r.Present?
    ensures RoutinesAt(RealTrace(r, depth), depth) == [RealRun(depth)]
  {
    var run := [RealRun(depth)];
    var nested := NestedTrace(r.calls, |r.calls|, depth + 1);
    assert RoutinesAt(run, depth) == RoutinesAt([], depth) + run;
    NestedIsDeeper(r.calls, |r.calls|, depth + 1, depth);
    NothingRunsAbove(nested, depth);
    RoutinesAtConcat(run, nested, depth);
  }

  /** Whatever the hooks nest, a call runs each of its plugins' hooks once, in list order, before and
      after; the real routine runs once between them when it is there and no pre hook supercedes. */
  lemma {:induction false} RoutinesOfCall(call: ApiCall, depth: nat)
    ensures RoutinesAt(CallTrace(call, depth), depth)
         == HookRuns(call.pre, |call.pre|, false, depth)
            + (if call.actual.Present? && !SomeVerdict(call.pre, |call.pre|, Supercede) then [RealRun(depth)] else [])
            + HookRuns(call.post, |call.post|, true, depth)
  {
    var before := PhaseTrace(call.pre, |call.pre|, call.kind, false, Supercede, Unset, call.kind.Init(), depth);
    var during := if RealIsCalled(call) then RealTrace(call.actual, depth) else [];
    var after := PhaseTrace(call.post, |call.post|, call.kind, true, Override, StatusAfterReal(call), OrigRet(call),
                            depth);
    RoutinesAtConcat(before + during, after, depth);
    RoutinesAtConcat(before, during, depth);
    PhaseRuns(call.pre, |call.pre|, call.kind, false, Supercede, Unset, call.kind.Init(), depth);
    PhaseRuns(call.post, |call.post|, call.kind, true, Override, StatusAfterReal(call), OrigRet(call), depth);
    SupercededMeaning(call);
    if RealIsCalled(call) {
      RealRunsOnce(call.actual, depth);
    }
  }

  // ----- plugins that are not running, or lack the hook -----

  function Active(slots: seq<Slot>, n: nat): seq<Slot>
    requires n <= |slots|
  {
    if n == 0 then []
    else if Runs(slots[n-1]) then Active(slots, n - 1) + [slots[n-1]]
    else Active(slots, n - 1)
  }

  lemma {:induction false} LoopOnPrefix(a: seq<Slot>, b: seq<Slot>, n: nat, wanted: MetaRes, status: MetaRes,
                                        init: Value)
    requires n <= |a|
    ensures LoopAfter(a + b, n, wanted, status, init) == LoopAfter(a, n, wanted, status, init)
  {
    if n == 0 {
    } else {
      LoopOnPrefix(a, b, n - 1, wanted, status, init);
    }
  }

  lemma {:induction false} PhaseOnPrefix(a: seq<Slot>, b: seq<Slot>, n: nat, kind: Kind, post: bool, wanted: MetaRes,
                                         status: MetaRes, orig: Value, depth: nat)
    requires n <= |a|
    ensures PhaseTrace(a + b, n, kind, post, wanted, status, orig, depth)
         == PhaseTrace(a, n, kind, post, wanted, status, orig, depth)
    decreases n
  {
    if n == 0 {
    } else {
      PhaseOnPrefix(a, b, n - 1, kind, post, wanted, status, orig, depth);
      LoopOnPrefix(a, b, n - 1, wanted, status, kind.Init());
    }
  }

  lemma {:induction false} PhaseOfActive(slots: seq<Slot>, n: nat, kind: Kind, post: bool, wanted: MetaRes,
                                         status: MetaRes, orig: Value, depth: nat)
    requires n <= |slots|
    ensures LoopAfter(slots, n, wanted, status, kind.Init())
         == LoopAfter(Active(slots, n), |Active(slots, n)|, wanted, status, kind.Init())
    ensures PhaseTrace(slots, n, kind, post, wanted, status, orig, depth)
         == PhaseTrace(Active(slots, n), |Active(slots, n)|, kind, post, wanted, status, orig, depth)
    decreases n
  {
    if n == 0 {
    } else {
      PhaseOfActive(slots, n - 1, kind, post, wanted, status, orig, depth);
      var a := Active(slots, n - 1);
      if Runs(slots[n-1]) {
        assert Active(slots, n) == a + [slots[n-1]] && (a + [slots[n-1]])[|a|] == slots[n-1];
        LoopOnPrefix(a, [slots[n-1]], |a|, wanted, status, kind.Init());
        PhaseOnPrefix(a, [slots[n-1]], |a|, kind, post, wanted, status, orig, depth);
      }
    }
  }

  /** Removing those slots changes neither the returned value nor anything any plugin sees or runs. */
  lemma IdlePluginsHaveNoEffect(call: ApiCall, depth: nat)
    ensures var lean := call.(pre := Active(call.pre, |call.pre|), post := Active(call.post, |call.post|));
            Result(lean) == Result(call) && CallTrace(lean, depth) == CallTrace(call, depth)
  {
    PhaseOfActive(call.pre, |call.pre|, call.kind, false, Supercede, Unset, call.kind.Init(), depth);
    PhaseOfActive(call.post, |call.post|, call.kind, true, Override, StatusAfterReal(call), OrigRet(call), depth);
  }
}
