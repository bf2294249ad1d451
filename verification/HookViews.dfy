/**
 What plugins see in the globals when they read them, told from the flags and values that other plugins have left,
 without the loops of HookDispatch.
 */
module HookViews {
  import opened Common
  import opened HookDispatch
  import opened HookLaws

  // ----- flags -----

  /** The flag after the first n steps of a routine: the last one that it has set itself, or MRES_UNSET. */
  ghost predicate HasFlag(steps: seq<Step>, n: nat, m: MetaRes)
    requires n <= |steps|
  {
    || (exists i :: SetLast(steps, n, i, m))
    || (m == Unset && forall i :: 0 <= i < n ==> !steps[i].SetResult?)
  }

  ghost predicate SetLast(steps: seq<Step>, n: nat, i: int, m: MetaRes)
    requires n <= |steps|
  {
    0 <= i < n && steps[i] == SetResult(m) && forall k :: i < k < n ==> !steps[k].SetResult?
  }

  /** A step that sets no flag leaves it. */
  lemma FlagStays(steps: seq<Step>, n: nat, m: MetaRes)
    requires n < |steps| && !steps[n].SetResult?
    ensures HasFlag(steps, n + 1, m) <==> HasFlag(steps, n, m)
  {
    var end := n + 1;
    if i :| SetLast(steps, end, i, m) {
      assert SetLast(steps, n, i, m);
    }
    if i :| SetLast(steps, n, i, m) {
      assert SetLast(steps, end, i, m);
    }
  }

  lemma FlagIsSet(steps: seq<Step>, n: nat, m: MetaRes)
    requires n < |steps| && steps[n].SetResult?
    ensures HasFlag(steps, n + 1, m) <==> m == steps[n].res
  {
    var end := n + 1;
    assert SetLast(steps, end, n, steps[n].res);
    if i :| SetLast(steps, end, i, m) {
      assert i == n;
    }
  }

  lemma {:induction false} FinalMresMeaning(steps: seq<Step>, n: nat)
    requires n <= |steps|
    ensures forall m :: HasFlag(steps, n, m) <==> m == FinalMres(steps, n)
  {
    if n == 0 {
      assert forall m, i :: !SetLast(steps, 0, i, m);
    } else {
      FinalMresMeaning(steps, n - 1);
      forall m ensures HasFlag(steps, n, m) <==> m == FinalMres(steps, n) {
        hide HasFlag;
        if steps[n-1].SetResult? {
          FlagIsSet(steps, n - 1, m);
        } else {
          FlagStays(steps, n - 1, m);
        }
      }
    }
  }

  /** The plugin in this slot is called, and leaves this flag. */
  ghost predicate Leaves(s: Slot, m: MetaRes) {
    s.running && s.routine.Routine? && HasFlag(s.routine.steps, |s.routine.steps|, m)
  }

  ghost predicate IsCalled(s: Slot) {
    s.running && s.routine.Routine?
  }

  lemma LeavesMeaning(s: Slot)
    ensures forall m :: Leaves(s, m) <==> Runs(s) && m == Verdict(s)
  {
    if Runs(s) {
      FinalMresMeaning(s.routine.steps, |s.routine.steps|);
    }
  }

  // ----- the globals on the turn of slot n -----

  /** prev_mres: the flag of the nearest earlier slot of the same loop whose plugin was called. */
  ghost predicate IsPrev(slots: seq<Slot>, n: nat, m: MetaRes)
    requires n <= |slots|
  {
    || (exists i :: LeftBefore(slots, n, i, m))
    || (m == Unset && forall i :: 0 <= i < n ==> !IsCalled(slots[i]))
  }

  ghost predicate LeftBefore(slots: seq<Slot>, n: nat, i: int, m: MetaRes)
    requires n <= |slots|
  {
    0 <= i < n && Leaves(slots[i], m) && forall k :: i < k < n ==> !IsCalled(slots[k])
  }

  /** status: the highest of the flag that the loop began with and those left so far. */
  ghost predicate IsHighest(slots: seq<Slot>, n: nat, start: MetaRes, m: MetaRes)
    requires n <= |slots|
  {
    && (m == start || exists i :: 0 <= i < n && Leaves(slots[i], m))
    && !Above(start, m)
    && forall i, x :: 0 <= i < n && Leaves(slots[i], x) ==> !Above(x, m)
  }

  /** MRES_UNSET < MRES_IGNORED < MRES_HANDLED < MRES_OVERRIDE < MRES_SUPERCEDE. */
  predicate Above(x: MetaRes, y: MetaRes) {
    match y
    case Unset => x != Unset
    case Ignored => x == Handled || x == Override || x == Supercede
    case Handled => x == Override || x == Supercede
    case Override => x == Supercede
    case Supercede => false
  }

  lemma AboveIsHigher(x: MetaRes, y: MetaRes)
    ensures Above(x, y) <==> x.Rank() > y.Rank()
  {
  }

  /** override_ret: the value of the last plugin so far that has left the wanted flag, or the initial one. */
  ghost predicate IsOverride(slots: seq<Slot>, n: nat, wanted: MetaRes, init: Value, v: Value)
    requires n <= |slots|
  {
    || (exists i :: GaveLast(slots, n, wanted, i, v))
    || (v == init && forall i :: 0 <= i < n ==> !Leaves(slots[i], wanted))
  }

  ghost predicate GaveLast(slots: seq<Slot>, n: nat, wanted: MetaRes, i: int, v: Value)
    requires n <= |slots|
  {
    && 0 <= i < n && Leaves(slots[i], wanted) && v == slots[i].routine.ret
    && forall k :: i < k < n ==> !Leaves(slots[k], wanted)
  }

  lemma PrevStays(slots: seq<Slot>, n: nat, m: MetaRes)
    requires n < |slots| && !IsCalled(slots[n]) && IsPrev(slots, n, m)
    ensures IsPrev(slots, n + 1, m)
  {
    hide Leaves;
    if i :| LeftBefore(slots, n, i, m) {
      assert LeftBefore(slots, n + 1, i, m);
    }
  }

  lemma {:induction false} PrevMeaning(slots: seq<Slot>, n: nat, wanted: MetaRes, status: MetaRes, init: Value)
    requires n <= |slots|
    ensures IsPrev(slots, n, LoopAfter(slots, n, wanted, status, init).prevMres)
  {
    hide Leaves;
    if n == 0 {
    } else {
      PrevMeaning(slots, n - 1, wanted, status, init);
      LeavesMeaning(slots[n-1]);
      if Runs(slots[n-1]) {
        assert LeftBefore(slots, n, n - 1, Verdict(slots[n-1]));
      } else {
        PrevStays(slots, n - 1, LoopAfter(slots, n - 1, wanted, status, init).prevMres);
      }
    }
  }

  lemma HighestMeaning(slots: seq<Slot>, n: nat, wanted: MetaRes, status: MetaRes, init: Value)
    requires n <= |slots|
    ensures IsHighest(slots, n, status, LoopAfter(slots, n, wanted, status, init).status)
  {
    var l := LoopAfter(slots, n, wanted, status, init);
    LoopAfterMeaning(slots, n, wanted, status, init);
    AboveIsHigher(status, l.status);
    forall i | 0 <= i < n ensures forall m :: Leaves(slots[i], m) <==> Runs(slots[i]) && m == Verdict(slots[i]) {
      LeavesMeaning(slots[i]);
    }
    hide Leaves, Verdict, LoopAfter;
    forall i, x | 0 <= i < n && Leaves(slots[i], x) ensures !Above(x, l.status) {
      AboveIsHigher(x, l.status);
    }
    if l.status != status {
      var i :| 0 <= i < n && Runs(slots[i]) && Verdict(slots[i]) == l.status;
      assert Leaves(slots[i], l.status);
    }
  }

  lemma OverrideStays(slots: seq<Slot>, n: nat, wanted: MetaRes, init: Value, v: Value)
    requires n < |slots| && !Leaves(slots[n], wanted) && IsOverride(slots, n, wanted, init, v)
    ensures IsOverride(slots, n + 1, wanted, init, v)
  {
    hide Leaves;
    if i :| GaveLast(slots, n, wanted, i, v) {
      assert GaveLast(slots, n + 1, wanted, i, v);
    }
  }

  lemma {:induction false} OverrideMeaning(slots: seq<Slot>, n: nat, wanted: MetaRes, status: MetaRes, init: Value)
    requires n <= |slots|
    ensures IsOverride(slots, n, wanted, init, LoopAfter(slots, n, wanted, status, init).overrideRet)
  {
    if n == 0 {
    } else {
      OverrideMeaning(slots, n - 1, wanted, status, init);
      LeavesMeaning(slots[n-1]);
      if Leaves(slots[n-1], wanted) {
        assert GaveLast(slots, n, wanted, n - 1, slots[n-1].routine.ret);
      } else {
        hide Leaves, IsOverride;
        OverrideStays(slots, n - 1, wanted, init, LoopAfter(slots, n - 1, wanted, status, init).overrideRet);
      }
    }
  }

  // ----- what is seen -----

  /** A step of the hook in a slot. */
  datatype Reader = Reader(slot: nat, step: nat)

  /** What a step that reads the globals must find there. */
  ghost predicate Sees(slots: seq<Slot>, kind: Kind, wanted: MetaRes, start: MetaRes, orig: Value, r: Reader,
                       v: View)
  {
    var n, j := r.slot, r.step;
    && n < |slots| && IsCalled(slots[n]) && j < |slots[n].routine.steps| && slots[n].routine.steps[j] == Observe
    && HasFlag(slots[n].routine.steps, j, v.mres)
    && IsPrev(slots, n, v.prevMres)
    && IsHighest(slots, n, start, v.status)
    && v.origRet == (if kind.Typed? then Some(orig) else None)
    && (v.overrideRet.Some? <==> kind.Typed? && v.status == wanted)
    && (v.overrideRet.Some? ==> IsOverride(slots, n, wanted, kind.retInit, v.overrideRet.value))
  }

  lemma FlagIsOne(s: Slot, x: MetaRes, y: MetaRes)
    requires Leaves(s, x) && Leaves(s, y)
    ensures x == y
  {
    LeavesMeaning(s);
  }

  lemma PrevIsOne(slots: seq<Slot>, n: nat, x: MetaRes, y: MetaRes)
    requires n <= |slots| && IsPrev(slots, n, x) && IsPrev(slots, n, y)
    ensures x == y
  {
    hide HasFlag;
    if i :| LeftBefore(slots, n, i, x) {
      if j :| LeftBefore(slots, n, j, y) {
        assert i == j;
        FlagIsOne(slots[i], x, y);
      }
    }
  }

  lemma HighestIsOne(slots: seq<Slot>, n: nat, start: MetaRes, x: MetaRes, y: MetaRes)
    requires n <= |slots| && IsHighest(slots, n, start, x) && IsHighest(slots, n, start, y)
    ensures x == y
  {
    hide Leaves;
    assert !Above(x, y) && !Above(y, x);
  }

  lemma OverrideIsOne(slots: seq<Slot>, n: nat, wanted: MetaRes, init: Value, x: Value, y: Value)
    requires n <= |slots| && IsOverride(slots, n, wanted, init, x) && IsOverride(slots, n, wanted, init, y)
    ensures x == y
  {
    hide Leaves;
    if i :| GaveLast(slots, n, wanted, i, x) {
      if j :| GaveLast(slots, n, wanted, j, y) {
        assert i == j;
      }
    }
  }

  /** There is only one thing to find. */
  lemma SeesOne(slots: seq<Slot>, kind: Kind, wanted: MetaRes, start: MetaRes, orig: Value, r: Reader, v: View,
                w: View)
    requires Sees(slots, kind, wanted, start, orig, r, v) && Sees(slots, kind, wanted, start, orig, r, w)
    ensures v == w
  {
    FinalMresMeaning(slots[r.slot].routine.steps, r.step);
    PrevIsOne(slots, r.slot, v.prevMres, w.prevMres);
    HighestIsOne(slots, r.slot, start, v.status, w.status);
    hide HasFlag, IsPrev, IsHighest, IsOverride;
    if v.overrideRet.Some? {
      OverrideIsOne(slots, r.slot, wanted, kind.retInit, v.overrideRet.value, w.overrideRet.value);
    }
  }

  /** The steps of the first n hooks that read the globals, in order. */
  function Readers(slots: seq<Slot>, n: nat): seq<Reader>
    requires n <= |slots|
  {
    if n == 0 then []
    else
      Readers(slots, n - 1)
      + if slots[n-1].running && slots[n-1].routine.Routine?
        then StepsThatRead(slots[n-1].routine.steps, |slots[n-1].routine.steps|, n - 1)
        else []
  }

  function StepsThatRead(steps: seq<Step>, j: nat, n: nat): seq<Reader>
    requires j <= |steps|
  {
    if j == 0 then []
    else StepsThatRead(steps, j - 1, n) + if steps[j-1] == Observe then [Reader(n, j - 1)] else []
  }

  /** What is seen on behalf of the API calls at this depth. */
  function SeenAt(t: seq<Event>, depth: nat): seq<View> {
    if t == [] then []
    else
      SeenAt(t[..|t|-1], depth)
      + if t[|t|-1].Observed? && t[|t|-1].depth == depth then [t[|t|-1].view] else []
  }

  lemma {:induction false} SeenAtConcat(a: seq<Event>, b: seq<Event>, depth: nat)
    ensures SeenAt(a + b, depth) == SeenAt(a, depth) + SeenAt(b, depth)
    decreases |b|
  {
    if b == [] {
      assert a + b == a;
    } else {
      assert (a + b)[..|a + b|-1] == a + b[..|b|-1];
      SeenAtConcat(a, b[..|b|-1], depth);
    }
  }

  lemma {:induction false} NothingSeenAbove(t: seq<Event>, depth: nat)
    requires DeeperThan(t, depth)
    ensures SeenAt(t, depth) == []
    decreases |t|
  {
    if t == [] {
    } else {
      NothingSeenAbove(t[..|t|-1], depth);
    }
  }

  lemma OneSeen(e: Event, depth: nat)
    ensures SeenAt([e], depth) == if e.Observed? && e.depth == depth then [e.view] else []
  {
    assert SeenAt([e][..0], depth) == [];
  }

  /** Each reader finds what it must find. */
  ghost predicate AllSee(slots: seq<Slot>, kind: Kind, wanted: MetaRes, start: MetaRes, orig: Value,
                         readers: seq<Reader>, views: seq<View>) {
    && |views| == |readers|
    && forall k :: 0 <= k < |views| ==> Sees(slots, kind, wanted, start, orig, readers[k], views[k])
  }

  lemma ViewIsRight(slots: seq<Slot>, n: nat, kind: Kind, wanted: MetaRes, start: MetaRes, orig: Value, j: nat)
    requires n < |slots| && IsCalled(slots[n]) && j < |slots[n].routine.steps| && slots[n].routine.steps[j] == Observe
    ensures var l := LoopAfter(slots, n, wanted, start, kind.Init());
            var v := ViewFor(kind, l, wanted, orig).(mres := FinalMres(slots[n].routine.steps, j));
            Sees(slots, kind, wanted, start, orig, Reader(n, j), v)
  {
    PrevMeaning(slots, n, wanted, start, kind.Init());
    HighestMeaning(slots, n, wanted, start, kind.Init());
    OverrideMeaning(slots, n, wanted, start, kind.Init());
    FinalMresMeaning(slots[n].routine.steps, j);
    hide LoopAfter, IsPrev, IsHighest, IsOverride, HasFlag;
  }

  lemma AllSeeMore(slots: seq<Slot>, kind: Kind, wanted: MetaRes, start: MetaRes, orig: Value,
                   readers: seq<Reader>, views: seq<View>, readers': seq<Reader>, views': seq<View>)
    requires AllSee(slots, kind, wanted, start, orig, readers, views)
    requires AllSee(slots, kind, wanted, start, orig, readers', views')
    ensures AllSee(slots, kind, wanted, start, orig, readers + readers', views + views')
  {
    hide Sees;
  }

  /** What one step of a hook adds. */
  lemma StepSees(slots: seq<Slot>, n: nat, kind: Kind, wanted: MetaRes, start: MetaRes, orig: Value, depth: nat, j: nat)
    requires n < |slots| && IsCalled(slots[n]) && j < |slots[n].routine.steps|
    ensures var step := slots[n].routine.steps[j];
            var view := ViewFor(kind, LoopAfter(slots, n, wanted, start, kind.Init()), wanted, orig);
            AllSee(slots, kind, wanted, start, orig, if step == Observe then [Reader(n, j)] else [],
                   SeenAt(StepTrace(step, view.(mres := FinalMres(slots[n].routine.steps, j)), depth), depth))
  {
    hide Sees, ViewFor, LoopAfter, CallTrace, SeenAt;
    var steps := slots[n].routine.steps;
    var v := ViewFor(kind, LoopAfter(slots, n, wanted, start, kind.Init()), wanted, orig).(mres := FinalMres(steps, j));
    match steps[j]
    case Call(c) =>
      CallIsDeeper(c, depth + 1, depth);
      NothingSeenAbove(StepTrace(steps[j], v, depth), depth);
    case SetResult(_) => NothingSeenAbove([], depth);
    case Observe =>
      OneSeen(Observed(depth, v), depth);
      ViewIsRight(slots, n, kind, wanted, start, orig, j);
  }

  lemma {:induction false} StepsSee(slots: seq<Slot>, n: nat, kind: Kind, wanted: MetaRes, start: MetaRes, orig: Value,
                                    view: View, depth: nat, j: nat)
    requires n < |slots| && IsCalled(slots[n]) && j <= |slots[n].routine.steps|
    requires view == ViewFor(kind, LoopAfter(slots, n, wanted, start, kind.Init()), wanted, orig)
    ensures AllSee(slots, kind, wanted, start, orig, StepsThatRead(slots[n].routine.steps, j, n),
                   SeenAt(StepsTrace(slots[n].routine.steps, j, view, depth), depth))
    decreases j
  {
    hide AllSee, ViewFor, LoopAfter, StepTrace, SeenAt;
    var steps := slots[n].routine.steps;
    if j == 0 {
      NobodySees(slots, kind, wanted, start, orig);
      NothingSeenAbove([], depth);
    } else {
      StepsSee(slots, n, kind, wanted, start, orig, view, depth, j - 1);
      StepSees(slots, n, kind, wanted, start, orig, depth, j - 1);
      var front := StepsTrace(steps, j - 1, view, depth);
      var last := StepTrace(steps[j-1], view.(mres := FinalMres(steps, j - 1)), depth);
      SeenAtConcat(front, last, depth);
      AllSeeMore(slots, kind, wanted, start, orig, StepsThatRead(steps, j - 1, n), SeenAt(front, depth),
                 if steps[j-1] == Observe then [Reader(n, j - 1)] else [], SeenAt(last, depth));
    }
  }

  /** What the hook in one slot adds. */
  lemma SlotSees(slots: seq<Slot>, n: nat, kind: Kind, post: bool, wanted: MetaRes, start: MetaRes, orig: Value,
                 depth: nat)
    requires n < |slots|
    ensures var s := slots[n];
            var view := ViewFor(kind, LoopAfter(slots, n, wanted, start, kind.Init()), wanted, orig);
            AllSee(slots, kind, wanted, start, orig,
                   if IsCalled(s) then StepsThatRead(s.routine.steps, |s.routine.steps|, n) else [],
                   SeenAt(SlotTrace(s, post, view, depth), depth))
  {
    hide Sees, ViewFor, LoopAfter, StepsTrace, AllSee;
    var s := slots[n];
    var view := ViewFor(kind, LoopAfter(slots, n, wanted, start, kind.Init()), wanted, orig);
    if IsCalled(s) {
      StepsSee(slots, n, kind, wanted, start, orig, view, depth, |s.routine.steps|);
      SeenAtConcat([HookRun(depth, s.plugin, post)], RoutineTrace(s.routine, view, depth), depth);
      OneSeen(HookRun(depth, s.plugin, post), depth);
      var own := SeenAt(RoutineTrace(s.routine, view, depth), depth);
      assert [] + own == own;
    } else {
      NobodySees(slots, kind, wanted, start, orig);
    }
  }

  lemma NobodySees(slots: seq<Slot>, kind: Kind, wanted: MetaRes, start: MetaRes, orig: Value)
    ensures AllSee(slots, kind, wanted, start, orig, [], [])
  {
  }

  lemma {:induction false} PhaseSees(slots: seq<Slot>, n: nat, kind: Kind, post: bool, wanted: MetaRes, start: MetaRes,
                                     orig: Value, depth: nat)
    requires n <= |slots|
    ensures AllSee(slots, kind, wanted, start, orig, Readers(slots, n),
                   SeenAt(PhaseTrace(slots, n, kind, post, wanted, start, orig, depth), depth))
    decreases n
  {
    hide AllSee, ViewFor, LoopAfter, SlotTrace, StepsThatRead;
    if n == 0 {
      NobodySees(slots, kind, wanted, start, orig);
    } else {
      PhaseSees(slots, n - 1, kind, post, wanted, start, orig, depth);
      SlotSees(slots, n - 1, kind, post, wanted, start, orig, depth);
      var s := slots[n-1];
      var view := ViewFor(kind, LoopAfter(slots, n - 1, wanted, start, kind.Init()), wanted, orig);
      var front := PhaseTrace(slots, n - 1, kind, post, wanted, start, orig, depth);
      SeenAtConcat(front, SlotTrace(s, post, view, depth), depth);
      AllSeeMore(slots, kind, wanted, start, orig, Readers(slots, n - 1), SeenAt(front, depth),
                 if IsCalled(s) then StepsThatRead(s.routine.steps, |s.routine.steps|, n - 1) else [],
                 SeenAt(SlotTrace(s, post, view, depth), depth));
    }
  }

  // ----- a whole call -----

  /** What the post hooks start from: the status that the pre hooks have left, unless a routine that should be there is
      not; and the value of the last superceding pre hook, else of the routine, else the initial one. */
  ghost predicate PostStart(call: ApiCall, start: MetaRes, orig: Value) {
    var superceded := exists i :: 0 <= i < |call.pre| && Leaves(call.pre[i], Supercede);
    && (if !superceded && call.actual == NullRoutine(false) then start == Unset
        else IsHighest(call.pre, |call.pre|, Unset, start))
    && (if superceded then IsOverride(call.pre, |call.pre|, Supercede, call.kind.Init(), orig)
        else orig == if call.actual.Present? then call.actual.ret else call.kind.Init())
  }

  lemma SupercedesMeaning(call: ApiCall)
    ensures PreLoop(call).status == Supercede <==> exists i :: 0 <= i < |call.pre| && Leaves(call.pre[i], Supercede)
  {
    SupercededMeaning(call);
    forall i | 0 <= i < |call.pre|
      ensures Leaves(call.pre[i], Supercede) <==> Runs(call.pre[i]) && Supercede == Verdict(call.pre[i])
    {
      LeavesMeaning(call.pre[i]);
    }
    hide Leaves, Verdict, LoopAfter;
  }

  lemma PostStartMeaning(call: ApiCall)
    ensures PostStart(call, StatusAfterReal(call), OrigRet(call))
  {
    HighestMeaning(call.pre, |call.pre|, Supercede, Unset, call.kind.Init());
    OverrideMeaning(call.pre, |call.pre|, Supercede, Unset, call.kind.Init());
    SupercedesMeaning(call);
    hide Leaves, IsOverride, IsHighest, LoopAfter;
  }

  /** These views, in this order, are what the hooks of a call that read the globals must find. */
  ghost predicate RightViews(call: ApiCall, seen: seq<View>) {
    exists before, after, start, orig :: RightViewsFor(call, seen, before, after, start, orig)
  }

  ghost predicate RightViewsFor(call: ApiCall, seen: seq<View>, before: seq<View>, after: seq<View>, start: MetaRes,
                                orig: Value)
  {
    && seen == before + after
    && AllSee(call.pre, call.kind, Supercede, Unset, call.kind.Init(), Readers(call.pre, |call.pre|), before)
    && PostStart(call, start, orig)
    && AllSee(call.post, call.kind, Override, start, orig, Readers(call.post, |call.post|), after)
  }

  /** Whatever is nested, the plugins' hooks that read the globals on behalf of a call find, in their order, exactly
      what the earlier hooks of the same loop and the routine have left: the flag set by themselves, the flag of the one
      before, the highest flag so far, the original value and the last value that was wanted. */
  lemma CallSees(call: ApiCall, depth: nat)
    ensures RightViews(call, SeenAt(CallTrace(call, depth), depth))
  {
    var pre := PhaseTrace(call.pre, |call.pre|, call.kind, false, Supercede, Unset, call.kind.Init(), depth);
    var during := if RealIsCalled(call) then RealTrace(call.actual, depth) else [];
    var post :=
      PhaseTrace(call.post, |call.post|, call.kind, true, Override, StatusAfterReal(call), OrigRet(call), depth);
    assert CallTrace(call, depth) == pre + during + post;
    hide AllSee, PostStart, PhaseTrace, SeenAt, StatusAfterReal, OrigRet, RealTrace, CallTrace;
    DuringSeesNothing(call, depth);
    SeenBeforeAndAfter(pre, during, post, depth);
    PhaseSees(call.pre, |call.pre|, call.kind, false, Supercede, Unset, call.kind.Init(), depth);
    PhaseSees(call.post, |call.post|, call.kind, true, Override, StatusAfterReal(call), OrigRet(call), depth);
    PostStartMeaning(call);
    assert RightViewsFor(call, SeenAt(CallTrace(call, depth), depth), SeenAt(pre, depth), SeenAt(post, depth),
                         StatusAfterReal(call), OrigRet(call));
  }

  lemma SeenBeforeAndAfter(a: seq<Event>, b: seq<Event>, c: seq<Event>, depth: nat)
    requires SeenAt(b, depth) == []
    ensures SeenAt(a + b + c, depth) == SeenAt(a, depth) + SeenAt(c, depth)
  {
    SeenAtConcat(a + b, c, depth);
    SeenAtConcat(a, b, depth);
  }

  lemma DuringSeesNothing(call: ApiCall, depth: nat)
    ensures SeenAt(if RealIsCalled(call) then RealTrace(call.actual, depth) else [], depth) == []
  {
    if RealIsCalled(call) {
      RealSeesNothing(call.actual, depth);
    }
  }

  lemma RealSeesNothing(r: Real, depth: nat)
    requires r.Present?
    ensures SeenAt(RealTrace(r, depth), depth) == []
  {
    var nested := NestedTrace(r.calls, |r.calls|, depth + 1);
    NestedIsDeeper(r.calls, |r.calls|, depth + 1, depth);
    NothingSeenAbove(nested, depth);
    SeenAtConcat([RealRun(depth)], nested, depth);
    OneSeen(RealRun(depth), depth);
  }

  // ----- the value of a call, for every real routine -----

  /** What a typed call returns, told from the flags. */
  ghost predicate IsResult(call: ApiCall, v: Value) {
    exists start, status, orig ::
      && PostStart(call, start, orig)
      && IsHighest(call.post, |call.post|, start, status)
      && if status == Override then IsOverride(call.post, |call.post|, Override, call.kind.Init(), v) else v == orig
  }

  lemma ResultMeaning(call: ApiCall)
    ensures IsResult(call, Result(call))
  {
    PostStartMeaning(call);
    HighestMeaning(call.post, |call.post|, Override, StatusAfterReal(call), call.kind.Init());
    OverrideMeaning(call.post, |call.post|, Override, StatusAfterReal(call), call.kind.Init());
    hide IsHighest, IsOverride, PostStart, LoopAfter, StatusAfterReal, OrigRet;
    assert PostStart(call, StatusAfterReal(call), OrigRet(call));
  }

  // ----- nested calls -----

  /** u happens in t, without a gap. */
  ghost predicate Within(u: seq<Event>, t: seq<Event>) {
    exists a, b :: t == a + u + b
  }

  lemma WithinItself(t: seq<Event>)
    ensures Within(t, t)
  {
    assert t == [] + t + [];
  }

  lemma WithinMore(u: seq<Event>, t: seq<Event>, x: seq<Event>, y: seq<Event>)
    requires Within(u, t)
    ensures Within(u, x + t + y) && Within(u, x + t) && Within(u, t + y)
  {
    var a, b :| t == a + u + b;
    assert x + t + y == (x + a) + u + (b + y);
    assert x + t == (x + a) + u + b;
    assert t + y == a + u + (b + y);
  }

  lemma {:induction false} NestedWithinSteps(steps: seq<Step>, n: nat, j: nat, view: View, depth: nat)
    requires j < n <= |steps| && steps[j].Call?
    ensures Within(CallTrace(steps[j].call, depth + 1), StepsTrace(steps, n, view, depth))
    decreases n
  {
    var u := CallTrace(steps[j].call, depth + 1);
    hide CallTrace, Within;
    var front := StepsTrace(steps, n - 1, view, depth);
    var last := StepTrace(steps[n-1], view.(mres := FinalMres(steps, n - 1)), depth);
    if j == n - 1 {
      WithinItself(u);
      WithinMore(u, u, front, []);
    } else {
      NestedWithinSteps(steps, n - 1, j, view, depth);
      WithinMore(u, front, [], last);
    }
  }

  lemma {:induction false} NestedWithinPhase(slots: seq<Slot>, n: nat, i: nat, j: nat, kind: Kind, post: bool,
                                             wanted: MetaRes, start: MetaRes, orig: Value, depth: nat)
    requires i < n <= |slots| && IsCalled(slots[i]) && j < |slots[i].routine.steps| && slots[i].routine.steps[j].Call?
    ensures Within(CallTrace(slots[i].routine.steps[j].call, depth + 1),
                   PhaseTrace(slots, n, kind, post, wanted, start, orig, depth))
    decreases n
  {
    var u := CallTrace(slots[i].routine.steps[j].call, depth + 1);
    hide CallTrace, Within, LoopAfter, ViewFor;
    var front := PhaseTrace(slots, n - 1, kind, post, wanted, start, orig, depth);
    var view := ViewFor(kind, LoopAfter(slots, n - 1, wanted, start, kind.Init()), wanted, orig);
    if i == n - 1 {
      var s := slots[i];
      NestedWithinSteps(s.routine.steps, |s.routine.steps|, j, view, depth);
      WithinMore(u, RoutineTrace(s.routine, view, depth), [HookRun(depth, s.plugin, post)], []);
      WithinMore(u, SlotTrace(s, post, view, depth), front, []);
    } else {
      NestedWithinPhase(slots, n - 1, i, j, kind, post, wanted, start, orig, depth);
      WithinMore(u, front, [], SlotTrace(slots[n-1], post, view, depth));
    }
  }

  lemma {:induction false} NestedWithinReal(calls: seq<ApiCall>, n: nat, i: nat, depth: nat)
    requires i < n <= |calls|
    ensures Within(CallTrace(calls[i], depth), NestedTrace(calls, n, depth))
    decreases n
  {
    var u := CallTrace(calls[i], depth);
    hide CallTrace, Within;
    if i == n - 1 {
      WithinItself(u);
      WithinMore(u, u, NestedTrace(calls, n - 1, depth), []);
    } else {
      NestedWithinReal(calls, n - 1, i, depth);
      WithinMore(u, NestedTrace(calls, n - 1, depth), [], CallTrace(calls[n-1], depth));
    }
  }

  /** c is issued by a hook that is called, or by the real routine when that is. */
  ghost predicate Issues(call: ApiCall, c: ApiCall) {
    || (exists i, j :: IssuedBy(call.pre, i, j, c))
    || (exists i, j :: IssuedBy(call.post, i, j, c))
    || (&& call.actual.Present? && c in call.actual.calls
        && forall i :: 0 <= i < |call.pre| ==> !Leaves(call.pre[i], Supercede))
  }

  ghost predicate IssuedBy(slots: seq<Slot>, i: int, j: int, c: ApiCall) {
    && 0 <= i < |slots| && IsCalled(slots[i])
    && 0 <= j < |slots[i].routine.steps| && slots[i].routine.steps[j] == Call(c)
  }

  /** Every call that is issued during a call happens in it, one level deeper, without a gap. */
  lemma IssuedCallsHappen(call: ApiCall, c: ApiCall, depth: nat)
    requires Issues(call, c)
    ensures Within(CallTrace(c, depth + 1), CallTrace(call, depth))
  {
    var u := CallTrace(c, depth + 1);
    var pre := PhaseTrace(call.pre, |call.pre|, call.kind, false, Supercede, Unset, call.kind.Init(), depth);
    var during := if RealIsCalled(call) then RealTrace(call.actual, depth) else [];
    var start, orig := StatusAfterReal(call), OrigRet(call);
    var post := PhaseTrace(call.post, |call.post|, call.kind, true, Override, start, orig, depth);
    assert CallTrace(call, depth) == pre + during + post;
    if i, j :| IssuedBy(call.pre, i, j, c) {
      NestedWithinPhase(call.pre, |call.pre|, i, j, call.kind, false, Supercede, Unset, call.kind.Init(), depth);
      WithinMore(u, pre, [], during);
      WithinMore(u, pre + during, [], post);
    } else if i, j :| IssuedBy(call.post, i, j, c) {
      NestedWithinPhase(call.post, |call.post|, i, j, call.kind, true, Override, start, orig, depth);
      WithinMore(u, post, pre + during, []);
    } else {
      var i :| 0 <= i < |call.actual.calls| && call.actual.calls[i] == c;
      PostStartMeaning(call);
      RealCalledMeaning(call);
      NestedWithinReal(call.actual.calls, |call.actual.calls|, i, depth + 1);
      WithinMore(u, NestedTrace(call.actual.calls, |call.actual.calls|, depth + 1), [RealRun(depth)], []);
      WithinMore(u, during, pre, post);
    }
  }

  lemma RealCalledMeaning(call: ApiCall)
    ensures RealIsCalled(call) <==>
              call.actual.Present? && forall i :: 0 <= i < |call.pre| ==> !Leaves(call.pre[i], Supercede)
  {
    SupercedesMeaning(call);
    hide Leaves, LoopAfter;
  }
}
