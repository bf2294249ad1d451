/** Whatever plugins ask of each other while they are being unloaded, the guard of plugin_unload holds
    as long as no plugin opens a second request while its first is open; and only then. */
module UnloadNestLaws {
  import opened Common
  import opened Plugin
  import opened PluginListSpec
  import opened UnloadNest

  ghost predicate Consistent(w: World) {
    Sized(w) && FlagsAgree(w.list, w.open)
  }

  /** The unloads that ended after the first n notes took no plugin that had a request open at the time. */
  ghost predicate SafeFrom(log: seq<Note>, n: nat) {
    forall k :: n <= k < |log| && log[k].Finished? ==> log[k].slot !in log[k].open
  }

  /** From w to v every plugin with a request open in w is left as it was, no open request's plugin is
      unloaded on the way, and the flags and the open requests are what they were. */
  ghost predicate Guarded(w: World, v: World) {
    && Consistent(w) && Consistent(v)
    && v.open == w.open
    && (forall i :: 0 <= i < MAX_PLUGINS ==> v.list.slots[i].isUnloader == w.list.slots[i].isUnloader)
    && (forall i :: 0 <= i < MAX_PLUGINS && i in w.open ==> v.list.slots[i] == w.list.slots[i])
    && w.log <= v.log && SafeFrom(v.log, |w.log|)
    && (w.agreed ==> v.agreed)
  }

  // ----- a second request is never forgotten -----

  /** A second request, once opened, is remembered, and so is a disagreement; the former brings the latter. */
  ghost predicate Remembered(w: World, v: World) {
    && (w.reopened ==> v.reopened)
    && (!w.agreed ==> !v.agreed)
    && (v.reopened && !w.reopened ==> !v.agreed)
  }

  lemma {:induction false} ServeRemembers(w: World, r: Request)
    requires Sized(w)
    ensures Remembered(w, Serve(w, r).world)
    decreases r, 0
  {
    hide ServeUnload, FindTarget, FindByInfo;
    var t := FindTarget(w.list, r.target);
    var u := FindByInfo(w.list, r.plid);
    if t.Some? && u.Some? && u != t && !w.list.slots[t.value].isUnloader {
      var w1 := OpenRequest(w, u.value, t.value);
      ServeUnloadRemembers(w1, t.value, r);
      var v := ServeUnload(w1, t.value, r).world;
      assert v.open[..|v.open|-1] == w.open;
      if u.value in w.open {
        assert !CloseRequest(v, u.value).list.slots[u.value].isUnloader;
      }
    }
  }

  lemma {:induction false} ServeUnloadRemembers(w: World, t: nat, r: Request)
    requires Sized(w) && t < MAX_PLUGINS
    ensures Remembered(w, ServeUnload(w, t, r).world)
    decreases r.nested, |r.nested| + 1
  {
    hide ServeAll;
    match UnloadDecision(w.list.slots[t], r.now, r.reason)
    case Refuse(_, _) =>
    case Proceed(p) => ServeAllRemembers(Start(w, t, p, r), r.nested, |r.nested|);
  }

  lemma {:induction false} ServeAllRemembers(w: World, rs: seq<Request>, n: nat)
    requires Sized(w) && n <= |rs|
    ensures Remembered(w, ServeAll(w, rs, n))
    decreases rs, n
  {
    hide Serve;
    if n == 0 {
    } else {
      ServeAllRemembers(w, rs, n - 1);
      ServeRemembers(ServeAll(w, rs, n - 1), rs[n-1]);
    }
  }

  // ----- the guard -----

  lemma GuardedCompose(w: World, v: World, x: World)
    requires Guarded(w, v) && Guarded(v, x)
    ensures Guarded(w, x)
  {
    forall k | |w.log| <= k < |x.log| && x.log[k].Finished? ensures x.log[k].slot !in x.log[k].open {
      if k < |v.log| {
        assert x.log[k] == v.log[k];
      }
    }
  }

  /** One slot that has no request open is changed, but for its flag. */
  lemma UpdateIsGuarded(w: World, t: nat, p: Record)
    requires Consistent(w) && t < MAX_PLUGINS && t !in w.open && InfoKnown(p) && !p.isUnloader
    ensures Guarded(w, Update(w, t, p))
  {
  }

  lemma NoteIsGuarded(w: World, n: Note)
    requires Consistent(w) && (n.Finished? ==> n.slot !in n.open)
    ensures Guarded(w, Noting(w, n))
  {
  }

  lemma UseIsGuarded(w: World, t: nat, e: seq<Event>)
    requires Consistent(w) && t < MAX_PLUGINS
    ensures Guarded(w, Using(w, t, e))
  {
  }

  lemma DenialIsGuarded(w: World, t: nat, p: Record, e: Errno)
    requires Consistent(w) && t < MAX_PLUGINS && t !in w.open && InfoKnown(p) && !p.isUnloader
    ensures Guarded(w, Noting(Update(w, t, p), Denied(t, e)))
  {
    hide Guarded;
    UpdateIsGuarded(w, t, p);
    GuardedIsConsistent(w, Update(w, t, p));
    NoteIsGuarded(Update(w, t, p), Denied(t, e));
    GuardedCompose(w, Update(w, t, p), Noting(Update(w, t, p), Denied(t, e)));
  }

  lemma GuardedIsConsistent(w: World, v: World)
    requires Guarded(w, v)
    ensures Consistent(v) && v.open == w.open
  {
  }

  lemma StartIsGuarded(w: World, t: nat, p: Record, r: Request)
    requires Consistent(w) && t < MAX_PLUGINS && t !in w.open && InfoKnown(p) && !p.isUnloader
    ensures Guarded(w, Start(w, t, p, r))
  {
    hide Guarded, DetachEvents;
    var e := DetachEvents(p, r.now, r.reason, r.detachError);
    var w1 := Update(w, t, p);
    var w2 := Using(w1, t, e);
    UpdateIsGuarded(w, t, p);
    GuardedIsConsistent(w, w1);
    UseIsGuarded(w1, t, e);
    GuardedCompose(w, w1, w2);
    GuardedIsConsistent(w, w2);
    NoteIsGuarded(w2, Started(t));
    GuardedCompose(w, w2, Noting(w2, Started(t)));
  }

  lemma FinishIsGuarded(w: World, t: nat)
    requires Consistent(w) && t < MAX_PLUGINS && t !in w.open
    ensures Guarded(w, Finish(w, t))
  {
    hide Guarded, FinishEvents;
    var p := w.list.slots[t];
    var w1 := Update(w, t, UnloadFinish(p));
    var w2 := Using(w1, t, FinishEvents(p));
    UpdateIsGuarded(w, t, UnloadFinish(p));
    GuardedIsConsistent(w, w1);
    UseIsGuarded(w1, t, FinishEvents(p));
    GuardedCompose(w, w1, w2);
    GuardedIsConsistent(w, w2);
    NoteIsGuarded(w2, Finished(t, w.open));
    GuardedCompose(w, w2, Noting(w2, Finished(t, w.open)));
  }

  /** A request served between opening and closing keeps the guard of the world before it. */
  lemma BracketIsGuarded(w: World, u: nat, t: nat, v: World)
    requires Consistent(w) && u < MAX_PLUGINS && t < MAX_PLUGINS && u != t && u !in w.open && t !in w.open
    requires Guarded(OpenRequest(w, u, t), v)
    ensures Guarded(w, CloseRequest(v, u))
  {
    var o := OpenRequest(w, u, t);
    assert v.open == w.open + [u];
    assert v.open[..|v.open|-1] == w.open;
    var c := CloseRequest(v, u);
    assert FlagsAgree(c.list, c.open);
  }

  lemma OpenIsConsistent(w: World, u: nat, t: nat)
    requires Consistent(w) && u < MAX_PLUGINS && t < MAX_PLUGINS && u != t && t !in w.open
    ensures Consistent(OpenRequest(w, u, t)) && t !in OpenRequest(w, u, t).open
  {
  }

  /** In any nest of requests in which no plugin opens a second request while its first is open, no
      plugin with an open request is unloaded, and every is_unloader flag is back on return. */
  lemma {:induction false} ServeIsGuarded(w: World, r: Request)
    requires Consistent(w) && !Serve(w, r).world.reopened
    ensures Guarded(w, Serve(w, r).world)
    decreases r, 0
  {
    hide ServeUnload, FindTarget, FindByInfo, Remembered;
    var t := FindTarget(w.list, r.target);
    var u := FindByInfo(w.list, r.plid);
    if t.Some? && u.Some? && u != t && !w.list.slots[t.value].isUnloader {
      ServeOpenIsGuarded(w, u.value, t.value, r);
      var c := CloseRequest(ServeUnload(OpenRequest(w, u.value, t.value), t.value, r).world, u.value);
      var p := c.list.slots[t.value].(action := w.list.slots[t.value].action);
      UpdateIsGuarded(c, t.value, p);
      GuardedCompose(w, c, Update(c, t.value, p));
    }
  }

  lemma {:induction false} ServeOpenIsGuarded(w: World, u: nat, t: nat, r: Request)
    requires Consistent(w) && u < MAX_PLUGINS && t < MAX_PLUGINS && u != t && t !in w.open
    requires !CloseRequest(ServeUnload(OpenRequest(w, u, t), t, r).world, u).reopened
    ensures Guarded(w, CloseRequest(ServeUnload(OpenRequest(w, u, t), t, r).world, u))
    decreases r.nested, |r.nested| + 2
  {
    hide ServeUnload, Guarded;
    var w1 := OpenRequest(w, u, t);
    OpenIsConsistent(w, u, t);
    ServeUnloadRemembers(w1, t, r);
    ServeUnloadIsGuarded(w1, t, r);
    BracketIsGuarded(w, u, t, ServeUnload(w1, t, r).world);
  }

  lemma {:induction false} ServeUnloadIsGuarded(w: World, t: nat, r: Request)
    requires Consistent(w) && t < MAX_PLUGINS && t !in w.open && !ServeUnload(w, t, r).world.reopened
    ensures Guarded(w, ServeUnload(w, t, r).world)
    decreases r.nested, |r.nested| + 1
  {
    hide ServeAll, Guarded, Start, Finish;
    match UnloadDecision(w.list.slots[t], r.now, r.reason)
    case Refuse(p, e) =>
      DenialIsGuarded(w, t, p, e);
    case Proceed(p) =>
      var w1 := Start(w, t, p, r);
      StartIsGuarded(w, t, p, r);
      GuardedIsConsistent(w, w1);
      FinishKeepsReopened(w1, t);
      if p.handle.None? {
        FinishIsGuarded(w1, t);
        GuardedCompose(w, w1, Finish(w1, t));
      } else {
        var w2 := ServeAll(w1, r.nested, |r.nested|);
        FinishKeepsReopened(w2, t);
        ServeAllIsGuarded(w1, r.nested, |r.nested|);
        GuardedIsConsistent(w1, w2);
        GuardedCompose(w, w1, w2);
        FinishIsGuarded(w2, t);
        GuardedCompose(w, w2, Finish(w2, t));
      }
  }

  lemma FinishKeepsReopened(w: World, t: nat)
    requires Sized(w) && t < MAX_PLUGINS
    ensures Finish(w, t).reopened == w.reopened
  {
  }

  lemma {:induction false} ServeAllIsGuarded(w: World, rs: seq<Request>, n: nat)
    requires Consistent(w) && n <= |rs| && !ServeAll(w, rs, n).reopened
    ensures Guarded(w, ServeAll(w, rs, n))
    decreases rs, n
  {
    hide Serve;
    if n == 0 {
    } else {
      var v := ServeAll(w, rs, n - 1);
      ServeRemembers(v, rs[n-1]);
      ServeAllIsGuarded(w, rs, n - 1);
      ServeIsGuarded(v, rs[n-1]);
      GuardedCompose(w, v, Serve(v, rs[n-1]).world);
    }
  }

  /** is_unloader marks exactly the plugins with an open request whenever a request is closed, iff no plugin has
      opened a second request while its first was open. */
  lemma FlagsAgreeIff(w: World, r: Request)
    requires Consistent(w) && w.agreed && !w.reopened
    ensures Serve(w, r).world.agreed <==> !Serve(w, r).world.reopened
  {
    hide Serve;
    ServeRemembers(w, r);
    if !Serve(w, r).world.reopened {
      ServeIsGuarded(w, r);
    }
  }

  // ----- flags, with or without the hypothesis -----

  /** No flag is left up that was down. */
  ghost predicate NoNewFlag(w: World, v: World) {
    && Sized(w) && Sized(v)
    && forall i :: 0 <= i < MAX_PLUGINS && v.list.slots[i].isUnloader ==> w.list.slots[i].isUnloader
  }

  lemma {:induction false} ServeLeavesNoFlag(w: World, r: Request)
    requires Sized(w)
    ensures NoNewFlag(w, Serve(w, r).world)
    decreases r, 0
  {
    hide ServeUnload, FindTarget, FindByInfo;
    var t := FindTarget(w.list, r.target);
    var u := FindByInfo(w.list, r.plid);
    if t.Some? && u.Some? && u != t && !w.list.slots[t.value].isUnloader {
      ServeUnloadLeavesNoFlag(OpenRequest(w, u.value, t.value), t.value, r);
    }
  }

  lemma {:induction false} ServeUnloadLeavesNoFlag(w: World, t: nat, r: Request)
    requires Sized(w) && t < MAX_PLUGINS
    ensures NoNewFlag(w, ServeUnload(w, t, r).world)
    decreases r.nested, |r.nested| + 1
  {
    hide ServeAll;
    match UnloadDecision(w.list.slots[t], r.now, r.reason)
    case Refuse(_, _) =>
    case Proceed(p) => ServeAllLeavesNoFlag(Start(w, t, p, r), r.nested, |r.nested|);
  }

  lemma {:induction false} ServeAllLeavesNoFlag(w: World, rs: seq<Request>, n: nat)
    requires Sized(w) && n <= |rs|
    ensures NoNewFlag(w, ServeAll(w, rs, n))
    decreases rs, n
  {
    hide Serve;
    if n == 0 {
    } else {
      ServeAllLeavesNoFlag(w, rs, n - 1);
      ServeLeavesNoFlag(ServeAll(w, rs, n - 1), rs[n-1]);
    }
  }

  // ----- without the hypothesis -----

  /** The plugin that is loaded i-th, with handle and info i. */
  function LoadedPlugin(i: nat, unloadable: LoadTime): (p: Record)
    ensures InfoKnown(p) && HasNames(p) && p.status == Running && p.handle == Some(i)
  {
    EmptySlot(i + 1).(filename := "p.so", file := "p.so", desc := "p", pathname := seq(i + 1, _ => 'p'),
                      status := Running, action := NoAction, source := FromCommand, handle := Some(i),
                      info := Some(Info(i, "p", "p", AnyTime, unloadable)))
  }

  function RunningPlugin(i: nat): Record {
    LoadedPlugin(i, AnyTime)
  }

  function LoadedSlot(i: nat, n: nat, unloadable: LoadTime): (p: Record)
    ensures InfoKnown(p)
  {
    if i < n then LoadedPlugin(i, unloadable) else EmptySlot(i + 1)
  }

  /** The first n of them; the other slots are empty. */
  function Loaded(n: nat, unloadable: LoadTime): (l: Plist)
    requires n <= MAX_PLUGINS
    ensures Bounded(l) && l.endlist == n
    ensures forall i :: 0 <= i < n ==> l.slots[i] == LoadedPlugin(i, unloadable)
    ensures forall i :: n <= i < MAX_PLUGINS ==> l.slots[i] == EmptySlot(i + 1)
  {
    Plist(seq(MAX_PLUGINS, (i: nat) => LoadedSlot(i, n, unloadable)), n)
  }

  /** Three running plugins; the handle and the info of each are its position. */
  function ThreePlugins(): (w: World)
    ensures Sized(w) && w.list.endlist == 3 && w.open == [] && w.log == [] && !w.reopened
    ensures forall i :: 0 <= i < 3 ==> w.list.slots[i] == RunningPlugin(i)
  {
    Calm(Loaded(3, AnyTime))
  }

  function Ask(plid: nat, handle: Handle, nested: seq<Request>): Request {
    Request(plid, ByHandle(handle), AnyTime, ByPlugin, nested, None)
  }

  /** Handles and infos are positions, where they are still there. */
  predicate Positional(w: World) {
    && Sized(w) && w.list.endlist == 3
    && (forall i :: 0 <= i < 3 ==> w.list.slots[i].handle == Some(i) || w.list.slots[i].handle.None?)
    && (forall i :: 0 <= i < 3 && w.list.slots[i].info.Some? ==> w.list.slots[i].info.value.id == i)
  }

  lemma FindsPositions(w: World, u: nat, t: nat)
    requires Positional(w) && u < 3 && t < 3
    requires w.list.slots[t].status != Empty && w.list.slots[t].handle.Some?
    requires w.list.slots[u].status != Empty && w.list.slots[u].info.Some?
    ensures FindTarget(w.list, ByHandle(t)) == Some(t) && FindByInfo(w.list, u) == Some(u)
  {
  }

  lemma OpenThenStart(w: World, u: nat, t: nat, nested: seq<Request>)
    requires Positional(w) && u < 3 && t < 3 && u != t && w.list.slots[t] == RunningPlugin(t)
    ensures var w1 := OpenRequest(w, u, t);
            var p := w1.list.slots[t];
            var w2 := Start(w1, t, p, Ask(u, t, nested));
            && UnloadDecision(p, AnyTime, ByPlugin) == Proceed(p) && p.handle == Some(t)
            && Positional(w2) && w2.list == w1.list && w2.open == w.open + [u] && w2.log == w.log + [Started(t)]
            && w2.reopened == (w.reopened || u in w.open)
  {
    var w1 := OpenRequest(w, u, t);
    assert Update(w1, t, w1.list.slots[t]).list == w1.list;
  }

  lemma ServeProceeds(w: World, u: nat, t: nat, nested: seq<Request>, w1: World, w2: World, w3: World)
    requires Sized(w) && u < 3 && t < 3 && u != t && !w.list.slots[t].isUnloader
    requires FindTarget(w.list, ByHandle(t)) == Some(t) && FindByInfo(w.list, u) == Some(u)
    requires w1 == OpenRequest(w, u, t) && w1.list.slots[t].handle.Some?
    requires UnloadDecision(w1.list.slots[t], AnyTime, ByPlugin) == Proceed(w1.list.slots[t])
    requires w2 == Start(w1, t, w1.list.slots[t], Ask(u, t, nested)) && w3 == ServeAll(w2, nested, |nested|)
    ensures Serve(w, Ask(u, t, nested)).world == CloseRequest(Finish(w3, t), u)
  {
    hide FindTarget, FindByInfo, UnloadDecision, OpenRequest, Start, Finish, CloseRequest, ServeAll;
    assert ServeUnload(w1, t, Ask(u, t, nested)) == Reply(Finish(w3, t), true, NoError);
  }

  /** What has changed when slot u's request has taken slot t. */
  ghost predicate OnlyTook(w: World, u: nat, t: nat, v: World)
    requires Positional(w) && u < 3 && t < 3
  {
    && Positional(v) && v.open == w.open && v.reopened == (w.reopened || u in w.open)
    && v.log == w.log + [Started(t), Finished(t, w.open + [u])]
    && v.list.slots[u] == w.list.slots[u].(isUnloader := false)
    && forall i :: 0 <= i < 3 && i != u && i != t ==> v.list.slots[i] == w.list.slots[i]
  }

  lemma FinishOnly(w: World, u: nat, t: nat)
    requires Positional(w) && u < 3 && t < 3 && u != t && w.list.slots[t] == RunningPlugin(t)
    ensures var w1 := OpenRequest(w, u, t);
            OnlyTook(w, u, t, CloseRequest(Finish(Start(w1, t, w1.list.slots[t], Ask(u, t, [])), t), u))
  {
    hide Start;
    OpenThenStart(w, u, t, []);
    var w1 := OpenRequest(w, u, t);
    var w2 := Start(w1, t, w1.list.slots[t], Ask(u, t, []));
    assert (w2.open)[..|w2.open|-1] == w.open;
    assert w.log + [Started(t)] + [Finished(t, w2.open)] == w.log + [Started(t), Finished(t, w2.open)];
  }

  /** A request that leads to no other takes its target. */
  lemma ServeSimple(w: World, u: nat, t: nat)
    requires Positional(w) && u < 3 && t < 3 && u != t
    requires w.list.slots[t] == RunningPlugin(t) && w.list.slots[u].info.Some? && w.list.slots[u].status != Empty
    ensures OnlyTook(w, u, t, Serve(w, Ask(u, t, [])).world)
  {
    FindsPositions(w, u, t);
    OpenThenStart(w, u, t, []);
    FinishOnly(w, u, t);
    hide FindTarget, FindByInfo, UnloadDecision, Serve, OnlyTook, Start, Finish, CloseRequest, OpenRequest;
    var w1 := OpenRequest(w, u, t);
    var w2 := Start(w1, t, w1.list.slots[t], Ask(u, t, []));
    ServeProceeds(w, u, t, [], w1, w2, w2);
  }

  /** The requests made while B is detached for A: A asks for C, and B asks for A. */
  function WhileDetached(): seq<Request> {
    [Ask(0, 2, []), Ask(1, 0, [])]
  }

  lemma InnerRequests(w: World)
    requires Positional(w) && w.open == [0]
    requires w.list.slots[0] == RunningPlugin(0).(isUnloader := true) && w.list.slots[2] == RunningPlugin(2)
    requires w.list.slots[1].info.Some? && w.list.slots[1].status == Running
    ensures var v := ServeAll(w, WhileDetached(), 2);
            v.reopened && v.open == [0] && Finished(0, [0, 1]) in v.log
  {
    hide Serve;
    ServeSimple(w, 0, 2);
    var v := Serve(w, Ask(0, 2, [])).world;
    assert ServeAll(w, WhileDetached(), 0) == w;
    assert ServeAll(w, WhileDetached(), 1) == v;
    ServeSimple(v, 1, 0);
    assert [0] + [1] == [0, 1];
    var x := Serve(v, Ask(1, 0, [])).world;
    assert x.log[|v.log| + 1] == Finished(0, [0, 1]);
  }

  /** A asks for B; while B is detached, A asks for C, which ends A's protection, and B asks for A:
      A is unloaded while its first request is still open. */
  lemma SecondRequestBreaksTheGuard()
    ensures var w := Serve(ThreePlugins(), Ask(0, 1, WhileDetached())).world;
            w.reopened && Finished(0, [0, 1]) in w.log
  {
    var w := ThreePlugins();
    FindsPositions(w, 0, 1);
    OpenThenStart(w, 0, 1, WhileDetached());
    var w1 := OpenRequest(w, 0, 1);
    var w2 := Start(w1, 1, w1.list.slots[1], Ask(0, 1, WhileDetached()));
    InnerRequests(w2);
    hide Serve, ServeAll, Start;
    ServeProceeds(w, 0, 1, WhileDetached(), w1, w2, ServeAll(w2, WhileDetached(), 2));
  }
}
