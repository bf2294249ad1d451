/**
 A reload (dep/metamod/mplugin.cpp, reload) during whose detach plugins ask for plugins to be unloaded, the plugin that
 is being reloaded among them.
 */
module ReloadNest {
  import opened Common
  import opened Plugin
  import opened PluginRuns
  import opened PluginListSpec
  import opened UnloadNest
  import opened UnloadNestStates

  /** reload() on slot t; r holds the time, the reason, and the requests that its detach leads to. */
  function ServeReload(w: World, t: nat, r: Request, env: Env): (o: Reply)
    requires Sized(w) && t < MAX_PLUGINS
    ensures Sized(o.world) && o.world.open == w.open
  {
    var p := w.list.slots[t];
    var q := Described(p);
    if !HasNames(p) then Reply(w, false, Argument)
    else if q.info.Some? && q.info.value.loadable.Before(r.now) then
      if Startup.Before(q.info.value.loadable) then Reply(Update(w, t, q), false, Delayed)
      else Reply(Update(w, t, q.(action := NoAction)), false, NotAllowed)
    else
      var u := ServeUnload(Update(w, t, q), t, r.(reason := ReloadReason(q, r.reason)));
      if !u.ok then u
      else
        var l := LoadOutcome(u.world.list.slots[t], r.now, env);
        Reply(Using(Update(u.world, t, l.plugin), t, l.events), l.ok, l.errno)
  }

  // ----- what a nest does to the plugin that is being reloaded -----

  /** A running plugin that is marked for a reload. */
  predicate ToBeReloaded(p: Record) {
    HasNames(p) && p.status.Rank() >= Running.Rank() && p.action == ToReload && p.handle.Some? && p.info.Some?
  }

  /** From note k on something was decided about slot s. */
  ghost predicate Decided(log: seq<Note>, k: nat, s: nat) {
    exists i :: k <= i < |log| && IsWord(log[i], s)
  }

  /** But for its description and the marks of requests, nothing has happened to the plugin. */
  predicate LeftAlone(p: Record, q: Record) {
    q == p.(desc := q.desc, unloaderIndex := q.unloaderIndex, isUnloader := q.isUnloader)
  }

  /** The plugin is gone, or runs and is no longer marked for a reload. */
  predicate Overtaken(p: Record, q: Record) {
    || (q.status == Empty && q.action == NullAction)
    || (q.status == p.status && HasNames(q) && (q.action == ToUnload || q.action == NoAction))
  }

  predicate After(p: Record, q: Record, decided: bool) {
    if decided then Overtaken(p, q) else LeftAlone(p, q)
  }

  /** A request has marked the plugin for an unload. */
  predicate Asked(p: Record, q: Record) {
    q.status == p.status && HasNames(q) && q.action == ToUnload
  }

  lemma DecidedTwice(a: seq<Note>, b: seq<Note>, c: seq<Note>, s: nat)
    requires a <= b <= c
    ensures Decided(c, |a|, s) <==> Decided(b, |a|, s) || Decided(c, |b|, s)
  {
    if Decided(b, |a|, s) {
      var i :| |a| <= i < |b| && IsWord(b[i], s);
      assert IsWord(c[i], s);
    }
    if Decided(c, |a|, s) {
      var i :| |a| <= i < |c| && IsWord(c[i], s);
      assert i < |b| ==> IsWord(b[i], s);
    }
  }

  lemma DecidedByNote(log: seq<Note>, n: Note, s: nat)
    ensures Decided(log + [n], |log|, s) <==> IsWord(n, s)
  {
    assert IsWord(n, s) ==> IsWord((log + [n])[|log|], s);
  }

  lemma NothingDecided(log: seq<Note>, s: nat)
    ensures !Decided(log, |log|, s)
  {
  }

  /** From w to v: what was decided about slot s shows in its plugin. */
  ghost predicate Follows(p: Record, w: World, v: World, s: nat, before: bool)
    requires s < MAX_PLUGINS
  {
    && Sized(w) && Sized(v) && w.log <= v.log
    && (After(p, w.list.slots[s], before) ==> After(p, v.list.slots[s], before || Decided(v.log, |w.log|, s)))
  }

  lemma FollowsTwice(p: Record, w: World, v: World, x: World, s: nat, before: bool)
    requires s < MAX_PLUGINS && Follows(p, w, v, s, before)
    requires Follows(p, v, x, s, before || Decided(v.log, |w.log|, s))
    ensures Follows(p, w, x, s, before)
  {
    hide Decided, After;
    DecidedTwice(w.log, v.log, x.log, s);
  }

  lemma FollowsItself(p: Record, w: World, s: nat, before: bool)
    requires Sized(w) && s < MAX_PLUGINS
    ensures Follows(p, w, w, s, before)
  {
    NothingDecided(w.log, s);
  }

  /** A step that leaves slot s alone. */
  lemma OtherSlotFollows(p: Record, w: World, v: World, s: nat, before: bool, n: Note)
    requires Sized(w) && Sized(v) && s < MAX_PLUGINS && v.list.slots[s] == w.list.slots[s]
    requires v.log == w.log + [n] && !IsWord(n, s)
    ensures Follows(p, w, v, s, before)
  {
    hide After;
    DecidedByNote(w.log, n, s);
  }

  /** What unload() decides about a running plugin that a request has marked. */
  lemma AskedIsDecided(p: Record, q: Record, now: LoadTime, reason: Reason)
    requires p.status.Rank() >= Running.Rank() && Asked(p, q)
    ensures match UnloadDecision(q, now, reason)
            case Refuse(x, e) =>
              && (e == Delayed || e == NotAllowed) && x == q.(desc := x.desc, action := x.action)
              && (if e == Delayed then x.action == ToUnload else Overtaken(p, x))
            case Proceed(x) => Asked(p, x)
  {
  }

  lemma FinishFollows(p: Record, w: World, t: nat, s: nat, before: bool)
    requires Sized(w) && t < MAX_PLUGINS && s < MAX_PLUGINS && (t == s ==> before)
    ensures Follows(p, w, Finish(w, t), s, before)
  {
    hide FinishEvents;
    DecidedByNote(w.log, Finished(t, w.open), s);
  }

  lemma {:induction false} ServeFollows(p: Record, w: World, r: Request, s: nat, before: bool)
    requires Sized(w) && s < MAX_PLUGINS && ToBeReloaded(p)
    ensures Follows(p, w, Serve(w, r).world, s, before)
    decreases r, 0
  {
    hide ServeUnload, FindTarget, FindByInfo, OpenRequest, CloseRequest, Follows, ServeOpen;
    FollowsItself(p, w, s, before);
    var t := FindTarget(w.list, r.target);
    var u := FindByInfo(w.list, r.plid);
    if t.Some? && u.Some? && u != t && !w.list.slots[t.value].isUnloader {
      if t.value == s {
        ServeTargetFollows(p, w, u.value, r, s, before);
      } else {
        ServeOtherFollows(p, w, u.value, t.value, r, s, before);
      }
    }
  }

  lemma OpenOtherFollows(p: Record, w: World, u: nat, t: nat, s: nat, before: bool)
    requires Sized(w) && u < MAX_PLUGINS && t < MAX_PLUGINS && s < MAX_PLUGINS && t != s
    ensures Follows(p, w, OpenRequest(w, u, t), s, before)
  {
    NothingDecided(w.log, s);
  }

  lemma CloseFollows(p: Record, w: World, u: nat, s: nat, before: bool)
    requires Sized(w) && u < MAX_PLUGINS && s < MAX_PLUGINS && w.open != []
    ensures Follows(p, w, CloseRequest(w, u), s, before)
    ensures CloseRequest(w, u).log == w.log
  {
    NothingDecided(w.log, s);
  }

  lemma PutBackOtherFollows(p: Record, w: World, t: nat, a: Action, s: nat, before: bool)
    requires Sized(w) && t < MAX_PLUGINS && s < MAX_PLUGINS && t != s
    ensures Follows(p, w, Update(w, t, w.list.slots[t].(action := a)), s, before)
  {
    NothingDecided(w.log, s);
  }

  lemma {:induction false} ServeOtherFollows(p: Record, w: World, u: nat, t: nat, r: Request, s: nat, before: bool)
    requires Sized(w) && u < MAX_PLUGINS && t < MAX_PLUGINS && s < MAX_PLUGINS && t != s && ToBeReloaded(p)
    ensures Follows(p, w, ServeOpen(w, u, t, r).world, s, before)
    decreases r.nested, |r.nested| + 2
  {
    hide ServeUnload, OpenRequest, CloseRequest, Follows, Decided;
    var w1 := OpenRequest(w, u, t);
    OpenOtherFollows(p, w, u, t, s, before);
    var before1 := before || Decided(w1.log, |w.log|, s);
    ServeUnloadFollows(p, w1, t, r, s, before1);
    var w2 := ServeUnload(w1, t, r).world;
    FollowsTwice(p, w, w1, w2, s, before);
    var before2 := before || Decided(w2.log, |w.log|, s);
    CloseFollows(p, w2, u, s, before2);
    var w3 := CloseRequest(w2, u);
    FollowsTwice(p, w, w2, w3, s, before);
    PutBackOtherFollows(p, w3, t, w.list.slots[t].action, s, before || Decided(w3.log, |w.log|, s));
    FollowsTwice(p, w, w3, Update(w3, t, w3.list.slots[t].(action := w.list.slots[t].action)), s, before);
  }

  /** A request for the plugin that is being reloaded: delayed, it is as if it had not been made. */
  lemma {:induction false} ServeTargetFollows(p: Record, w: World, u: nat, r: Request, s: nat, before: bool)
    requires Sized(w) && u < MAX_PLUGINS && s < MAX_PLUGINS && u != s && ToBeReloaded(p)
    requires w.list.slots[s].status != Empty
    ensures Follows(p, w, ServeOpen(w, u, s, r).world, s, before)
    decreases r.nested, |r.nested| + 2
  {
    hide ServeUnload, Decided;
    var w1 := OpenRequest(w, u, s);
    if After(p, w.list.slots[s], before) {
      ServeUnloadDecides(p, w1, s, r);
      CloseLeaves(ServeUnload(w1, s, r).world, u, s);
    } else {
      LogGrowsInUnload(w1, s, r);
    }
  }

  lemma CloseLeaves(w: World, u: nat, s: nat)
    requires Sized(w) && u < MAX_PLUGINS && s < MAX_PLUGINS && u != s && w.open != []
    ensures CloseRequest(w, u).list.slots[s] == w.list.slots[s] && CloseRequest(w, u).log == w.log
  {
  }

  lemma {:induction false} LogGrows(w: World, r: Request)
    requires Sized(w)
    ensures w.log <= Serve(w, r).world.log
    decreases r, 0
  {
    hide ServeUnload, FindTarget, FindByInfo;
    var t := FindTarget(w.list, r.target);
    var u := FindByInfo(w.list, r.plid);
    if t.Some? && u.Some? && u != t && !w.list.slots[t.value].isUnloader {
      LogGrowsInUnload(OpenRequest(w, u.value, t.value), t.value, r);
    }
  }

  lemma {:induction false} LogGrowsInUnload(w: World, t: nat, r: Request)
    requires Sized(w) && t < MAX_PLUGINS
    ensures w.log <= ServeUnload(w, t, r).world.log
    decreases r.nested, |r.nested| + 1
  {
    hide ServeAll, UnloadDecision, UnloadFinish, DetachEvents, FinishEvents;
    match UnloadDecision(w.list.slots[t], r.now, r.reason)
    case Refuse(_, _) =>
    case Proceed(x) => LogGrowsInAll(Start(w, t, x, r), r.nested, |r.nested|);
  }

  lemma {:induction false} LogGrowsInAll(w: World, rs: seq<Request>, n: nat)
    requires Sized(w) && n <= |rs|
    ensures w.log <= ServeAll(w, rs, n).log
    decreases rs, n
  {
    hide Serve;
    if n == 0 {
    } else {
      LogGrowsInAll(w, rs, n - 1);
      LogGrows(ServeAll(w, rs, n - 1), rs[n-1]);
    }
  }

  /** An unload of the very plugin is delayed, or decided. */
  lemma {:induction false} ServeUnloadDecides(p: Record, w: World, s: nat, r: Request)
    requires Sized(w) && s < MAX_PLUGINS && ToBeReloaded(p) && Asked(p, w.list.slots[s])
    ensures var o := ServeUnload(w, s, r);
            var q := w.list.slots[s];
            && w.log <= o.world.log
            && (if !o.ok && o.errno == Delayed
                then var x := o.world.list.slots[s];
                     x == q.(desc := x.desc) && !Decided(o.world.log, |w.log|, s)
                else Overtaken(p, o.world.list.slots[s]) && Decided(o.world.log, |w.log|, s))
    decreases r.nested, |r.nested| + 1
  {
    hide ServeAll, UnloadDecision, Decided, Start, Finish;
    AskedIsDecided(p, w.list.slots[s], r.now, r.reason);
    match UnloadDecision(w.list.slots[s], r.now, r.reason)
    case Refuse(x, e) => DecidedByNote(w.log, Denied(s, e), s);
    case Proceed(x) =>
      var w1 := Start(w, s, x, r);
      StartDecides(p, w, s, x, r);
      EndDecides(p, w, w1, s);
      var w2 := ServeAll(w1, r.nested, |r.nested|);
      ServeAllFollows(p, w1, r.nested, |r.nested|, s, true);
      FollowsMeaning(p, w1, w2, s, true);
      DecidedTwice(w.log, w1.log, w2.log, s);
      EndDecides(p, w, w2, s);
  }

  lemma StartDecides(p: Record, w: World, s: nat, x: Record, r: Request)
    requires Sized(w) && s < MAX_PLUGINS && InfoKnown(x) && Asked(p, x)
    ensures var v := Start(w, s, x, r);
            w.log <= v.log && Decided(v.log, |w.log|, s) && Overtaken(p, v.list.slots[s])
  {
    hide DetachEvents, Decided;
    DecidedByNote(w.log, Started(s), s);
  }

  /** The end of an unload decides nothing anew. */
  lemma EndDecides(p: Record, w: World, v: World, s: nat)
    requires Sized(v) && s < MAX_PLUGINS && w.log <= v.log
    requires Decided(v.log, |w.log|, s) && Overtaken(p, v.list.slots[s])
    ensures var x := Finish(v, s);
            w.log <= x.log && Decided(x.log, |w.log|, s) && Overtaken(p, x.list.slots[s])
  {
    hide FinishEvents, Decided;
    DecidedTwice(w.log, v.log, Finish(v, s).log, s);
  }

  lemma FollowsMeaning(p: Record, w: World, v: World, s: nat, before: bool)
    requires s < MAX_PLUGINS && Follows(p, w, v, s, before)
    ensures w.log <= v.log
    ensures After(p, w.list.slots[s], before) ==> After(p, v.list.slots[s], before || Decided(v.log, |w.log|, s))
  {
  }

  /** An unload of another plugin. */
  lemma {:induction false} ServeUnloadFollows(p: Record, w: World, t: nat, r: Request, s: nat, before: bool)
    requires Sized(w) && t < MAX_PLUGINS && s < MAX_PLUGINS && t != s && ToBeReloaded(p)
    ensures Follows(p, w, ServeUnload(w, t, r).world, s, before)
    decreases r.nested, |r.nested| + 1
  {
    hide ServeAll, UnloadDecision, Follows, Decided, Finish;
    match UnloadDecision(w.list.slots[t], r.now, r.reason)
    case Refuse(x, e) => OtherSlotFollows(p, w, Noting(Update(w, t, x), Denied(t, e)), s, before, Denied(t, e));
    case Proceed(x) =>
      var w1 := Start(w, t, x, r);
      OtherSlotFollows(p, w, w1, s, before, Started(t));
      var before1 := before || Decided(w1.log, |w.log|, s);
      FinishFollows(p, w1, t, s, before1);
      FollowsTwice(p, w, w1, Finish(w1, t), s, before);
      var w2 := ServeAll(w1, r.nested, |r.nested|);
      ServeAllFollows(p, w1, r.nested, |r.nested|, s, before1);
      FollowsTwice(p, w, w1, w2, s, before);
      FinishFollows(p, w2, t, s, before || Decided(w2.log, |w.log|, s));
      FollowsTwice(p, w, w2, Finish(w2, t), s, before);
  }

  lemma {:induction false} ServeAllFollows(p: Record, w: World, rs: seq<Request>, n: nat, s: nat, before: bool)
    requires Sized(w) && n <= |rs| && s < MAX_PLUGINS && ToBeReloaded(p)
    ensures Follows(p, w, ServeAll(w, rs, n), s, before)
    decreases rs, n
  {
    hide Serve, Follows, Decided;
    if n == 0 {
      FollowsItself(p, w, s, before);
    } else {
      ServeAllFollows(p, w, rs, n - 1, s, before);
      var v := ServeAll(w, rs, n - 1);
      ServeFollows(p, v, rs[n-1], s, before || Decided(v.log, |w.log|, s));
      FollowsTwice(p, w, v, Serve(v, rs[n-1]).world, s, before);
    }
  }

  // ----- how a reload ends -----

  /** The world when the detach of a reload is over, with all that was asked for during it. */
  function Detached(w: World, t: nat, r: Request): (v: World)
    requires Sized(w) && t < MAX_PLUGINS && InfoKnown(w.list.slots[t])
    ensures Sized(v)
  {
    ServeAll(Begun(w, t, r), r.nested, |r.nested|)
  }

  function Begun(w: World, t: nat, r: Request): (v: World)
    requires Sized(w) && t < MAX_PLUGINS && InfoKnown(w.list.slots[t])
    ensures Sized(v)
  {
    var q := Described(w.list.slots[t]);
    Start(Update(w, t, q), t, q, r)
  }

  /** Somebody has asked for the plugin while it was being detached, and was not put off. */
  ghost predicate DecidedMeanwhile(w: World, t: nat, r: Request)
    requires Sized(w) && t < MAX_PLUGINS && InfoKnown(w.list.slots[t])
  {
    Decided(Detached(w, t, r).log, |Begun(w, t, r).log|, t)
  }

  /** The reload gets as far as closing the file. */
  predicate Closes(p: Record, r: Request)
    requires p.info.Some?
  {
    && !p.info.value.loadable.Before(r.now)
    && (r.reason == CmdForced || !p.info.value.unloadable.Before(r.now))
    && (r.detachError.None? || r.reason == CmdForced || r.reason == Reloading)
  }

  /** And what it finds then can be attached. */
  predicate Attaches(now: LoadTime, env: Env) {
    env.query.Accepted? && !env.query.info.loadable.Before(now) && env.attachError.None?
  }

  lemma DetachedFollows(w: World, t: nat, r: Request)
    requires Sized(w) && t < MAX_PLUGINS && ToBeReloaded(w.list.slots[t])
    ensures After(w.list.slots[t], Detached(w, t, r).list.slots[t], DecidedMeanwhile(w, t, r))
  {
    hide ServeAll, Decided, DetachEvents;
    var p := w.list.slots[t];
    var w1 := Begun(w, t, r);
    ServeAllFollows(p, w1, r.nested, |r.nested|, t, false);
    FollowsMeaning(p, w1, Detached(w, t, r), t, false);
  }

  /** The unload in the middle. */
  lemma UnloadOfReload(w: World, t: nat, r: Request)
    requires Sized(w) && t < MAX_PLUGINS && ToBeReloaded(w.list.slots[t])
    requires !w.list.slots[t].info.value.loadable.Before(r.now)
    ensures var o := ServeUnload(Update(w, t, Described(w.list.slots[t])), t, r);
            && (o.ok <==> Closes(w.list.slots[t], r))
            && (o.ok ==> o.world == Finish(Detached(w, t, r), t))
  {
    hide ServeAll, Finish, Start;
  }

  /** The file is opened again, and attached if it can be. */
  lemma LoadOfClosed(x: Record, now: LoadTime, env: Env)
    requires HasNames(x) && x.status == Valid && x.action == ToLoad
    ensures var o := LoadOutcome(x, now, env);
            && (o.ok <==> Attaches(now, env))
            && (o.ok ==> o.plugin.status == Running && o.plugin.handle == Some(env.query.handle))
  {
    hide AttachOutcome;
    var y := QueryResult(Described(x), env);
    if y.ok {
      LateAttach(y.plugin, now, env);
      AttachKeepsHandle(y.plugin, now, env);
    }
  }

  lemma AttachKeepsHandle(p: Record, now: LoadTime, env: Env)
    requires p.info.Some?
    ensures AttachOutcome(p, now, env).plugin.handle == p.handle
  {
  }

  lemma LoadOfOvertaken(p: Record, q: Record, now: LoadTime, env: Env)
    requires ToBeReloaded(p) && Overtaken(p, q) && InfoKnown(q)
    ensures var x := UnloadFinish(q); var o := LoadOutcome(x, now, env);
            !o.ok && if x.status == Empty then o.plugin.status == Empty && o.errno == Argument
                     else o.plugin.status == p.status && o.plugin.handle.None? && o.errno == Already
  {
    hide AttachOutcome, QueryResult;
  }

  lemma LoadAfterReload(p: Record, q: Record, decided: bool, now: LoadTime, env: Env)
    requires ToBeReloaded(p) && After(p, q, decided) && InfoKnown(q)
    ensures var x := UnloadFinish(q); var o := LoadOutcome(x, now, env);
            && (o.ok <==> !decided && Attaches(now, env))
            && (o.ok ==> o.plugin.status == Running && o.plugin.handle == Some(env.query.handle))
            && (decided ==> if x.status == Empty then o.plugin.status == Empty && o.errno == Argument
                            else o.plugin.status == p.status && o.plugin.handle.None? && o.errno == Already)
  {
    hide LoadOutcome, Attaches;
    if decided {
      LoadOfOvertaken(p, q, now, env);
    } else {
      LoadOfClosed(UnloadFinish(q), now, env);
    }
  }

  /** Whatever plugins ask for while a running plugin is being reloaded: it is attached again iff there is time to
      attach and to detach it, its detach succeeds or is overridden, what is found then can be attached, and nobody's
      request for this very plugin was decided meanwhile; if one was, the plugin ends up unloaded, or running with its
      file closed. */
  lemma ReloadEndsAttachedIff(w: World, t: nat, r: Request, env: Env)
    requires Sized(w) && t < MAX_PLUGINS && ToBeReloaded(w.list.slots[t])
    ensures var p := w.list.slots[t]; var o := ServeReload(w, t, r, env); var q := o.world.list.slots[t];
            && (o.ok <==> Closes(p, r) && !DecidedMeanwhile(w, t, r) && Attaches(r.now, env))
            && (o.ok ==> q.status == Running && q.handle == Some(env.query.handle))
            && (Closes(p, r) && DecidedMeanwhile(w, t, r) ==>
                  || (q.status == Empty && o.errno == Argument)
                  || (q.status == p.status && q.handle.None? && o.errno == Already))
  {
    hide ServeUnload, ServeAll, Decided, LoadOutcome, UnloadFinish, DecidedMeanwhile, Detached, Attaches;
    var p := w.list.slots[t];
    if !p.info.value.loadable.Before(r.now) {
      assert r.(reason := ReloadReason(Described(p), r.reason)) == r;
      UnloadOfReload(w, t, r);
      DetachedFollows(w, t, r);
      LoadAfterReload(p, Detached(w, t, r).list.slots[t], DecidedMeanwhile(w, t, r), r.now, env);
    }
  }

  /** With nothing nested in it, a reload does to its plugin and to its DLL what `ReloadOutcome` says. */
  lemma LoneReloadIsAStep(l: Plist, t: nat, r: Request, env: Env)
    requires Bounded(l) && t < MAX_PLUGINS && r.nested == [] && env.detachError == r.detachError
    ensures var v := ServeReload(Calm(l), t, r, env); var o := ReloadOutcome(l.slots[t], r.now, r.reason, env);
            && v.world.list.slots[t] == o.plugin && v.world.traces[t] == o.events && v.ok == o.ok && v.errno == o.errno
  {
    hide UnloadOutcome, ServeUnload, LoadOutcome;
    var q := Described(l.slots[t]);
    LoneUnload(Update(Calm(l), t, q), t, r.(reason := ReloadReason(q, r.reason)), env);
    assert UnloadOutcome(q, r.now, ReloadReason(q, r.reason), env).events + []
           == UnloadOutcome(q, r.now, ReloadReason(q, r.reason), env).events;
  }
}
