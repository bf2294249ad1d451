/** What the operations of Plugin leave in the fields of a plugin, told from the outcome of its DLL's routines. */
module PluginLaws {
  import opened Common
  import opened Plugin
  import opened PluginRuns

  /** PT_NEVER < PT_STARTUP < PT_CHANGELEVEL < PT_ANYTIME < PT_ANYPAUSE. */
  lemma TimesInOrder(x: LoadTime, y: LoadTime)
    ensures x.Before(y) <==>
              match x
              case Never => y != Never
              case Startup => y == ChangeLevel || y == AnyTime || y == AnyPause
              case ChangeLevel => y == AnyTime || y == AnyPause
              case AnyTime => y == AnyPause
              case AnyPause => false
  {
  }

  predicate LaterThanStartup(limit: LoadTime) {
    limit == ChangeLevel || limit == AnyTime || limit == AnyPause
  }

  /** Too late for this limit: what is pending stays pending iff the limit is later than startup. */
  predicate PutOff(limit: LoadTime, pending: Action, left: Action) {
    left == if LaterThanStartup(limit) then pending else NoAction
  }

  // ----- loading -----

  /** The description: one that stands for the file's name gives way to the name in the info. */
  predicate DescribedBy(p: Record, info: Option<Info>, desc: string) {
    var before := if p.desc == "" then "<" + p.file + ">" else p.desc;
    desc == if info.Some? && before[..1] == "<" then info.value.name else before
  }

  /** The file of p is open and its info known: it is attached, or put off, or its attach fails. */
  predicate AttachedFrom(p: Record, info: Info, now: LoadTime, env: Env, q: Record, ok: bool, t: seq<Event>) {
    if info.loadable.Before(now) then
      && !ok && PutOff(info.loadable, p.action, q.action) && t == []
      && q.status == (if p.status == Failed then Failed else Opened) && q.timeLoaded == p.timeLoaded
    else if env.attachError.Some? then
      && !ok && q.action == p.action && t == [Attach(now, info.loadable, false)]
      && q.status == Failed && q.timeLoaded == p.timeLoaded
    else
      && ok && q.action == NoAction && q.status == Running && q.timeLoaded == env.clock
      && t == [Attach(now, info.loadable, true)] + if now != Startup && env.gameInit then [GameInit] else []
  }

  /** The file of p is not open: what opening and querying it, and attaching it then, leave. */
  predicate LoadedFrom(p: Record, now: LoadTime, env: Env, q: Record, ok: bool, t: seq<Event>) {
    match env.query
    case OpenFails =>
      && !ok && q.status == BadFile && q.handle == None && q.info == None && q.action == p.action
      && q.timeLoaded == p.timeLoaded && t == []
    case Refused(h, e, _) =>
      && !ok && q.status == BadFile && q.info == None && q.action == p.action && q.timeLoaded == p.timeLoaded
      && q.handle == (if e == DlOpen then Some(h) else None)
      && t == (if e == DlOpen then [Open(h)] else [Open(h), Close(h)])
    case Accepted(h, info) =>
      && q.handle == Some(h) && q.info == Some(info) && |t| > 0 && t[0] == Open(h)
      && AttachedFrom(p, info, now, env, q, ok, t[1..])
  }

  /** The file can be opened and queried, there is time to attach what it holds, and that succeeds. */
  predicate CanBeLoaded(now: LoadTime, env: Env) {
    env.query.Accepted? && !env.query.info.loadable.Before(now) && env.attachError.None?
  }

  /** A load, from every state: nothing happens to a plugin that cannot be loaded, and otherwise what its file says. */
  lemma LoadMeaning(p: Record, now: LoadTime, env: Env)
    requires InfoKnown(p)
    ensures var o := LoadOutcome(p, now, env); var q := o.plugin;
            var tried := HasNames(p) && p.status != Running && p.status != Paused
                         && (p.action == ToLoad || p.action == ToAttach);
            && q == p.(desc := q.desc, status := q.status, action := q.action, handle := q.handle, info := q.info,
                       timeLoaded := q.timeLoaded)
            && (!tried ==> !o.ok && q == p.(desc := q.desc) && o.events == [])
            && (tried && p.status != Opened && p.status != Failed ==> LoadedFrom(p, now, env, q, o.ok, o.events))
            && (tried && (p.status == Opened || p.status == Failed) ==>
                  && q.handle == p.handle && q.info == p.info
                  && AttachedFrom(p, p.info.value, now, env, q, o.ok, o.events))
  {
    hide AttachOutcome;
    var d := Described(p);
    if HasNames(p) && d.status.Rank() < Running.Rank() && (d.action == ToLoad || d.action == ToAttach) {
      if d.status.Rank() >= Opened.Rank() {
        AttachMeaning(d, now, env);
      } else {
        var y := QueryResult(d, env);
        if y.ok {
          AttachMeaning(y.plugin, now, env);
          assert (y.events + AttachOutcome(y.plugin, now, env).events)[1..] == AttachOutcome(y.plugin, now, env).events;
        }
      }
    }
  }

  lemma AttachMeaning(p: Record, now: LoadTime, env: Env)
    requires p.info.Some? && (p.status == Opened || p.status == Failed)
    ensures var o := AttachOutcome(p, now, env); var q := o.plugin;
            && q == p.(status := q.status, action := q.action, timeLoaded := q.timeLoaded)
            && AttachedFrom(p, p.info.value, now, env, q, o.ok, o.events)
  {
    TimesInOrder(Startup, p.info.value.loadable);
  }

  /** And the description that it leaves. */
  lemma LoadDescribes(p: Record, now: LoadTime, env: Env)
    requires InfoKnown(p) && HasNames(p)
    ensures var o := LoadOutcome(p, now, env);
            var queried := p.status.Rank() < Opened.Rank() && (p.action == ToLoad || p.action == ToAttach)
                           && env.query.Accepted?;
            DescribedBy(p, if queried then Some(env.query.info) else None, o.plugin.desc)
  {
    AttachKeepsDesc(Described(p), now, env);
    hide AttachOutcome;
    var d := Described(p);
    var y := QueryResult(d, env);
    if y.ok {
      AttachKeepsDesc(y.plugin, now, env);
    }
  }

  lemma AttachKeepsDesc(p: Record, now: LoadTime, env: Env)
    ensures p.info.Some? ==> AttachOutcome(p, now, env).plugin.desc == p.desc
  {
  }

  // ----- unloading -----

  /** What an unload of a plugin that runs and is marked leaves: put off, or its detach has failed, or its file is
      closed and it is gone, or Valid and marked for a load when it is to be reloaded. */
  predicate UnloadedFrom(p: Record, now: LoadTime, reason: Reason, env: Env, q: Record, ok: bool, t: seq<Event>)
    requires p.info.Some? && p.handle.Some?
  {
    var limit := p.info.value.unloadable;
    var forced := reason == CmdForced;
    if limit.Before(now) && !forced then
      !ok && t == [] && PutOff(limit, p.action, q.action) && q == p.(desc := q.desc, action := q.action)
    else
      var detached := Detach(now, Some(limit), reason, env.detachError.None?);
      if env.detachError.Some? && !forced && reason != Reloading then
        !ok && t == [detached] && q == p.(desc := q.desc)
      else
        && ok && t == [detached, Disabled(p.index), Close(p.handle.value)] && q.handle == None
        && (p.action == ToUnload ==>
              && q.status == Empty && q.action == NullAction && q.info == None && q.timeLoaded == 0
              && q.unloaderIndex == 0 && !q.isUnloader)
        && (p.action == ToReload ==> q == p.(desc := q.desc, status := Valid, action := ToLoad, handle := None))
  }

  /** Nothing happens to a plugin that lacks a name, has been unloaded already (unless forced or reloaded), or is not
      marked. */
  lemma UnloadRefusals(p: Record, now: LoadTime, reason: Reason, env: Env)
    requires || !HasNames(p)
             || (p.status != Running && p.status != Paused && reason != CmdForced && reason != Reloading)
             || (p.action != ToUnload && p.action != ToReload)
    ensures var o := UnloadOutcome(p, now, reason, env);
            && !o.ok && o.events == [] && o.plugin == p.(desc := o.plugin.desc)
            && o.errno == (if !HasNames(p) then Argument
                           else if p.status != Running && p.status != Paused && reason != CmdForced
                                   && reason != Reloading
                           then Already
                           else BadReq)
  {
  }

  /** Detached, told to the registries, and closed. */
  lemma UnloadEvents(p: Record, now: LoadTime, reason: Reason, error: Option<Errno>)
    requires p.info.Some? && p.handle.Some?
    ensures DetachEvents(p, now, reason, error) == [Detach(now, Some(p.info.value.unloadable), reason, error.None?)]
    ensures DetachEvents(p, now, reason, error) + FinishEvents(p)
            == [Detach(now, Some(p.info.value.unloadable), reason, error.None?), Disabled(p.index),
                Close(p.handle.value)]
  {
  }

  lemma UnloadMeaning(p: Record, now: LoadTime, reason: Reason, env: Env)
    requires HasNames(p) && p.info.Some? && p.handle.Some? && (p.status == Running || p.status == Paused)
    requires p.action == ToUnload || p.action == ToReload
    ensures var o := UnloadOutcome(p, now, reason, env);
            UnloadedFrom(p, now, reason, env, o.plugin, o.ok, o.events)
  {
    var d := Described(p);
    UnloadDecided(p, now, reason);
    UnloadEvents(d, now, reason, env.detachError);
    FinishMeaning(d);
    assert d == p.(desc := d.desc);
    hide UnloadDecision, DetachEvents, FinishEvents, UnloadFinish, Described, HasNames, LoadTime.Before;
  }

  lemma FinishMeaning(p: Record)
    ensures var q := UnloadFinish(p);
            && (p.action == ToUnload ==>
                  q == p.(status := Empty, action := NullAction, handle := None, info := None, timeLoaded := 0,
                          unloaderIndex := 0, isUnloader := false))
            && (p.action == ToReload ==> q == p.(status := Valid, action := ToLoad, handle := None))
  {
  }

  lemma UnloadDecided(p: Record, now: LoadTime, reason: Reason)
    requires HasNames(p) && p.info.Some? && (p.status == Running || p.status == Paused)
    requires p.action == ToUnload || p.action == ToReload
    ensures var d := UnloadDecision(p, now, reason);
            if p.info.value.unloadable.Before(now) && reason != CmdForced then
              && d.Refuse? && d.plugin == Described(p).(action := d.plugin.action)
              && PutOff(p.info.value.unloadable, p.action, d.plugin.action)
            else d == Proceed(Described(p))
  {
    TimesInOrder(Startup, p.info.value.unloadable);
  }

  // ----- reloading -----

  /** What a reload of a running plugin that is marked for it leaves. */
  predicate ReloadedFrom(p: Record, now: LoadTime, reason: Reason, env: Env, q: Record, ok: bool, t: seq<Event>)
    requires p.info.Some? && p.handle.Some?
  {
    if p.info.value.loadable.Before(now) then  // it could not be attached again
      && !ok && t == [] && PutOff(p.info.value.loadable, p.action, q.action)
      && q == p.(desc := q.desc, action := q.action)
    else if (p.info.value.unloadable.Before(now) && reason != CmdForced)
            || (env.detachError.Some? && reason != CmdForced && reason != Reloading) then
      UnloadedFrom(p, now, reason, env, q, ok, t)
    else
      var first := [Detach(now, Some(p.info.value.unloadable), reason, env.detachError.None?), Disabled(p.index),
                    Close(p.handle.value)];
      && |t| >= 3 && t[..3] == first
      && q == p.(desc := q.desc, status := q.status, action := q.action, handle := q.handle, info := q.info,
                 timeLoaded := q.timeLoaded)
      && LoadedFrom(p.(action := ToLoad), now, env, q, ok, t[3..])
  }

  lemma ReloadMeaning(p: Record, now: LoadTime, reason: Reason, env: Env)
    requires HasNames(p) && p.info.Some? && p.handle.Some? && (p.status == Running || p.status == Paused)
    requires p.action == ToReload
    ensures var o := ReloadOutcome(p, now, reason, env);
            ReloadedFrom(p, now, reason, env, o.plugin, o.ok, o.events)
  {
    hide LoadedFrom, UnloadedFrom, UnloadOutcome, LoadOutcome, UnloadAndLoad, ReloadedFrom;
    if p.info.value.loadable.Before(now) {
      ReloadTooLateMeaning(p, now, reason, env);
    } else {
      ReloadInTimeMeaning(p, now, reason, env);
    }
  }

  lemma ReloadTooLateMeaning(p: Record, now: LoadTime, reason: Reason, env: Env)
    requires HasNames(p) && p.info.Some? && p.handle.Some? && p.action == ToReload && p.info.value.loadable.Before(now)
    ensures var o := ReloadOutcome(p, now, reason, env);
            ReloadedFrom(p, now, reason, env, o.plugin, o.ok, o.events)
  {
    hide LoadedFrom, UnloadedFrom, UnloadAndLoad;
    TimesInOrder(Startup, p.info.value.loadable);
  }

  lemma ReloadGoesOn(p: Record, now: LoadTime, reason: Reason, env: Env)
    requires HasNames(p) && p.info.Some? && (p.status == Running || p.status == Paused)
    requires p.action == ToReload && !p.info.value.loadable.Before(now)
    ensures ReloadOutcome(p, now, reason, env) == UnloadAndLoad(Described(p), now, reason, env)
    ensures var d := Described(p); d == p.(desc := d.desc) && HasNames(d)
  {
    hide UnloadOutcome, LoadOutcome;
  }

  lemma ReloadInTimeMeaning(p: Record, now: LoadTime, reason: Reason, env: Env)
    requires HasNames(p) && p.info.Some? && p.handle.Some? && (p.status == Running || p.status == Paused)
    requires p.action == ToReload && !p.info.value.loadable.Before(now)
    ensures var o := ReloadOutcome(p, now, reason, env);
            ReloadedFrom(p, now, reason, env, o.plugin, o.ok, o.events)
  {
    ReloadGoesOn(p, now, reason, env);
    var d := Described(p);
    UnloadMeaning(d, now, reason, env);
    UnloadedIsClosed(d, now, reason, env);
    var u := UnloadOutcome(d, now, reason, env);
    hide LoadedFrom, UnloadedFrom, UnloadOutcome, LoadOutcome, LoadTime.Before, ReloadedFrom, UnloadAndLoad, Described,
         ReloadOutcome;
    UnloadedDescribed(p, d, now, reason, env);
    if u.ok {
      LoadMeaning(u.plugin, now, env);
      LoadedFromClosed(p, u.plugin, now, env);
      ReloadInBothHalves(p, d, now, reason, env);
    } else {
      ReloadInOneHalf(p, d, now, reason, env);
    }
  }

  lemma ReloadInOneHalf(p: Record, d: Record, now: LoadTime, reason: Reason, env: Env)
    requires p.info.Some? && p.handle.Some? && InfoKnown(d) && !p.info.value.loadable.Before(now)
    requires var u := UnloadOutcome(d, now, reason, env);
             && !u.ok && UnloadedFrom(p, now, reason, env, u.plugin, u.ok, u.events)
             && ((p.info.value.unloadable.Before(now) && reason != CmdForced)
                 || (env.detachError.Some? && reason != CmdForced && reason != Reloading))
    ensures var o := UnloadAndLoad(d, now, reason, env); ReloadedFrom(p, now, reason, env, o.plugin, o.ok, o.events)
  {
    hide UnloadedFrom, UnloadOutcome, LoadOutcome, LoadTime.Before;
  }

  lemma ReloadInBothHalves(p: Record, d: Record, now: LoadTime, reason: Reason, env: Env)
    requires p.info.Some? && p.handle.Some? && InfoKnown(d) && !p.info.value.loadable.Before(now)
    requires d == p.(desc := d.desc)
    requires !(p.info.value.unloadable.Before(now) && reason != CmdForced)
    requires !(env.detachError.Some? && reason != CmdForced && reason != Reloading)
    requires var u := UnloadOutcome(d, now, reason, env);
             && u.ok && u.plugin == p.(desc := u.plugin.desc, status := Valid, action := ToLoad, handle := None)
             && u.events == [Detach(now, Some(p.info.value.unloadable), reason, env.detachError.None?),
                             Disabled(p.index), Close(p.handle.value)]
             && var l := LoadOutcome(u.plugin, now, env);
                && LoadedFrom(p.(action := ToLoad), now, env, l.plugin, l.ok, l.events)
                && l.plugin == u.plugin.(desc := l.plugin.desc, status := l.plugin.status, action := l.plugin.action,
                                         handle := l.plugin.handle, info := l.plugin.info,
                                         timeLoaded := l.plugin.timeLoaded)
    ensures var o := UnloadAndLoad(d, now, reason, env); ReloadedFrom(p, now, reason, env, o.plugin, o.ok, o.events)
  {
    hide LoadedFrom, UnloadedFrom, UnloadOutcome, LoadOutcome, LoadTime.Before;
    var u := UnloadOutcome(d, now, reason, env);
    var l := LoadOutcome(u.plugin, now, env);
    assert (u.events + l.events)[..3] == u.events && (u.events + l.events)[3..] == l.events;
  }

  /** The description does not matter. */
  lemma UnloadedDescribed(p: Record, d: Record, now: LoadTime, reason: Reason, env: Env)
    requires p.info.Some? && p.handle.Some? && d == p.(desc := d.desc)
    ensures forall q, ok, t ::
              UnloadedFrom(d, now, reason, env, q, ok, t) ==> UnloadedFrom(p, now, reason, env, q, ok, t)
  {
  }

  lemma UnloadedIsClosed(p: Record, now: LoadTime, reason: Reason, env: Env)
    requires HasNames(p) && p.info.Some? && p.handle.Some? && (p.status == Running || p.status == Paused)
    requires p.action == ToReload
    ensures var o := UnloadOutcome(p, now, reason, env);
            && (o.ok <==> !(p.info.value.unloadable.Before(now) && reason != CmdForced)
                          && !(env.detachError.Some? && reason != CmdForced && reason != Reloading))
            && (o.ok ==>
                  && o.plugin == p.(desc := o.plugin.desc, status := Valid, action := ToLoad, handle := None)
                  && o.events == [Detach(now, Some(p.info.value.unloadable), reason, env.detachError.None?),
                                  Disabled(p.index), Close(p.handle.value)])
  {
    UnloadEvents(Described(p), now, reason, env.detachError);
    hide DetachEvents, FinishEvents;
  }

  lemma LoadedFromClosed(p: Record, c: Record, now: LoadTime, env: Env)
    requires c.action == ToLoad && c.timeLoaded == p.timeLoaded && c.status != Failed && p.status != Failed
    ensures forall q, ok, t ::
              LoadedFrom(c, now, env, q, ok, t) ==> LoadedFrom(p.(action := ToLoad), now, env, q, ok, t)
  {
  }

  // ----- pausing and clearing -----

  /** A retry does what is pending, from every state that it can be in, and nothing else; with nothing pending it is
      turned down. */
  lemma RetryMeaning(p: Record, now: LoadTime, reason: Reason, env: Env)
    requires HasNames(p) && InfoKnown(p)
    ensures var o := RetryOutcome(p, now, reason, env); var q := o.plugin;
            var attached := p.status == Running || p.status == Paused;
            && (p.action == NullAction || p.action == NoAction || p.action == Keep ==>
                  q == p && !o.ok && o.errno == BadReq && o.events == [])
            && (p.action == ToLoad || p.action == ToAttach ==>
                  && (attached ==> q == p.(desc := q.desc) && !o.ok && o.events == [])
                  && (p.status == Opened || p.status == Failed ==>
                        AttachedFrom(p, p.info.value, now, env, q, o.ok, o.events))
                  && (!attached && p.status != Opened && p.status != Failed ==>
                        LoadedFrom(p, now, env, q, o.ok, o.events)))
            && (attached && p.handle.Some? && p.action == ToUnload ==>
                  UnloadedFrom(p, now, reason, env, q, o.ok, o.events))
            && (attached && p.handle.Some? && p.action == ToReload ==>
                  ReloadedFrom(p, now, reason, env, q, o.ok, o.events))
  {
    hide AttachedFrom, LoadedFrom, UnloadedFrom, ReloadedFrom, LoadOutcome, UnloadOutcome, ReloadOutcome, HasNames;
    if p.action == ToLoad || p.action == ToAttach {
      LoadMeaning(p, now, env);
    } else if (p.status == Running || p.status == Paused) && p.handle.Some? {
      if p.action == ToUnload {
        UnloadMeaning(p, now, reason, env);
      } else if p.action == ToReload {
        ReloadMeaning(p, now, reason, env);
      }
    }
  }

  /** Only a running plugin is paused, and only a paused one goes on; neither touches anything else. */
  lemma PauseMeaning(p: Record)
    requires InfoKnown(p)
    ensures var o := PauseOutcome(p);
            && (o.ok <==> p.status == Running && p.info.value.unloadable == AnyPause)
            && (o.ok ==> o.plugin == p.(status := Paused))
            && (!o.ok ==> o.plugin == p.(action := if p.status == Running then NoAction else p.action))
            && o.events == []
    ensures var o := UnpauseOutcome(p);
            && (o.ok <==> p.status == Paused)
            && o.plugin == (if o.ok then p.(status := Running) else p) && o.events == []
    ensures InfoKnown(PauseOutcome(p).plugin)
            && (PauseOutcome(p).ok ==> UnpauseOutcome(PauseOutcome(p).plugin).plugin == p)
  {
  }

  /** A clear closes the file that is open and leaves an empty slot; it refuses a plugin that is Valid, runs or is
      paused. */
  lemma ClearMeaning(p: Record)
    ensures var o := ClearOutcome(p); var q := o.plugin;
            && (o.ok <==> p.status == Empty || p.status == BadFile || p.status == Opened || p.status == Failed)
            && o.events == (if o.ok && p.handle.Some? then [Close(p.handle.value)] else [])
            && (!o.ok ==> q == p)
            && (o.ok ==> q == p.(status := Empty, action := NullAction, handle := None, info := None, timeLoaded := 0,
                                 unloaderIndex := 0, isUnloader := false))
  {
  }
}
