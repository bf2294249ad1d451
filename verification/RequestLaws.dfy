/** Which plugin a request to plugin_unload is about, and what becomes of it, told from the fields of the slots. */
module RequestLaws {
  import opened Common
  import opened Plugin
  import opened PluginRuns
  import opened PluginListSpec
  import opened UnloadNest
  import opened UnloadNestStates
  import opened PluginListLaws
  import opened ReloadNest

  /** Slot k is meant: its index field is the index given, or it is the first used slot with the handle. */
  ghost predicate IsMeant(l: Plist, target: Target, k: nat)
    requires Bounded(l)
  {
    && InUse(l, k)
    && match target
       case ByIndex(i) => l.slots[k].index == i
       case ByHandle(h) =>
         l.slots[k].handle == Some(h) && forall j: nat :: j < k && InUse(l, j) ==> l.slots[j].handle != Some(h)
  }

  /** Slot k is the first used one with this info. */
  ghost predicate IsAsking(l: Plist, plid: nat, k: nat)
    requires Bounded(l)
  {
    && InUse(l, k) && l.slots[k].info.Some? && l.slots[k].info.value.id == plid
    && forall j: nat :: j < k && InUse(l, j) ==> l.slots[j].info.None? || l.slots[j].info.value.id != plid
  }

  lemma TargetMeaning(l: Plist, target: Target, k: nat)
    requires Inv(l)
    ensures IsMeant(l, target, k) <==> FindTarget(l, target) == Some(k)
  {
    hide DistinctPaths;
  }

  lemma AskerMeaning(l: Plist, plid: nat, k: nat)
    requires Bounded(l)
    ensures IsAsking(l, plid, k) <==> FindByInfo(l, plid) == Some(k)
  {
    hide InfoKnown;
    forall j: nat | j < l.endlist
      ensures HasId(l.slots[j], plid) <==> l.slots[j].info.Some? && l.slots[j].info.value.id == plid
    {
    }
  }

  /** The note is about slot t. */
  predicate IsAbout(n: Note, t: nat) {
    n == Started(t) || (n.Denied? && n.slot == t)
  }

  lemma FirstNote(w: World, t: nat, r: Request)
    requires Sized(w) && t < MAX_PLUGINS && w.log == []
    ensures var v := ServeUnload(w, t, r);
            v.world.log != [] && IsAbout(v.world.log[0], t) && v.errno != NotFound
  {
    hide ServeAll, UnloadFinish, DetachEvents, FinishEvents;
    match UnloadDecision(w.list.slots[t], r.now, r.reason)
    case Refuse(_, _) =>
    case Proceed(p) => LogGrowsInAll(Start(w, t, p, r), r.nested, |r.nested|);
  }

  /** In every nest, the request that is made first is turned down iff its target or its asker is not there or is the
      same, and then nothing happens at all; else the first decision is about the slot that is meant. */
  lemma RequestIsAbout(l: Plist, r: Request)
    requires Inv(l)
    ensures Serve(Calm(l), r).errno == NotFound <==> forall t :: !IsMeant(l, r.target, t)
    ensures (forall t :: !IsMeant(l, r.target, t)) ==> Serve(Calm(l), r) == Reply(Calm(l), false, NotFound)
    ensures forall t :: IsMeant(l, r.target, t) ==>
              var v := Serve(Calm(l), r);
              && ((forall u :: !IsAsking(l, r.plid, u)) ==> v == Reply(Calm(l), false, BadReq))
              && (IsAsking(l, r.plid, t) ==> v == Reply(Calm(l), false, UnloadSelf))
              && (forall u :: IsAsking(l, r.plid, u) && u != t ==> v.world.log != [] && IsAbout(v.world.log[0], t))
  {
    hide ServeUnload, FindTarget, FindByInfo, IsMeant, IsAsking, Inv;
    assert Bounded(l) && forall i :: 0 <= i < MAX_PLUGINS ==> !l.slots[i].isUnloader by {
      NoFlagIsUp(l);
    }
    forall t: nat ensures IsMeant(l, r.target, t) <==> FindTarget(l, r.target) == Some(t) {
      TargetMeaning(l, r.target, t);
    }
    forall u: nat ensures IsAsking(l, r.plid, u) <==> FindByInfo(l, r.plid) == Some(u) {
      AskerMeaning(l, r.plid, u);
    }
    var t, u := FindTarget(l, r.target), FindByInfo(l, r.plid);
    if t.Some? && u.Some? && u != t {
      FirstNote(OpenRequest(Calm(l), u.value, t.value), t.value, r);
    }
  }

  lemma NoFlagIsUp(l: Plist)
    requires Inv(l)
    ensures Bounded(l) && forall i :: 0 <= i < MAX_PLUGINS ==> !l.slots[i].isUnloader
  {
  }

  // ----- a request with nothing nested in it -----

  /** There is time to detach the plugin, or the console forces it, and its detach succeeds or is overridden. */
  predicate Unloads(p: Record, r: Request) {
    && p.status.Rank() >= Running.Rank() && p.info.Some?
    && (r.reason == CmdForced || !p.info.value.unloadable.Before(r.now))
    && (r.detachError.None? || r.reason == CmdForced || r.reason == Reloading)
  }

  /** It is unloaded, and its slot is empty; or it runs on: what was pending is pending again when it may be unloaded
      later, nothing is when it may not, and the unload is when its detach has failed. */
  predicate Became(p: Record, u: nat, r: Request, q: Record, ok: bool, errno: Errno)
    requires p.info.Some?
  {
    && q.index == p.index && q.pathname == p.pathname && q.file == p.file && q.filename == p.filename
    && (ok <==> Unloads(p, r))
    && (ok ==> q.status == Empty && q.action == NullAction && q.handle.None? && q.info.None? && !q.isUnloader)
    && (ok ==> errno == NoError)
    && (!ok ==>
          && (if r.reason == CmdForced || !p.info.value.unloadable.Before(r.now)
              then r.detachError.Some? && errno == r.detachError.value else errno == NotAllowed)
          && q == p.(desc := q.desc, unloaderIndex := u + 1, action := q.action)
          && q.action == (if r.reason == CmdForced || !p.info.value.unloadable.Before(r.now) then ToUnload
                          else if Startup.Before(p.info.value.unloadable) then p.action
                          else NoAction))
  }

  lemma RunningOutcome(p: Record, u: nat, r: Request, env: Env)
    requires Exact(p) && Named(p) && p.status.Rank() >= Running.Rank() && !p.isUnloader && p.index != u + 1
    requires env.detachError == r.detachError
    ensures var o := RequestOutcome(p, u + 1, r.now, r.reason, env); Became(p, u, r, o.plugin, o.ok, o.errno)
  {
    hide DetachEvents, FinishEvents;
  }

  /** A request for a running plugin, by another one: that plugin is unloaded, or left running with its marks changed;
      every other slot is as it was. */
  lemma LoneRequestMeaning(l: Plist, r: Request, t: nat, u: nat)
    requires Inv(l) && IsMeant(l, r.target, t) && IsAsking(l, r.plid, u) && t != u && r.nested == []
    requires l.slots[t].status.Rank() >= Running.Rank()
    ensures var v := Serve(Calm(l), r);
            && v.world.list.endlist == l.endlist && |v.world.list.slots| == MAX_PLUGINS
            && Became(l.slots[t], u, r, v.world.list.slots[t], v.ok, v.errno)
            && forall s :: 0 <= s < MAX_PLUGINS && s != t ==> v.world.list.slots[s] == l.slots[s]
  {
    hide RequestOutcome, Became, Serve, FindTarget, FindByInfo, DistinctPaths;
    var env := Env(OpenFails, None, r.detachError, false, 0);
    TargetMeaning(l, r.target, t);
    AskerMeaning(l, r.plid, u);
    LoneRequestIsAStep(l, r, t, u, env);
    RunningOutcome(l.slots[t], u, r, env);
    OthersStay(l, r, t, u, env);
  }

  lemma OpenedSlots(l: Plist, u: nat, t: nat)
    requires Bounded(l) && u < MAX_PLUGINS && t < MAX_PLUGINS && t != u
    ensures var w := OpenRequest(Calm(l), u, t);
            && w.list.endlist == l.endlist && w.list.slots[u] == l.slots[u].(isUnloader := true)
            && forall s :: 0 <= s < MAX_PLUGINS && s != t && s != u ==> w.list.slots[s] == l.slots[s]
  {
  }

  lemma ClosedSlots(w: World, u: nat)
    requires Sized(w) && u < MAX_PLUGINS && w.open != []
    ensures var v := CloseRequest(w, u);
            && v.list.endlist == w.list.endlist && v.list.slots[u] == w.list.slots[u].(isUnloader := false)
            && forall s :: 0 <= s < MAX_PLUGINS && s != u ==> v.list.slots[s] == w.list.slots[s]
  {
    hide FlagsAgree;
  }

  lemma OnlyTargetChanges(l: Plist, r: Request, t: nat, u: nat, env: Env)
    requires Bounded(l) && t < MAX_PLUGINS && u < MAX_PLUGINS && t != u && !l.slots[u].isUnloader
    requires r.nested == [] && env.detachError == r.detachError
    ensures var v := ServeOpen(Calm(l), u, t, r);
            && v.world.list.endlist == l.endlist
            && forall s :: 0 <= s < MAX_PLUGINS && s != t ==> v.world.list.slots[s] == l.slots[s]
  {
    var w := OpenRequest(Calm(l), u, t);
    LoneUnload(w, t, r, env);
    OpenedSlots(l, u, t);
    hide ServeUnload, UnloadOutcome, OpenRequest, CloseRequest, InfoKnown;
    ClosedSlots(ServeUnload(w, t, r).world, u);
  }

  lemma OthersStay(l: Plist, r: Request, t: nat, u: nat, env: Env)
    requires Inv(l) && FindTarget(l, r.target) == Some(t) && FindByInfo(l, r.plid) == Some(u) && t != u
    requires r.nested == [] && env.detachError == r.detachError
    ensures var v := Serve(Calm(l), r);
            && v.world.list.endlist == l.endlist
            && forall s :: 0 <= s < MAX_PLUGINS && s != t ==> v.world.list.slots[s] == l.slots[s]
  {
    NoFlagIsUp(l);
    OnlyTargetChanges(l, r, t, u, env);
    hide ServeOpen, FindTarget, FindByInfo, Inv;
  }

  // ----- requests one after another -----

  /** Nested requests are served one after another, in their order. */
  lemma {:induction false} ServedInOrder(w: World, a: seq<Request>, b: seq<Request>, n: nat)
    requires Sized(w) && n <= |b|
    ensures ServeAll(w, a + b, |a| + n) == ServeAll(ServeAll(w, a, |a|), b, n)
    decreases n
  {
    hide Serve;
    if n == 0 {
      ServedFirst(w, a, b, |a|);
    } else {
      ServedInOrder(w, a, b, n - 1);
    }
  }

  lemma {:induction false} ServedFirst(w: World, a: seq<Request>, b: seq<Request>, n: nat)
    requires Sized(w) && n <= |a|
    ensures ServeAll(w, a + b, n) == ServeAll(w, a, n)
    decreases n
  {
    hide Serve;
    if n == 0 {
    } else {
      ServedFirst(w, a, b, n - 1);
    }
  }
}
