/**
 Plugins that unload plugins (dep/metamod/mplugin.cpp, plugin_unload): while a plugin is being
 detached it may itself ask for other plugins to be unloaded, and so may any other; a request may even
 name the plugin that is being detached.  `is_unloader` guards a plugin whose request is being served
 from being unloaded by the plugins it is unloading.
 */
module UnloadNest {
  import opened Common
  import opened Plugin
  import opened PluginListSpec

  /** A plugin is named by its handle, or by its index; a name given as text is the index it resolves to. */
  datatype Target = ByHandle(handle: Handle) | ByIndex(index: nat)

  /** What a detach fails with. */
  type DetachErrno = e: Errno | e == DlMissing || e == DlError witness DlMissing

  /** A request by the plugin whose info is `plid`; `nested` are the requests made, by whatever
      plugin, during the detach that it leads to. */
  datatype Request = Request(plid: nat, target: Target, now: LoadTime, reason: Reason,
                             nested: seq<Request>, detachError: Option<DetachErrno>)

  /** What happens to the plugin in a slot: unload() refuses, or goes on to the detach, or ends by closing the
      file, while the slots in `open` have a request open. */
  datatype Note = Denied(slot: nat, errno: Errno) | Started(slot: nat) | Finished(slot: nat, open: seq<nat>)

  /** The plugin list, and what no code keeps: how each slot has used its DLL; the slots whose requests are open,
      innermost last; the notes so far; whether some plugin has opened a request while another of its own was
      open; whether is_unloader has marked exactly the plugins with an open request whenever one was closed. */
  datatype World = World(list: Plist, traces: seq<seq<Event>>, open: seq<nat>, log: seq<Note>, reopened: bool,
                         agreed: bool)

  predicate Sized(w: World) {
    Bounded(w.list) && |w.traces| == MAX_PLUGINS
  }

  function Update(w: World, i: nat, p: Record): (r: World)
    requires Sized(w) && i < MAX_PLUGINS && InfoKnown(p)
    ensures Sized(r)
  {
    w.(list := w.list.(slots := w.list.slots[i := p]))
  }

  function Using(w: World, i: nat, t: seq<Event>): (r: World)
    requires Sized(w) && i < MAX_PLUGINS
    ensures Sized(r)
  {
    w.(traces := w.traces[i := w.traces[i] + t])
  }

  function Noting(w: World, n: Note): World {
    w.(log := w.log + [n])
  }

  function OpenRequest(w: World, u: nat, t: nat): (r: World)
    requires Sized(w) && u < MAX_PLUGINS && t < MAX_PLUGINS
    ensures Sized(r) && r.open == w.open + [u]
  {
    var unloader := w.list.slots[u];
    var w1 := Update(w, u, unloader.(isUnloader := true));
    var target := w1.list.slots[t];
    Update(w1, t, target.(unloaderIndex := unloader.index, action := ToUnload))
      .(open := w.open + [u], reopened := w.reopened || u in w.open)
  }

  /** is_unloader marks exactly the plugins with an open request. */
  predicate FlagsAgree(l: Plist, open: seq<nat>)
    requires Bounded(l)
  {
    forall i :: 0 <= i < MAX_PLUGINS ==> (l.slots[i].isUnloader <==> i in open)
  }

  function CloseRequest(w: World, u: nat): (r: World)
    requires Sized(w) && u < MAX_PLUGINS && w.open != []
    ensures Sized(r) && r.open == w.open[..|w.open|-1]
  {
    var r := Update(w, u, w.list.slots[u].(isUnloader := false)).(open := w.open[..|w.open|-1]);
    r.(agreed := w.agreed && FlagsAgree(r.list, r.open))
  }

  function FindTarget(l: Plist, t: Target): (r: Option<nat>)
    requires Bounded(l)
    ensures r.Some? ==> r.value < l.endlist && l.slots[r.value].status != Empty
  {
    match t
    case ByHandle(h) => FindByHandle(l, h)
    case ByIndex(i) => if 1 <= i <= l.endlist && l.slots[i-1].status != Empty then Some(i - 1) else None
  }

  datatype Reply = Reply(world: World, ok: bool, errno: Errno)

  /** plugin_unload() on the plugin that is named. */
  function Serve(w: World, r: Request): (o: Reply)
    requires Sized(w)
    ensures Sized(o.world) && o.world.open == w.open
    decreases r, 0
  {
    var t := FindTarget(w.list, r.target);
    if t.None? then Reply(w, false, NotFound)
    else
      var u := FindByInfo(w.list, r.plid);
      if u.None? then Reply(w, false, BadReq)
      else if u == t then Reply(w, false, UnloadSelf)
      else if w.list.slots[t.value].isUnloader then Reply(w, false, UnloadUnloader)
      else ServeOpen(w, u.value, t.value, r)
  }

  /** A request of slot u for slot t that is not turned down at once. */
  function ServeOpen(w: World, u: nat, t: nat, r: Request): (o: Reply)
    requires Sized(w) && u < MAX_PLUGINS && t < MAX_PLUGINS
    ensures Sized(o.world) && o.world.open == w.open
    decreases r.nested, |r.nested| + 2
  {
    var o := ServeUnload(OpenRequest(w, u, t), t, r);
    var w1 := CloseRequest(o.world, u);
    if !o.ok && o.errno == Delayed then
      Reply(Update(w1, t, w1.list.slots[t].(action := w.list.slots[t].action)), false, NotAllowed)
    else o.(world := w1)
  }

  /** unload() on slot t, with the requests that its detach leads to. */
  function ServeUnload(w: World, t: nat, r: Request): (o: Reply)
    requires Sized(w) && t < MAX_PLUGINS
    ensures Sized(o.world) && o.world.open == w.open
    decreases r.nested, |r.nested| + 1
  {
    match UnloadDecision(w.list.slots[t], r.now, r.reason)
    case Refuse(p, e) => Reply(Noting(Update(w, t, p), Denied(t, e)), false, e)
    case Proceed(p) =>
      var w1 := Start(w, t, p, r);
      if p.handle.None? then Reply(Finish(w1, t), true, NoError)
      else
        var w2 := ServeAll(w1, r.nested, |r.nested|);
        if r.detachError.Some? && r.reason != Reloading && r.reason != CmdForced
        then Reply(w2, false, r.detachError.value)
        else Reply(Finish(w2, t), true, NoError)
  }

  function ServeAll(w: World, rs: seq<Request>, n: nat): (v: World)
    requires Sized(w) && n <= |rs|
    ensures Sized(v) && v.open == w.open
    decreases rs, n
  {
    if n == 0 then w else Serve(ServeAll(w, rs, n - 1), rs[n-1]).world
  }

  /** unload() has decided to go on with p, and calls detach(). */
  function Start(w: World, t: nat, p: Record, r: Request): (v: World)
    requires Sized(w) && t < MAX_PLUGINS && InfoKnown(p)
    ensures Sized(v)
  {
    Noting(Using(Update(w, t, p), t, DetachEvents(p, r.now, r.reason, r.detachError)), Started(t))
  }

  /** And what follows the detach. */
  function Finish(w: World, t: nat): (v: World)
    requires Sized(w) && t < MAX_PLUGINS
    ensures Sized(v)
  {
    var p := w.list.slots[t];
    Noting(Using(Update(w, t, UnloadFinish(p)), t, FinishEvents(p)), Finished(t, w.open))
  }

  /** Nothing has been asked for yet. */
  function Calm(l: Plist): (w: World)
    requires Bounded(l)
    ensures Sized(w) && w.list == l && w.open == [] && w.log == [] && !w.reopened && w.agreed
    ensures forall s :: 0 <= s < MAX_PLUGINS ==> w.traces[s] == []
  {
    World(l, seq(MAX_PLUGINS, _ => []), [], [], false, true)
  }
}
