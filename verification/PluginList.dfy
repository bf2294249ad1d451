/** Metamod's plugin list (dep/metamod/mlist.cpp) as the program keeps it: 50 MPlugin objects in place. */
module PluginList {
  import opened Common
  import opened Strings
  import opened Plugin
  import opened PluginListSpec
  import opened UnloadNest

  datatype Lookup = Found(slot: nat) | Missing | NotUnique

  class MPluginList {
    const plist: seq<MPlugin>
    var endlist: nat
    // what no code keeps, for the requests of plugins to unload plugins
    ghost var open: seq<nat>
    ghost var log: seq<Note>
    ghost var reopened: bool
    ghost var agreed: bool

    ghost predicate Valid()
      reads this`endlist, plist
    {
      && |plist| == MAX_PLUGINS
      && (forall i, j :: 0 <= i < j < MAX_PLUGINS ==> plist[i] != plist[j])
      && Bounded(List())
    }

    ghost function List(): (l: Plist)
      reads this`endlist, plist
      ensures |l.slots| == |plist| && l.endlist == endlist
      ensures forall i :: 0 <= i < |plist| ==> l.slots[i] == plist[i].Fields()
    {
      Plist(seq(|plist|, i requires 0 <= i < |plist| reads plist => plist[i].Fields()), endlist)
    }

    ghost function Traces(): (t: seq<seq<Event>>)
      reads plist
      ensures |t| == |plist| && forall i :: 0 <= i < |plist| ==> t[i] == plist[i].trace
    {
      seq(|plist|, i requires 0 <= i < |plist| reads plist => plist[i].trace)
    }

    ghost function State(): World
      reads this, plist
    {
      World(List(), Traces(), open, log, reopened, agreed)
    }

    constructor ()
      ensures Valid() && endlist == 0
      ensures forall i :: 0 <= i < MAX_PLUGINS ==> plist[i].Fields() == EmptySlot(i + 1) && fresh(plist[i])
      ensures open == [] && log == [] && !reopened && agreed
    {
      var slots: seq<MPlugin> := [];
      for i := 0 to MAX_PLUGINS
        invariant |slots| == i
        invariant forall j :: 0 <= j < i ==> fresh(slots[j]) && slots[j].Fields() == EmptySlot(j + 1)
        invariant forall j, k :: 0 <= j < k < i ==> slots[j] != slots[k]
      {
        var p := new MPlugin(i + 1);
        slots := slots + [p];
      }
      plist := slots;
      endlist := 0;
      open, log, reopened, agreed := [], [], false, true;
    }

    // ----- lookups -----

    method FindPath(path: string) returns (r: Option<nat>)
      requires Valid()
      ensures r == FindByPath(List(), path)
    {
      for i := 0 to endlist
        invariant forall j :: 0 <= j < i ==> plist[j].status == Empty || plist[j].pathname != path
      {
        if plist[i].status != Empty && plist[i].pathname == path {
          return Some(i);
        }
      }
      return None;
    }

    method FindInfo(id: nat) returns (r: Option<nat>)
      requires Valid()
      ensures r == FindByInfo(List(), id)
    {
      for i := 0 to endlist
        invariant forall j :: 0 <= j < i ==> plist[j].status == Empty || !HasId(plist[j].Fields(), id)
      {
        if plist[i].status != Empty && HasId(plist[i].Fields(), id) {
          return Some(i);
        }
      }
      return None;
    }

    method FindHandle(handle: Handle) returns (r: Option<nat>)
      requires Valid()
      ensures r == FindByHandle(List(), handle)
    {
      for i := 0 to endlist
        invariant forall j :: 0 <= j < i ==> plist[j].status == Empty || plist[j].handle != Some(handle)
      {
        if plist[i].status != Empty && plist[i].handle == Some(handle) {
          return Some(i);
        }
      }
      return None;
    }

    method FindPlatform(p: Record) returns (r: Option<nat>)
      requires Valid() && InfoKnown(p)
      ensures r == FindMatch(List(), p)
    {
      for i := 0 to endlist
        invariant forall j :: 0 <= j < i ==> !PlatformMatch(p, List().slots[j])
      {
        assert List().slots[i] == plist[i].Fields();
        if PlatformMatch(p, plist[i].Fields()) {
          return Some(i);
        }
      }
      return None;
    }

    /** find_match(prefix): a plugin is found exactly when it is the only one that answers to the prefix. */
    method FindPrefix(prefix: string) returns (r: Lookup)
      requires Valid()
      ensures r.Found? <==>
                exists i :: 0 <= i < endlist && AnswersTo(plist[i].Fields(), prefix)
                            && forall j :: 0 <= j < endlist && AnswersTo(plist[j].Fields(), prefix) ==> j == i
      ensures r.Found? ==> r.slot < endlist && AnswersTo(plist[r.slot].Fields(), prefix)
      ensures r.Missing? <==> forall i :: 0 <= i < endlist ==> !AnswersTo(plist[i].Fields(), prefix)
    {
      r := Missing;
      for i := 0 to endlist
        invariant r.Missing? || r.Found?
        invariant r.Missing? ==> forall j :: 0 <= j < i ==> !AnswersTo(plist[j].Fields(), prefix)
        invariant r.Found? ==> r.slot < i && AnswersTo(plist[r.slot].Fields(), prefix)
        invariant r.Found? ==> forall j :: 0 <= j < i && AnswersTo(plist[j].Fields(), prefix) ==> j == r.slot
      {
        if AnswersTo(plist[i].Fields(), prefix) {
          if r.Found? {
            return NotUnique;
          }
          r := Found(i);
        }
      }
    }

    // ----- adding -----

    method AddEntry(e: Entry) returns (r: Option<nat>)
      requires Valid()
      modifies this`endlist, plist
      ensures Valid()
      ensures match Add(old(List()), e)
              case None => r == None && List() == old(List())
              case Some((l, k)) => r == Some(k) && List() == l
    {
      hide List;
      var i := 0;
      while i < endlist && plist[i].status != Empty
        invariant i <= endlist && FreeSlot(List(), 0) == FreeSlot(List(), i)
      {
        i := i + 1;
      }
      if i == MAX_PLUGINS {
        return None;
      }
      if i == endlist {
        endlist := endlist + 1;
      }
      plist[i].Fill(e.filename, e.file, e.desc, e.pathname, e.source);
      assert List().slots == old(List()).slots[i := Filled(old(List()).slots[i], e)];
      return Some(i);
    }

    method ZeroSlot(i: nat)
      requires Valid() && i < MAX_PLUGINS
      modifies plist[i]
      ensures Valid() && List() == Wipe(old(List()), i)
    {
      plist[i].Zero();
      assert List().slots == Wipe(old(List()), i).slots;
    }

    method Mark(i: nat, a: Action)
      requires Valid() && i < MAX_PLUGINS
      modifies plist[i]
      ensures Valid() && List() == SetAction(old(List()), i, a)
    {
      plist[i].action := a;
      assert List().slots == SetAction(old(List()), i, a).slots;
    }

    // ----- plugins.ini -----

    method IniStartup(lines: seq<Line>)
      requires Valid()
      modifies this`endlist, plist
      ensures Valid() && List() == StartupLines(old(List()), lines, |lines|)
    {
      for k := 0 to |lines|
        invariant Valid() && List() == StartupLines(old(List()), lines, k)
      {
        if lines[k].Line? && endlist < MAX_PLUGINS {
          TakeStartupEntry(lines[k].entry);
        }
      }
    }

    method TakeStartupEntry(e: Entry)
      requires Valid() && endlist < MAX_PLUGINS
      modifies this`endlist, plist
      ensures Valid() && List() == StartupLine(old(List()), Line(e))
    {
      hide List, FindByPath, FindMatch, PlatformMatch, Wipe, SetAction;
      var n := endlist;
      ParseInto(n, e);
      var same := FindPath(e.pathname);
      if same.Some? {
        return;
      }
      var m := FindPlatform(plist[n].Fields());
      if m.Some? {
        if plist[m.value].pfspecific >= e.pfspecific {
          return;
        }
        ZeroSlot(m.value);
      }
      Mark(n, ToLoad);
      endlist := n + 1;
    }

    method ParseInto(n: nat, e: Entry)
      requires Valid() && n < MAX_PLUGINS
      modifies plist[n]
      ensures Valid()
      ensures var p := Filled(old(List()).slots[n], e).(pfspecific := e.pfspecific, source := FromIni);
              List() == old(List()).(slots := old(List()).slots[n := p])
    {
      plist[n].Fill(e.filename, e.file, e.desc, e.pathname, FromIni);
      plist[n].pfspecific := e.pfspecific;
      ghost var p := Filled(old(List()).slots[n], e).(pfspecific := e.pfspecific, source := FromIni);
      assert List().slots == old(List()).slots[n := p];
    }

    method IniRefresh(lines: seq<Line>, disk: Disk)
      requires Valid()
      modifies this`endlist, plist
      ensures Valid() && List() == MarkLines(old(List()), lines, |lines|, disk).0
    {
      var n := 0;
      for k := 0 to |lines|
        invariant Valid() && (List(), n) == MarkLines(old(List()), lines, k, disk)
      {
        if lines[k].Line? && n < MAX_PLUGINS {
          n := TakeEntry(lines[k].entry, n, disk);
        }
      }
    }

    method TakeEntry(e: Entry, n: nat, disk: Disk) returns (newN: nat)
      requires Valid() && n < MAX_PLUGINS
      modifies this`endlist, plist
      ensures Valid() && (List(), newN) == RefreshLine(old(List()), n, Line(e), disk)
    {
      hide List, FindByPath, RefreshNew;
      var found := FindPath(e.pathname);
      match found {
        case None =>
          newN := TakeNewEntry(e, n);
        case Some(k) =>
          newN := n;
          if e.desc == "" || e.desc[0] != '<' {
            plist[k].desc := e.desc;
          }
          if plist[k].pathname in disk {
            if disk[plist[k].pathname] <= plist[k].timeLoaded {
              plist[k].action := Keep;
            } else if plist[k].status.Rank() >= Opened.Rank() {
              plist[k].action := ToReload;
            }
            newN := n + 1;
          }
          assert List().slots == RefreshKnown(old(List()), n, k, e, disk).0.slots;
      }
    }

    method TakeNewEntry(e: Entry, n: nat) returns (newN: nat)
      requires Valid() && n < MAX_PLUGINS
      modifies this`endlist, plist
      ensures Valid() && (List(), newN) == RefreshNew(old(List()), n, e)
    {
      hide List, FindMatch, Wipe;
      var ini := e.(source := FromIni);
      var m := FindPlatform(Parsed(e).(source := FromIni));
      if m.Some? {
        if plist[m.value].pfspecific >= e.pfspecific || plist[m.value].action != ToLoad {
          return n;
        }
        ZeroSlot(m.value);
      }
      var added := AddEntry(ini);
      if added.None? {
        return n;
      }
      Mark(added.value, ToLoad);
      return n + 1;
    }

    /** refresh(): mark, then sweep every slot. */
    method RefreshFrom(lines: seq<Line>, disk: Disk, now: LoadTime, envs: seq<Env>)
      requires Valid() && |envs| == MAX_PLUGINS
      modifies this`endlist, plist
      ensures Valid() && List() == Refresh(old(List()), lines, disk, now, envs)
    {
      IniRefresh(lines, disk);
      ghost var m := List();
      for i := 0 to endlist
        invariant Valid() && endlist == m.endlist && List().slots == Swept(m.slots, i, now, envs)
      {
        SweepOne(i, now, envs[i]);
      }
    }

    method SweepOne(i: nat, now: LoadTime, env: Env)
      requires Valid() && i < MAX_PLUGINS
      modifies plist[i]
      ensures Valid()
      ensures var o := SweepSlot(old(List()).slots[i], now, env);
              && List() == old(List()).(slots := old(List()).slots[i := o.plugin])
              && plist[i].trace == old(plist[i].trace) + o.events
    {
      SweepPlugin(plist[i], now, env);
      assert List().slots == old(List()).slots[i := SweepSlot(old(List()).slots[i], now, env).plugin];
    }

    static method SweepPlugin(p: MPlugin, now: LoadTime, env: Env)
      requires InfoKnown(p.Fields())
      modifies p
      ensures p.Became(SweepSlot(old(p.Fields()), now, env))
    {
      if p.status == Empty {
        return;
      }
      match p.action {
        case Keep =>
          p.action := NoAction;
        case ToLoad =>
          var _, _ := p.Load(now, env);
        case ToReload =>
          var _, _ := p.Reload(now, FileNewer, env);
        case NoAction =>
          if p.source == FromIni && p.status.Rank() >= Running.Rank() {
            p.action := ToUnload;
            var _, _ := p.Unload(now, IniDeleted, env);
          }
        case ToAttach =>
          var _, _ := p.Retry(now, Delay, env);
        case ToUnload =>
          var _, _ := p.Retry(now, Delay, env);
        case NullAction =>
      }
    }

    // ----- loading one more plugin -----

    /** cmd_addload(), and plugin_addload() once the plugin that asks is known to be in the list. */
    method AddAndLoad(e: Entry, now: LoadTime, env: Env) returns (ok: bool, errno: Errno)
      requires Valid()
      modifies this`endlist, plist
      ensures Valid() && (List(), ok, errno) == AddLoad(old(List()), e, now, env)
    {
      hide List, FindByPath, LoadAdded;
      var same := FindPath(e.pathname);
      if same.Some? {
        return false, Already;
      }
      var added := AddEntry(e);
      if added.None? {
        return false, MaxReached;
      }
      ok, errno := LoadSlot(added.value, e.source, now, env);
    }

    method LoadSlot(k: nat, source: Source, now: LoadTime, env: Env) returns (ok: bool, errno: Errno)
      requires Valid() && k < MAX_PLUGINS
      modifies plist[k]
      ensures Valid()
      ensures var o := LoadAdded(old(List()).slots[k], source, now, env);
              && List() == old(List()).(slots := old(List()).slots[k := o.plugin]) && ok == o.ok && errno == o.errno
              && plist[k].trace == old(plist[k].trace) + o.events
    {
      hide List, LoadAdded;
      ok, errno := LoadOrDrop(plist[k], source, now, env);
      assert List().slots == old(List()).slots[k := LoadAdded(old(List()).slots[k], source, now, env).plugin];
    }

    static method LoadOrDrop(p: MPlugin, source: Source, now: LoadTime, env: Env) returns (ok: bool, errno: Errno)
      requires InfoKnown(p.Fields())
      modifies p
      ensures var o := LoadAdded(old(p.Fields()), source, now, env); p.Became(o) && ok == o.ok && errno == o.errno
    {
      hide LoadOutcome, ClearOutcome;
      p.action := ToLoad;
      ok, errno := p.Load(now, env);
      if !ok && (errno == NotAllowed || (errno == Delayed && source == FromPlugin)) {
        var _, _ := p.Clear();
      }
    }

    // ----- plugins that unload plugins -----

    method FindNamed(t: Target) returns (r: Option<nat>)
      requires Valid()
      ensures r == FindTarget(List(), t)
    {
      match t {
        case ByHandle(h) =>
          r := FindHandle(h);
        case ByIndex(i) =>
          r := if 1 <= i <= endlist && plist[i-1].status != Empty then Some(i - 1) else None;
      }
    }

    method PluginUnload(r: Request) returns (ok: bool, errno: Errno)
      requires Valid()
      modifies this, plist
      ensures Valid()
      ensures var o := Serve(old(State()), r); State() == o.world && ok == o.ok && errno == o.errno
      decreases r, 0
    {
      hide List, Traces, FindTarget, FindByInfo, ServeOpen;
      var found := FindNamed(r.target);
      if found.None? {
        return false, NotFound;
      }
      var t := found.value;
      var unloader := FindInfo(r.plid);
      if unloader.None? {
        return false, BadReq;
      }
      var u := unloader.value;
      if u == t {
        return false, UnloadSelf;
      }
      if plist[t].isUnloader {
        return false, UnloadUnloader;
      }
      ok, errno := ServeBetween(u, t, r);
    }

    method ServeBetween(u: nat, t: nat, r: Request) returns (ok: bool, errno: Errno)
      requires Valid() && u < MAX_PLUGINS && t < MAX_PLUGINS && u != t
      modifies this, plist
      ensures Valid()
      ensures var o := ServeOpen(old(State()), u, t, r); State() == o.world && ok == o.ok && errno == o.errno
      decreases r.nested, |r.nested| + 2
    {
      hide List, Traces, ServeUnload, OpenRequest, CloseRequest, FlagsAgree;
      var oldAction := plist[t].action;
      BeginRequest(u, t);
      ok, errno := UnloadSlot(t, r);
      EndRequest(u);
      if !ok && errno == Delayed {
        PutBack(t, oldAction);
        errno := NotAllowed;
      }
    }

    method PutBack(t: nat, a: Action)
      requires Valid() && t < MAX_PLUGINS
      modifies plist[t]
      ensures Valid() && State() == Update(old(State()), t, old(List()).slots[t].(action := a))
    {
      hide List, Traces;
      plist[t].action := a;
      assert Traces() == old(Traces());
      assert List().slots == old(List()).slots[t := old(List()).slots[t].(action := a)];
    }

    method BeginRequest(u: nat, t: nat)
      requires Valid() && u < MAX_PLUGINS && t < MAX_PLUGINS && u != t
      modifies this, plist
      ensures Valid() && State() == OpenRequest(old(State()), u, t)
    {
      hide List, Traces;
      SetUnloader(u, true);
      MarkToUnload(t, plist[u].index);
      Opening(u);
    }

    ghost method Opening(u: nat)
      requires Valid()
      modifies this`open, this`reopened
      ensures Valid()
      ensures State() == old(State()).(open := old(open) + [u], reopened := old(reopened) || u in old(open))
    {
      hide List, Traces;
      reopened := reopened || u in open;
      open := open + [u];
    }

    ghost method Note(n: Note)
      requires Valid()
      modifies this`log
      ensures Valid() && State() == Noting(old(State()), n)
    {
      hide List, Traces;
      log := log + [n];
    }

    method MarkToUnload(t: nat, unloaderIndex: nat)
      requires Valid() && t < MAX_PLUGINS
      modifies plist[t]
      ensures Valid()
      ensures State() == Update(old(State()), t,
                                old(List()).slots[t].(unloaderIndex := unloaderIndex, action := ToUnload))
    {
      hide List, Traces;
      plist[t].unloaderIndex := unloaderIndex;
      plist[t].action := ToUnload;
      assert Traces() == old(Traces());
      ghost var p := old(List()).slots[t].(unloaderIndex := unloaderIndex, action := ToUnload);
      assert List().slots == old(List()).slots[t := p];
    }

    method SetUnloader(u: nat, flag: bool)
      requires Valid() && u < MAX_PLUGINS
      modifies plist[u]
      ensures Valid() && State() == Update(old(State()), u, old(List()).slots[u].(isUnloader := flag))
    {
      hide List, Traces;
      plist[u].isUnloader := flag;
      assert Traces() == old(Traces());
      assert List().slots == old(List()).slots[u := old(List()).slots[u].(isUnloader := flag)];
    }

    method EndRequest(u: nat)
      requires Valid() && u < MAX_PLUGINS && open != []
      modifies this, plist
      ensures Valid() && State() == CloseRequest(old(State()), u)
    {
      hide List, Traces, FlagsAgree;
      SetUnloader(u, false);
      open := open[..|open|-1];
      agreed := agreed && FlagsAgree(List(), open);
    }

    /** unload(), with the requests that the plugin and others make while it is detached. */
    method UnloadSlot(t: nat, r: Request) returns (ok: bool, errno: Errno)
      requires Valid() && t < MAX_PLUGINS
      modifies this, plist
      ensures Valid()
      ensures var o := ServeUnload(old(State()), t, r); State() == o.world && ok == o.ok && errno == o.errno
      decreases r.nested, |r.nested| + 1
    {
      hide List, Traces, ServeAll, Finish, DetachEvents, UnloadDecision;
      ok, errno := DecideSlot(t, r.now, r.reason);
      if !ok {
        return;
      }
      StartSlot(t, r);
      if plist[t].handle.Some? {
        ServeRequests(r.nested);
        if r.detachError.Some? && r.reason != Reloading && r.reason != CmdForced {
          return false, r.detachError.value;
        }
      }
      FinishSlot(t);
      return true, NoError;
    }

    method DecideSlot(t: nat, now: LoadTime, reason: Reason) returns (ok: bool, errno: Errno)
      requires Valid() && t < MAX_PLUGINS
      modifies this`log, plist[t]
      ensures Valid()
      ensures match UnloadDecision(old(List()).slots[t], now, reason)
              case Refuse(p, e) => !ok && errno == e && State() == Noting(Update(old(State()), t, p), Denied(t, e))
              case Proceed(p) => ok && State() == Update(old(State()), t, p)
    {
      hide List, Traces, UnloadDecision;
      ok, errno := plist[t].MayUnload(now, reason);
      assert Traces() == old(Traces());
      assert List().slots == old(List()).slots[t := UnloadDecision(old(List()).slots[t], now, reason).plugin];
      if !ok {
        Note(Denied(t, errno));
      }
    }

    method StartSlot(t: nat, r: Request)
      requires Valid() && t < MAX_PLUGINS
      modifies this`log, plist[t]
      ensures Valid()
      ensures State() == Noting(Using(old(State()), t,
                                      DetachEvents(old(List()).slots[t], r.now, r.reason, r.detachError)), Started(t))
    {
      hide List, Traces, DetachEvents;
      var _, _ := plist[t].DetachFrom(r.now, r.reason, r.detachError);
      Note(Started(t));
      assert List().slots == old(List()).slots;
      assert Traces() == old(Traces())[t := plist[t].trace];
    }

    method FinishSlot(t: nat)
      requires Valid() && t < MAX_PLUGINS
      modifies this`log, plist[t]
      ensures Valid() && State() == Finish(old(State()), t)
    {
      hide List, Traces, FinishEvents, UnloadFinish;
      plist[t].FinishUnload();
      Note(Finished(t, open));
      assert List().slots == old(List()).slots[t := UnloadFinish(old(List()).slots[t])];
      assert Traces() == old(Traces())[t := plist[t].trace];
    }

    method ServeRequests(rs: seq<Request>)
      requires Valid()
      modifies this, plist
      ensures Valid() && State() == ServeAll(old(State()), rs, |rs|)
      decreases rs, 0
    {
      hide List, Traces, Serve;
      for i := 0 to |rs|
        invariant Valid() && State() == ServeAll(old(State()), rs, i)
      {
        var _, _ := PluginUnload(rs[i]);
      }
    }
  }

  /** A plugin in use answers to the start of its name, description, file (with or without "mm_") or log tag. */
  predicate AnswersTo(p: Record, prefix: string) {
    && p.status != Empty
    && (|| (p.info.Some? && HasPrefix(p.info.value.name, prefix))
        || HasPrefix(p.desc, prefix)
        || HasPrefix(p.file, prefix)
        || HasPrefix(p.file, "mm_" + prefix)
        || (p.info.Some? && HasPrefix(p.info.value.logtag, prefix)))
  }
}
