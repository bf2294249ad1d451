/**
 The list of cvars that plugins register (MRegCvarList in dep/metamod/mreg.cpp, and meta_CVarRegister).  A cvar is
 registered without a function.
 */
module CvarRegistry {
  import opened Common
  import opened Registrations
  import opened Strings

  const CVAR_GROWSIZE: nat := 64

  datatype Cvar = Cvar(name: string, value: string)

  datatype MRegCvar = MRegCvar(index: nat, data: Option<Cvar>, plugid: nat, valid: bool)

  function InitCvar(index: nat): MRegCvar {
    MRegCvar(index, None, 0, false)
  }

  ghost predicate Agrees(v: MRegCvar, h: seq<Event>) {
    && v.data.Some?
    && v.valid == Serving(h, v.data.value.name).Some?
    && (v.valid ==> Serving(h, v.data.value.name).value.owner == v.plugid)
  }

  /** The entries in use agree with a history; `given` is what the engine was given. */
  ghost predicate AllAgree(vars: seq<MRegCvar>, given: seq<Cvar>, h: seq<Event>) {
    && |vars| == |given| == |Told(h)|
    && forall i :: 0 <= i < |vars| ==>
         vars[i].data == Some(given[i]) && given[i].name == Told(h)[i] && Agrees(vars[i], h)
  }

  function Registering(v: MRegCvar, owner: nat): MRegCvar {
    v.(plugid := owner, valid := true)
  }

  lemma RegisteringAgrees(vars: seq<MRegCvar>, given: seq<Cvar>, h: seq<Event>, i: nat, name: string, owner: nat)
    requires AllAgree(vars, given, h) && i < |vars| && SameName(Told(h)[i], name)
    ensures AllAgree(vars[i := Registering(vars[i], owner)], given, h + [Registered(name, None, owner)])
  {
    ServingAfter(h, name, None, owner, i);
  }

  lemma NewNameAgrees(vars: seq<MRegCvar>, given: seq<Cvar>, h: seq<Event>, v: Cvar, owner: nat)
    requires AllAgree(vars, given, h) && !Known(Told(h), v.name)
    ensures AllAgree(vars + [Registering(InitCvar(|vars| + 1).(data := Some(v)), owner)], given + [v],
                     h + [Registered(v.name, None, owner)])
  {
    ServingAfterNew(h, v.name, None, owner);
  }

  function Disabling(v: MRegCvar, owner: nat): MRegCvar {
    if v.plugid == owner then v.(valid := false, plugid := 0) else v
  }

  lemma DisablingAgrees(before: seq<MRegCvar>, after: seq<MRegCvar>, given: seq<Cvar>, h: seq<Event>, owner: nat)
    requires AllAgree(before, given, h) && |after| == |before|
    requires forall i :: 0 <= i < |before| ==> after[i] == Disabling(before[i], owner)
    ensures AllAgree(after, given, h + [Unloaded(owner)])
  {
    assert (h + [Unloaded(owner)])[..|h|] == h;
    forall i | 0 <= i < |after|
      ensures after[i].data == Some(given[i]) && given[i].name == Told(h)[i] && Agrees(after[i], h + [Unloaded(owner)])
    {
      assert Agrees(before[i], h);
    }
  }

  class MRegCvarList {
    var vlist: array<MRegCvar>
    var endlist: nat
    ghost var given: seq<Cvar>  // the cvars registered with the engine, in order
    ghost var history: seq<Event>

    ghost predicate Shape()
      reads this, vlist
    {
      && endlist <= vlist.Length && vlist.Length % CVAR_GROWSIZE == 0
      && (forall i :: 0 <= i < vlist.Length ==> vlist[i].index == i + 1)
      && (forall i :: endlist <= i < vlist.Length ==> vlist[i] == InitCvar(i + 1))
    }

    ghost predicate Valid()
      reads this, vlist
    {
      Shape() && AllAgree(vlist[..endlist], given, history)
    }

    constructor ()
      ensures Valid() && fresh(vlist) && given == [] && history == []
      ensures vlist.Length == 64 && endlist == 0
    {
      vlist := new MRegCvar[CVAR_GROWSIZE](i requires i >= 0 => InitCvar(i + 1));
      endlist := 0;
      given, history := [], [];
    }

    /** The first entry with this name in any case. */
    method Find(name: string) returns (i: Option<nat>)
      requires Valid()
      ensures i.Some? <==> Known(Told(history), name)
      ensures i.Some? ==> i.value < endlist && SameName(Told(history)[i.value], name)
    {
      hide Told, Agrees;
      var n := 0;
      while n < endlist
        invariant n <= endlist
        invariant forall k :: 0 <= k < n ==> !SameName(Told(history)[k], name)
      {
        assert vlist[..endlist][n].data == Some(given[n]);
        if SameName(vlist[n].data.value.name, name) {
          return Some(n);
        }
        n := n + 1;
      }
      return None;
    }

    method Add(v: Cvar) returns (i: nat)
      requires Shape()
      modifies this`vlist, this`endlist, vlist
      ensures Shape() && (vlist == old(vlist) || fresh(vlist))
      ensures vlist.Length == old(vlist.Length) + if old(endlist == vlist.Length) then 64 else 0
      ensures i == old(endlist) && endlist == i + 1
      ensures vlist[..endlist] == old(vlist[..endlist]) + [InitCvar(i + 1).(data := Some(v))]
    {
      if endlist == vlist.Length {
        var grown := new MRegCvar[vlist.Length + CVAR_GROWSIZE](k requires k >= 0 => InitCvar(k + 1));
        for k := 0 to endlist
          modifies grown
          invariant forall j :: 0 <= j < k ==> grown[j] == vlist[j]
          invariant forall j :: k <= j < grown.Length ==> grown[j] == InitCvar(j + 1)
        {
          grown[k] := vlist[k];
        }
        vlist := grown;
      }
      i := endlist;
      vlist[i] := vlist[i].(data := Some(v));
      endlist := endlist + 1;
    }

    /** The engine gets a copy of a new cvar; a cvar registered again keeps the value it has. */
    method CVarRegister(v: Cvar, plugin: Option<nat>)
      requires Valid()
      modifies this, vlist
      ensures Valid() && (vlist == old(vlist) || fresh(vlist))
      ensures history == old(history) + [Registered(v.name, None, plugin.GetOr(0))]
      ensures given == if Known(Told(old(history)), v.name) then old(given) else old(given) + [v]
      ensures forall k :: 0 <= k < old(endlist) && !SameName(old(given)[k].name, v.name) ==>
        k < endlist && vlist[..endlist][k] == old(vlist[..endlist])[k]
    {
      hide Told, Agrees, SameName, Known, Serving, Registering;
      ghost var owner, h := plugin.GetOr(0), history;
      ghost var vars, given0, after := vlist[..endlist], given, [];
      var i;
      var found := Find(v.name);
      if found.Some? {
        i := found.value;
        RegisteringAgrees(vars, given, h, i, v.name, owner);
        after := vars[i := Registering(vars[i], owner)];
      } else {
        i := Add(v);
        given := given + [v];
        NewNameAgrees(vars, given0, h, v, owner);
        after := vars + [Registering(InitCvar(|vars| + 1).(data := Some(v)), owner)];
      }
      Own(i, plugin.GetOr(0));
      history := history + [Registered(v.name, None, owner)];
      assert vlist[..endlist] == after;
    }

    method Own(i: nat, owner: nat)
      requires Shape() && i < endlist
      modifies vlist
      ensures Shape() && vlist[..endlist] == old(vlist[..endlist])[i := Registering(old(vlist[i]), owner)]
    {
      vlist[i] := Registering(vlist[i], owner);
    }

    /** What the unload of a plugin does here: its cvars lose their owner, and keep their values. */
    method Disable(plugin: nat)
      requires Valid()
      modifies this`history, vlist
      ensures Valid()
      ensures history == old(history) + [Unloaded(plugin)]
      ensures plugin != 0 ==> forall i :: 0 <= i < endlist ==> vlist[i].plugid != plugin
      ensures forall i :: 0 <= i < endlist && vlist[i].valid ==> vlist[i].plugid != plugin
      ensures forall i :: 0 <= i < endlist ==> vlist[i].data == old(vlist[i].data)
      ensures forall i :: 0 <= i < endlist && old(vlist[i].plugid) != plugin ==> vlist[i] == old(vlist[i])
    {
      hide Told, Agrees;
      for i := 0 to vlist.Length
        modifies vlist
        invariant forall k :: 0 <= k < i ==> vlist[k] == Disabling(old(vlist[k]), plugin)
        invariant forall k :: i <= k < vlist.Length ==> vlist[k] == old(vlist[k])
      {
        if vlist[i].plugid == plugin {
          vlist[i] := vlist[i].(valid := false, plugid := 0);
        }
      }
      history := history + [Unloaded(plugin)];
      DisablingAgrees(old(vlist[..endlist]), vlist[..endlist], given, old(history), plugin);
      NothingTold(old(history), Unloaded(plugin));
    }
  }
}
