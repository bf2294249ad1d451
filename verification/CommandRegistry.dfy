/**
 The list of console commands that plugins register (MRegCmdList in dep/metamod/mreg.cpp, and its users in
 reg_support.cpp).
 */
module CommandRegistry {
  import opened Common
  import opened Registrations
  import opened Strings

  const CMD_GROWSIZE: nat := 32

  datatype MRegCmd = MRegCmd(index: nat, name: Option<string>, pfnCmd: Option<Function>, plugid: nat, valid: bool)

  function InitCmd(index: nat): MRegCmd {
    MRegCmd(index, None, None, 0, false)
  }

  ghost predicate Agrees(c: MRegCmd, h: seq<Event>) {
    && c.name.Some?
    && c.valid == Serving(h, c.name.value).Some?
    && (c.valid ==> Serving(h, c.name.value).value == Handler(c.pfnCmd, c.plugid))
  }

  /** The entries in use, with what the engine was told, agree with a history. */
  ghost predicate AllAgree(cmds: seq<MRegCmd>, h: seq<Event>) {
    && |cmds| == |Told(h)|
    && forall i :: 0 <= i < |cmds| ==> cmds[i].name == Some(Told(h)[i]) && Agrees(cmds[i], h)
  }

  function Registering(c: MRegCmd, fn: Option<Function>, owner: nat): MRegCmd {
    c.(pfnCmd := fn, plugid := owner, valid := true)
  }

  lemma RegisteringAgrees(cmds: seq<MRegCmd>, h: seq<Event>, i: nat, name: string, fn: Option<Function>, owner: nat)
    requires AllAgree(cmds, h) && i < |cmds| && SameName(Told(h)[i], name)
    ensures AllAgree(cmds[i := Registering(cmds[i], fn, owner)], h + [Registered(name, fn, owner)])
  {
    ServingAfter(h, name, fn, owner, i);
  }

  lemma NewNameAgrees(cmds: seq<MRegCmd>, h: seq<Event>, name: string, fn: Option<Function>, owner: nat)
    requires AllAgree(cmds, h) && !Known(Told(h), name)
    ensures AllAgree(cmds + [Registering(InitCmd(|cmds| + 1).(name := Some(name)), fn, owner)],
                     h + [Registered(name, fn, owner)])
  {
    ServingAfterNew(h, name, fn, owner);
  }

  function Disabling(c: MRegCmd, owner: nat): MRegCmd {
    if c.plugid == owner then c.(valid := false) else c
  }

  lemma DisablingAgrees(before: seq<MRegCmd>, after: seq<MRegCmd>, h: seq<Event>, owner: nat)
    requires AllAgree(before, h) && |after| == |before|
    requires forall i :: 0 <= i < |before| ==> after[i] == Disabling(before[i], owner)
    ensures AllAgree(after, h + [Unloaded(owner)])
  {
    assert (h + [Unloaded(owner)])[..|h|] == h;
    forall i | 0 <= i < |after| ensures after[i].name == Some(Told(h)[i]) && Agrees(after[i], h + [Unloaded(owner)]) {
      assert Agrees(before[i], h);
    }
  }

  lemma FailingAgrees(cmds: seq<MRegCmd>, h: seq<Event>, i: nat, name: string)
    requires AllAgree(cmds, h) && i < |cmds| && SameName(Told(h)[i], name)
    ensures AllAgree(cmds[i := cmds[i].(valid := false, pfnCmd := None)], h + [Failed(name)])
  {
    assert (h + [Failed(name)])[..|h|] == h;
    EachNameIsToldOnce(h);
    forall k | 0 <= k < |cmds| && k != i ensures !SameName(name, Told(h)[k]) {
      assert SameName(name, Told(h)[k]) ==> SameName(Told(h)[i], Told(h)[k]) && SameName(Told(h)[k], Told(h)[i]);
    }
  }

  class MRegCmdList {
    var mlist: array<MRegCmd>
    var endlist: nat
    ghost var told: seq<string>  // the names registered with the engine, in order
    ghost var history: seq<Event>

    /** Places are numbered from 1; unused ones are as initialized. */
    ghost predicate Shape()
      reads this, mlist
    {
      && endlist <= mlist.Length && mlist.Length % CMD_GROWSIZE == 0
      && (forall i :: 0 <= i < mlist.Length ==> mlist[i].index == i + 1)
      && (forall i :: endlist <= i < mlist.Length ==> mlist[i] == InitCmd(i + 1))
    }

    /** The list, what the engine was told and the history agree. */
    ghost predicate Valid()
      reads this, mlist
    {
      Shape() && told == Told(history) && AllAgree(mlist[..endlist], history)
    }

    constructor ()
      ensures Valid() && fresh(mlist) && told == [] && history == []
      ensures mlist.Length == 32 && endlist == 0
    {
      mlist := new MRegCmd[CMD_GROWSIZE](i requires i >= 0 => InitCmd(i + 1));
      endlist := 0;
      told, history := [], [];
    }

    /** The first entry with this name in any case. */
    method Find(name: string) returns (i: Option<nat>)
      requires Valid()
      ensures i.Some? <==> Known(Told(history), name)
      ensures i.Some? ==> i.value < endlist && SameName(Told(history)[i.value], name)
    {
      hide Told, Agrees;
      var n := 0;
      while n < endlist
        invariant n <= endlist
        invariant forall k :: 0 <= k < n ==> !SameName(Told(history)[k], name)
      {
        assert mlist[..endlist][n].name == Some(Told(history)[n]);
        if SameName(mlist[n].name.value, name) {
          return Some(n);
        }
        n := n + 1;
      }
      return None;
    }

    /** Every entry keeps its place and its index, also when the list grows. */
    method Add(name: string) returns (i: nat)
      requires Shape()
      modifies this`mlist, this`endlist, mlist
      ensures Shape() && (mlist == old(mlist) || fresh(mlist))
      ensures mlist.Length == old(mlist.Length) + if old(endlist == mlist.Length) then 32 else 0
      ensures i == old(endlist) && endlist == i + 1
      ensures mlist[..endlist] == old(mlist[..endlist]) + [InitCmd(i + 1).(name := Some(name))]
    {
      if endlist == mlist.Length {
        var grown := new MRegCmd[mlist.Length + CMD_GROWSIZE](k requires k >= 0 => InitCmd(k + 1));
        for k := 0 to endlist
          modifies grown
          invariant forall j :: 0 <= j < k ==> grown[j] == mlist[j]
          invariant forall j :: k <= j < grown.Length ==> grown[j] == InitCmd(j + 1)
        {
          grown[k] := mlist[k];
        }
        mlist := grown;
      }
      i := endlist;
      mlist[i] := mlist[i].(name := Some(name));
      endlist := endlist + 1;
    }

    /** REG_SVR_COMMAND hands a name to the engine only when it is new; else its old entry serves again. */
    method AddServerCommand(name: string, fn: Option<Function>, plugin: Option<nat>)
      requires Valid()
      modifies this, mlist
      ensures Valid() && (mlist == old(mlist) || fresh(mlist))
      ensures history == old(history) + [Registered(name, fn, plugin.GetOr(0))]
      ensures told == if Known(old(told), name) then old(told) else old(told) + [name]
      ensures endlist == |told|
      ensures forall k :: 0 <= k < old(endlist) && !SameName(old(told)[k], name) ==>
        mlist[..endlist][k] == old(mlist[..endlist])[k]
    {
      hide Told, Agrees, SameName, Known, Serving, Registering;
      ghost var owner, h := plugin.GetOr(0), history;
      ghost var cmds, after := mlist[..endlist], [];
      var i;
      var found := Find(name);
      if found.Some? {
        i := found.value;
        RegisteringAgrees(cmds, h, i, name, fn, owner);
        after := cmds[i := Registering(cmds[i], fn, owner)];
      } else {
        i := Add(name);
        told := told + [name];
        NewNameAgrees(cmds, h, name, fn, owner);
        after := cmds + [Registering(InitCmd(|cmds| + 1).(name := Some(name)), fn, owner)];
      }
      Own(i, fn, plugin.GetOr(0));
      history := history + [Registered(name, fn, owner)];
      ToldAfter(h, name, fn, owner);
      assert mlist[..endlist] == after;
    }

    method Own(i: nat, fn: Option<Function>, owner: nat)
      requires Shape() && i < endlist
      modifies mlist
      ensures Shape() && mlist[..endlist] == old(mlist[..endlist])[i := Registering(old(mlist[i]), fn, owner)]
    {
      mlist[i] := Registering(mlist[i], fn, owner);
    }

    /** What the unload of a plugin does here. */
    method Disable(plugin: nat)
      requires Valid()
      modifies this`history, mlist
      ensures Valid()
      ensures history == old(history) + [Unloaded(plugin)]
      ensures forall i :: 0 <= i < endlist && mlist[i].valid ==> mlist[i].plugid != plugin
      ensures forall i :: 0 <= i < endlist && old(mlist[i].plugid) != plugin ==> mlist[i] == old(mlist[i])
    {
      hide Told, Agrees;
      for i := 0 to mlist.Length
        modifies mlist
        invariant forall k :: 0 <= k < i ==> mlist[k] == Disabling(old(mlist[k]), plugin)
        invariant forall k :: i <= k < mlist.Length ==> mlist[k] == old(mlist[k])
      {
        if mlist[i].plugid == plugin {
          mlist[i] := mlist[i].(valid := false);
        }
      }
      history := history + [Unloaded(plugin)];
      DisablingAgrees(old(mlist[..endlist]), mlist[..endlist], old(history), plugin);
      NothingTold(old(history), Unloaded(plugin));
    }

    /**
     meta_command_handler and MRegCmd::call: the function that serves the name is called, and no other; `mapped`
     says whether it is still there.  `unavailable` is the message to the console.
     */
    method HandleCommand(cmd: Option<string>, mapped: bool) returns (called: Option<Function>, unavailable: bool)
      requires Valid()
      modifies this`history, mlist
      ensures Valid()
      ensures var s := if cmd.Some? then Serving(old(history), cmd.value) else None;
        var fn := if s.Some? then s.value.fn else None;
        && called == (if mapped then fn else None)
        && history == (if fn.Some? && !mapped then old(history) + [Failed(cmd.value)] else old(history))
      ensures unavailable <==> cmd.Some? && Known(told, cmd.value) && called.None?
    {
      hide Told, Serving, SameName;
      if cmd.None? {
        return None, false;
      }
      var i := Find(cmd.value);
      if i.None? {
        ServedIsTold(history, cmd.value);
        return None, false;
      }
      var c := mlist[i.value];
      assert c == mlist[..endlist][i.value] && Agrees(c, history);
      CaseDoesNotMatter(history, told[i.value], cmd.value);
      if !c.valid || c.pfnCmd.None? {
        return None, true;
      }
      if mapped {
        return c.pfnCmd, false;
      }
      ghost var cmds := mlist[..endlist];
      FailingAgrees(cmds, history, i.value, cmd.value);
      NothingTold(history, Failed(cmd.value));
      mlist[i.value] := c.(valid := false, pfnCmd := None);
      assert mlist[..endlist] == cmds[i.value := c.(valid := false, pfnCmd := None)];
      history := history + [Failed(cmd.value)];
      return None, true;
    }
  }
}
