/**
 What an unload does to the commands and cvars that the plugin has registered (dep/metamod/mplugin.cpp, unload, and
 disable in dep/metamod/mreg.cpp).
 */
module Unregistering {
  import opened Common
  import opened Plugin
  import opened CommandRegistry
  import opened CvarRegistry
  import R = Registrations

  /** What a trace of a plugin says to the registries. */
  function Unloads(t: seq<Event>): seq<R.Event> {
    if t == [] then []
    else Unloads(t[..|t|-1]) + if t[|t|-1].Disabled? then [R.Unloaded(t[|t|-1].plugin)] else []
  }

  lemma {:induction false} UnloadsConcat(a: seq<Event>, b: seq<Event>)
    ensures Unloads(a + b) == Unloads(a) + Unloads(b)
    decreases |b|
  {
    if b == [] {
      assert a + b == a;
    } else {
      assert (a + b)[..|a + b|-1] == a + b[..|b|-1];
      UnloadsConcat(a, b[..|b|-1]);
    }
  }

  lemma {:induction false} NothingDisabled(t: seq<Event>)
    requires forall i :: 0 <= i < |t| ==> !t[i].Disabled?
    ensures Unloads(t) == []
  {
    if t == [] {
    } else {
      NothingDisabled(t[..|t|-1]);
    }
  }

  /** An unload that succeeds tells the registries so, once; one that is refused or fails tells them nothing. */
  lemma UnloadIsTold(p: Record, now: LoadTime, reason: Reason, env: Env)
    ensures var o := UnloadOutcome(p, now, reason, env);
            Unloads(o.events) == if o.ok then [R.Unloaded(p.index)] else []
  {
    hide Unloads, DetachEvents, FinishEvents;
    NothingDisabled([]);
    match UnloadDecision(p, now, reason)
    case Refuse(_, _) =>
    case Proceed(q) =>
      DetachIsNotTold(q, now, reason, env.detachError);
      FinishIsTold(q);
      UnloadsConcat(DetachEvents(q, now, reason, env.detachError), FinishEvents(q));
  }

  lemma DetachIsNotTold(p: Record, now: LoadTime, reason: Reason, error: Option<Errno>)
    ensures Unloads(DetachEvents(p, now, reason, error)) == []
  {
    NothingDisabled(DetachEvents(p, now, reason, error));
  }

  lemma FinishIsTold(p: Record)
    ensures Unloads(FinishEvents(p)) == [R.Unloaded(p.index)]
  {
    NothingDisabled(CloseEvents(p.handle));
    assert Unloads([Disabled(p.index)]) == Unloads([]) + [R.Unloaded(p.index)];
    UnloadsConcat([Disabled(p.index)], CloseEvents(p.handle));
  }

  /** After an unload the plugin serves no name, and every other plugin serves what it did. */
  lemma UnloadServesNothing(h: seq<R.Event>, p: Record, now: LoadTime, reason: Reason, env: Env, name: string)
    ensures var o := UnloadOutcome(p, now, reason, env);
            var before := R.Serving(h, name);
            var after := R.Serving(h + Unloads(o.events), name);
            if o.ok then
              && (after.Some? ==> after.value.owner != p.index)
              && (before.Some? && before.value.owner != p.index ==> after == before)
            else after == before
  {
    hide R.Serving;
    UnloadIsTold(p, now, reason, env);
    R.UnloadedServesNothing(h, p.index, name);
    assert h + [] == h;
  }

  /** A clear closes the file of a plugin that has failed to attach and tells the registries nothing: what the
      plugin has registered is still served, by a file that is closed. */
  lemma ClearLeavesWhatIsServed(h: seq<R.Event>, p: Record, name: string)
    requires p.status == Failed && p.handle.Some?
    ensures var o := ClearOutcome(p);
            && o.ok && o.plugin.handle.None? && Close(p.handle.value) in o.events
            && R.Serving(h + Unloads(o.events), name) == R.Serving(h, name)
  {
    NothingDisabled(ClearOutcome(p).events);
    assert h + [] == h;
  }

  /** unload(), with what it does to both registries. */
  method UnloadRegistered(p: MPlugin, cmds: MRegCmdList, cvars: MRegCvarList, now: LoadTime, reason: Reason, env: Env)
    returns (ok: bool, errno: Errno)
    requires cmds.Valid() && cvars.Valid()
    modifies p, cmds`history, cmds.mlist, cvars`history, cvars.vlist
    ensures cmds.Valid() && cvars.Valid()
    ensures var o := UnloadOutcome(old(p.Fields()), now, reason, env);
            && p.Became(o) && ok == o.ok && errno == o.errno
            && cmds.history == old(cmds.history) + Unloads(o.events)
            && cvars.history == old(cvars.history) + Unloads(o.events)
    ensures ok ==> forall i :: 0 <= i < cmds.endlist && cmds.mlist[i].valid ==> cmds.mlist[i].plugid != old(p.index)
    ensures ok ==> forall i :: 0 <= i < cvars.endlist && cvars.vlist[i].valid ==> cvars.vlist[i].plugid != old(p.index)
  {
    hide UnloadOutcome;
    UnloadIsTold(p.Fields(), now, reason, env);
    var index := p.index;
    ok, errno := p.Unload(now, reason, env);
    if ok {
      cmds.Disable(index);
      cvars.Disable(index);
    }
  }
}
