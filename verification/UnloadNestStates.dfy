/** What plugin_unload and the requests nested in it do to the state of each plugin, and to its DLL. */
module UnloadNestStates {
  import opened Common
  import opened Plugin
  import opened PluginRuns
  import opened PluginListSpec
  import opened UnloadNest
  import opened UnloadNestLaws

  // ----- what the notes of a nest say -----

  /** A note that decides what is pending for slot s.  A request that is delayed puts back what was. */
  predicate IsWord(n: Note, s: nat) {
    n == Started(s) || (n.Denied? && n.slot == s && n.errno != Delayed)
  }

  function LastWord(log: seq<Note>, s: nat): Option<Note> {
    if log == [] then None
    else if IsWord(log[|log|-1], s) then Some(log[|log|-1])
    else LastWord(log[..|log|-1], s)
  }

  /** The last word on slot s was that it may not be unloaded at this time, nor later. */
  predicate Withdrawn(log: seq<Note>, s: nat) {
    LastWord(log, s) == Some(Denied(s, NotAllowed))
  }

  /** An unload of slot s ended last when the action it was carrying out had been withdrawn. */
  predicate Stranded(log: seq<Note>, s: nat) {
    log != []
    && if log[|log|-1].Finished? && log[|log|-1].slot == s then Withdrawn(log[..|log|-1], s)
       else Stranded(log[..|log|-1], s)
  }

  predicate FinishedAt(log: seq<Note>, k: nat, s: nat) {
    k < |log| && log[k].Finished? && log[k].slot == s
  }

  /** A request for s was refused with ME_NOTALLOWED at j, no later one was decided otherwise before the unload that
      ended last did so at k. */
  ghost predicate StrandedAt(log: seq<Note>, s: nat, j: nat, k: nat) {
    && j < k && FinishedAt(log, k, s) && log[j] == Denied(s, NotAllowed)
    && (forall i :: j < i < k ==> !IsWord(log[i], s))
    && (forall i :: k < i < |log| ==> !FinishedAt(log, i, s))
  }

  ghost predicate WithdrawnAt(log: seq<Note>, s: nat, j: nat) {
    j < |log| && log[j] == Denied(s, NotAllowed) && forall i :: j < i < |log| ==> !IsWord(log[i], s)
  }

  lemma {:induction false} WithdrawnMeaning(log: seq<Note>, s: nat)
    ensures Withdrawn(log, s) <==> exists j :: WithdrawnAt(log, s, j)
  {
    if log == [] {
    } else {
      var front, last := log[..|log|-1], log[|log|-1];
      WithdrawnMeaning(front, s);
      if IsWord(last, s) {
        assert last == Denied(s, NotAllowed) ==> WithdrawnAt(log, s, |log| - 1);
        forall j | 0 <= j < |log| - 1 ensures !WithdrawnAt(log, s, j) {
          assert IsWord(log[|log|-1], s);
        }
      } else {
        forall j: nat ensures WithdrawnAt(log, s, j) <==> WithdrawnAt(front, s, j) {
          assert forall i :: 0 <= i < |front| ==> front[i] == log[i];
        }
      }
    }
  }

  lemma {:induction false} StrandedMeaning(log: seq<Note>, s: nat)
    ensures Stranded(log, s) <==> exists j, k :: StrandedAt(log, s, j, k)
  {
    if log == [] {
    } else {
      var front, last := log[..|log|-1], log[|log|-1];
      var n := |log| - 1;
      assert forall i :: 0 <= i < n ==> front[i] == log[i];
      if FinishedAt(log, n, s) {
        WithdrawnMeaning(front, s);
        forall j: nat ensures WithdrawnAt(front, s, j) <==> StrandedAt(log, s, j, n) {
        }
        forall j: nat, k: nat | StrandedAt(log, s, j, k) ensures k == n {
          assert FinishedAt(log, n, s);
        }
      } else {
        StrandedMeaning(front, s);
        forall j: nat, k: nat ensures StrandedAt(log, s, j, k) <==> StrandedAt(front, s, j, k) {
          assert forall i: nat :: FinishedAt(log, i, s) <==> FinishedAt(front, i, s);
        }
      }
    }
  }

  lemma AfterNote(log: seq<Note>, n: Note, s: nat)
    ensures LastWord(log + [n], s) == if IsWord(n, s) then Some(n) else LastWord(log, s)
    ensures Stranded(log + [n], s) == if n.Finished? && n.slot == s then Withdrawn(log, s) else Stranded(log, s)
  {
    assert (log + [n])[..|log|] == log;
  }

  lemma {:induction false} LastWordStays(log: seq<Note>, more: seq<Note>, s: nat)
    requires log <= more && LastWord(log, s).Some?
    ensures LastWord(more, s).Some?
    decreases |more|
  {
    if |more| == |log| {
      assert more == log;
    } else {
      LastWordStays(log, more[..|more|-1], s);
    }
  }

  // ----- a slot in a nest -----

  function UnloadableOf(p: Record): LoadTime
    requires p.info.Some?
  {
    p.info.value.unloadable
  }

  /** A plugin agrees with the notes, but for its pending action: its file is closed under it exactly when it is
      stranded, and this can happen only to a plugin that may not be unloaded after startup. */
  predicate StateFits(p: Record, log: seq<Note>, s: nat) {
    && InfoKnown(p)
    && (p.handle.Some? || p.info.Some? ==> p.status.Rank() >= Opened.Rank())
    && (p.status.Rank() >= Opened.Rank() && p.handle.None? <==> Stranded(log, s))
    && (Withdrawn(log, s) || Stranded(log, s) ==> p.info.Some? && !Startup.Before(UnloadableOf(p)))
  }

  predicate ActionFits(p: Record, log: seq<Note>, s: nat) {
    LastWord(log, s).Some? ==>
      p.action == if p.status == Empty then NullAction else if Withdrawn(log, s) then NoAction else ToUnload
  }

  ghost predicate FitsBut(w: World, t: nat) {
    && Sized(w)
    && forall s :: 0 <= s < MAX_PLUGINS ==>
         StateFits(w.list.slots[s], w.log, s) && (s != t ==> ActionFits(w.list.slots[s], w.log, s))
  }

  ghost predicate Fits(w: World) {
    && Sized(w)
    && forall s :: 0 <= s < MAX_PLUGINS ==>
         StateFits(w.list.slots[s], w.log, s) && ActionFits(w.list.slots[s], w.log, s)
  }

  /** From p to q: the same plugin or none, by legal and timely uses of its DLL. */
  ghost predicate SlotLed(p: Record, a: seq<Event>, q: Record, b: seq<Event>) {
    && a <= b && SameSlot(p, q) && Explains(p, b[|a|..], q)
    && (q.info == p.info || q.info.None?)
  }

  ghost predicate Led(w: World, v: World) {
    && Sized(w) && Sized(v)
    && v.list.endlist == w.list.endlist && w.log <= v.log
    && (forall s :: 0 <= s < MAX_PLUGINS ==> SlotLed(w.list.slots[s], w.traces[s], v.list.slots[s], v.traces[s]))
    && (forall s :: w.list.endlist <= s < MAX_PLUGINS ==> v.list.slots[s] == w.list.slots[s])
  }

  lemma SlotLedCompose(p: Record, a: seq<Event>, q: Record, b: seq<Event>, r: Record, c: seq<Event>)
    requires SlotLed(p, a, q, b) && SlotLed(q, b, r, c)
    ensures SlotLed(p, a, r, c)
  {
    hide Explains;
    ExplainsConcat(p, b[|a|..], q, c[|b|..], r);
    assert c[|a|..] == b[|a|..] + c[|b|..];
  }

  lemma LedCompose(w: World, v: World, x: World)
    requires Led(w, v) && Led(v, x)
    ensures Led(w, x)
  {
    hide SlotLed;
    forall s | 0 <= s < MAX_PLUGINS
      ensures SlotLed(w.list.slots[s], w.traces[s], x.list.slots[s], x.traces[s])
    {
      SlotLedCompose(w.list.slots[s], w.traces[s], v.list.slots[s], v.traces[s], x.list.slots[s], x.traces[s]);
    }
  }

  lemma SlotStays(p: Record, q: Record, a: seq<Event>)
    requires SameSlot(p, q) && DllOf(p) == DllOf(q) && q.info == p.info
    ensures SlotLed(p, a, q, a)
  {
    assert a[|a|..] == [];
  }

  /** A change of slot t that uses its DLL for `e`. */
  lemma OneSlotIsLed(w: World, t: nat, q: Record, e: seq<Event>, notes: seq<Note>)
    requires Sized(w) && t < w.list.endlist && InfoKnown(q)
    requires SameSlot(w.list.slots[t], q) && Explains(w.list.slots[t], e, q)
             && (q.info == w.list.slots[t].info || q.info.None?)
    ensures Led(w, Using(Update(w, t, q), t, e).(log := w.log + notes))
  {
    hide SameSlot, Explains;
    var v := Using(Update(w, t, q), t, e).(log := w.log + notes);
    forall s | 0 <= s < MAX_PLUGINS ensures SlotLed(w.list.slots[s], w.traces[s], v.list.slots[s], v.traces[s]) {
      if s == t {
        assert v.traces[s][|w.traces[s]|..] == e;
      } else {
        SlotIsSame(w.list.slots[s]);
        SlotStays(w.list.slots[s], w.list.slots[s], w.traces[s]);
      }
    }
  }

  lemma NothingIsUsed(w: World, t: nat)
    requires Sized(w) && t < MAX_PLUGINS
    ensures Using(w, t, []) == w
  {
    assert w.traces[t] + [] == w.traces[t];
    assert w.traces[t := w.traces[t]] == w.traces;
  }

  lemma SlotIsSame(p: Record)
    ensures SameSlot(p, p)
  {
  }

  // ----- one step of a nest -----

  lemma OpenFits(w: World, u: nat, t: nat)
    requires Fits(w) && u < w.list.endlist && t < w.list.endlist && u != t
    ensures var v := OpenRequest(w, u, t);
            && FitsBut(v, t) && Led(w, v)
            && v.list.slots[t].action == ToUnload && v.list.slots[t].status == w.list.slots[t].status
  {
    hide LastWord, Stranded;
    var v := OpenRequest(w, u, t);
    forall s | 0 <= s < MAX_PLUGINS ensures SlotLed(w.list.slots[s], w.traces[s], v.list.slots[s], v.traces[s]) {
      SlotStays(w.list.slots[s], v.list.slots[s], w.traces[s]);
    }
  }

  lemma CloseFits(w: World, u: nat)
    requires Sized(w) && u < w.list.endlist && w.open != []
    ensures Led(w, CloseRequest(w, u))
    ensures Fits(w) ==> Fits(CloseRequest(w, u))
    ensures forall t :: FitsBut(w, t) ==> FitsBut(CloseRequest(w, u), t)
  {
    hide LastWord, Stranded;
    var v := CloseRequest(w, u);
    forall s | 0 <= s < MAX_PLUGINS ensures SlotLed(w.list.slots[s], w.traces[s], v.list.slots[s], v.traces[s]) {
      SlotStays(w.list.slots[s], v.list.slots[s], w.traces[s]);
    }
  }

  lemma DenialIsLed(w: World, t: nat, now: LoadTime, reason: Reason)
    requires Sized(w) && t < w.list.endlist && UnloadDecision(w.list.slots[t], now, reason).Refuse?
    ensures var d := UnloadDecision(w.list.slots[t], now, reason);
            Led(w, Noting(Update(w, t, d.plugin), Denied(t, d.errno)))
  {
    hide Led;
    var d := UnloadDecision(w.list.slots[t], now, reason);
    NothingKeeps(w.list.slots[t], d.plugin);
    OneSlotIsLed(w, t, d.plugin, [], [Denied(t, d.errno)]);
    NothingIsUsed(Update(w, t, d.plugin), t);
  }

  lemma DenialFits(w: World, t: nat, now: LoadTime, reason: Reason)
    requires FitsBut(w, t) && t < w.list.endlist && w.list.slots[t].action == ToUnload
             && w.list.slots[t].status != Empty
    requires UnloadDecision(w.list.slots[t], now, reason).Refuse?
    ensures var d := UnloadDecision(w.list.slots[t], now, reason);
            var v := Noting(Update(w, t, d.plugin), Denied(t, d.errno));
            && (d.errno == Delayed ==> FitsBut(v, t) && forall s :: LastWord(v.log, s) == LastWord(w.log, s))
            && (d.errno != Delayed ==> Fits(v))
  {
    hide LastWord, Stranded, UnloadDecision, StateFits;
    var p := w.list.slots[t];
    var d := UnloadDecision(p, now, reason);
    var v := Noting(Update(w, t, d.plugin), Denied(t, d.errno));
    DenialFitsSlot(p, w.log, t, now, reason);
    forall s: nat | s != t
      ensures LastWord(v.log, s) == LastWord(w.log, s) && Stranded(v.log, s) == Stranded(w.log, s)
    {
      AfterNote(w.log, Denied(t, d.errno), s);
    }
    forall s | 0 <= s < MAX_PLUGINS ensures StateFits(v.list.slots[s], v.log, s) {
      if s != t {
        StateFitsLater(w.list.slots[s], w.log, v.log, s);
      }
    }
  }

  lemma StateFitsLater(p: Record, log: seq<Note>, more: seq<Note>, s: nat)
    requires StateFits(p, log, s) && LastWord(more, s) == LastWord(log, s) && Stranded(more, s) == Stranded(log, s)
    ensures StateFits(p, more, s)
  {
  }

  lemma DenialFitsSlot(p: Record, log: seq<Note>, t: nat, now: LoadTime, reason: Reason)
    requires StateFits(p, log, t) && p.action == ToUnload && p.status != Empty && UnloadDecision(p, now, reason).Refuse?
    ensures var d := UnloadDecision(p, now, reason);
            var more := log + [Denied(t, d.errno)];
            && StateFits(d.plugin, more, t)
            && (d.errno == Delayed ==> LastWord(more, t) == LastWord(log, t))
            && (d.errno != Delayed ==> ActionFits(d.plugin, more, t))
  {
    hide LastWord, Stranded;
    AfterNote(log, Denied(t, UnloadDecision(p, now, reason).errno), t);
  }

  lemma StartFits(w: World, t: nat, r: Request)
    requires FitsBut(w, t) && t < w.list.endlist && w.list.slots[t].action == ToUnload
             && w.list.slots[t].status != Empty
    requires UnloadDecision(w.list.slots[t], r.now, r.reason).Proceed?
    ensures var p := UnloadDecision(w.list.slots[t], r.now, r.reason).plugin;
            var v := Start(w, t, p, r);
            Led(w, v) && Fits(v) && LastWord(v.log, t) == Some(Started(t)) && v.list.slots[t] == p
  {
    hide LastWord, Stranded, DetachEvents;
    var p := UnloadDecision(w.list.slots[t], r.now, r.reason).plugin;
    var v := Start(w, t, p, r);
    var e := DetachEvents(p, r.now, r.reason, r.detachError);
    DetachKeeps(p, r.now, r.reason, r.detachError);
    SameDll(p, w.list.slots[t]);
    OneSlotIsLed(w, t, p, e, [Started(t)]);
    forall s: nat ensures LastWord(v.log, s) == (if s == t then Some(Started(t)) else LastWord(w.log, s))
    ensures Stranded(v.log, s) == Stranded(w.log, s) {
      AfterNote(w.log, Started(t), s);
    }
  }

  lemma FinishFits(w: World, t: nat)
    requires Fits(w) && t < w.list.endlist && LastWord(w.log, t).Some?
    ensures Led(w, Finish(w, t)) && Fits(Finish(w, t))
  {
    hide LastWord, Stranded, FinishEvents;
    var p := w.list.slots[t];
    var v := Finish(w, t);
    CloseKeeps(p);
    OneSlotIsLed(w, t, UnloadFinish(p), FinishEvents(p), [Finished(t, w.open)]);
    forall s: nat ensures LastWord(v.log, s) == LastWord(w.log, s)
    ensures Stranded(v.log, s) == (if s == t then Withdrawn(w.log, s) else Stranded(w.log, s)) {
      AfterNote(w.log, Finished(t, w.open), s);
    }
  }

  // ----- a nest -----

  lemma RestoreFits(w: World, v: World, t: nat)
    requires Fits(w) && FitsBut(v, t) && Led(w, v) && t < w.list.endlist
    requires v.list.slots[t].status == w.list.slots[t].status != Empty
    requires forall s :: LastWord(v.log, s) == LastWord(w.log, s)
    ensures var x := Update(v, t, v.list.slots[t].(action := w.list.slots[t].action));
            Fits(x) && Led(v, x)
  {
    hide LastWord, Stranded;
    var q := v.list.slots[t].(action := w.list.slots[t].action);
    NothingKeeps(v.list.slots[t], q);
    OneSlotIsLed(v, t, q, [], []);
    NothingIsUsed(Update(v, t, q), t);
    assert v.log + [] == v.log;
  }

  /** In every nest each plugin agrees with the notes, and uses its DLL legally and in time. */
  lemma {:induction false} ServeFits(w: World, r: Request)
    requires Fits(w)
    ensures Fits(Serve(w, r).world) && Led(w, Serve(w, r).world)
    decreases r, 0
  {
    hide ServeUnload, FindTarget, FindByInfo, Fits, Led, FitsBut, LastWord, OpenRequest, CloseRequest;
    FitsIsSized(w);
    var t := FindTarget(w.list, r.target);
    var u := FindByInfo(w.list, r.plid);
    if t.Some? && u.Some? && u != t && !w.list.slots[t.value].isUnloader {
      var w1 := OpenRequest(w, u.value, t.value);
      OpenFits(w, u.value, t.value);
      LedKeepsEnd(w, w1);
      ServeUnloadFits(w1, t.value, r);
      var o := ServeUnload(w1, t.value, r);
      var c := CloseRequest(o.world, u.value);
      LedKeepsEnd(w1, o.world);
      CloseFits(o.world, u.value);
      LedCompose(w, w1, o.world);
      LedCompose(w, o.world, c);
      if !o.ok && o.errno == Delayed {
        DelayedKeepsWords(w, u.value, t.value, r);
        RestoreFits(w, c, t.value);
        LedCompose(w, c, Update(c, t.value, c.list.slots[t.value].(action := w.list.slots[t.value].action)));
      }
    } else {
      LedIsReflexive(w);
    }
  }

  lemma FitsIsSized(w: World)
    requires Fits(w)
    ensures Sized(w)
  {
  }

  lemma LedKeepsEnd(w: World, v: World)
    requires Led(w, v)
    ensures v.list.endlist == w.list.endlist && w.log <= v.log
  {
  }

  lemma LedIsReflexive(w: World)
    requires Sized(w)
    ensures Led(w, w)
  {
    forall s | 0 <= s < MAX_PLUGINS ensures SlotLed(w.list.slots[s], w.traces[s], w.list.slots[s], w.traces[s]) {
      SlotStays(w.list.slots[s], w.list.slots[s], w.traces[s]);
    }
  }

  /** A refusal for now changes nothing but the description and the flags, until the action is put back. */
  lemma DelayedKeepsWords(w: World, u: nat, t: nat, r: Request)
    requires Fits(w) && u < w.list.endlist && t < w.list.endlist && u != t && w.list.slots[t].status != Empty
    requires var o := ServeUnload(OpenRequest(w, u, t), t, r); !o.ok && o.errno == Delayed
    ensures var c := CloseRequest(ServeUnload(OpenRequest(w, u, t), t, r).world, u);
            && c.list.slots[t].status == w.list.slots[t].status
            && forall s :: LastWord(c.log, s) == LastWord(w.log, s)
  {
    hide ServeAll, Start, Finish, LastWord, Stranded;
    var w1 := OpenRequest(w, u, t);
    OpenFits(w, u, t);
    var d := UnloadDecision(w1.list.slots[t], r.now, r.reason);
    assert d.Refuse? && d.errno == Delayed;
    DenialFits(w1, t, r.now, r.reason);
  }

  lemma {:induction false} ServeUnloadFits(w: World, t: nat, r: Request)
    requires FitsBut(w, t) && t < w.list.endlist && w.list.slots[t].action == ToUnload
             && w.list.slots[t].status != Empty
    ensures var o := ServeUnload(w, t, r);
            && Led(w, o.world)
            && (!o.ok && o.errno == Delayed ==> FitsBut(o.world, t))
            && (o.ok || o.errno != Delayed ==> Fits(o.world))
    decreases r.nested, |r.nested| + 1
  {
    hide ServeAll, Fits, Led, FitsBut, LastWord, Start, Finish;
    FitsButIsSized(w, t);
    match UnloadDecision(w.list.slots[t], r.now, r.reason)
    case Refuse(_, _) =>
      DenialIsLed(w, t, r.now, r.reason);
      DenialFits(w, t, r.now, r.reason);
    case Proceed(p) =>
      var w1 := Start(w, t, p, r);
      StartFits(w, t, r);
      LedKeepsEnd(w, w1);
      if p.handle.None? {
        FinishFits(w1, t);
        LedCompose(w, w1, Finish(w1, t));
      } else {
        var w2 := ServeAll(w1, r.nested, |r.nested|);
        ServeAllFits(w1, r.nested, |r.nested|);
        LedKeepsEnd(w1, w2);
        LastWordStays(w1.log, w2.log, t);
        LedCompose(w, w1, w2);
        FinishFits(w2, t);
        LedCompose(w, w2, Finish(w2, t));
      }
  }

  lemma FitsButIsSized(w: World, t: nat)
    requires FitsBut(w, t)
    ensures Sized(w)
  {
  }

  lemma {:induction false} ServeAllFits(w: World, rs: seq<Request>, n: nat)
    requires Fits(w) && n <= |rs|
    ensures Fits(ServeAll(w, rs, n)) && Led(w, ServeAll(w, rs, n))
    decreases rs, n
  {
    hide Serve, Fits, Led;
    FitsIsSized(w);
    if n == 0 {
      LedIsReflexive(w);
    } else {
      ServeAllFits(w, rs, n - 1);
      var v := ServeAll(w, rs, n - 1);
      ServeFits(v, rs[n-1]);
      LedCompose(w, v, Serve(v, rs[n-1]).world);
    }
  }

  // ----- a whole nest -----

  ghost predicate AllExact(l: Plist)
    requires Bounded(l)
  {
    forall s :: 0 <= s < MAX_PLUGINS ==> Exact(l.slots[s])
  }

  lemma CalmFits(l: Plist)
    requires Bounded(l) && AllExact(l)
    ensures Fits(Calm(l))
  {
  }

  /** After a request with all the requests nested in it, handle, info and status of each plugin agree, unless the
      unload of the plugin went on to its end when a request nested in it had been refused with ME_NOTALLOWED for the
      same plugin: then, and only then, it still runs, with its file closed and its info dangling. */
  lemma ServeStaysExactIff(l: Plist, r: Request, s: nat)
    requires Bounded(l) && AllExact(l) && s < MAX_PLUGINS
    ensures var v := Serve(Calm(l), r).world;
            var q := v.list.slots[s];
            && (Exact(q) <==> !Stranded(v.log, s))
            && Led(Calm(l), v)
            && (Stranded(v.log, s) ==> q.status.Rank() >= Opened.Rank() && q.handle.None? && q.info.Some?)
  {
    hide Serve, Led, LastWord, Stranded;
    CalmFits(l);
    ServeFits(Calm(l), r);
  }

  /** The same for any other unload, during whose detach plugins make requests. */
  lemma UnloadStaysExactIff(l: Plist, t: nat, r: Request, s: nat)
    requires Bounded(l) && AllExact(l) && s < MAX_PLUGINS
    requires t < l.endlist && l.slots[t].action == ToUnload && l.slots[t].status != Empty
    ensures var v := ServeUnload(Calm(l), t, r).world;
            Led(Calm(l), v) && (Exact(v.list.slots[s]) <==> !Stranded(v.log, s))
  {
    hide ServeUnload, Led, LastWord, Stranded;
    CalmFits(l);
    ServeUnloadFits(Calm(l), t, r);
  }

  /** In every nest a slot uses its DLL legally; every attach and every detach that is not forced is in time; what was
      opened and not closed is held.  And it stays the slot of the same plugin, or becomes empty. */
  lemma ServeUsesDllsLegally(l: Plist, r: Request, s: nat)
    requires Bounded(l) && AllExact(l) && s < MAX_PLUGINS
    ensures var v := Serve(Calm(l), r).world;
            && SameSlot(l.slots[s], v.list.slots[s])
            && Explains(l.slots[s], v.traces[s], v.list.slots[s])
            && Held(DllOf(l.slots[s])) + Opens(v.traces[s]) == Closes(v.traces[s]) + Held(DllOf(v.list.slots[s]))
  {
    hide Serve, Fits, LastWord, Stranded, Opens, Closes;
    CalmFits(l);
    ServeFits(Calm(l), r);
    var v := Serve(Calm(l), r).world;
    assert SlotLed(l.slots[s], [], v.list.slots[s], v.traces[s]);
    assert v.traces[s][0..] == v.traces[s];
    HandlesAreConserved(DllOf(l.slots[s]), v.traces[s]);
  }

  /** No nest does this to a plugin that may be unloaded later than at startup. */
  lemma LatePluginsStayExact(l: Plist, r: Request, s: nat)
    requires Bounded(l) && AllExact(l) && s < MAX_PLUGINS
    requires l.slots[s].info.Some? ==> Startup.Before(UnloadableOf(l.slots[s]))
    ensures Exact(Serve(Calm(l), r).world.list.slots[s])
  {
    hide Serve, LastWord, Stranded;
    CalmFits(l);
    ServeFits(Calm(l), r);
    var v := Serve(Calm(l), r).world;
    assert SlotLed(l.slots[s], [], v.list.slots[s], v.traces[s]);
  }

  /** With nothing nested in it, a request does to its target what RequestOutcome says, to its DLL as well. */
  lemma LoneUnload(w: World, t: nat, r: Request, env: Env)
    requires Sized(w) && t < MAX_PLUGINS && r.nested == [] && env.detachError == r.detachError
    ensures var o := ServeUnload(w, t, r);
            var q := UnloadOutcome(w.list.slots[t], r.now, r.reason, env);
            && o.world.list.slots == w.list.slots[t := q.plugin] && o.world.list.endlist == w.list.endlist
            && o.world.traces == w.traces[t := w.traces[t] + q.events]
            && o.ok == q.ok && o.errno == q.errno
  {
    hide DetachEvents, FinishEvents, UnloadFinish;
    var p := w.list.slots[t];
    match UnloadDecision(p, r.now, r.reason)
    case Refuse(_, _) => assert w.traces[t] + [] == w.traces[t];
    case Proceed(q) =>
      var w1 := Start(w, t, q, r);
      assert ServeAll(w1, r.nested, 0) == w1;
      Assoc(w.traces[t], DetachEvents(q, r.now, r.reason, r.detachError), FinishEvents(q));
  }

  lemma LoneRequestIsAStep(l: Plist, r: Request, t: nat, u: nat, env: Env)
    requires Bounded(l) && FindTarget(l, r.target) == Some(t) && FindByInfo(l, r.plid) == Some(u)
    requires l.slots[u].index == u + 1 && l.slots[t].index == t + 1 && r.nested == []
             && env.detachError == r.detachError
    ensures var v := Serve(Calm(l), r);
            var o := RequestOutcome(l.slots[t], l.slots[u].index, r.now, r.reason, env);
            && v.world.list.slots[t] == o.plugin && v.world.traces[t] == o.events && v.ok == o.ok && v.errno == o.errno
  {
    hide UnloadOutcome, ServeUnload, FindTarget, FindByInfo, FlagsAgree;
    var w := Calm(l);
    if t != u && !l.slots[t].isUnloader {
      LoneUnload(OpenRequest(w, u, t), t, r, env);
    }
  }

  // ----- a nest that leaves a plugin running without its file -----

  function StartupPlugin(i: nat): Record {
    LoadedPlugin(i, Startup)
  }

  /** Three running plugins that may be unloaded at startup only; handle and info of each are its position. */
  function StartupPlugins(): (l: Plist)
    ensures Bounded(l) && l.endlist == 3
    ensures forall i :: 0 <= i < 3 ==> l.slots[i] == StartupPlugin(i)
    ensures forall i :: 3 <= i < MAX_PLUGINS ==> l.slots[i] == EmptySlot(i + 1)
  {
    Loaded(3, Startup)
  }

  /** C asks for B, too late. */
  const LATE: Request := Request(2, ByHandle(1), AnyTime, ByPlugin, [], None)

  /** A forces B to be unloaded; while B is detached, C asks for B. */
  const FORCED: Request := Request(0, ByHandle(1), AnyTime, CmdForced, [LATE], None)

  lemma PositionsAreFound(l: Plist)
    requires Bounded(l) && l.endlist == 3
    requires forall i :: 0 <= i < 3 ==> l.slots[i].status == Running && l.slots[i].handle == Some(i)
                                        && l.slots[i].info == StartupPlugin(i).info
    ensures FindTarget(l, ByHandle(1)) == Some(1) && FindByInfo(l, 0) == Some(0) && FindByInfo(l, 2) == Some(2)
  {
  }

  lemma LateIsRefused(w: World)
    requires Sized(w) && w.list.endlist == 3
    requires forall i :: 0 <= i < 3 ==> w.list.slots[i].status == Running && w.list.slots[i].handle == Some(i)
                                        && w.list.slots[i].info == StartupPlugin(i).info && HasNames(w.list.slots[i])
    requires !w.list.slots[1].isUnloader
    ensures var v := Serve(w, LATE).world;
            && v.list.slots[1].action == NoAction && v.list.slots[1].handle == Some(1)
            && v.list.slots[1].status == Running
            && v.reopened == (w.reopened || 2 in w.open)
  {
    hide FindTarget, FindByInfo;
    PositionsAreFound(w.list);
    var w1 := OpenRequest(w, 2, 1);
    assert UnloadDecision(w1.list.slots[1], AnyTime, ByPlugin).Refuse?;
    assert !ServeUnload(w1, 1, LATE).ok && ServeUnload(w1, 1, LATE).errno == NotAllowed;
  }

  lemma ForcedStarts()
    ensures var w1 := OpenRequest(Calm(StartupPlugins()), 0, 1);
            var p := w1.list.slots[1];
            var w2 := Start(w1, 1, p, FORCED);
            && UnloadDecision(p, AnyTime, CmdForced) == Proceed(p) && p.handle.Some?
            && Sized(w2) && w2.list == w1.list && w2.list.endlist == 3 && w2.open == [0] && !w2.reopened
            && (forall i :: 0 <= i < 3 ==> w2.list.slots[i] == if i == 0 then StartupPlugin(0).(isUnloader := true)
                                           else if i == 1 then StartupPlugin(1).(unloaderIndex := 1, action := ToUnload)
                                           else StartupPlugin(2))
  {
    var w1 := OpenRequest(Calm(StartupPlugins()), 0, 1);
    assert Update(w1, 1, w1.list.slots[1]).list == w1.list;
  }

  lemma FinishStrands(w: World)
    requires Sized(w) && w.list.slots[1].action == NoAction && w.list.slots[1].status == Running && w.open == [0]
    ensures var v := CloseRequest(Finish(w, 1), 0);
            v.list.slots[1].status == Running && v.list.slots[1].handle.None? && v.reopened == w.reopened
  {
  }

  lemma StartupPluginsAreExact()
    ensures AllExact(StartupPlugins())
  {
  }

  /** No plugin has asked twice, and yet B still runs when the requests are over, and its file is closed. */
  lemma ForcedUnloadStrandsAPlugin()
    ensures var l := StartupPlugins();
            var o := Serve(Calm(l), FORCED);
            && AllExact(l) && o.ok && !o.world.reopened
            && o.world.list.slots[1].status == Running && o.world.list.slots[1].handle.None?
  {
    var l := StartupPlugins();
    StartupPluginsAreExact();
    hide FindTarget, FindByInfo, Start, Finish, OpenRequest, CloseRequest, UnloadDecision, AllExact;
    PositionsAreFound(l);
    ForcedStarts();
    var w1 := OpenRequest(Calm(l), 0, 1);
    var w2 := Start(w1, 1, w1.list.slots[1], FORCED);
    LateIsRefused(w2);
    assert ServeAll(w2, [LATE], 0) == w2;
    var w3 := ServeAll(w2, [LATE], 1);
    assert w3 == Serve(w2, LATE).world;
    FinishStrands(w3);
    assert ServeUnload(w1, 1, FORCED) == Reply(Finish(w3, 1), true, NoError);
  }
}
