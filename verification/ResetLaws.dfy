/** A map change: what becomes of the queues and their engines, whatever the callbacks of cancelled requests do. */
module ResetLaws {
  import opened Common
  import opened HttpSpec
  import opened HttpLaws

  /** The engines in these slots. */
  function EnginesOf(h: Http, queues: set<nat>, c: EndBehaviour): set<EngineId> {
    set q | q in queues && h.SlotOf(q, c).Some? :: h.SlotOf(q, c).value
  }

  /** The queues there were at the start whose terminating slot, forgettable slot and self are still to be dealt
      with. */
  datatype Rest = Rest(cancel: set<nat>, forget: set<nat>, whole: set<nat>) {
    function Of(c: EndBehaviour): set<nat> {
      if c == CancelRequests then cancel else forget
    }
  }

  /** The engines there were at the start whose slots have been dealt with. */
  function Met(a: Http, rest: Rest, c: EndBehaviour): set<EngineId> {
    EnginesOf(a, a.packs.Keys - rest.Of(c), c)
  }

  /** A slot still to come has grown only; one that was dealt with has a new engine at most. */
  ghost predicate SlotKept(a: Http, rest: Rest, h: Http, q: nat, c: EndBehaviour)
    requires a.log <= h.log
  {
    var x, y, placed := a.SlotOf(q, c), h.SlotOf(q, c), Placed(q, c) in Since(a, h);
    && (q in rest.Of(c) ==> q in a.packs && q in h.packs && SlotGrew(x, y, placed, a.nextEngine))
    && (q !in rest.Of(c) && y.Some? ==> y.value >= a.nextEngine && (q != MAIN ==> placed))
    && (q == MAIN && q !in rest.Of(c) ==> (y.Some? <==> x.Some? || placed))
    && (y.Some? && y.value >= a.nextEngine ==> y.value in h.engines && Untouched(h.engines[y.value]))
  }

  ghost predicate SlotsKept(a: Http, rest: Rest, h: Http)
    requires a.log <= h.log
  {
    forall q, c :: SlotKept(a, rest, h, q, c)
  }

  /** A callback has sent a request on a user's queue, to be cancelled at the end. */
  ghost predicate SentOnUserQueue(a: Http, h: Http)
    requires a.log <= h.log
  {
    exists q :: q != MAIN && Placed(q, CancelRequests) in Since(a, h)
  }

  /** A callback has sent a request. */
  ghost predicate SentSomething(a: Http, h: Http)
    requires a.log <= h.log
  {
    exists q, c :: Placed(q, c) in Since(a, h)
  }

  /** The engines destroyed, with the one that is dying. */
  function Ends(h: Http): seq<EngineId> {
    h.dropped + if h.dying.Some? then [h.dying.value] else []
  }

  /** The engines met were called once, all others there were not at all. */
  ghost predicate OldEnginesKept(a: Http, rest: Rest, h: Http) {
    forall e :: e in a.engines ==>
      && e in h.engines
      && h.engines[e] == Called(a.engines[e], e in Met(a, rest, CancelRequests), e in Met(a, rest, ForgetRequests))
  }

  ghost predicate ForgottenKept(a: Http, rest: Rest, h: Http)
    requires a.log <= h.log
  {
    && a.forgotten <= h.forgotten
    && (forall e :: e in Met(a, rest, ForgetRequests) ==> e in h.forgotten[|a.forgotten|..])
    && (forall e :: e in h.forgotten[|a.forgotten|..] ==>
          if e < a.nextEngine then e in Met(a, rest, ForgetRequests)
          else e in h.engines && h.engines[e].forgets == 1 && h.engines[e].cancels == 0 && SentSomething(a, h))
  }

  /** An engine was destroyed without a cancel only if it was made for a request on a user's queue. */
  ghost predicate EndsKept(a: Http, rest: Rest, h: Http)
    requires a.log <= h.log
  {
    && a.dropped <= Ends(h)
    && (forall e :: e in Met(a, rest, CancelRequests) ==> e in Ends(h)[|a.dropped|..])
    && (forall e :: e in Ends(h)[|a.dropped|..] ==>
          if e < a.nextEngine then e in Met(a, rest, CancelRequests)
          else
            && e in h.engines && h.engines[e].forgets == 0 && h.engines[e].cancels <= 1 && SentSomething(a, h)
            && (h.engines[e].cancels == 1 || SentOnUserQueue(a, h)))
  }

  ghost predicate TicketKept(a: Http, rest: Rest, h: Http, s: nat)
    requires s in a.tickets
  {
    var t := a.tickets[s];
    if t.engine !in Met(a, rest, CancelRequests) then
      s in h.tickets && h.tickets[s] == Marked(t, false, t.engine in Met(a, rest, ForgetRequests))
    else if s in h.tickets then h.dying == Some(t.engine) && h.tickets[s] == t.(canceled := true)
    else t.forgotten || Gone(h, s)
  }

  ghost predicate TicketsKept(a: Http, rest: Rest, h: Http) {
    && a.nextSerial <= h.nextSerial && Aged(a, h)
    && forall s :: s in a.tickets ==> TicketKept(a, rest, h, s)
  }

  ghost predicate QueuesKept(a: Http, rest: Rest, h: Http)
    requires a.log <= h.log
  {
    && rest.cancel <= rest.forget <= rest.whole <= a.packs.Keys
    && (forall k :: k in rest.whole ==> k in h.packs)
    && (forall k :: k in h.packs ==> k in rest.whole || k == MAIN || Made(k) in Since(a, h))
    && Made(MAIN) !in Since(a, h)
  }

  ghost predicate Kept(a: Http, rest: Rest, h: Http) {
    && a.log <= h.log && a.nextEngine <= h.nextEngine
    && Fine(h)
    && SlotsKept(a, rest, h) && OldEnginesKept(a, rest, h) && ForgottenKept(a, rest, h) && EndsKept(a, rest, h)
    && TicketsKept(a, rest, h) && QueuesKept(a, rest, h)
  }

  lemma NothingMet(a: Http)
    requires Fine(a) && a.dying.None?
    ensures Kept(a, Rest(a.packs.Keys, a.packs.Keys, a.packs.Keys), a)
  {
    hide Fine;
    FineHasMain(a);
    var rest := Rest(a.packs.Keys, a.packs.Keys, a.packs.Keys);
    assert Met(a, rest, CancelRequests) == {} && Met(a, rest, ForgetRequests) == {};
    assert Since(a, a) == [];
    TicketsAreOld(a);
    forall q, c ensures SlotKept(a, rest, a, q, c) {
      assert a.At(InSlot(q, c)) == a.SlotOf(q, c);
    }
  }

  // ----- callbacks -----

  lemma SlotsAfterEffect(a: Http, rest: Rest, h: Http, b: Http)
    requires a.log <= h.log && a.nextEngine <= h.nextEngine && SlotsKept(a, rest, h)
    requires EnginesFine(h) && EnginesFine(b) && Effect(h, b)
    ensures SlotsKept(a, rest, b)
  {
    hide NoSharing;
    SinceTwice(a, h, b);
    forall q, c ensures SlotKept(a, rest, b, q, c) {
      assert SlotKept(a, rest, h, q, c);
      assert SlotGrew(h.SlotOf(q, c), b.SlotOf(q, c), Placed(q, c) in Since(h, b), h.nextEngine);
      SlotEngineIsKnown(b, q, c);
    }
  }

  lemma SlotEngineIsKnown(h: Http, q: nat, c: EndBehaviour)
    requires EnginesFine(h)
    ensures h.SlotOf(q, c).Some? ==> h.SlotOf(q, c).value in h.engines
  {
    assert h.At(InSlot(q, c)) == h.SlotOf(q, c);
  }

  lemma EnginesAfterEffect(a: Http, rest: Rest, h: Http, b: Http)
    requires a.log <= h.log && Effect(h, b)
    requires OldEnginesKept(a, rest, h) && ForgottenKept(a, rest, h) && EndsKept(a, rest, h)
    ensures OldEnginesKept(a, rest, b) && ForgottenKept(a, rest, b) && EndsKept(a, rest, b)
  {
    hide Met;
    SendingStays(a, h, b);
    hide SentOnUserQueue, SentSomething;
  }

  lemma SendingStays(a: Http, h: Http, b: Http)
    requires a.log <= h.log <= b.log
    ensures SentOnUserQueue(a, h) ==> SentOnUserQueue(a, b)
    ensures SentSomething(a, h) ==> SentSomething(a, b)
  {
    SinceTwice(a, h, b);
    if SentOnUserQueue(a, h) {
      var q :| q != MAIN && Placed(q, CancelRequests) in Since(a, h);
      assert Placed(q, CancelRequests) in Since(a, b);
    }
    if SentSomething(a, h) {
      var q, c :| Placed(q, c) in Since(a, h);
      assert Placed(q, c) in Since(a, b);
    }
  }

  lemma QueuesAfterEffect(a: Http, rest: Rest, h: Http, b: Http)
    requires a.log <= h.log && Effect(h, b) && QueuesKept(a, rest, h) && MAIN in h.packs
    ensures QueuesKept(a, rest, b)
  {
    SinceTwice(a, h, b);
  }

  lemma TicketsAfterDrain(a: Http, rest: Rest, h: Http, e: EngineId, b: Http)
    requires TicketsKept(a, rest, h) && Drained(h, e, b) && Aged(h, b) && h.dying == b.dying == Some(e)
    requires e < a.nextEngine ==> e in Met(a, rest, CancelRequests)
    requires forall s :: s in a.tickets ==> s < a.nextSerial && a.tickets[s].engine < a.nextEngine
    ensures TicketsKept(a, rest, b)
  {
    hide Met, Gone;
    AgedTwice(a, h, b);
    forall s | s in a.tickets ensures TicketKept(a, rest, b, s) {
      assert TicketKept(a, rest, h, s);
      if s !in h.tickets && !a.tickets[s].forgotten {
        GoneStays(h, b, s);
      }
      if s in h.tickets && s !in b.tickets {
        assert h.tickets[s].engine == e && a.tickets[s].engine == e;
      }
      if s !in h.tickets {
        StaysAway(a, h, b, s);
      }
    }
  }

  lemma StaysAway(a: Http, h: Http, b: Http, s: nat)
    requires Aged(a, h) && Aged(h, b) && s < a.nextSerial && s !in h.tickets
    ensures s !in b.tickets
  {
  }

  /** The destructor of an engine that is met, or new. */
  lemma DestructionKeeps(a: Http, rest: Rest, h: Http, e: EngineId, b: Http)
    requires Fine(a) && Kept(a, rest, h) && h.dying == Some(e) && Destroyed(h, e, b)
    requires e < a.nextEngine ==> e in Met(a, rest, CancelRequests)
    ensures Kept(a, rest, b) && b.dying.None? && h.packs.Keys <= b.packs.Keys
            && Effect(h, b.(dying := h.dying, dropped := h.dropped))
  {
    hide Fine, Effect, Met, SlotsKept, OldEnginesKept, ForgottenKept, EndsKept, TicketsKept, QueuesKept, DrainRun,
         Active;
    var n: nat, m: Http :| DrainRun(h, e, n, m) && !Active(m.tickets, e) && b == Buried(m, e);
    DrainKeeps(h, e, n, m);
    EffectKeeps(h, m);
    FineHasMain(h);
    FineHasMain(m);
    SlotsAfterEffect(a, rest, h, m);
    EnginesAfterEffect(a, rest, h, m);
    QueuesAfterEffect(a, rest, h, m);
    TicketsHaveEngines(a);
    TicketsAreOld(a);
    TicketsAfterDrain(a, rest, h, e, m);
    BurialKeeps(a, rest, m, e);
    PacksGrow(h, m);
    assert b.(dying := h.dying, dropped := h.dropped) == m;
  }

  lemma PacksGrow(a: Http, b: Http)
    requires Effect(a, b)
    ensures a.packs.Keys <= b.packs.Keys
  {
  }

  lemma TicketsHaveEngines(h: Http)
    requires Fine(h)
    ensures forall s :: s in h.tickets ==> h.tickets[s].engine < h.nextEngine
  {
  }

  lemma BuriedIsFine(h: Http, e: EngineId)
    requires Fine(h) && h.dying == Some(e) && !Active(h.tickets, e)
    ensures Fine(Buried(h, e))
  {
    hide OptionsRule;
    var b := Buried(h, e);
    MovedEngineIsNotShared(h, b, IsDying, InDropped(|h.dropped|));
    assert TicketsFine(b);
  }

  lemma BurialKeepsSlots(a: Http, rest: Rest, h: Http, e: EngineId)
    requires a.log <= h.log && SlotsKept(a, rest, h)
    ensures SlotsKept(a, rest, Buried(h, e))
  {
    var b := Buried(h, e);
    assert Since(a, b) == Since(a, h);
    forall q, c ensures SlotKept(a, rest, b, q, c) {
      assert SlotKept(a, rest, h, q, c);
    }
  }

  lemma BurialKeepsTickets(a: Http, rest: Rest, h: Http, e: EngineId)
    requires TicketsKept(a, rest, h) && h.dying == Some(e) && !Active(h.tickets, e)
    ensures TicketsKept(a, rest, Buried(h, e))
  {
    hide Met;
    var b := Buried(h, e);
    forall s | s in a.tickets ensures TicketKept(a, rest, b, s) {
      assert TicketKept(a, rest, h, s);
    }
  }

  lemma BurialKeepsLists(a: Http, rest: Rest, h: Http, e: EngineId)
    requires a.log <= h.log && h.dying == Some(e)
    requires OldEnginesKept(a, rest, h) && ForgottenKept(a, rest, h) && EndsKept(a, rest, h) && QueuesKept(a, rest, h)
    ensures var b := Buried(h, e);
            OldEnginesKept(a, rest, b) && ForgottenKept(a, rest, b) && EndsKept(a, rest, b) && QueuesKept(a, rest, b)
  {
    hide Met;
    var b := Buried(h, e);
    assert Ends(b) == Ends(h);
    assert Since(a, b) == Since(a, h);
    SendingStays(a, h, b);
    hide SentOnUserQueue, SentSomething;
  }

  lemma BurialKeeps(a: Http, rest: Rest, h: Http, e: EngineId)
    requires Kept(a, rest, h) && h.dying == Some(e) && !Active(h.tickets, e)
    ensures Kept(a, rest, Buried(h, e))
  {
    hide Fine, SlotsKept, OldEnginesKept, ForgottenKept, EndsKept, TicketsKept, QueuesKept, Active;
    BuriedIsFine(h, e);
    BurialKeepsSlots(a, rest, h, e);
    BurialKeepsTickets(a, rest, h, e);
    BurialKeepsLists(a, rest, h, e);
  }

  // ----- the slots of one queue -----

  function MetCancel(rest: Rest, q: nat): Rest {
    rest.(cancel := rest.cancel - {q})
  }

  function MetForget(rest: Rest, q: nat): Rest {
    rest.(forget := rest.forget - {q})
  }

  /** One more slot is dealt with: its engine is met, if it is one there was. */
  lemma OneMoreMet(a: Http, rest: Rest, q: nat, c: EndBehaviour)
    requires rest.Of(c) <= a.packs.Keys && q in rest.Of(c)
    ensures var rest' := if c == CancelRequests then MetCancel(rest, q) else MetForget(rest, q);
            && Met(a, rest', c) == Met(a, rest, c) + (if a.SlotOf(q, c).Some? then {a.SlotOf(q, c).value} else {})
  {
    var rest' := if c == CancelRequests then MetCancel(rest, q) else MetForget(rest, q);
    assert a.packs.Keys - rest'.Of(c) == (a.packs.Keys - rest.Of(c)) + {q};
  }

  /** No engine is met in two slots. */
  lemma MetOnce(a: Http, rest: Rest, q: nat, c: EndBehaviour)
    requires NoSharing(a) && q in rest.Of(c) && a.SlotOf(q, c).Some?
    ensures var e := a.SlotOf(q, c).value;
            e < a.nextEngine && e !in Met(a, rest, CancelRequests) && e !in Met(a, rest, ForgetRequests)
  {
    var e := a.SlotOf(q, c).value;
    assert a.At(InSlot(q, c)) == Some(e);
    forall r, d | r in a.packs.Keys - rest.Of(d) && a.SlotOf(r, d).Some? ensures a.SlotOf(r, d).value != e {
      assert a.At(InSlot(r, d)) == a.SlotOf(r, d);
    }
  }

  /** What is known of the engine that is in a slot when its turn comes. */
  lemma TurnOfSlot(a: Http, rest: Rest, h: Http, q: nat, c: EndBehaviour)
    requires Fine(a) && Kept(a, rest, h) && h.SlotOf(q, c).Some? && (q == MAIN ==> q in rest.Of(c))
    ensures var e := h.SlotOf(q, c).value;
            && e in h.engines && e < h.nextEngine
            && if q in rest.Of(c) && a.SlotOf(q, c).Some?
               then e == a.SlotOf(q, c).value && e < a.nextEngine
                    && e !in Met(a, rest, CancelRequests) && e !in Met(a, rest, ForgetRequests)
               else e >= a.nextEngine && Untouched(h.engines[e]) && SentSomething(a, h)
  {
    hide NoSharing, Met;
    assert SlotKept(a, rest, h, q, c);
    SlotEngineIsKnown(h, q, c);
    if q in rest.Of(c) && a.SlotOf(q, c).Some? {
      MetOnce(a, rest, q, c);
    }
  }

  /** An engine leaves a slot, which may get a new one. */
  lemma ReplacedEngineIsNotShared(h: Http, h': Http, from: Place, to: Place, renewed: bool)
    requires NoSharing(h) && h'.nextEngine == h.nextEngine + (if renewed then 1 else 0) && from != to
    requires forall p :: h'.At(p) ==
               if p == to then h.At(from)
               else if p == from then (if renewed then Some(h.nextEngine) else None)
               else h.At(p)
    ensures NoSharing(h')
  {
  }

  lemma MarkedIsFine(h: Http, b: Http, e: EngineId, cancel: bool, forget: bool)
    requires Matching(h) && TicketsFine(h) && b.tickets == MarkAll(h.tickets, e, cancel, forget)
    requires b.nextSerial == h.nextSerial && b.requests == h.requests && b.nextEngine >= h.nextEngine
    requires b.dropped == h.dropped && (b.forgotten == h.forgotten || (forget && b.forgotten == h.forgotten + [e]))
    ensures Matching(b) && TicketsFine(b) && Aged(h, b)
  {
  }

  lemma SlotsDiffer(h: Http, q: nat, c: EndBehaviour, r: nat, d: EndBehaviour)
    requires EnginesFine(h) && (q, c) != (r, d) && h.SlotOf(q, c).Some?
    ensures h.SlotOf(r, d) != h.SlotOf(q, c)
    ensures h.SlotOf(r, d).Some? ==> h.SlotOf(r, d).value in h.engines
  {
    assert h.At(InSlot(q, c)) == h.SlotOf(q, c) && h.At(InSlot(r, d)) == h.SlotOf(r, d);
  }

  /** From h to b engine e has left its slot, which is empty now, or has a new engine. */
  ghost predicate LeftSlot(h: Http, b: Http, q: nat, c: EndBehaviour, e: EngineId) {
    && h.SlotOf(q, c) == Some(e) && b.log == h.log && b.packs.Keys == h.packs.Keys
    && b.SlotOf(q, c) == (if q == MAIN then Some(h.nextEngine) else None)
    && (forall r: nat, d :: (r, d) != (q, c) ==> b.SlotOf(r, d) == h.SlotOf(r, d))
    && (forall x :: x in h.engines && x != e ==> x in b.engines && b.engines[x] == h.engines[x])
    && (q == MAIN ==> h.nextEngine in b.engines && Untouched(b.engines[h.nextEngine]))
  }

  lemma LeftSlotIsKept(a: Http, rest: Rest, h: Http, b: Http, q: nat, c: EndBehaviour, e: EngineId)
    requires a.log <= h.log && a.nextEngine <= h.nextEngine && LeftSlot(h, b, q, c, e)
    requires SlotKept(a, rest, h, q, c) && (q == MAIN ==> q in rest.Of(c))
    ensures SlotKept(a, if c == CancelRequests then MetCancel(rest, q) else MetForget(rest, q), b, q, c)
  {
    assert Since(a, b) == Since(a, h);
  }

  lemma OtherSlotIsKept(a: Http, rest: Rest, h: Http, b: Http, q: nat, c: EndBehaviour, e: EngineId, r: nat,
                        d: EndBehaviour)
    requires a.log <= h.log && LeftSlot(h, b, q, c, e) && EnginesFine(h)
    requires SlotKept(a, rest, h, r, d) && (r, d) != (q, c)
    ensures SlotKept(a, if c == CancelRequests then MetCancel(rest, q) else MetForget(rest, q), b, r, d)
  {
    assert Since(a, b) == Since(a, h);
    SlotsDiffer(h, q, c, r, d);
    hide EnginesFine;
  }

  lemma LeftSlotKeepsSlots(a: Http, rest: Rest, h: Http, b: Http, q: nat, c: EndBehaviour, e: EngineId)
    requires a.log <= h.log && a.nextEngine <= h.nextEngine && LeftSlot(h, b, q, c, e) && EnginesFine(h)
    requires SlotsKept(a, rest, h) && (q == MAIN ==> q in rest.Of(c))
    ensures b.log == h.log && SlotsKept(a, if c == CancelRequests then MetCancel(rest, q) else MetForget(rest, q), b)
  {
    hide EnginesFine;
    var rest' := if c == CancelRequests then MetCancel(rest, q) else MetForget(rest, q);
    forall r: nat, d ensures SlotKept(a, rest', b, r, d) {
      assert SlotKept(a, rest, h, r, d);
      hide SlotKept;
      if (r, d) == (q, c) {
        LeftSlotIsKept(a, rest, h, b, q, c, e);
      } else {
        OtherSlotIsKept(a, rest, h, b, q, c, e, r, d);
      }
    }
  }

  // ----- the terminating slot -----

  lemma CancelledAt(h: Http, q: nat, e: EngineId)
    requires q in h.packs && e in h.engines
    ensures var b := Cancelled(h, q, e);
            && b.nextEngine == h.nextEngine + (if q == MAIN then 1 else 0)
            && b.packs.Keys == h.packs.Keys && b.log == h.log
            && forall p :: b.At(p) ==
                 if p == IsDying then Some(e)
                 else if p == InSlot(q, CancelRequests) then (if q == MAIN then Some(h.nextEngine) else None)
                 else h.At(p)
  {
    var b := Cancelled(h, q, e);
    forall p ensures b.At(p) ==
        if p == IsDying then Some(e)
        else if p == InSlot(q, CancelRequests) then (if q == MAIN then Some(h.nextEngine) else None)
        else h.At(p)
    {
    }
  }

  lemma CancelledIsFine(h: Http, q: nat, e: EngineId)
    requires Fine(h) && q in h.packs && h.SlotOf(q, CancelRequests) == Some(e) && e in h.engines && h.dying.None?
    ensures Fine(Cancelled(h, q, e)) && Aged(h, Cancelled(h, q, e))
  {
    hide NoSharing, Matching, TicketsFine, MarkAll, OptionsRule, Aged;
    var b := Cancelled(h, q, e);
    CancelledAt(h, q, e);
    ReplacedEngineIsNotShared(h, b, InSlot(q, CancelRequests), IsDying, q == MAIN);
    MarkedIsFine(h, b, e, true, false);
  }

  lemma CancelledLeavesSlot(h: Http, q: nat, e: EngineId)
    requires EnginesFine(h) && q in h.packs && h.SlotOf(q, CancelRequests) == Some(e) && e in h.engines
    ensures LeftSlot(h, Cancelled(h, q, e), q, CancelRequests, e)
  {
    hide NoSharing, MarkAll;
    var b := Cancelled(h, q, e);
    CancelledAt(h, q, e);
    forall r: nat, d | (r, d) != (q, CancelRequests) ensures b.SlotOf(r, d) == h.SlotOf(r, d) {
      assert h.At(InSlot(r, d)) == h.SlotOf(r, d) && b.At(InSlot(r, d)) == b.SlotOf(r, d);
    }
  }

  lemma CancelledKeepsSlots(a: Http, rest: Rest, h: Http, q: nat, e: EngineId)
    requires Kept(a, rest, h) && h.SlotOf(q, CancelRequests) == Some(e) && e in h.engines
    requires q in h.packs && (q == MAIN ==> q in rest.cancel)
    ensures SlotsKept(a, MetCancel(rest, q), Cancelled(h, q, e))
  {
    hide Fine, SlotsKept, OldEnginesKept, ForgottenKept, EndsKept, TicketsKept, QueuesKept, LeftSlot;
    FineHasMain(h);
    CancelledLeavesSlot(h, q, e);
    LeftSlotKeepsSlots(a, rest, h, Cancelled(h, q, e), q, CancelRequests, e);
  }

  /** The engine of the slot joins those met, if it is one there was. */
  lemma JoinsMet(a: Http, rest: Rest, h: Http, q: nat, c: EndBehaviour, e: EngineId)
    requires Fine(a) && Kept(a, rest, h) && h.SlotOf(q, c) == Some(e) && (q == MAIN ==> q in rest.Of(c))
    ensures var rest' := if c == CancelRequests then MetCancel(rest, q) else MetForget(rest, q);
            && Met(a, rest', c) == Met(a, rest, c) + (if e < a.nextEngine then {e} else {})
            && (e < a.nextEngine ==>
                  e in a.engines && e !in Met(a, rest, CancelRequests) && e !in Met(a, rest, ForgetRequests))
            && (e >= a.nextEngine ==> e in h.engines && Untouched(h.engines[e]) && SentSomething(a, h))
  {
    hide Fine, Met, SlotsKept, OldEnginesKept, ForgottenKept, EndsKept, TicketsKept;
    TurnOfSlot(a, rest, h, q, c);
    FineHasMain(a);
    if q in rest.Of(c) {
      OneMoreMet(a, rest, q, c);
    } else {
      NoOneMet(a, rest, q, c);
    }
  }

  lemma NoOneMet(a: Http, rest: Rest, q: nat, c: EndBehaviour)
    requires q !in rest.Of(c)
    ensures (if c == CancelRequests then MetCancel(rest, q) else MetForget(rest, q)) == rest
  {
    assert rest.Of(c) - {q} == rest.Of(c);
  }

  lemma OtherMet(a: Http, rest: Rest, q: nat)
    ensures Met(a, MetCancel(rest, q), ForgetRequests) == Met(a, rest, ForgetRequests)
    ensures Met(a, MetForget(rest, q), CancelRequests) == Met(a, rest, CancelRequests)
  {
  }

  /** Engine e is called, and joins those met if it is one there was. */
  ghost predicate Joined(a: Http, rest: Rest, rest': Rest, h: Http, b: Http, e: EngineId, c: EndBehaviour)
    requires a.log <= h.log
  {
    var d := if c == CancelRequests then ForgetRequests else CancelRequests;
    && Met(a, rest', d) == Met(a, rest, d)
    && Met(a, rest', c) == Met(a, rest, c) + (if e < a.nextEngine then {e} else {})
    && e in h.engines && e in b.engines
    && b.engines[e] == Called(h.engines[e], c == CancelRequests, c == ForgetRequests)
    && (forall x :: x in h.engines && x != e ==> x in b.engines && b.engines[x] == h.engines[x])
    && (e < a.nextEngine ==> e !in Met(a, rest, CancelRequests) && e !in Met(a, rest, ForgetRequests))
    && (e >= a.nextEngine ==> e !in a.engines && Untouched(h.engines[e]) && SentSomething(a, h))
  }

  lemma JoinedKeepsOld(a: Http, rest: Rest, rest': Rest, h: Http, b: Http, e: EngineId, c: EndBehaviour)
    requires a.log <= h.log && OldEnginesKept(a, rest, h) && Joined(a, rest, rest', h, b, e, c)
    requires forall x: EngineId :: x in a.engines <==> x < a.nextEngine
    ensures OldEnginesKept(a, rest', b)
  {
    hide Met;
  }

  lemma JoinedKeepsForgotten(a: Http, rest: Rest, rest': Rest, h: Http, b: Http, e: EngineId, c: EndBehaviour)
    requires a.log <= h.log == b.log && ForgottenKept(a, rest, h) && Joined(a, rest, rest', h, b, e, c)
    requires e !in h.forgotten
    requires b.forgotten == if c == ForgetRequests then h.forgotten + [e] else h.forgotten
    ensures ForgottenKept(a, rest', b)
  {
    SameSending(a, h, b);
    hide Met, SentSomething;
    if c == ForgetRequests {
      assert b.forgotten[|a.forgotten|..] == h.forgotten[|a.forgotten|..] + [e];
    }
  }

  lemma JoinedKeepsEnds(a: Http, rest: Rest, rest': Rest, h: Http, b: Http, e: EngineId, c: EndBehaviour)
    requires a.log <= h.log == b.log && EndsKept(a, rest, h) && Joined(a, rest, rest', h, b, e, c) && e !in Ends(h)
    requires Ends(b) == if c == CancelRequests then Ends(h) + [e] else Ends(h)
    ensures EndsKept(a, rest', b)
  {
    SameSending(a, h, b);
    hide Met, SentOnUserQueue, SentSomething, Ends;
    if c == CancelRequests {
      assert Ends(b)[|a.dropped|..] == Ends(h)[|a.dropped|..] + [e];
    }
  }

  lemma CancelledJoins(a: Http, rest: Rest, h: Http, q: nat, e: EngineId)
    requires Fine(a) && Kept(a, rest, h) && h.SlotOf(q, CancelRequests) == Some(e) && e in h.engines && q in h.packs
    requires q == MAIN ==> q in rest.cancel
    ensures Joined(a, rest, MetCancel(rest, q), h, Cancelled(h, q, e), e, CancelRequests)
  {
    JoinsMet(a, rest, h, q, CancelRequests, e);
    OtherMet(a, rest, q);
    hide Met, SlotsKept, OldEnginesKept, ForgottenKept, EndsKept, TicketsKept, QueuesKept;
    FineHasMain(a);
    FineHasMain(h);
    hide Fine, NoSharing;
    CancelledCalls(h, q, e);
  }

  lemma CancelledKeepsEngines(a: Http, rest: Rest, h: Http, q: nat, e: EngineId)
    requires Fine(a) && Kept(a, rest, h) && h.SlotOf(q, CancelRequests) == Some(e) && e in h.engines && h.dying.None?
    requires q in h.packs
    requires q == MAIN ==> q in rest.cancel
    ensures var b := Cancelled(h, q, e); var rest' := MetCancel(rest, q);
            OldEnginesKept(a, rest', b) && ForgottenKept(a, rest', b) && EndsKept(a, rest', b)
  {
    hide Fine, SlotsKept, OldEnginesKept, ForgottenKept, EndsKept, TicketsKept, QueuesKept, Joined, MarkAll, Met;
    FineHasMain(a);
    var b := Cancelled(h, q, e);
    CancelledAt(h, q, e);
    CancelledJoins(a, rest, h, q, e);
    NotForgottenTwice(a, rest, h, q, CancelRequests, e);
    JoinedKeepsOld(a, rest, MetCancel(rest, q), h, b, e, CancelRequests);
    JoinedKeepsForgotten(a, rest, MetCancel(rest, q), h, b, e, CancelRequests);
    JoinedKeepsEnds(a, rest, MetCancel(rest, q), h, b, e, CancelRequests);
  }

  lemma SameSending(a: Http, h: Http, b: Http)
    requires a.log <= h.log == b.log
    ensures SentOnUserQueue(a, h) == SentOnUserQueue(a, b) && SentSomething(a, h) == SentSomething(a, b)
  {
    assert Since(a, h) == Since(a, b);
  }

  lemma CancelledCalls(h: Http, q: nat, e: EngineId)
    requires q in h.packs && e in h.engines && forall x: EngineId :: x in h.engines <==> x < h.nextEngine
    ensures var b := Cancelled(h, q, e);
            && b.engines[e] == Called(h.engines[e], true, false)
            && (forall x :: x in h.engines && x != e ==> x in b.engines && b.engines[x] == h.engines[x])
  {
  }

  /** An engine in a slot is in no list yet. */
  lemma NotForgottenTwice(a: Http, rest: Rest, h: Http, q: nat, c: EndBehaviour, e: EngineId)
    requires Kept(a, rest, h) && h.SlotOf(q, c) == Some(e)
    ensures e !in h.forgotten && e !in Ends(h)
  {
    hide SlotsKept, OldEnginesKept, ForgottenKept, EndsKept, TicketsKept, QueuesKept;
    SlotIsNotElsewhere(h, q, c);
  }

  lemma MarkedKeepsTickets(a: Http, rest: Rest, rest': Rest, h: Http, b: Http, e: EngineId, c: EndBehaviour)
    requires a.log <= h.log && TicketsKept(a, rest, h) && Aged(h, b) && Joined(a, rest, rest', h, b, e, c)
             && h.dying.None?
    requires b.tickets == MarkAll(h.tickets, e, c == CancelRequests, c == ForgetRequests) && b.requests == h.requests
    requires b.dying == (if c == CancelRequests then Some(e) else None) && b.nextSerial == h.nextSerial
    requires forall s :: s in a.tickets ==> a.tickets[s].engine < a.nextEngine
    ensures TicketsKept(a, rest', b)
  {
    hide Met, Aged;
    AgedTwice(a, h, b);
    forall s | s in a.tickets ensures TicketKept(a, rest', b, s) {
      assert TicketKept(a, rest, h, s);
    }
  }

  lemma CancelledKeepsTickets(a: Http, rest: Rest, h: Http, q: nat, e: EngineId)
    requires Fine(a) && Kept(a, rest, h) && h.SlotOf(q, CancelRequests) == Some(e) && e in h.engines && h.dying.None?
    requires q in h.packs
    requires q == MAIN ==> q in rest.cancel
    ensures TicketsKept(a, MetCancel(rest, q), Cancelled(h, q, e))
  {
    hide Fine, Met, SlotsKept, OldEnginesKept, ForgottenKept, EndsKept, QueuesKept, TicketsKept, Aged, Joined, MarkAll;
    CancelledJoins(a, rest, h, q, e);
    TicketsHaveEngines(a);
    CancelledIsFine(h, q, e);
    MarkedKeepsTickets(a, rest, MetCancel(rest, q), h, Cancelled(h, q, e), e, CancelRequests);
  }

  lemma CancelledKeepsQueues(a: Http, rest: Rest, h: Http, q: nat, e: EngineId)
    requires a.log <= h.log && QueuesKept(a, rest, h) && q in h.packs && e in h.engines
    ensures QueuesKept(a, MetCancel(rest, q), Cancelled(h, q, e))
  {
    CancelledAt(h, q, e);
  }

  lemma CancelledKeeps(a: Http, rest: Rest, h: Http, q: nat, e: EngineId)
    requires Fine(a) && Kept(a, rest, h) && h.SlotOf(q, CancelRequests) == Some(e) && e in h.engines && h.dying.None?
    requires q in h.packs && (q == MAIN ==> q in rest.cancel)
    ensures var b := Cancelled(h, q, e);
            && Kept(a, MetCancel(rest, q), b) && b.dying == Some(e) && b.packs.Keys == h.packs.Keys
            && (e < a.nextEngine ==> e in Met(a, MetCancel(rest, q), CancelRequests))
  {
    CancelledIsFine(h, q, e);
    CancelledKeepsSlots(a, rest, h, q, e);
    CancelledKeepsEngines(a, rest, h, q, e);
    CancelledKeepsTickets(a, rest, h, q, e);
    JoinsMet(a, rest, h, q, CancelRequests, e);
    CancelledAt(h, q, e);
    hide Fine, Met, SlotsKept, OldEnginesKept, ForgottenKept, EndsKept, TicketsKept, QueuesKept;
    CancelledKeepsQueues(a, rest, h, q, e);
  }

  // ----- the forgettable slot -----

  lemma ForgotAt(h: Http, q: nat, e: EngineId)
    requires q in h.packs && e in h.engines
    ensures var b := Forgot(h, q, e);
            && b.nextEngine == h.nextEngine + (if q == MAIN then 1 else 0)
            && b.packs.Keys == h.packs.Keys && b.log == h.log
            && forall p :: b.At(p) ==
                 if p == InForgotten(|h.forgotten|) then Some(e)
                 else if p == InSlot(q, ForgetRequests) then (if q == MAIN then Some(h.nextEngine) else None)
                 else h.At(p)
  {
    var b := Forgot(h, q, e);
    forall p ensures b.At(p) ==
        if p == InForgotten(|h.forgotten|) then Some(e)
        else if p == InSlot(q, ForgetRequests) then (if q == MAIN then Some(h.nextEngine) else None)
        else h.At(p)
    {
    }
  }

  lemma ForgotIsFine(h: Http, q: nat, e: EngineId)
    requires Fine(h) && q in h.packs && h.SlotOf(q, ForgetRequests) == Some(e) && e in h.engines
    ensures Fine(Forgot(h, q, e)) && Aged(h, Forgot(h, q, e))
  {
    hide NoSharing, Matching, TicketsFine, MarkAll, OptionsRule, Aged;
    var b := Forgot(h, q, e);
    ForgotAt(h, q, e);
    ReplacedEngineIsNotShared(h, b, InSlot(q, ForgetRequests), InForgotten(|h.forgotten|), q == MAIN);
    MarkedIsFine(h, b, e, false, true);
  }

  lemma ForgotCalls(h: Http, q: nat, e: EngineId)
    requires q in h.packs && e in h.engines && forall x: EngineId :: x in h.engines <==> x < h.nextEngine
    ensures var b := Forgot(h, q, e);
            && b.engines[e] == Called(h.engines[e], false, true)
            && (forall x :: x in h.engines && x != e ==> x in b.engines && b.engines[x] == h.engines[x])
  {
  }

  lemma ForgotLeavesSlot(h: Http, q: nat, e: EngineId)
    requires EnginesFine(h) && q in h.packs && h.SlotOf(q, ForgetRequests) == Some(e) && e in h.engines
    ensures LeftSlot(h, Forgot(h, q, e), q, ForgetRequests, e)
  {
    hide NoSharing, MarkAll;
    var b := Forgot(h, q, e);
    ForgotAt(h, q, e);
    forall r: nat, d | (r, d) != (q, ForgetRequests) ensures b.SlotOf(r, d) == h.SlotOf(r, d) {
      assert h.At(InSlot(r, d)) == h.SlotOf(r, d) && b.At(InSlot(r, d)) == b.SlotOf(r, d);
    }
  }

  lemma ForgotKeepsSlots(a: Http, rest: Rest, h: Http, q: nat, e: EngineId)
    requires Kept(a, rest, h) && h.SlotOf(q, ForgetRequests) == Some(e) && e in h.engines
    requires q in h.packs && (q == MAIN ==> q in rest.forget)
    ensures SlotsKept(a, MetForget(rest, q), Forgot(h, q, e))
  {
    hide Fine, SlotsKept, OldEnginesKept, ForgottenKept, EndsKept, TicketsKept, QueuesKept, LeftSlot;
    FineHasMain(h);
    ForgotLeavesSlot(h, q, e);
    LeftSlotKeepsSlots(a, rest, h, Forgot(h, q, e), q, ForgetRequests, e);
  }

  lemma ForgotJoins(a: Http, rest: Rest, h: Http, q: nat, e: EngineId)
    requires Fine(a) && Kept(a, rest, h) && h.SlotOf(q, ForgetRequests) == Some(e) && e in h.engines && q in h.packs
    requires q == MAIN ==> q in rest.forget
    ensures Joined(a, rest, MetForget(rest, q), h, Forgot(h, q, e), e, ForgetRequests)
  {
    JoinsMet(a, rest, h, q, ForgetRequests, e);
    OtherMet(a, rest, q);
    hide Met, SlotsKept, OldEnginesKept, ForgottenKept, EndsKept, TicketsKept, QueuesKept;
    FineHasMain(a);
    FineHasMain(h);
    hide Fine, NoSharing;
    ForgotCalls(h, q, e);
  }

  lemma ForgotKeepsLists(a: Http, rest: Rest, h: Http, q: nat, e: EngineId)
    requires Fine(a) && Kept(a, rest, h) && h.SlotOf(q, ForgetRequests) == Some(e) && e in h.engines && h.dying.None?
    requires q in h.packs
    requires q == MAIN ==> q in rest.forget
    ensures var b := Forgot(h, q, e); var rest' := MetForget(rest, q);
            && OldEnginesKept(a, rest', b) && ForgottenKept(a, rest', b) && EndsKept(a, rest', b)
            && TicketsKept(a, rest', b)
  {
    hide Fine, SlotsKept, OldEnginesKept, ForgottenKept, EndsKept, TicketsKept, QueuesKept, Joined, MarkAll, Met, Aged;
    FineHasMain(a);
    TicketsHaveEngines(a);
    var b := Forgot(h, q, e);
    ForgotAt(h, q, e);
    ForgotIsFine(h, q, e);
    ForgotJoins(a, rest, h, q, e);
    NotForgottenTwice(a, rest, h, q, ForgetRequests, e);
    JoinedKeepsOld(a, rest, MetForget(rest, q), h, b, e, ForgetRequests);
    JoinedKeepsForgotten(a, rest, MetForget(rest, q), h, b, e, ForgetRequests);
    JoinedKeepsEnds(a, rest, MetForget(rest, q), h, b, e, ForgetRequests);
    MarkedKeepsTickets(a, rest, MetForget(rest, q), h, b, e, ForgetRequests);
  }

  lemma ForgotKeeps(a: Http, rest: Rest, h: Http, q: nat, e: EngineId)
    requires Fine(a) && Kept(a, rest, h) && h.SlotOf(q, ForgetRequests) == Some(e) && e in h.engines && h.dying.None?
    requires q in h.packs && q !in rest.cancel && (q == MAIN ==> q in rest.forget)
    ensures var b := Forgot(h, q, e);
            Kept(a, MetForget(rest, q), b) && b.dying.None? && b.packs.Keys == h.packs.Keys
  {
    ForgotIsFine(h, q, e);
    ForgotKeepsSlots(a, rest, h, q, e);
    ForgotKeepsLists(a, rest, h, q, e);
    ForgotAt(h, q, e);
    hide Fine, Met, SlotsKept, OldEnginesKept, ForgottenKept, EndsKept, TicketsKept;
  }

  // ----- slots that are empty when their turn comes -----

  lemma SameMetKeeps(a: Http, rest: Rest, rest': Rest, h: Http)
    requires a.log <= h.log && forall d :: Met(a, rest', d) == Met(a, rest, d)
    requires OldEnginesKept(a, rest, h) && ForgottenKept(a, rest, h) && EndsKept(a, rest, h) && TicketsKept(a, rest, h)
    ensures OldEnginesKept(a, rest', h) && ForgottenKept(a, rest', h) && EndsKept(a, rest', h)
            && TicketsKept(a, rest', h)
  {
    hide Met, SentOnUserQueue, SentSomething, Ends, Aged, Gone;
    forall s | s in a.tickets ensures TicketKept(a, rest', h, s) {
      assert TicketKept(a, rest, h, s);
    }
  }

  lemma EmptySlotKeepsSlots(a: Http, rest: Rest, h: Http, q: nat, c: EndBehaviour)
    requires a.log <= h.log && SlotsKept(a, rest, h) && h.SlotOf(q, c).None?
    ensures SlotsKept(a, if c == CancelRequests then MetCancel(rest, q) else MetForget(rest, q), h)
  {
    var rest' := if c == CancelRequests then MetCancel(rest, q) else MetForget(rest, q);
    assert SlotKept(a, rest, h, q, c);
    forall r, d ensures SlotKept(a, rest', h, r, d) {
      assert SlotKept(a, rest, h, r, d);
    }
  }

  lemma EmptySlotIsMet(a: Http, rest: Rest, h: Http, q: nat, c: EndBehaviour)
    requires Kept(a, rest, h) && h.SlotOf(q, c).None? && (c == ForgetRequests ==> q !in rest.cancel)
    ensures Kept(a, if c == CancelRequests then MetCancel(rest, q) else MetForget(rest, q), h)
  {
    assert SlotKept(a, rest, h, q, c);
    SameMet(a, rest, q, c);
    EmptySlotKeepsSlots(a, rest, h, q, c);
    hide Fine, Met, SlotsKept, OldEnginesKept, ForgottenKept, EndsKept, TicketsKept;
    SameMetKeeps(a, rest, if c == CancelRequests then MetCancel(rest, q) else MetForget(rest, q), h);
  }

  lemma SameMet(a: Http, rest: Rest, q: nat, c: EndBehaviour)
    requires rest.Of(c) <= a.packs.Keys && (q in rest.Of(c) ==> a.SlotOf(q, c).None?)
    ensures var rest' := if c == CancelRequests then MetCancel(rest, q) else MetForget(rest, q);
            forall d :: Met(a, rest', d) == Met(a, rest, d)
  {
    OtherMet(a, rest, q);
    if q in rest.Of(c) {
      OneMoreMet(a, rest, q, c);
    } else {
      NoOneMet(a, rest, q, c);
    }
  }

  // ----- one turn -----

  lemma CancelStepKeeps(a: Http, rest: Rest, h: Http, q: nat, b: Http)
    requires Fine(a) && Kept(a, rest, h) && h.dying.None? && q in h.packs && CancelStep(h, q, b)
    requires q == MAIN ==> q in rest.cancel
    ensures Kept(a, MetCancel(rest, q), b) && b.dying.None? && q in b.packs
  {
    hide Fine, Kept, Destroyed, Met, Effect, Cancelled;
    match h.SlotOf(q, CancelRequests)
    case None => EmptySlotIsMet(a, rest, h, q, CancelRequests);
    case Some(e) =>
      CancelledKeeps(a, rest, h, q, e);
      DestructionKeeps(a, MetCancel(rest, q), Cancelled(h, q, e), e, b);
  }

  lemma ForgetStepKeeps(a: Http, rest: Rest, h: Http, q: nat, b: Http)
    requires Fine(a) && Kept(a, rest, h) && h.dying.None? && q in h.packs && ForgetStep(h, q, b)
    requires q !in rest.cancel && (q == MAIN ==> q in rest.forget)
    ensures Kept(a, MetForget(rest, q), b) && b.dying.None? && q in b.packs
    ensures q != MAIN ==> b.SlotOf(q, ForgetRequests).None?
  {
    hide Fine, Kept, Met;
    match h.SlotOf(q, ForgetRequests)
    case None => EmptySlotIsMet(a, rest, h, q, ForgetRequests);
    case Some(e) => ForgotKeeps(a, rest, h, q, e);
  }

  function MetWhole(rest: Rest, q: nat): Rest {
    rest.(whole := rest.whole - {q})
  }

  /** The queue has left the table; its last engine, if any, is dying. */
  function Erased(h: Http, q: nat): Http {
    Without(h, q).(dying := h.SlotOf(q, CancelRequests))
  }

  lemma ErasedIsFine(h: Http, q: nat)
    requires Fine(h) && q != MAIN && h.dying.None? && h.SlotOf(q, ForgetRequests).None?
    ensures Fine(Erased(h, q))
  {
    hide NoSharing, OptionsRule;
    var b := Erased(h, q);
    forall p ensures b.At(p) == if p == IsDying then h.At(InSlot(q, CancelRequests))
                                else if p == InSlot(q, CancelRequests) then None else h.At(p) {
    }
    ReplacedEngineIsNotShared(h, b, InSlot(q, CancelRequests), IsDying, false);
  }

  lemma ErasedKeepsSlots(a: Http, rest: Rest, h: Http, q: nat)
    requires a.log <= h.log && SlotsKept(a, rest, h) && q !in rest.cancel && q !in rest.forget && q != MAIN
    ensures SlotsKept(a, MetWhole(rest, q), Erased(h, q))
  {
    var b := Erased(h, q);
    assert Since(a, b) == Since(a, h);
    forall r: nat, c ensures SlotKept(a, MetWhole(rest, q), b, r, c) {
      assert SlotKept(a, rest, h, r, c);
    }
  }

  lemma SameMetWhole(a: Http, rest: Rest, q: nat)
    ensures forall c :: Met(a, MetWhole(rest, q), c) == Met(a, rest, c)
  {
  }

  lemma ErasedKeepsEnds(a: Http, rest: Rest, h: Http, q: nat)
    requires a.log <= h.log && EndsKept(a, rest, h) && SlotKept(a, rest, h, q, CancelRequests)
    requires h.dying.None? && q !in rest.cancel && q != MAIN
    ensures EndsKept(a, MetWhole(rest, q), Erased(h, q))
  {
    SameMetWhole(a, rest, q);
    hide Met, Ends;
    var b := Erased(h, q);
    EndsOfErased(h, q);
    SameSending(a, h, b);
    match h.SlotOf(q, CancelRequests)
    case None => assert Ends(b) == Ends(h);
    case Some(e) =>
      assert SentOnUserQueue(a, h) && SentSomething(a, h);
      hide SentOnUserQueue, SentSomething;
      assert Ends(b)[|a.dropped|..] == Ends(h)[|a.dropped|..] + [e];
  }

  lemma EndsOfErased(h: Http, q: nat)
    requires h.dying.None?
    ensures var y := h.SlotOf(q, CancelRequests); Ends(Erased(h, q)) == Ends(h) + (if y.Some? then [y.value] else [])
  {
  }

  lemma ErasedKeepsRest(a: Http, rest: Rest, h: Http, q: nat)
    requires a.log <= h.log && OldEnginesKept(a, rest, h) && ForgottenKept(a, rest, h) && TicketsKept(a, rest, h)
    requires QueuesKept(a, rest, h) && h.dying.None? && q !in rest.forget
    ensures var rest' := MetWhole(rest, q); var b := Erased(h, q);
            && OldEnginesKept(a, rest', b) && ForgottenKept(a, rest', b) && TicketsKept(a, rest', b)
            && QueuesKept(a, rest', b)
  {
    SameMetWhole(a, rest, q);
    hide Met;
    var b := Erased(h, q);
    assert Since(a, b) == Since(a, h);
    forall s | s in a.tickets ensures TicketKept(a, MetWhole(rest, q), b, s) {
      assert TicketKept(a, rest, h, s);
    }
  }

  lemma ErasedKeeps(a: Http, rest: Rest, h: Http, q: nat)
    requires Kept(a, rest, h) && h.dying.None? && h.SlotOf(q, ForgetRequests).None?
    requires q !in rest.cancel && q !in rest.forget && q != MAIN
    ensures Kept(a, MetWhole(rest, q), Erased(h, q))
    ensures h.SlotOf(q, CancelRequests).Some? ==> h.SlotOf(q, CancelRequests).value >= a.nextEngine
  {
    assert SlotKept(a, rest, h, q, CancelRequests);
    hide Fine, Met, SlotsKept, OldEnginesKept, ForgottenKept, EndsKept, TicketsKept, QueuesKept;
    ErasedIsFine(h, q);
    ErasedKeepsSlots(a, rest, h, q);
    ErasedKeepsEnds(a, rest, h, q);
    ErasedKeepsRest(a, rest, h, q);
  }

  lemma WholeKeepsSlots(a: Http, rest: Rest, h: Http, q: nat)
    requires a.log <= h.log && SlotsKept(a, rest, h)
    ensures SlotsKept(a, MetWhole(rest, q), h)
  {
    forall r, c ensures SlotKept(a, MetWhole(rest, q), h, r, c) {
      assert SlotKept(a, rest, h, r, c);
    }
  }

  lemma MainStays(a: Http, rest: Rest, h: Http)
    requires Kept(a, rest, h) && MAIN !in rest.forget
    ensures Kept(a, MetWhole(rest, MAIN), h)
  {
    SameMetWhole(a, rest, MAIN);
    WholeKeepsSlots(a, rest, h, MAIN);
    hide Fine, Met, SlotsKept, OldEnginesKept, ForgottenKept, EndsKept, TicketsKept;
    SameMetKeeps(a, rest, MetWhole(rest, MAIN), h);
  }

  lemma EraseStepKeeps(a: Http, rest: Rest, h: Http, q: nat, b: Http)
    requires Fine(a) && Kept(a, rest, h) && h.dying.None? && q in h.packs && EraseStep(h, q, b)
    requires q !in rest.cancel && q !in rest.forget && (q != MAIN ==> h.SlotOf(q, ForgetRequests).None?)
    ensures Kept(a, MetWhole(rest, q), b) && b.dying.None?
  {
    hide Fine, Kept, Met, Destroyed, Effect;
    if q == MAIN {
      MainStays(a, rest, h);
    } else {
      ErasedKeeps(a, rest, h, q);
      match h.SlotOf(q, CancelRequests)
      case None =>
      case Some(e) => DestructionKeeps(a, MetWhole(rest, q), Erased(h, q), e, b);
    }
  }

  /** The queues of the start that are still to come. */
  function All(left: set<nat>): Rest {
    Rest(left, left, left)
  }

  lemma QueueStepKeeps(a: Http, left: set<nat>, h: Http, q: nat, b: Http)
    requires Fine(a) && Kept(a, All(left), h) && h.dying.None? && QueueStep(h, q, b) && (q == MAIN ==> q in left)
    ensures Kept(a, All(left - {q}), b) && b.dying.None?
  {
    hide Fine, Kept, CancelStep, ForgetStep, EraseStep;
    var m1: Http, m2: Http :| CancelStep(h, q, m1) && q in m1.packs && ForgetStep(m1, q, m2) && q in m2.packs
                              && EraseStep(m2, q, b);
    var r1 := MetCancel(All(left), q);
    var r2 := MetForget(r1, q);
    CancelStepKeeps(a, All(left), h, q, m1);
    ForgetStepKeeps(a, r1, m1, q, m2);
    EraseStepKeeps(a, r2, m2, q, b);
    assert MetWhole(r2, q) == All(left - {q});
  }

  // ----- the whole walk -----

  lemma {:induction false} TurnsKeep(a: Http, n: nat, left: set<nat>, todo: set<nat>, b: Http)
    requires Fine(a) && a.dying.None? && Turns(a, n, left, todo, b)
    ensures Kept(a, All(left), b) && b.dying.None? && left <= todo && (MAIN in todo ==> MAIN in left)
  {
    hide Fine, Kept, QueueStep;
    if n == 0 {
      NothingMet(a);
    } else {
      var l0: set<nat>, t0: set<nat>, m: Http, q: nat :|
        && Turns(a, n - 1, l0, t0, m) && q in t0 && QueueStep(m, q, b)
        && left == l0 - {q} && t0 - {q} <= todo
        && forall k :: k in todo ==> k in t0 - {q} || MadeSince(a, b, k);
      TurnsKeep(a, n - 1, l0, t0, m);
      QueueStepKeeps(a, l0, m, q, b);
      MainIsNotMade(a, All(left), b);
    }
  }

  lemma MainIsNotMade(a: Http, rest: Rest, b: Http)
    requires Kept(a, rest, b)
    ensures !MadeSince(a, b, MAIN)
  {
    hide Fine, SlotsKept, OldEnginesKept, ForgottenKept, EndsKept, TicketsKept;
  }

  // ----- the result -----

  function Every(a: Http, c: EndBehaviour): set<EngineId> {
    EnginesOf(a, a.packs.Keys, c)
  }

  /** The terminating engines there were are cancelled once and destroyed; the forgettable ones are forgotten once and
      listed once behind the earlier ones; no other engine there was is called. */
  ghost predicate EnginesChanged(a: Http, b: Http) {
    && (forall e :: e in a.engines ==>
          && e in b.engines
          && b.engines[e] == Called(a.engines[e], e in Every(a, CancelRequests), e in Every(a, ForgetRequests)))
    && a.forgotten <= b.forgotten && a.dropped <= b.dropped
    && (forall e :: e < a.nextEngine ==>
          && (e in b.forgotten[|a.forgotten|..] <==> e in Every(a, ForgetRequests))
          && (e in b.dropped[|a.dropped|..] <==> e in Every(a, CancelRequests)))
    && (forall i, j :: 0 <= i < j < |b.forgotten| ==> b.forgotten[i] != b.forgotten[j])
    && (forall i, j :: 0 <= i < j < |b.dropped| ==> b.dropped[i] != b.dropped[j])
  }

  /** The requests of terminating engines have completed; the others are still pending, and those of forgettable engines
      will call no one back. */
  ghost predicate TicketsChanged(a: Http, b: Http) {
    forall s :: s in a.tickets ==>
      var t := a.tickets[s];
      if t.engine in Every(a, CancelRequests) then s !in b.tickets && (t.forgotten || Gone(b, s))
      else s in b.tickets && b.tickets[s] == Marked(t, false, t.engine in Every(a, ForgetRequests))
  }

  /** Only the main queue is left, and queues that callbacks have made; its slots are in use iff they were, or a
      callback has sent on them, and then with new engines. */
  ghost predicate QueuesChanged(a: Http, b: Http)
    requires a.log <= b.log
  {
    && MAIN in b.packs
    && (forall k :: k in b.packs ==> k == MAIN || Made(k) in Since(a, b))
    && forall c ::
         && (b.SlotOf(MAIN, c).Some? <==> a.SlotOf(MAIN, c).Some? || Placed(MAIN, c) in Since(a, b))
         && (b.SlotOf(MAIN, c).Some? ==> b.SlotOf(MAIN, c).value >= a.nextEngine)
  }

  /** An engine that was made and destroyed meanwhile was cancelled, or a callback has sent on a user's queue. */
  ghost predicate NewEnginesChanged(a: Http, b: Http)
    requires a.log <= b.log
  {
    && |a.dropped| <= |b.dropped| && |a.forgotten| <= |b.forgotten|
    && (forall e :: e in b.dropped[|a.dropped|..] && e >= a.nextEngine ==>
          && e in b.engines && b.engines[e].forgets == 0 && b.engines[e].cancels <= 1 && SentSomething(a, b)
          && (b.engines[e].cancels == 1 || SentOnUserQueue(a, b)))
    && (forall e :: e in b.forgotten[|a.forgotten|..] && e >= a.nextEngine ==>
          e in b.engines && b.engines[e].forgets == 1 && b.engines[e].cancels == 0 && SentSomething(a, b))
  }

  /** A map change, whatever the callbacks of the cancelled requests do, in whatever order queues and requests come. */
  lemma ResetResult(a: Http, b: Http)
    requires Fine(a) && a.dying.None? && ResetRun(a, b)
    ensures Fine(b) && b.dying.None? && a.log <= b.log
    ensures EnginesChanged(a, b) && TicketsChanged(a, b) && QueuesChanged(a, b) && NewEnginesChanged(a, b)
  {
    hide Fine, Kept, EnginesChanged, TicketsChanged, QueuesChanged, NewEnginesChanged;
    var n: nat, left: set<nat> :| Turns(a, n, left, {}, b);
    TurnsKeep(a, n, left, {}, b);
    assert left == {};
    KeptIsFine(a, {}, b);
    KeptEngines(a, b);
    KeptTickets(a, b);
    KeptQueues(a, b);
  }

  lemma KeptIsFine(a: Http, left: set<nat>, b: Http)
    requires Kept(a, All(left), b)
    ensures Fine(b) && a.log <= b.log
  {
    hide Fine, SlotsKept, OldEnginesKept, ForgottenKept, EndsKept, TicketsKept, QueuesKept;
  }

  lemma AllMet(a: Http)
    ensures forall c :: Met(a, All({}), c) == Every(a, c)
  {
    forall c ensures Met(a, All({}), c) == Every(a, c) {
      assert a.packs.Keys - {} == a.packs.Keys;
    }
  }

  lemma ListedOnce(h: Http)
    requires EnginesFine(h)
    ensures forall i, j :: 0 <= i < j < |h.forgotten| ==> h.forgotten[i] != h.forgotten[j]
    ensures forall i, j :: 0 <= i < j < |h.dropped| ==> h.dropped[i] != h.dropped[j]
  {
    forall i: nat, j: nat | i < j < |h.forgotten| ensures h.forgotten[i] != h.forgotten[j] {
      assert h.At(InForgotten(i)) == Some(h.forgotten[i]) && h.At(InForgotten(j)) == Some(h.forgotten[j]);
    }
    forall i: nat, j: nat | i < j < |h.dropped| ensures h.dropped[i] != h.dropped[j] {
      assert h.At(InDropped(i)) == Some(h.dropped[i]) && h.At(InDropped(j)) == Some(h.dropped[j]);
    }
  }

  lemma KeptEngines(a: Http, b: Http)
    requires Fine(a) && Kept(a, All({}), b) && b.dying.None?
    ensures a.log <= b.log && EnginesChanged(a, b) && NewEnginesChanged(a, b)
  {
    FineHasMain(b);
    ListedOnce(b);
    AllMet(a);
    hide Fine, Met, Every, SlotsKept, TicketsKept, QueuesKept;
    assert Ends(b) == b.dropped;
  }

  lemma KeptTickets(a: Http, b: Http)
    requires Kept(a, All({}), b) && b.dying.None?
    ensures TicketsChanged(a, b)
  {
    AllMet(a);
    hide Fine, Met, Every, SlotsKept, OldEnginesKept, ForgottenKept, EndsKept, QueuesKept;
    forall s | s in a.tickets ensures TicketKept(a, All({}), b, s) {
    }
  }

  lemma KeptQueues(a: Http, b: Http)
    requires Kept(a, All({}), b)
    ensures a.log <= b.log && QueuesChanged(a, b)
  {
    FineHasMain(b);
    hide Fine, OldEnginesKept, ForgottenKept, EndsKept, TicketsKept;
    forall c
      ensures b.SlotOf(MAIN, c).Some? <==> a.SlotOf(MAIN, c).Some? || Placed(MAIN, c) in Since(a, b)
      ensures b.SlotOf(MAIN, c).Some? ==> b.SlotOf(MAIN, c).value >= a.nextEngine
    {
      assert SlotKept(a, All({}), b, MAIN, c);
    }
  }

  /** Only the main queue is left iff the walk came to every queue that a callback has made; so when none has. */
  lemma OnlyMainIsLeftIff(a: Http, b: Http)
    requires Fine(a) && a.dying.None? && ResetRun(a, b)
    ensures b.packs.Keys == {MAIN} <==> !(exists k :: MadeSince(a, b, k))
    ensures a.log <= b.log && ((forall k :: Made(k) !in Since(a, b)) ==> b.packs.Keys == {MAIN})
  {
    hide Fine, EnginesChanged, TicketsChanged, NewEnginesChanged;
    ResetResult(a, b);
    ResetMakesNoMain(a, b);
    if b.packs.Keys == {MAIN} {
      forall k: nat ensures !MadeSince(a, b, k) {
        assert k in b.packs ==> k in b.packs.Keys;
      }
    } else {
      var k :| k in b.packs.Keys - {MAIN} || k in {MAIN} - b.packs.Keys;
      assert MadeSince(a, b, k);
    }
  }

  lemma ResetMakesNoMain(a: Http, b: Http)
    requires Fine(a) && a.dying.None? && ResetRun(a, b)
    ensures !MadeSince(a, b, MAIN)
  {
    hide Fine, Kept;
    var n: nat, left: set<nat> :| Turns(a, n, left, {}, b);
    TurnsKeep(a, n, left, {}, b);
    MainIsNotMade(a, All(left), b);
  }

  /** When no callback sends on a user's queue, every engine that is destroyed was cancelled exactly once. */
  lemma DestroyedMeansCancelled(a: Http, b: Http, e: EngineId)
    requires Fine(a) && a.dying.None? && ResetRun(a, b)
    ensures a.log <= b.log && |a.dropped| <= |b.dropped|
    ensures !SentOnUserQueue(a, b) && e in b.dropped[|a.dropped|..] ==>
              e in b.engines && b.engines[e].cancels == (if e in a.engines then a.engines[e].cancels else 0) + 1
  {
    hide Fine, TicketsChanged, QueuesChanged;
    ResetResult(a, b);
    FineHasMain(a);
  }

  /** In the turn of a user's queue an engine is destroyed without a cancel iff, while its own engine was destroyed, a
      callback has sent on this very queue. */
  lemma UncancelledIff(h: Http, q: nat, m1: Http, m2: Http)
    requires Fine(h) && h.dying.None? && q in h.packs && q != MAIN && CancelStep(h, q, m1)
    requires q in m1.packs && ForgetStep(m1, q, m2)
    ensures h.log <= m1.log
    ensures m2.SlotOf(q, CancelRequests).Some? <==>
              h.SlotOf(q, CancelRequests).Some? && Placed(q, CancelRequests) in Since(h, m1)
    ensures m2.SlotOf(q, CancelRequests).Some? ==>
              var e := m2.SlotOf(q, CancelRequests).value;
              e >= h.nextEngine && e in m2.engines && m2.engines[e].cancels == 0
  {
    NothingMet(h);
    var rest := Rest(h.packs.Keys, h.packs.Keys, h.packs.Keys);
    CancelStepKeeps(h, rest, h, q, m1);
    KeptSlot(h, MetCancel(rest, q), m1, q, CancelRequests);
    CancelStepPlaces(h, q, m1);
    ForgetStepKeeps(h, MetCancel(rest, q), m1, q, m2);
    KeptSlot(h, MetForget(MetCancel(rest, q), q), m2, q, CancelRequests);
    hide Kept, Fine, CancelStep, ForgetStep;
    ForgetStepLeavesSlot(m1, q, m2);
  }

  lemma ForgetStepLeavesSlot(h: Http, q: nat, b: Http)
    requires q in h.packs && ForgetStep(h, q, b)
    ensures b.SlotOf(q, CancelRequests) == h.SlotOf(q, CancelRequests)
  {
    hide MarkAll;
    match h.SlotOf(q, ForgetRequests)
    case None =>
    case Some(e) =>
      ForgotAt(h, q, e);
      assert b.At(InSlot(q, CancelRequests)) == h.At(InSlot(q, CancelRequests));
  }

  lemma KeptSlot(a: Http, rest: Rest, h: Http, q: nat, c: EndBehaviour)
    requires Kept(a, rest, h)
    ensures a.log <= h.log && SlotKept(a, rest, h, q, c)
  {
    hide Fine, OldEnginesKept, ForgottenKept, EndsKept, TicketsKept, QueuesKept;
  }

  /** After the destructor the slot of a user's queue is in use iff a callback has sent on it. */
  lemma CancelStepPlaces(h: Http, q: nat, b: Http)
    requires Fine(h) && h.dying.None? && q in h.packs && q != MAIN && CancelStep(h, q, b)
    ensures h.log <= b.log
    ensures b.SlotOf(q, CancelRequests).Some? <==>
              h.SlotOf(q, CancelRequests).Some? && Placed(q, CancelRequests) in Since(h, b)
  {
    hide Fine, DrainRun, Active;
    if h.SlotOf(q, CancelRequests).Some? {
      var e := h.SlotOf(q, CancelRequests).value;
      var c := Cancelled(h, q, e);
      var n: nat, m: Http :| DrainRun(c, e, n, m) && !Active(m.tickets, e) && b == Buried(m, e);
      CancelledIsFine(h, q, e);
      CancelledAt(h, q, e);
      DrainKeeps(c, e, n, m);
      assert c.At(InSlot(q, CancelRequests)).None?;
      assert SlotGrew(c.SlotOf(q, CancelRequests), m.SlotOf(q, CancelRequests),
                      Placed(q, CancelRequests) in Since(c, m), c.nextEngine);
      assert Since(c, m) == Since(h, b);
    }
  }
}
