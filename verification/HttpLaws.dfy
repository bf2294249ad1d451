/** What every step of HttpSpec keeps, and what callbacks can and cannot do. */
module HttpLaws {
  import opened Common
  import opened HttpSpec

  // ----- the invariant -----

  /** Every engine has one place. */
  ghost predicate NoSharing(h: Http) {
    && (forall p :: h.At(p).Some? ==> h.At(p).value < h.nextEngine)
    && (forall p, q :: h.At(p).Some? && h.At(p) == h.At(q) ==> p == q)
  }

  ghost predicate EnginesFine(h: Http) {
    && MAIN in h.packs
    && NoSharing(h)
    && forall e: EngineId :: e in h.engines <==> e < h.nextEngine
  }

  /** The closure of every pending ticket finds the very request that it was made for. */
  ghost predicate Matching(h: Http) {
    forall s :: s in h.tickets ==>
      && s < h.nextSerial
      && h.tickets[s].request in h.requests
      && h.requests[h.tickets[s].request].serial == s
  }

  ghost predicate SerialsFine(h: Http) {
    && (forall r :: r in h.requests ==> h.requests[r].serial < h.nextSerial)
    && (forall r, t :: r in h.requests && t in h.requests && h.requests[r].serial == h.requests[t].serial ==> r == t)
  }

  /** Forgotten engines call no one back; destroyed ones have nothing left to do. */
  ghost predicate TicketsFine(h: Http) {
    forall s :: s in h.tickets ==>
      && h.tickets[s].engine < h.nextEngine
      && h.tickets[s].engine !in h.dropped
      && (h.tickets[s].engine in h.forgotten ==> h.tickets[s].forgotten)
  }

  /** The options of every request are there, and are its own. */
  ghost predicate OptionsRule(requests: map<nat, RequestData>, options: map<nat, OptionsData>) {
    && (forall r :: r in requests ==> requests[r].options in options)
    && (forall r, s :: r in requests && s in requests && requests[r].options == requests[s].options ==> r == s)
  }

  ghost predicate OptionsFine(h: Http) {
    !h.misused ==> OptionsRule(h.requests, h.options)
  }

  ghost predicate Fine(h: Http) {
    EnginesFine(h) && Matching(h) && SerialsFine(h) && TicketsFine(h) && OptionsFine(h)
  }

  lemma StartIsFine()
    ensures Fine(START)
  {
    assert forall p :: START.At(p).None?;
  }

  // ----- the rule for options -----

  /** Sending a request with options that exist keeps the rule iff no other request uses them. */
  lemma SendKeepsRuleIff(requests: map<nat, RequestData>, options: map<nat, OptionsData>, r: nat, data: RequestData)
    requires OptionsRule(requests, options) && r !in requests && data.options in options
    ensures OptionsRule(requests[r := data], options) <==> data.options !in InUse(requests)
  {
    var after := requests[r := data];
    if data.options in InUse(requests) {
      var s :| s in requests && requests[s].options == data.options;
      assert after[s].options == after[r].options;
    } else {
      forall s | s in requests ensures requests[s].options != data.options {
        assert requests[s].options in InUse(requests);
      }
    }
  }

  /** Destroying options keeps the rule iff no request uses them. */
  lemma DestroyKeepsRuleIff(requests: map<nat, RequestData>, options: map<nat, OptionsData>, o: nat)
    requires OptionsRule(requests, options)
    ensures OptionsRule(requests, options - {o}) <==> o !in InUse(requests)
  {
    if o in InUse(requests) {
      var s :| s in requests && requests[s].options == o;
    } else {
      forall s | s in requests ensures requests[s].options != o {
        assert requests[s].options in InUse(requests);
      }
    }
  }

  /** A completed request takes its own options with it, and no other request's. */
  lemma CompletionKeepsRule(requests: map<nat, RequestData>, options: map<nat, OptionsData>, r: nat)
    requires OptionsRule(requests, options) && r in requests
    ensures OptionsRule(requests - {r}, options - {requests[r].options})
  {
  }

  lemma RemovalKeepsRule(requests: map<nat, RequestData>, options: map<nat, OptionsData>, r: nat)
    requires OptionsRule(requests, options)
    ensures OptionsRule(requests - {r}, options)
  {
  }

  /** Two requests with the same options: when the first completes, the second has lost its own. */
  lemma SharedOptionsAreLost(requests: map<nat, RequestData>, options: map<nat, OptionsData>, r: nat, s: nat)
    requires r in requests && s in requests && r != s && requests[r].options == requests[s].options
    ensures !OptionsRule(requests - {r}, options - {requests[r].options})
  {
    assert (requests - {r})[s].options !in options - {requests[r].options};
  }

  // ----- who owns an engine -----

  /** A new engine, put where there was none, is owned there only. */
  lemma NewEngineIsNotShared(h: Http, h': Http, p: Place)
    requires NoSharing(h) && h'.nextEngine == h.nextEngine + 1
    requires forall q :: h'.At(q) == if q == p then Some(h.nextEngine) else h.At(q)
    ensures NoSharing(h')
  {
  }

  /** An engine that moves is owned where it has moved to only. */
  lemma MovedEngineIsNotShared(h: Http, h': Http, from: Place, to: Place)
    requires NoSharing(h) && h'.nextEngine == h.nextEngine && from != to
    requires forall q :: h'.At(q) == if q == to then h.At(from) else if q == from then None else h.At(q)
    ensures NoSharing(h')
  {
  }

  lemma SamePlacesAreNotShared(h: Http, h': Http)
    requires NoSharing(h) && h'.nextEngine == h.nextEngine && forall q :: h'.At(q) == h.At(q)
    ensures NoSharing(h')
  {
  }

  /** What is in a slot is in no list, and not being destroyed. */
  lemma SlotIsNotElsewhere(h: Http, q: nat, b: EndBehaviour)
    requires NoSharing(h) && h.SlotOf(q, b).Some?
    ensures var e := h.SlotOf(q, b).value;
            e < h.nextEngine && e !in h.forgotten && e !in h.dropped && h.dying != Some(e)
  {
    var e := h.SlotOf(q, b).value;
    assert h.At(InSlot(q, b)) == Some(e);
    forall i: nat | i < |h.forgotten| ensures h.forgotten[i] != e {
      assert h.At(InForgotten(i)) == Some(h.forgotten[i]);
    }
    forall i: nat | i < |h.dropped| ensures h.dropped[i] != e {
      assert h.At(InDropped(i)) == Some(h.dropped[i]);
    }
    assert h.At(IsDying) == h.dying;
  }

  // ----- what callbacks can do -----

  predicate Untouched(e: Engine) {
    e.cancels == 0 && e.forgets == 0
  }

  /** A slot keeps its engine; an empty one is filled, with an engine made since, iff something was placed in it. */
  predicate SlotGrew(x: Option<EngineId>, y: Option<EngineId>, placed: bool, next: EngineId) {
    if x.Some? then y == x else (y.Some? <==> placed) && (y.Some? ==> y.value >= next)
  }

  function Since(a: Http, b: Http): seq<Doing>
    requires a.log <= b.log
  {
    b.log[|a.log|..]
  }

  /** From a to b plugins have asked for things, and requests may have completed; no engine was called or moved. */
  ghost predicate Effect(a: Http, b: Http) {
    && b.forgotten == a.forgotten && b.dying == a.dying && b.dropped == a.dropped
    && a.nextEngine <= b.nextEngine && a.nextSerial <= b.nextSerial && a.log <= b.log
    && (forall e :: e in a.engines ==> e in b.engines && b.engines[e] == a.engines[e])
    && (forall e :: e in b.engines && e !in a.engines ==> Untouched(b.engines[e]))
    && (forall q :: q in b.packs <==> q in a.packs || Made(q) in Since(a, b))
    && (forall q :: q in a.packs ==> Made(q) !in Since(a, b))
    && (forall q, c :: SlotGrew(a.SlotOf(q, c), b.SlotOf(q, c), Placed(q, c) in Since(a, b), a.nextEngine))
  }

  /** Tickets stay; new ones are on engines of queues. */
  ghost predicate TicketsGrew(a: Http, b: Http) {
    && (forall s :: s in a.tickets ==> s in b.tickets && b.tickets[s] == a.tickets[s])
    && (forall s :: s in b.tickets && s !in a.tickets ==>
          s >= a.nextSerial && Some(b.tickets[s].engine) != a.dying && b.tickets[s].engine !in a.forgotten)
  }

  ghost predicate RequestsGrew(a: Http, b: Http) {
    && (forall r :: r in a.requests ==> r in b.requests && b.requests[r] == a.requests[r])
    && (forall r :: r in b.requests && r !in a.requests ==> b.requests[r].serial >= a.nextSerial)
  }

  /** Requests and tickets are the old ones, or have a new serial. */
  ghost predicate Aged(a: Http, b: Http) {
    && a.nextSerial <= b.nextSerial
    && (forall r :: r in b.requests && b.requests[r].serial < a.nextSerial ==>
          r in a.requests && a.requests[r].serial == b.requests[r].serial)
    && (forall s :: s in b.tickets && s !in a.tickets ==> s >= a.nextSerial)
  }

  lemma AgedTwice(a: Http, b: Http, c: Http)
    requires Aged(a, b) && Aged(b, c)
    ensures Aged(a, c)
  {
  }

  /** What a plugin can bring about by asking for things. */
  ghost predicate Asked(a: Http, b: Http) {
    Effect(a, b) && TicketsGrew(a, b) && RequestsGrew(a, b)
  }

  lemma SinceTwice(a: Http, b: Http, c: Http)
    requires a.log <= b.log <= c.log
    ensures Since(a, c) == Since(a, b) + Since(b, c)
  {
  }

  lemma EffectTwice(a: Http, b: Http, c: Http)
    requires Effect(a, b) && Effect(b, c)
    ensures Effect(a, c)
  {
    SinceTwice(a, b, c);
    forall q, d ensures SlotGrew(a.SlotOf(q, d), c.SlotOf(q, d), Placed(q, d) in Since(a, c), a.nextEngine) {
      assert SlotGrew(a.SlotOf(q, d), b.SlotOf(q, d), Placed(q, d) in Since(a, b), a.nextEngine);
      assert SlotGrew(b.SlotOf(q, d), c.SlotOf(q, d), Placed(q, d) in Since(b, c), b.nextEngine);
    }
  }

  lemma NoEffect(a: Http, b: Http)
    requires b == a.(options := b.options, requests := b.requests, tickets := b.tickets, misused := b.misused)
    requires EnginesFine(a)
    ensures Effect(a, b) && EnginesFine(b)
  {
    assert Since(a, b) == [];
    SamePlacesAreNotShared(a, b);
  }

  lemma AskedTwice(a: Http, b: Http, c: Http)
    requires Asked(a, b) && Asked(b, c)
    ensures Asked(a, c)
  {
    hide Effect;
    EffectTwice(a, b, c);
    EffectKeeps(a, b);
  }

  lemma EffectKeeps(a: Http, b: Http)
    requires Effect(a, b)
    ensures b.forgotten == a.forgotten && b.dying == a.dying && b.dropped == a.dropped
    ensures a.nextEngine <= b.nextEngine && a.nextSerial <= b.nextSerial && a.log <= b.log
  {
  }

  // ----- one request of a plugin -----

  lemma EquipKeeps(h: Http, q: nat, b: EndBehaviour)
    requires EnginesFine(h) && q in h.packs
    ensures EnginesFine(Equip(h, q, b))
    ensures var e := Equip(h, q, b).SlotOf(q, b).value; e < Equip(h, q, b).nextEngine
    ensures forall p :: Equip(h, q, b).At(p) ==
              if p == InSlot(q, b) && h.SlotOf(q, b).None? then Some(h.nextEngine) else h.At(p)
  {
    var r := Equip(h, q, b);
    if h.SlotOf(q, b).None? {
      forall p ensures r.At(p) == if p == InSlot(q, b) then Some(h.nextEngine) else h.At(p) {
      }
      NewEngineIsNotShared(h, r, InSlot(q, b));
    } else {
      assert h.At(InSlot(q, b)).Some?;
    }
  }

  /** Equipping a slot for a request that is placed in it. */
  ghost predicate PlacedIn(h: Http, q: nat, c: EndBehaviour, b: Http)
    requires q in h.packs
  {
    var r := Equip(h, q, c);
    && b == r.(options := b.options, requests := b.requests, tickets := b.tickets, misused := b.misused,
               nextSerial := b.nextSerial, log := h.log + [Placed(q, c)])
    && b.nextSerial >= h.nextSerial
  }

  lemma PlacingFillsSlot(h: Http, q: nat, c: EndBehaviour, b: Http, p: nat, d: EndBehaviour)
    requires EnginesFine(h) && q in h.packs && PlacedIn(h, q, c, b)
    ensures SlotGrew(h.SlotOf(p, d), b.SlotOf(p, d), Placed(p, d) in Since(h, b), h.nextEngine)
  {
    hide NoSharing;
    assert Since(h, b) == [Placed(q, c)];
  }

  lemma PlacingKeepsEngines(h: Http, q: nat, c: EndBehaviour, b: Http)
    requires EnginesFine(h) && q in h.packs && PlacedIn(h, q, c, b)
    ensures EnginesFine(b) && b.packs.Keys == h.packs.Keys
    ensures forall e :: e in h.engines ==> e in b.engines && b.engines[e] == h.engines[e]
    ensures forall e :: e in b.engines && e !in h.engines ==> Untouched(b.engines[e])
  {
    EquipKeeps(h, q, c);
    SamePlacesAreNotShared(Equip(h, q, c), b);
    hide NoSharing;
  }

  lemma PlacingHasEffect(h: Http, q: nat, c: EndBehaviour, b: Http)
    requires EnginesFine(h) && q in h.packs && PlacedIn(h, q, c, b)
    ensures Effect(h, b) && EnginesFine(b)
  {
    PlacingKeepsEngines(h, q, c, b);
    hide EnginesFine, SlotGrew;
    assert Since(h, b) == [Placed(q, c)];
    forall p, d ensures SlotGrew(h.SlotOf(p, d), b.SlotOf(p, d), Placed(p, d) in Since(h, b), h.nextEngine) {
      PlacingFillsSlot(h, q, c, b, p, d);
    }
  }

  lemma EnrolledRequest(h: Http, b: Http, r: nat, data: RequestData, t: Ticket)
    requires Matching(h) && SerialsFine(h) && r !in h.requests && data.serial == h.nextSerial && t.request == r
    requires b.requests == h.requests[r := data] && b.tickets == h.tickets[h.nextSerial := t]
    requires b.nextSerial == h.nextSerial + 1
    ensures Matching(b) && SerialsFine(b) && RequestsGrew(h, b)
  {
  }

  lemma EnrolledTicket(h: Http, b: Http, t: Ticket)
    requires h.nextSerial !in h.tickets && TicketsFine(h) && b.tickets == h.tickets[h.nextSerial := t]
    requires b.nextEngine >= h.nextEngine && b.forgotten == h.forgotten && b.dropped == h.dropped
    requires t.engine < b.nextEngine && t.engine !in h.forgotten && t.engine !in h.dropped && h.dying != Some(t.engine)
    ensures TicketsFine(b) && TicketsGrew(h, b)
  {
  }

  lemma SendToKeeps(h: Http, o: nat, r: nat, callback: seq<UserOp>)
    requires Fine(h) && o in h.options && r !in h.requests
    ensures Fine(SendTo(h, o, r, callback)) && Asked(h, SendTo(h, o, r, callback))
  {
    hide NoSharing, Effect, OptionsRule, InUse, Matching, SerialsFine, TicketsFine, TicketsGrew, RequestsGrew;
    var d := h.options[o];
    var q := QueueFor(h, d);
    var b := SendTo(h, o, r, callback);
    EquipKeeps(h, q, d.behaviour);
    PlacingHasEffect(h, q, d.behaviour, b);
    EffectKeeps(h, b);
    SlotIsNotElsewhere(b, q, d.behaviour);
    var t := b.tickets[h.nextSerial];
    assert Equip(h, q, d.behaviour).SlotOf(q, d.behaviour) == b.SlotOf(q, d.behaviour);
    TicketsAreOld(h);
    EnrolledRequest(h, b, r, b.requests[r], t);
    EnrolledTicket(h, b, t);
    if !h.misused {
      SendKeepsRuleIff(h.requests, h.options, r, b.requests[r]);
    }
  }

  lemma WithOptionsKeeps(h: Http, o: nat, d: OptionsData)
    requires Fine(h)
    ensures Fine(WithOptions(h, o, d)) && Asked(h, WithOptions(h, o, d))
  {
    hide EnginesFine, Effect;
    NoEffect(h, WithOptions(h, o, d));
  }

  lemma DestroyKeeps(h: Http, o: nat)
    requires Fine(h)
    ensures Fine(Destroy(h, o)) && Asked(h, Destroy(h, o))
  {
    hide EnginesFine, Effect, OptionsRule, InUse;
    NoEffect(h, Destroy(h, o));
    if !h.misused {
      DestroyKeepsRuleIff(h.requests, h.options, o);
    }
  }

  lemma MakeQueueKeeps(h: Http, k: nat)
    requires Fine(h) && IsFree(h.packs, k)
    ensures Fine(MakeQueue(h, k)) && Asked(h, MakeQueue(h, k))
  {
    var b := MakeQueue(h, k);
    assert forall p :: b.At(p) == h.At(p);
    SamePlacesAreNotShared(h, b);
    assert Since(h, b) == [Made(k)];
    forall q, c ensures SlotGrew(h.SlotOf(q, c), b.SlotOf(q, c), Placed(q, c) in Since(h, b), h.nextEngine) {
    }
  }

  lemma NothingAsked(h: Http)
    requires EnginesFine(h)
    ensures Asked(h, h)
  {
    hide EnginesFine, Effect;
    NoEffect(h, h);
  }

  lemma OpStepKeeps(a: Http, op: UserOp, b: Http)
    requires Fine(a) && OpStep(a, op, b)
    ensures Fine(b) && Asked(a, b)
  {
    hide Fine, Asked, SendTo, MakeQueue, Destroy, WithOptions;
    FineHasMain(a);
    NothingAsked(a);
    match op
    case CreateOpt =>
      var o :| IsFree(a.options, o) && b == WithOptions(a, o, DEFAULTS);
      WithOptionsKeeps(a, o, DEFAULTS);
    case DestroyOpt(o) => DestroyKeeps(a, o);
    case SetBehaviourOpt(o, behaviour) =>
      if o in a.options {
        WithOptionsKeeps(a, o, a.options[o].(behaviour := behaviour));
      }
    case SetQueueOpt(o, q) =>
      if o in a.options {
        WithOptionsKeeps(a, o, a.options[o].(queue := q));
      }
    case Send(o, callback) => SendStepKeeps(a, o, callback, b);
    case NewQueue =>
      var k :| IsFree(a.packs, k) && b == MakeQueue(a, k);
      MakeQueueKeeps(a, k);
  }

  lemma FineHasMain(h: Http)
    requires Fine(h)
    ensures MAIN in h.packs && EnginesFine(h)
  {
  }

  lemma SendStepKeeps(a: Http, o: nat, callback: seq<UserOp>, b: Http)
    requires Fine(a) && MAIN in a.packs && OpStep(a, Send(o, callback), b)
    ensures Fine(b) && Asked(a, b)
  {
    hide Fine, Asked, SendTo;
    FineHasMain(a);
    NothingAsked(a);
    if o == 0 {
      var k, r :| IsFree(a.options, k) && IsFree(a.requests, r)
                  && b == SendTo(WithOptions(a, k, DEFAULTS), k, r, callback);
      var m := WithOptions(a, k, DEFAULTS);
      WithOptionsKeeps(a, k, DEFAULTS);
      SendToKeeps(m, k, r, callback);
      AskedTwice(a, m, b);
    } else if o in a.options {
      var r :| IsFree(a.requests, r) && b == SendTo(a, o, r, callback);
      SendToKeeps(a, o, r, callback);
    }
  }

  lemma {:induction false} OpsRunKeeps(a: Http, ops: seq<UserOp>, b: Http)
    requires Fine(a) && OpsRun(a, ops, b)
    ensures Fine(b) && Asked(a, b)
  {
    hide Fine, Asked, OpStep;
    if ops == [] {
      FineHasMain(a);
      NothingAsked(a);
    } else {
      var m: Http :| MAIN in m.packs && OpsRun(a, ops[..|ops|-1], m) && OpStep(m, ops[|ops|-1], b);
      OpsRunKeeps(a, ops[..|ops|-1], m);
      OpStepKeeps(m, ops[|ops|-1], b);
      AskedTwice(a, m, b);
    }
  }

  // ----- completions -----

  /** No request with this serial is left. */
  ghost predicate Gone(h: Http, s: nat) {
    s !in h.tickets && s < h.nextSerial && forall r :: r in h.requests ==> h.requests[r].serial != s
  }

  lemma PoppedKeeps(h: Http, s: nat)
    requires Fine(h)
    ensures Fine(Popped(h, s)) && Effect(h, Popped(h, s)) && RequestsGrew(h, Popped(h, s))
  {
    hide EnginesFine, Effect;
    NoEffect(h, Popped(h, s));
  }

  lemma AnsweredKeeps(h: Http, s: nat)
    requires Fine(h) && s in h.tickets
    ensures h.tickets[s].request in h.requests
    ensures Fine(Answered(h, s)) && Effect(h, Answered(h, s))
  {
    hide EnginesFine, Effect;
    NoEffect(h, Answered(h, s));
  }

  lemma DeletedKeeps(h: Http, r: nat)
    requires Fine(h) && r in h.requests && h.requests[r].serial !in h.tickets
    ensures Fine(Deleted(h, r)) && Effect(h, Deleted(h, r)) && Gone(Deleted(h, r), h.requests[r].serial)
  {
    hide EnginesFine, Effect, OptionsRule;
    NoEffect(h, Deleted(h, r));
    if !h.misused {
      CompletionKeepsRule(h.requests, h.options, r);
    }
  }

  /** What a completion of ticket s has done. */
  ghost predicate Completed(a: Http, s: nat, b: Http)
    requires s in a.tickets
  {
    var t := a.tickets[s];
    && Effect(a, b) && Aged(a, b) && TicketsGrew(Popped(a, s), b) && s !in b.tickets
    && (!t.forgotten ==> Gone(b, s))
    && (forall r :: r in a.requests && (t.forgotten || r != t.request) ==>
        r in b.requests && b.requests[r] == a.requests[r])
  }

  lemma AnsweredThenDeleted(a: Http, s: nat, m: Http, b: Http)
    requires Fine(a) && s in a.tickets && !a.tickets[s].forgotten && a.tickets[s].request in a.requests
    requires Fine(m) && Asked(Answered(a, s), m) && a.tickets[s].request in m.requests
    requires b == Deleted(m, a.tickets[s].request)
    ensures Fine(b) && Completed(a, s, b)
  {
    hide Fine, Effect;
    var w := Answered(a, s);
    AnsweredKeeps(a, s);
    OwnSerial(a, s, m);
    DeletedKeeps(m, a.tickets[s].request);
    EffectTwice(a, w, m);
    EffectTwice(a, m, b);
    EffectKeeps(a, m);
  }

  /** Whatever its callback does, a completion takes its own ticket and request, and no other. */
  lemma CompleteKeeps(a: Http, s: nat, b: Http)
    requires Fine(a) && CompleteStep(a, s, b)
    ensures Fine(b) && Completed(a, s, b)
  {
    hide Fine, Effect, OpsRun, Asked, Gone;
    if a.tickets[s].forgotten {
      PoppedKeeps(a, s);
    } else {
      hide Completed;
      AnsweredKeeps(a, s);
      var r := a.tickets[s].request;
      var m: Http :| OpsRun(Answered(a, s), a.tickets[s].callback, m) && r in m.requests && b == Deleted(m, r);
      OpsRunKeeps(Answered(a, s), a.tickets[s].callback, m);
      AnsweredThenDeleted(a, s, m, b);
    }
  }

  lemma OpKeepsOptions(a: Http, op: UserOp, b: Http, o: nat)
    requires MAIN in a.packs && OpStep(a, op, b) && o in a.options && op != DestroyOpt(o)
    ensures o in b.options
  {
  }

  lemma {:induction false} OpsRunKeepsOptions(a: Http, ops: seq<UserOp>, b: Http, o: nat)
    requires OpsRun(a, ops, b) && o in a.options && DestroyOpt(o) !in ops
    ensures o in b.options
  {
    hide OpStep;
    if ops != [] {
      var m: Http :| MAIN in m.packs && OpsRun(a, ops[..|ops|-1], m) && OpStep(m, ops[|ops|-1], b);
      OpsRunKeepsOptions(a, ops[..|ops|-1], m, o);
      OpKeepsOptions(m, ops[|ops|-1], b, o);
    }
  }

  /** Of the options that its callback does not destroy, a completion takes exactly its own. */
  lemma CompletionTakesOwnOptions(a: Http, s: nat, b: Http, o: nat)
    requires Fine(a) && CompleteStep(a, s, b) && o in a.options && DestroyOpt(o) !in a.tickets[s].callback
    ensures a.tickets[s].request in a.requests
    ensures o in b.options <==> a.tickets[s].forgotten || o != a.requests[a.tickets[s].request].options
  {
    var t := a.tickets[s];
    AnsweredKeeps(a, s);
    hide Fine, OpsRun, Effect;
    if !t.forgotten {
      var m: Http :| OpsRun(Answered(a, s), t.callback, m) && t.request in m.requests && b == Deleted(m, t.request);
      OpsRunKeepsOptions(Answered(a, s), t.callback, m, o);
      OpsRunKeepsRequest(Answered(a, s), t.callback, m, t.request);
    }
  }

  lemma OpsRunKeepsRequest(a: Http, ops: seq<UserOp>, b: Http, r: nat)
    requires Fine(a) && OpsRun(a, ops, b) && r in a.requests
    ensures r in b.requests && b.requests[r] == a.requests[r]
  {
    hide Fine, OpsRun, Effect;
    OpsRunKeeps(a, ops, b);
  }

  lemma OwnSerial(a: Http, s: nat, m: Http)
    requires Fine(a) && s in a.tickets && a.tickets[s].request in a.requests && Asked(Answered(a, s), m)
    ensures var r := a.tickets[s].request; r in m.requests && m.requests[r].serial == s && s !in m.tickets
  {
    hide Effect;
    assert s < a.nextSerial && a.requests[a.tickets[s].request].serial == s;
  }

  /** While an engine is destroyed, only its own requests complete. */
  lemma {:induction false} DrainKeeps(a: Http, e: EngineId, n: nat, b: Http)
    requires Fine(a) && a.dying == Some(e) && DrainRun(a, e, n, b)
    ensures Fine(b) && Effect(a, b)
    ensures Drained(a, e, b) && Aged(a, b)
  {
    hide Fine, Effect, CompleteStep;
    if n == 0 {
      FineHasMain(a);
      NothingAsked(a);
    } else {
      var m: Http, s: nat :| DrainRun(a, e, n - 1, m) && s in m.tickets && m.tickets[s].engine == e
          && CompleteStep(m, s, b);
      DrainKeeps(a, e, n - 1, m);
      EffectKeeps(a, m);
      CompleteKeeps(m, s, b);
      EffectKeeps(m, b);
      EffectTwice(a, m, b);
      AgedTwice(a, m, b);
      TicketsAreOld(a);
      DrainedTwice(a, e, m, s, b);
    }
  }

  /** The tickets of other engines stay; those of e that went were completed, and no new one came. */
  ghost predicate Drained(a: Http, e: EngineId, b: Http) {
    && a.nextSerial <= b.nextSerial
    && (forall s :: s in a.tickets ==>
          if s in b.tickets then b.tickets[s] == a.tickets[s]
          else a.tickets[s].engine == e && (!a.tickets[s].forgotten ==> Gone(b, s)))
    && (forall s :: s in b.tickets && s !in a.tickets ==>
          s >= a.nextSerial && b.tickets[s].engine != e && b.tickets[s].engine !in a.forgotten)
  }

  lemma GoneStays(a: Http, b: Http, s: nat)
    requires Gone(a, s) && Aged(a, b)
    ensures Gone(b, s)
  {
  }

  lemma TicketsAreOld(h: Http)
    requires Fine(h)
    ensures forall s :: s in h.tickets ==> s < h.nextSerial
  {
  }

  lemma DrainedTwice(a: Http, e: EngineId, m: Http, s: nat, b: Http)
    requires Drained(a, e, m) && s in m.tickets && m.tickets[s].engine == e && m.forgotten == a.forgotten
    requires a.dying == m.dying == Some(e) && Aged(m, b) && forall t :: t in a.tickets ==> t < a.nextSerial
    requires TicketsGrew(Popped(m, s), b) && s !in b.tickets && (!m.tickets[s].forgotten ==> Gone(b, s))
    ensures Drained(a, e, b)
  {
    forall t | t in a.tickets
      ensures if t in b.tickets then b.tickets[t] == a.tickets[t]
              else a.tickets[t].engine == e && (!a.tickets[t].forgotten ==> Gone(b, t))
    {
      if t !in m.tickets && !a.tickets[t].forgotten {
        GoneStays(m, b, t);
      }
    }
  }
}
