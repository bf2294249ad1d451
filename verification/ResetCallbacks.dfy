/** Which callbacks let a map change do what it is for, and two that do not. */
module ResetCallbacks {
  import opened Common
  import opened HttpSpec
  import opened HttpLaws
  import opened ResetLaws

  // ----- rules for callbacks -----

  /** What a callback may be kept from: making queues, sending anything, sending with options of its choice. */
  datatype Rule = NoQueues | NoSends | NullSendsOnly {
    predicate Allows(op: UserOp) {
      match this
      case NoQueues => !op.NewQueue?
      case NoSends => !op.Send?
      case NullSendsOnly => op.Send? ==> op.options == 0
    }

    predicate Admits(d: Doing) {
      match this
      case NoQueues => !d.Made?
      case NoSends => !d.Placed?
      case NullSendsOnly => d.Placed? ==> d == Placed(MAIN, CancelRequests)
    }
  }

  /** The callback, and those of the requests that it sends, keep to the rule. */
  predicate Obeys(ops: seq<UserOp>, rule: Rule) {
    forall i :: 0 <= i < |ops| ==> OpObeys(ops[i], rule)
  }

  predicate OpObeys(op: UserOp, rule: Rule) {
    rule.Allows(op) && (op.Send? ==> Obeys(op.callback, rule))
  }

  /** The requests of the engines that the map change will cancel keep to the rule. */
  ghost predicate Tame(a: Http, rule: Rule) {
    forall s :: s in a.tickets && a.tickets[s].engine in Every(a, CancelRequests) ==> Harmless(a.tickets[s], rule)
  }

  predicate Harmless(t: Ticket, rule: Rule) {
    t.forgotten || Obeys(t.callback, rule)
  }

  predicate SameTicket(t: Ticket, u: Ticket) {
    u.engine == t.engine && u.callback == t.callback && (t.forgotten ==> u.forgotten)
  }

  /** From a to b only what the rule admits was done, and new requests keep to it. */
  ghost predicate Obeyed(a: Http, b: Http, rule: Rule) {
    && a.log <= b.log && (forall d :: d in Since(a, b) ==> rule.Admits(d))
    && forall s :: s in b.tickets ==>
         (s in a.tickets && SameTicket(a.tickets[s], b.tickets[s])) || Obeys(b.tickets[s].callback, rule)
  }

  lemma ObeyedTwice(a: Http, b: Http, c: Http, rule: Rule)
    requires Obeyed(a, b, rule) && Obeyed(b, c, rule)
    ensures Obeyed(a, c, rule)
  {
    SinceTwice(a, b, c);
    hide Obeys;
  }

  lemma NothingDone(a: Http, b: Http, rule: Rule)
    requires b.log == a.log && forall s :: s in b.tickets ==> s in a.tickets && SameTicket(a.tickets[s], b.tickets[s])
    ensures Obeyed(a, b, rule)
  {
    assert Since(a, b) == [];
  }

  lemma SendToObeys(a: Http, o: nat, r: nat, callback: seq<UserOp>, rule: Rule)
    requires o in a.options && MAIN in a.packs && Obeys(callback, rule)
    requires rule.Admits(Placed(QueueFor(a, a.options[o]), a.options[o].behaviour))
    ensures Obeyed(a, SendTo(a, o, r, callback), rule)
  {
    hide Obeys, InUse;
    assert Since(a, SendTo(a, o, r, callback)) == [Placed(QueueFor(a, a.options[o]), a.options[o].behaviour)];
  }

  lemma OpStepObeys(a: Http, op: UserOp, b: Http, rule: Rule)
    requires MAIN in a.packs && OpStep(a, op, b) && OpObeys(op, rule)
    ensures Obeyed(a, b, rule)
  {
    hide Obeyed, Obeys, SendTo;
    match op
    case Send(o, callback) =>
      if o == 0 {
        var k, r :| IsFree(a.options, k) && IsFree(a.requests, r)
                    && b == SendTo(WithOptions(a, k, DEFAULTS), k, r, callback);
        NothingDone(a, WithOptions(a, k, DEFAULTS), rule);
        SendToObeys(WithOptions(a, k, DEFAULTS), k, r, callback, rule);
        ObeyedTwice(a, WithOptions(a, k, DEFAULTS), b, rule);
      } else if o in a.options {
        var r :| IsFree(a.requests, r) && b == SendTo(a, o, r, callback);
        SendToObeys(a, o, r, callback, rule);
      } else {
        NothingDone(a, b, rule);
      }
    case NewQueue =>
      var k :| IsFree(a.packs, k) && b == MakeQueue(a, k);
      QueueObeys(a, k, rule);
    case _ => NothingDone(a, b, rule);
  }

  lemma QueueObeys(a: Http, k: nat, rule: Rule)
    requires rule != NoQueues
    ensures Obeyed(a, MakeQueue(a, k), rule)
  {
    assert Since(a, MakeQueue(a, k)) == [Made(k)];
  }

  lemma {:induction false} OpsRunObeys(a: Http, ops: seq<UserOp>, b: Http, rule: Rule)
    requires OpsRun(a, ops, b) && Obeys(ops, rule)
    ensures Obeyed(a, b, rule)
  {
    hide Obeyed, OpStep, OpObeys;
    if ops == [] {
      NothingDone(a, b, rule);
    } else {
      var m: Http :| MAIN in m.packs && OpsRun(a, ops[..|ops|-1], m) && OpStep(m, ops[|ops|-1], b);
      OpsRunObeys(a, ops[..|ops|-1], m, rule);
      OpStepObeys(m, ops[|ops|-1], b, rule);
      ObeyedTwice(a, m, b, rule);
    }
  }

  lemma CompleteObeys(a: Http, s: nat, b: Http, rule: Rule)
    requires CompleteStep(a, s, b) && Harmless(a.tickets[s], rule)
    ensures Obeyed(a, b, rule)
  {
    hide Obeyed, OpsRun, Obeys;
    if a.tickets[s].forgotten {
      NothingDone(a, b, rule);
    } else {
      var r := a.tickets[s].request;
      var m: Http :| OpsRun(Answered(a, s), a.tickets[s].callback, m) && r in m.requests && b == Deleted(m, r);
      NothingDone(a, Answered(a, s), rule);
      OpsRunObeys(Answered(a, s), a.tickets[s].callback, m, rule);
      NothingDone(m, b, rule);
      ObeyedTwice(a, Answered(a, s), m, rule);
      ObeyedTwice(a, m, b, rule);
    }
  }

  /** The requests of this engine keep to the rule. */
  ghost predicate EngineTame(h: Http, e: EngineId, rule: Rule) {
    forall s :: s in h.tickets && h.tickets[s].engine == e ==> Harmless(h.tickets[s], rule)
  }

  lemma TameStays(a: Http, b: Http, e: EngineId, rule: Rule)
    requires EngineTame(a, e, rule) && Obeyed(a, b, rule)
    ensures EngineTame(b, e, rule)
  {
    hide Obeys;
    forall s | s in b.tickets && b.tickets[s].engine == e ensures Harmless(b.tickets[s], rule) {
      if s in a.tickets && SameTicket(a.tickets[s], b.tickets[s]) {
        assert Harmless(a.tickets[s], rule);
      }
    }
  }

  lemma {:induction false} DrainObeys(a: Http, e: EngineId, n: nat, b: Http, rule: Rule)
    requires DrainRun(a, e, n, b) && EngineTame(a, e, rule)
    ensures Obeyed(a, b, rule)
  {
    hide Obeyed, CompleteStep, Harmless;
    if n == 0 {
      NothingDone(a, b, rule);
    } else {
      var m: Http, s: nat :|
        DrainRun(a, e, n - 1, m) && s in m.tickets && m.tickets[s].engine == e && CompleteStep(m, s, b);
      DrainObeys(a, e, n - 1, m, rule);
      TameStays(a, m, e, rule);
      CompleteObeys(m, s, b, rule);
      ObeyedTwice(a, m, b, rule);
    }
  }

  lemma DestructionObeys(a: Http, e: EngineId, b: Http, rule: Rule)
    requires Destroyed(a, e, b) && EngineTame(a, e, rule)
    ensures Obeyed(a, b, rule)
  {
    hide Obeyed, DrainRun, EngineTame, Active;
    var n: nat, m: Http :| DrainRun(a, e, n, m) && !Active(m.tickets, e) && b == Buried(m, e);
    DrainObeys(a, e, n, m, rule);
    NothingDone(m, b, rule);
    ObeyedTwice(a, m, b, rule);
  }

  // ----- a map change -----

  lemma CancelStepObeys(h: Http, q: nat, b: Http, rule: Rule)
    requires q in h.packs && CancelStep(h, q, b)
    requires h.SlotOf(q, CancelRequests).Some? ==> EngineTame(h, h.SlotOf(q, CancelRequests).value, rule)
    ensures Obeyed(h, b, rule)
  {
    hide Obeyed, Destroyed, EngineTame;
    match h.SlotOf(q, CancelRequests)
    case None => NothingDone(h, b, rule);
    case Some(e) =>
      NothingDone(h, Cancelled(h, q, e), rule);
      TameStays(h, Cancelled(h, q, e), e, rule);
      DestructionObeys(Cancelled(h, q, e), e, b, rule);
      ObeyedTwice(h, Cancelled(h, q, e), b, rule);
  }

  lemma ForgetStepObeys(h: Http, q: nat, b: Http, rule: Rule)
    requires q in h.packs && ForgetStep(h, q, b)
    ensures Obeyed(h, b, rule)
  {
    hide Obeyed;
    NothingDone(h, b, rule);
  }

  lemma EraseStepObeys(h: Http, q: nat, b: Http, rule: Rule)
    requires q in h.packs && EraseStep(h, q, b)
    requires q != MAIN && h.SlotOf(q, CancelRequests).Some? ==> EngineTame(h, h.SlotOf(q, CancelRequests).value, rule)
    ensures Obeyed(h, b, rule)
  {
    hide Obeyed, Destroyed, EngineTame;
    if q == MAIN || h.SlotOf(q, CancelRequests).None? {
      NothingDone(h, b, rule);
    } else {
      var e := h.SlotOf(q, CancelRequests).value;
      var m := Without(h, q).(dying := Some(e));
      NothingDone(h, m, rule);
      TameStays(h, m, e, rule);
      DestructionObeys(m, e, b, rule);
      ObeyedTwice(h, m, b, rule);
    }
  }

  /** The requests of an engine that was made meanwhile are new, and keep to the rule. */
  lemma NewEngineIsTame(a: Http, b: Http, e: EngineId, rule: Rule)
    requires Fine(a) && Obeyed(a, b, rule) && e >= a.nextEngine
    ensures EngineTame(b, e, rule)
  {
    TicketsHaveEngines(a);
    hide Fine, Obeys;
  }

  lemma QueueStepObeys(h: Http, q: nat, b: Http, rule: Rule)
    requires Fine(h) && h.dying.None? && QueueStep(h, q, b)
    requires h.SlotOf(q, CancelRequests).Some? ==> EngineTame(h, h.SlotOf(q, CancelRequests).value, rule)
    ensures Obeyed(h, b, rule)
  {
    hide Fine, Obeyed, CancelStep, ForgetStep, EraseStep, EngineTame;
    var m1: Http, m2: Http :| CancelStep(h, q, m1) && q in m1.packs && ForgetStep(m1, q, m2) && q in m2.packs
                              && EraseStep(m2, q, b);
    CancelStepObeys(h, q, m1, rule);
    ForgetStepObeys(m1, q, m2, rule);
    ObeyedTwice(h, m1, m2, rule);
    if q != MAIN {
      UncancelledIff(h, q, m1, m2);
      if m2.SlotOf(q, CancelRequests).Some? {
        NewEngineIsTame(h, m2, m2.SlotOf(q, CancelRequests).value, rule);
      }
    }
    EraseStepObeys(m2, q, b, rule);
    ObeyedTwice(h, m2, b, rule);
  }

  /** The engine whose turn comes was there at the start, or was made meanwhile. */
  lemma TurnIsTame(a: Http, left: set<nat>, h: Http, q: nat, rule: Rule)
    requires Fine(a) && Tame(a, rule) && Kept(a, All(left), h) && Obeyed(a, h, rule)
    requires h.SlotOf(q, CancelRequests).Some? && (q == MAIN ==> q in left)
    ensures EngineTame(h, h.SlotOf(q, CancelRequests).value, rule)
  {
    var e := h.SlotOf(q, CancelRequests).value;
    TurnOfSlot(a, All(left), h, q, CancelRequests);
    KeptSlot(a, All(left), h, q, CancelRequests);
    hide Fine, Kept, Obeyed, Harmless;
    if e >= a.nextEngine {
      NewEngineIsTame(a, h, e, rule);
    } else {
      assert e in Every(a, CancelRequests);
      TameStays(a, h, e, rule);
    }
  }

  lemma {:induction false} TurnsObey(a: Http, n: nat, left: set<nat>, todo: set<nat>, b: Http, rule: Rule)
    requires Fine(a) && a.dying.None? && Turns(a, n, left, todo, b) && Tame(a, rule)
    ensures Obeyed(a, b, rule)
  {
    hide Fine, Kept, QueueStep, Obeyed, Tame, EngineTame;
    if n == 0 {
      NothingDone(a, b, rule);
    } else {
      var l0: set<nat>, t0: set<nat>, m: Http, q: nat :|
        && Turns(a, n - 1, l0, t0, m) && q in t0 && QueueStep(m, q, b)
        && left == l0 - {q} && t0 - {q} <= todo
        && forall k :: k in todo ==> k in t0 - {q} || MadeSince(a, b, k);
      TurnsKeep(a, n - 1, l0, t0, m);
      TurnsObey(a, n - 1, l0, t0, m, rule);
      KeptIsFine(a, l0, m);
      if m.SlotOf(q, CancelRequests).Some? {
        TurnIsTame(a, l0, m, q, rule);
      }
      QueueStepObeys(m, q, b, rule);
      ObeyedTwice(a, m, b, rule);
    }
  }

  lemma ResetObeys(a: Http, b: Http, rule: Rule)
    requires Fine(a) && a.dying.None? && ResetRun(a, b) && Tame(a, rule)
    ensures Obeyed(a, b, rule)
  {
    hide Fine, Obeyed, Tame, Turns;
    var n: nat, left: set<nat> :| Turns(a, n, left, {}, b);
    TurnsObey(a, n, left, {}, b, rule);
  }

  /** If no callback of a cancelled request makes a queue, only the main queue is left. */
  lemma OnlyMainIsLeft(a: Http, b: Http)
    requires Fine(a) && a.dying.None? && ResetRun(a, b) && Tame(a, NoQueues)
    ensures b.packs.Keys == {MAIN}
  {
    hide Fine, Tame, ResetRun;
    ResetObeys(a, b, NoQueues);
    OnlyMainIsLeftIff(a, b);
    forall k: nat ensures Made(k) !in Since(a, b) {
    }
  }

  /** If callbacks of cancelled requests send nothing, or with null options only, every engine that is destroyed
      was cancelled once. */
  lemma EveryEndWasCancelled(a: Http, b: Http, rule: Rule, e: EngineId)
    requires Fine(a) && a.dying.None? && ResetRun(a, b) && rule != NoQueues && Tame(a, rule)
    ensures a.dropped <= b.dropped
    ensures e in b.dropped[|a.dropped|..] ==>
              e in b.engines && b.engines[e].cancels == (if e in a.engines then a.engines[e].cancels else 0) + 1
  {
    hide Fine, Tame, ResetRun;
    ResetObeys(a, b, rule);
    ResetResult(a, b);
    DestroyedMeansCancelled(a, b, e);
    hide TicketsChanged, QueuesChanged, NewEnginesChanged;
    assert !SentOnUserQueue(a, b);
  }

  /** If they send nothing, exactly the engines there were are destroyed or forgotten, and the slots of the main
      queue are in use iff they were. */
  lemma OnlyOldEnginesEnd(a: Http, b: Http)
    requires Fine(a) && a.dying.None? && ResetRun(a, b) && Tame(a, NoSends)
    ensures a.dropped <= b.dropped && forall e :: e in b.dropped[|a.dropped|..] <==> e in Every(a, CancelRequests)
    ensures a.forgotten <= b.forgotten
    ensures forall e :: e in b.forgotten[|a.forgotten|..] <==> e in Every(a, ForgetRequests)
    ensures forall c :: b.SlotOf(MAIN, c).Some? <==> a.SlotOf(MAIN, c).Some?
  {
    hide Fine, Tame, ResetRun, Every, TicketsChanged;
    ResetObeys(a, b, NoSends);
    ResetResult(a, b);
    EveryIsOld(a);
    assert !SentSomething(a, b);
  }

  lemma EveryIsOld(a: Http)
    requires Fine(a)
    ensures forall c, e :: e in Every(a, c) ==> e < a.nextEngine
  {
    FineHasMain(a);
    hide Fine;
    forall q: nat, c | a.SlotOf(q, c).Some? ensures a.SlotOf(q, c).value < a.nextEngine {
      assert a.At(InSlot(q, c)) == a.SlotOf(q, c);
    }
  }
}
