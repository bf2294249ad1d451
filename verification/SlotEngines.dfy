/** The engines of the queues, over every run of natives, completions and map changes. */
module SlotEngines {
  import opened Common
  import opened HttpSpec

  /** Each slot in use has an engine of its own, with six threads for queue 1 and one for any other, that has never been
      cancelled or told to forget. */
  ghost predicate AsMade(h: Http) {
    && 1 in h.packs
    && (forall q: nat, c :: h.SlotOf(q, c).Some? ==>
          && h.SlotOf(q, c).value < h.nextEngine && h.SlotOf(q, c).value in h.engines
          && h.engines[h.SlotOf(q, c).value] == Engine(if q == 1 then 6 else 1, 0, 0))
    && forall q: nat, c, r: nat, d :: h.SlotOf(q, c).Some? && h.SlotOf(q, c) == h.SlotOf(r, d) ==> q == r && c == d
  }

  lemma SameEngines(a: Http, b: Http)
    requires AsMade(a) && b.packs == a.packs && b.engines == a.engines && b.nextEngine == a.nextEngine
    ensures AsMade(b)
  {
    assert forall q, c :: b.SlotOf(q, c) == a.SlotOf(q, c);
  }

  /** Filling a slot leaves the others. */
  lemma EquippedSlots(h: Http, q: nat, b: EndBehaviour)
    requires q in h.packs
    ensures var e := Equip(h, q, b);
            && (forall r: nat, c :: (r, c) != (q, b) ==> e.SlotOf(r, c) == h.SlotOf(r, c))
            && e.SlotOf(q, b) == (if h.SlotOf(q, b).Some? then h.SlotOf(q, b) else Some(h.nextEngine))
  {
  }

  lemma EquippedAsMade(h: Http, q: nat, b: EndBehaviour)
    requires AsMade(h) && q in h.packs
    ensures AsMade(Equip(h, q, b))
  {
    EquippedSlots(h, q, b);
    hide Http.SlotOf;
  }

  lemma SentAsMade(h: Http, o: nat, r: nat, callback: seq<UserOp>)
    requires AsMade(h) && o in h.options
    ensures AsMade(SendTo(h, o, r, callback))
  {
    var q := QueueFor(h, h.options[o]);
    EquippedAsMade(h, q, h.options[o].behaviour);
    hide AsMade, Equip;
    SameEngines(Equip(h, q, h.options[o].behaviour), SendTo(h, o, r, callback));
  }

  lemma NewQueueAsMade(h: Http, k: nat)
    requires AsMade(h) && k !in h.packs
    ensures AsMade(MakeQueue(h, k))
  {
    assert forall q: nat, c :: MakeQueue(h, k).SlotOf(q, c) == h.SlotOf(q, c);
    hide Http.SlotOf;
  }

  lemma OpAsMade(a: Http, op: UserOp, b: Http)
    requires AsMade(a) && MAIN in a.packs && OpStep(a, op, b)
    ensures AsMade(b)
  {
    hide SendTo, AsMade;
    match op
    case Send(o, callback) =>
      if o == 0 {
        var k, r :| IsFree(a.options, k) && IsFree(a.requests, r)
                    && b == SendTo(WithOptions(a, k, DEFAULTS), k, r, callback);
        SameEngines(a, WithOptions(a, k, DEFAULTS));
        SentAsMade(WithOptions(a, k, DEFAULTS), k, r, callback);
      } else if o in a.options {
        var r :| IsFree(a.requests, r) && b == SendTo(a, o, r, callback);
        SentAsMade(a, o, r, callback);
      }
    case NewQueue =>
      var k :| IsFree(a.packs, k) && b == MakeQueue(a, k);
      NewQueueAsMade(a, k);
    case _ => SameEngines(a, b);
  }

  lemma {:induction false} OpsAsMade(a: Http, ops: seq<UserOp>, b: Http)
    requires AsMade(a) && OpsRun(a, ops, b)
    ensures AsMade(b)
    decreases |ops|
  {
    hide AsMade, OpStep;
    if ops == [] {
    } else {
      var m: Http :| MAIN in m.packs && OpsRun(a, ops[..|ops|-1], m) && OpStep(m, ops[|ops|-1], b);
      OpsAsMade(a, ops[..|ops|-1], m);
      OpAsMade(m, ops[|ops|-1], b);
    }
  }

  lemma CompletedAsMade(a: Http, s: nat, b: Http)
    requires AsMade(a) && CompleteStep(a, s, b)
    ensures AsMade(b)
  {
    hide AsMade, OpsRun;
    if a.tickets[s].forgotten {
      SameEngines(a, b);
    } else {
      var r := a.tickets[s].request;
      var m: Http :| OpsRun(Answered(a, s), a.tickets[s].callback, m) && r in m.requests && b == Deleted(m, r);
      SameEngines(a, Answered(a, s));
      OpsAsMade(Answered(a, s), a.tickets[s].callback, m);
      SameEngines(m, b);
    }
  }

  lemma {:induction false} DrainedAsMade(a: Http, e: EngineId, n: nat, b: Http)
    requires AsMade(a) && DrainRun(a, e, n, b)
    ensures AsMade(b)
  {
    hide AsMade, CompleteStep;
    if n == 0 {
    } else {
      var m: Http, s: nat :|
        DrainRun(a, e, n - 1, m) && s in m.tickets && m.tickets[s].engine == e && CompleteStep(m, s, b);
      DrainedAsMade(a, e, n - 1, m);
      CompletedAsMade(m, s, b);
    }
  }

  lemma DestroyedAsMade(a: Http, e: EngineId, b: Http)
    requires AsMade(a) && Destroyed(a, e, b)
    ensures AsMade(b)
  {
    hide AsMade, DrainRun, Active;
    var n: nat, m: Http :| DrainRun(a, e, n, m) && !Active(m.tickets, e) && b == Buried(m, e);
    DrainedAsMade(a, e, n, m);
    SameEngines(m, b);
  }

  lemma VacatedSlots(h: Http, q: nat, b: EndBehaviour)
    requires q in h.packs
    ensures var v := Vacated(h, q, b);
            && (forall r: nat, c :: (r, c) != (q, b) ==> v.SlotOf(r, c) == h.SlotOf(r, c))
            && v.SlotOf(q, b) == if q == 1 then Some(h.nextEngine) else None
  {
  }

  /** The engine that is taken out of its slot and called is in no other slot. */
  lemma CalledAsMade(h: Http, q: nat, b: EndBehaviour, e: EngineId, cancel: bool, m: Http)
    requires AsMade(h) && q in h.packs && h.SlotOf(q, b) == Some(e) && e in h.engines
    requires var v := Vacated(h, q, b);
             m.packs == v.packs && m.nextEngine == v.nextEngine
             && m.engines == v.engines[e := Called(h.engines[e], cancel, !cancel)]
    ensures AsMade(m)
  {
    var v := Vacated(h, q, b);
    VacatedSlots(h, q, b);
    assert forall r, c :: m.SlotOf(r, c) == v.SlotOf(r, c);
    assert q == 1 ==> v.nextEngine == h.nextEngine + 1 && v.engines == h.engines[h.nextEngine := Engine(6, 0, 0)];
    assert q != 1 ==> v.nextEngine == h.nextEngine && v.engines == h.engines;
    hide Http.SlotOf, Vacated;
  }

  lemma ErasedAsMade(h: Http, q: nat)
    requires AsMade(h) && q != 1
    ensures AsMade(Without(h, q))
  {
    var b := Without(h, q);
    assert forall r: nat, c :: b.SlotOf(r, c) == if r == q then None else h.SlotOf(r, c);
    hide Http.SlotOf;
  }

  lemma TurnAsMade(a: Http, q: nat, b: Http)
    requires AsMade(a) && QueueStep(a, q, b)
    ensures AsMade(b)
  {
    hide AsMade, Destroyed, Vacated, Http.SlotOf;
    var m1: Http, m2: Http :|
      CancelStep(a, q, m1) && q in m1.packs && ForgetStep(m1, q, m2) && q in m2.packs && EraseStep(m2, q, b);
    if a.SlotOf(q, CancelRequests).Some? {
      var e := a.SlotOf(q, CancelRequests).value;
      CalledAsMade(a, q, CancelRequests, e, true, Cancelled(a, q, e));
      DestroyedAsMade(Cancelled(a, q, e), e, m1);
    }
    if m1.SlotOf(q, ForgetRequests).Some? {
      CalledAsMade(m1, q, ForgetRequests, m1.SlotOf(q, ForgetRequests).value, false, m2);
    }
    if q != MAIN {
      ErasedAsMade(m2, q);
      if m2.SlotOf(q, CancelRequests).Some? {
        var e := m2.SlotOf(q, CancelRequests).value;
        SameEngines(Without(m2, q), Without(m2, q).(dying := Some(e)));
        DestroyedAsMade(Without(m2, q).(dying := Some(e)), e, b);
      }
    }
  }

  lemma {:induction false} TurnsAsMade(a: Http, n: nat, left: set<nat>, todo: set<nat>, b: Http)
    requires AsMade(a) && Turns(a, n, left, todo, b)
    ensures AsMade(b)
  {
    hide AsMade, QueueStep, MadeSince;
    if n == 0 {
    } else {
      var l0: set<nat>, t0: set<nat>, m: Http, q: nat :|
        && Turns(a, n - 1, l0, t0, m) && q in t0 && QueueStep(m, q, b)
        && left == l0 - {q} && t0 - {q} <= todo
        && forall k :: k in todo ==> k in t0 - {q} || MadeSince(a, b, k);
      TurnsAsMade(a, n - 1, l0, t0, m);
      TurnAsMade(m, q, b);
    }
  }

  // ----- runs -----

  /** n natives, completions and map changes have led from a to b. */
  ghost predicate Runs(a: Http, n: nat, b: Http) {
    if n == 0 then b == a else exists m: Http :: Runs(a, n - 1, m) && OneStep(m, b)
  }

  ghost predicate OneStep(a: Http, b: Http) {
    || (MAIN in a.packs && exists op :: OpStep(a, op, b))
    || (exists s :: CompleteStep(a, s, b))
    || (a.dying.None? && ResetRun(a, b))
  }

  lemma StepAsMade(a: Http, b: Http)
    requires AsMade(a) && OneStep(a, b)
    ensures AsMade(b)
  {
    hide AsMade, OpStep, CompleteStep, Turns;
    if op :| MAIN in a.packs && OpStep(a, op, b) {
      OpAsMade(a, op, b);
    } else if s :| CompleteStep(a, s, b) {
      CompletedAsMade(a, s, b);
    } else {
      var n: nat, left: set<nat> :| Turns(a, n, left, {}, b);
      TurnsAsMade(a, n, left, {}, b);
    }
  }

  lemma StartAsMade()
    ensures AsMade(START)
  {
    assert forall q, c :: START.SlotOf(q, c) == None;
  }

  /** From the start, after every run, each queue has engines as they are made, and no two slots share one. */
  lemma {:induction false} EnginesAreAsMade(n: nat, b: Http)
    requires Runs(START, n, b)
    ensures AsMade(b)
  {
    hide AsMade, OneStep;
    if n == 0 {
      StartAsMade();
    } else {
      var m: Http :| Runs(START, n - 1, m) && OneStep(m, b);
      EnginesAreAsMade(n - 1, m);
      StepAsMade(m, b);
    }
  }
}
