/** What plugins ask for, told from the tables: to which engine a request goes, and what a map change makes of it. */
module SendLaws {
  import opened Common
  import opened HttpSpec
  import opened HttpLaws
  import opened ResetLaws

  // ----- one request of a plugin -----

  /** The queue that the options name, if it is there; else queue 1. */
  predicate GoesTo(h: Http, d: OptionsData, q: nat) {
    q == if d.queue in h.packs then d.queue else 1
  }

  /** The engine of that queue for requests that are to be forgotten, or for those that are to be cancelled. */
  predicate IsEngineFor(h: Http, q: nat, d: OptionsData, e: EngineId)
    requires q in h.packs
  {
    if d.behaviour == ForgetRequests then h.packs[q].forgettable == Some(e) else h.packs[q].terminating == Some(e)
  }

  /** The options that a send is made with: those it names, or new ones. */
  ghost predicate SentWith(a: Http, o: nat, b: Http, used: nat) {
    && used in b.options && used != 0
    && if o == 0 then
         && used !in a.options && b.options == a.options[used := OptionsData(CancelRequests, 1)]
       else used == o && o in a.options && b.options == a.options
  }

  predicate IsTicket(a: Http, callback: seq<UserOp>, b: Http, r: nat, t: Ticket) {
    && b.tickets == a.tickets[a.nextSerial := t]
    && t.request == r && t.callback == callback && !t.forgotten && !t.canceled
  }

  /** A request has been sent with options `used`, under handle r, on queue q. */
  ghost predicate Sent(a: Http, o: nat, callback: seq<UserOp>, b: Http, used: nat, r: nat, q: nat) {
    && SentWith(a, o, b, used)
    && (b.misused <==> a.misused || exists x :: x in a.requests && a.requests[x].options == used)
    && b.forgotten == a.forgotten && b.dying == a.dying && b.dropped == a.dropped
    && var d := b.options[used];
       && GoesTo(a, d, q) && q in a.packs && q in b.packs
       && r > 0 && r !in a.requests && b.requests == a.requests[r := RequestData(used, a.nextSerial, false)]
       && b.nextSerial == a.nextSerial + 1
       && a.nextSerial in b.tickets && IsTicket(a, callback, b, r, b.tickets[a.nextSerial])
       && IsEngineFor(b, q, d, b.tickets[a.nextSerial].engine)
       && OnlyThatSlotIsFilled(a, b, q, d, b.tickets[a.nextSerial].engine)
  }

  /** The engine was there, or is made, with six threads for queue 1 and one for any other; no other slot changes. */
  ghost predicate OnlyThatSlotIsFilled(a: Http, b: Http, q: nat, d: OptionsData, e: EngineId)
    requires q in a.packs && q in b.packs
  {
    && b.packs.Keys == a.packs.Keys && (forall x :: x in a.packs && x != q ==> b.packs[x] == a.packs[x])
    && (if d.behaviour == ForgetRequests then b.packs[q].terminating == a.packs[q].terminating
        else b.packs[q].forgettable == a.packs[q].forgettable)
    && if IsEngineFor(a, q, d, e) then b.engines == a.engines && b.nextEngine == a.nextEngine
       else
         && (if d.behaviour == ForgetRequests then a.packs[q].forgettable == None else a.packs[q].terminating == None)
         && e == a.nextEngine && b.nextEngine == e + 1
         && b.engines == a.engines[e := Engine(if q == 1 then 6 else 1, 0, 0)]
  }

  ghost predicate IsSent(a: Http, o: nat, callback: seq<UserOp>, b: Http) {
    exists used, r, q :: Sent(a, o, callback, b, used, r, q)
  }

  lemma SendToMeaning(a: Http, o: nat, used: nat, r: nat, callback: seq<UserOp>, m: Http)
    requires 1 in a.packs && used in m.options && used != 0 && IsFree(a.requests, r)
    requires m == a.(options := m.options) && SentWith(a, o, m, used)
    ensures IsSent(a, o, callback, SendTo(m, used, r, callback))
  {
    var b := SendTo(m, used, r, callback);
    var q := QueueFor(m, m.options[used]);
    assert (exists x :: x in a.requests && a.requests[x].options == used) <==> used in InUse(a.requests);
    assert Sent(a, o, callback, b, used, r, q);
  }

  /** A send throws, and changes nothing, iff the options it names are not there; else the request is put, with those
      options or new ones, on the engine that the queue of the options has for their behaviour. */
  lemma SendMeaning(a: Http, o: nat, callback: seq<UserOp>, b: Http)
    requires MAIN in a.packs && OpStep(a, Send(o, callback), b)
    ensures if o != 0 && o !in a.options then b == a else IsSent(a, o, callback, b)
  {
    hide SendTo, IsSent;
    if o == 0 {
      var k, r :| IsFree(a.options, k) && IsFree(a.requests, r)
                  && b == SendTo(WithOptions(a, k, DEFAULTS), k, r, callback);
      SendToMeaning(a, 0, k, r, callback, WithOptions(a, k, DEFAULTS));
    } else if o in a.options {
      var r :| IsFree(a.requests, r) && b == SendTo(a, o, r, callback);
      SendToMeaning(a, o, o, r, callback, a);
    }
  }

  /** The other things that a plugin may ask for. */
  lemma OpMeaning(a: Http, op: UserOp, b: Http)
    requires MAIN in a.packs && OpStep(a, op, b) && !op.Send?
    ensures b == a.(options := b.options, packs := b.packs, misused := b.misused, log := b.log)
    ensures op != NewQueue ==> b.packs == a.packs
    ensures match op
            case CreateOpt =>
              && (exists o :: o > 0 && o !in a.options && b.options == a.options[o := OptionsData(CancelRequests, 1)])
              && b.misused == a.misused
            case DestroyOpt(o) =>
              && b.options == a.options - {o}
              && (b.misused <==> a.misused || exists x :: x in a.requests && a.requests[x].options == o)
            case SetBehaviourOpt(o, c) =>
              && b.misused == a.misused && b.options.Keys == a.options.Keys
              && (forall x :: x in a.options ==>
                    b.options[x] == OptionsData(if x == o then c else a.options[x].behaviour, a.options[x].queue))
            case SetQueueOpt(o, q) =>
              && b.misused == a.misused && b.options.Keys == a.options.Keys
              && (forall x :: x in a.options ==>
                    b.options[x] == OptionsData(a.options[x].behaviour,
                                                if x == o && q in a.packs then q else a.options[x].queue))
            case NewQueue =>
              && b.misused == a.misused && b.options == a.options
              && exists k :: k > 0 && k !in a.packs && b.packs == a.packs[k := Pack(None, None)]
  {
    match op
    case DestroyOpt(o) =>
      assert (exists x :: x in a.requests && a.requests[x].options == o) <==> o in InUse(a.requests);
    case NewQueue =>
      var k :| IsFree(a.packs, k) && b == MakeQueue(a, k);
      assert b.packs == a.packs[k := Pack(None, None)];
    case _ =>
  }

  // ----- completions -----

  /** The callback runs when the response has been stored and nothing is pending for the request any more; then the
      request goes with its options.  A forgotten one just is pending no more. */
  lemma CompletionMeaning(a: Http, s: nat, b: Http)
    requires CompleteStep(a, s, b)
    ensures a.tickets[s].forgotten ==> b == a.(tickets := a.tickets - {s})
    ensures !a.tickets[s].forgotten ==>
              var r := a.tickets[s].request;
              r in a.requests && exists w: Http, m: Http ::
                && w == a.(tickets := a.tickets - {s},
                           requests := a.requests[r := RequestData(a.requests[r].options, a.requests[r].serial, true)])
                && OpsRun(w, a.tickets[s].callback, m) && r in m.requests
                && b == m.(requests := m.requests - {r}, options := m.options - {m.requests[r].options})
  {
    hide OpsRun;
    if !a.tickets[s].forgotten {
      var r := a.tickets[s].request;
      var m: Http :| OpsRun(Answered(a, s), a.tickets[s].callback, m) && r in m.requests && b == Deleted(m, r);
      var answered := RequestData(a.requests[r].options, a.requests[r].serial, true);
      assert Answered(a, s) == a.(tickets := a.tickets - {s}, requests := a.requests[r := answered]);
    }
  }

  // ----- until the next map change -----

  /** n steps of plugins, or completions, have led from a to b. */
  ghost predicate Life(a: Http, n: nat, b: Http) {
    if n == 0 then b == a else exists m: Http :: Life(a, n - 1, m) && (Acts(m, b) || Completes(m, b))
  }

  ghost predicate Acts(a: Http, b: Http) {
    MAIN in a.packs && exists op :: OpStep(a, op, b)
  }

  ghost predicate Completes(a: Http, b: Http) {
    exists s :: CompleteStep(a, s, b)
  }

  /** Engines stay where they are, and what is still pending is what it was. */
  ghost predicate Lasts(a: Http, b: Http) {
    && Effect(a, b)
    && (forall s :: s in a.tickets && s in b.tickets ==> b.tickets[s] == a.tickets[s])
    && (forall s :: s in b.tickets && s !in a.tickets ==> s >= a.nextSerial)
  }

  lemma LastsTwice(a: Http, b: Http, c: Http)
    requires Lasts(a, b) && Lasts(b, c) && forall s :: s in a.tickets ==> s < a.nextSerial
    ensures Lasts(a, c)
  {
    EffectTwice(a, b, c);
    EffectKeeps(a, b);
    hide Effect;
  }

  lemma {:induction false} LifeLasts(a: Http, n: nat, b: Http)
    requires Fine(a) && Life(a, n, b)
    ensures Fine(b) && Lasts(a, b)
  {
    hide Fine, Effect, OpStep, CompleteStep;
    if n == 0 {
      FineHasMain(a);
      NothingAsked(a);
    } else {
      var m: Http :| Life(a, n - 1, m) && (Acts(m, b) || Completes(m, b));
      LifeLasts(a, n - 1, m);
      TicketsAreOld(a);
      if Acts(m, b) {
        var op :| OpStep(m, op, b);
        OpStepKeeps(m, op, b);
      } else {
        var s :| CompleteStep(m, s, b);
        CompletionLasts(m, s, b);
      }
      LastsTwice(a, m, b);
    }
  }

  lemma CompletionLasts(a: Http, s: nat, b: Http)
    requires Fine(a) && CompleteStep(a, s, b)
    ensures Fine(b) && Lasts(a, b)
  {
    hide Fine, Effect, OpsRun, Gone;
    assert s in a.tickets;
    CompleteKeeps(a, s, b);
    EffectKeeps(a, b);
  }

  /** An engine in a slot is still there. */
  lemma SlotLasts(a: Http, b: Http, q: nat, d: OptionsData, e: EngineId)
    requires Lasts(a, b) && q in a.packs && IsEngineFor(a, q, d, e)
    ensures q in b.packs && IsEngineFor(b, q, d, e)
  {
    assert SlotGrew(a.SlotOf(q, d.behaviour), b.SlotOf(q, d.behaviour), Placed(q, d.behaviour) in Since(a, b),
                    a.nextEngine);
  }

  /** A map change, for a request that is pending on an engine of a queue. */
  lemma PendingIsForgottenOrCancelled(h: Http, s: nat, q: nat, d: OptionsData, b: Http)
    requires Fine(h) && h.dying.None? && ResetRun(h, b) && s in h.tickets && q in h.packs
    requires IsEngineFor(h, q, d, h.tickets[s].engine)
    ensures var t := h.tickets[s];
            && t.engine in h.engines && t.engine in b.engines
            && if d.behaviour == ForgetRequests then
                 && s in b.tickets && b.tickets[s] == t.(forgotten := true)
                 && b.engines[t.engine] == h.engines[t.engine].(forgets := h.engines[t.engine].forgets + 1)
               else
                 && s !in b.tickets && (t.forgotten || Gone(b, s))
                 && b.engines[t.engine] == h.engines[t.engine].(cancels := h.engines[t.engine].cancels + 1)
  {
    ResetResult(h, b);
    EngineOfOneKind(h, q, d, h.tickets[s].engine);
    hide Fine, ResetRun, Gone, Every, QueuesChanged, NewEnginesChanged;
  }

  lemma EngineOfOneKind(h: Http, q: nat, d: OptionsData, e: EngineId)
    requires Fine(h) && q in h.packs && IsEngineFor(h, q, d, e)
    ensures e in h.engines
    ensures e in Every(h, ForgetRequests) <==> d.behaviour == ForgetRequests
    ensures e in Every(h, CancelRequests) <==> d.behaviour == CancelRequests
  {
    FineHasMain(h);
    SlotEngineIsKnown(h, q, d.behaviour);
    assert h.SlotOf(q, d.behaviour) == Some(e);
    hide Fine;
    forall r: nat, c | h.SlotOf(r, c) == Some(e) ensures r == q && c == d.behaviour {
      if (q, d.behaviour) != (r, c) {
        SlotsDiffer(h, q, d.behaviour, r, c);
      }
    }
  }

  /** A request is sent; whatever plugins ask for and whatever completes after that, if it is still pending at the next
      map change, it is forgotten iff the options that it was sent with said so: then it stays pending and will call no
      one back.  Else its engine is cancelled and destroyed, and it has completed. */
  lemma SentIsForgottenIff(a: Http, o: nat, callback: seq<UserOp>, m: Http, used: nat, r: nat, q: nat, n: nat, h: Http,
                           b: Http)
    requires Fine(a) && a.dying.None? && OpStep(a, Send(o, callback), m) && Sent(a, o, callback, m, used, r, q)
    requires Life(m, n, h) && a.nextSerial in h.tickets && ResetRun(h, b)
    ensures a.nextSerial in b.tickets <==> m.options[used].behaviour == ForgetRequests
    ensures a.nextSerial in b.tickets ==> b.tickets[a.nextSerial].forgotten
    ensures a.nextSerial !in b.tickets ==> Gone(b, a.nextSerial)
  {
    hide Fine, OpStep, Effect, ResetRun, Life, Gone;
    FineHasMain(a);
    OpStepKeeps(a, Send(o, callback), m);
    LifeLasts(m, n, h);
    DyingLasts(a, m, h);
    var t := m.tickets[a.nextSerial];
    SlotLasts(m, h, q, m.options[used], t.engine);
    PendingIsForgottenOrCancelled(h, a.nextSerial, q, m.options[used], b);
  }

  lemma DyingLasts(a: Http, m: Http, h: Http)
    requires a.dying.None? && Asked(a, m) && Lasts(m, h)
    ensures h.dying.None?
  {
    EffectKeeps(a, m);
    EffectKeeps(m, h);
  }
}
