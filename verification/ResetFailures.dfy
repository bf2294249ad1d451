/** Two map changes that plugins can bring about, and that do not do what a map change is for. */
module ResetFailures {
  import opened Common
  import opened HttpSpec
  import opened HttpLaws
  import opened ResetLaws

  lemma OneMoreOp(a: Http, ops: seq<UserOp>, m: Http, op: UserOp, b: Http)
    requires OpsRun(a, ops, m) && MAIN in m.packs && OpStep(m, op, b)
    ensures OpsRun(a, ops + [op], b)
  {
    hide OpStep;
    assert (ops + [op])[..|ops|] == ops;
  }

  lemma NoOps(a: Http)
    ensures OpsRun(a, [], a)
  {
  }

  lemma OneOp(a: Http, op: UserOp, b: Http)
    requires MAIN in a.packs && OpStep(a, op, b)
    ensures OpsRun(a, [op], b)
  {
    NoOps(a);
    hide OpsRun, OpStep;
    OneMoreOp(a, [], a, op, b);
    assert [] + [op] == [op];
  }

  lemma QueueIsMade(a: Http, k: nat)
    requires MAIN in a.packs && IsFree(a.packs, k)
    ensures OpStep(a, NewQueue, MakeQueue(a, k)) && MAIN in MakeQueue(a, k).packs
  {
  }

  lemma OptionsAreMade(a: Http, o: nat)
    requires MAIN in a.packs && IsFree(a.options, o)
    ensures OpStep(a, CreateOpt, WithOptions(a, o, DEFAULTS))
  {
  }

  lemma RequestIsSent(a: Http, o: nat, r: nat, callback: seq<UserOp>)
    requires MAIN in a.packs && o in a.options && o != 0 && IsFree(a.requests, r)
    ensures OpStep(a, Send(o, callback), SendTo(a, o, r, callback))
  {
    hide SendTo;
  }

  /** The destructor of an engine that has one request left. */
  lemma LoneRequest(h: Http, e: EngineId, s: nat, m: Http)
    requires s in h.tickets && h.tickets[s].engine == e && !h.tickets[s].forgotten && h.tickets[s].request in h.requests
    requires OpsRun(Answered(h, s), h.tickets[s].callback, m) && h.tickets[s].request in m.requests
    requires !Active(m.tickets, e)
    ensures Destroyed(h, e, Buried(Deleted(m, h.tickets[s].request), e))
  {
    hide OpsRun, Active;
    var d := Deleted(m, h.tickets[s].request);
    assert CompleteStep(h, s, d);
    hide CompleteStep;
    assert DrainRun(h, e, 0, h);
    assert DrainRun(h, e, 1, d);
    assert !Active(d.tickets, e);
  }

  lemma OneTurn(h: Http, q: nat, m1: Http, m2: Http, b: Http)
    requires q in h.packs && CancelStep(h, q, m1) && q in m1.packs && ForgetStep(m1, q, m2) && q in m2.packs
    requires EraseStep(m2, q, b)
    ensures QueueStep(h, q, b)
  {
  }

  lemma NoTurns(a: Http)
    ensures Turns(a, 0, a.packs.Keys, a.packs.Keys, a)
  {
  }

  lemma OneMoreTurn(a: Http, n: nat, left: set<nat>, m: Http, q: nat, b: Http)
    requires Turns(a, n, left, left, m) && q in left && QueueStep(m, q, b)
    ensures Turns(a, n + 1, left - {q}, left - {q}, b)
  {
    hide QueueStep;
    assert left - {q} <= left - {q};
  }

  // ----- a callback that makes a queue -----

  const MAKER: seq<UserOp> := [NewQueue]

  const WAITING_TO_MAKE: Http :=
    START.(packs := map[MAIN := Pack(None, Some(0))], options := map[1 := DEFAULTS],
           requests := map[1 := RequestData(1, 0, false)], engines := map[0 := Engine(MAIN_QUEUE_THREADS, 0, 0)],
           nextEngine := 1, tickets := map[0 := Ticket(0, 1, false, false, MAKER)], nextSerial := 1,
           log := [Placed(MAIN, CancelRequests)])

  /** A plugin has sent a request on the main queue. */
  lemma ToWaitingToMake()
    ensures OpsRun(START, [Send(0, MAKER)], WAITING_TO_MAKE) && Fine(WAITING_TO_MAKE)
  {
    assert IsFree(START.options, 1) && IsFree(START.requests, 1);
    assert WAITING_TO_MAKE == SendTo(WithOptions(START, 1, DEFAULTS), 1, 1, MAKER);
    assert OpStep(START, Send(0, MAKER), WAITING_TO_MAKE);
    hide Fine, OpStep, SendTo, OpsRun;
    OneOp(START, Send(0, MAKER), WAITING_TO_MAKE);
    StartIsFine();
    OpsRunKeeps(START, [Send(0, MAKER)], WAITING_TO_MAKE);
  }

  /** After the map change queue 2 is there. */
  const MADE: Http :=
    START.(packs := map[MAIN := Pack(None, Some(1)), 2 := Pack(None, None)],
           engines := map[0 := Engine(MAIN_QUEUE_THREADS, 1, 0), 1 := Engine(MAIN_QUEUE_THREADS, 0, 0)],
           nextEngine := 2, nextSerial := 1, dropped := [0], log := [Placed(MAIN, CancelRequests), Made(2)])

  /** The request has been cancelled; its callback is about to run. */
  const ABOUT_TO_MAKE: Http :=
    WAITING_TO_MAKE.(packs := map[MAIN := Pack(None, Some(1))],
                     engines := map[0 := Engine(MAIN_QUEUE_THREADS, 1, 0), 1 := Engine(MAIN_QUEUE_THREADS, 0, 0)],
                     nextEngine := 2, tickets := map[0 := Ticket(0, 1, false, true, MAKER)], dying := Some(0))

  lemma MakerIsCancelled()
    ensures Cancelled(WAITING_TO_MAKE, MAIN, 0) == ABOUT_TO_MAKE
  {
    assert MarkAll(WAITING_TO_MAKE.tickets, 0, true, false) == ABOUT_TO_MAKE.tickets;
  }

  lemma MakerIsDestroyed()
    ensures Destroyed(ABOUT_TO_MAKE, 0, MADE)
  {
    var w := Answered(ABOUT_TO_MAKE, 0);
    QueueIsMade(w, 2);
    hide OpsRun, OpStep;
    OneOp(w, NewQueue, MakeQueue(w, 2));
    LoneRequest(ABOUT_TO_MAKE, 0, 0, MakeQueue(w, 2));
    hide Destroyed;
    assert Buried(Deleted(MakeQueue(w, 2), 1), 0) == MADE;
  }

  lemma MakerRuns()
    ensures CancelStep(WAITING_TO_MAKE, MAIN, MADE)
  {
    hide Cancelled, Destroyed;
    MakerIsCancelled();
    MakerIsDestroyed();
  }

  /** A queue that the callback of a cancelled request makes can be there after the map change. */
  lemma MadeQueueIsLeft()
    ensures Fine(WAITING_TO_MAKE) && ResetRun(WAITING_TO_MAKE, MADE) && MADE.packs.Keys != {MAIN}
  {
    hide Fine;
    ToWaitingToMake();
    MakerRuns();
    hide CancelStep, ResetRun, QueueStep;
    OneTurn(WAITING_TO_MAKE, MAIN, MADE, MADE, MADE);
    NoTurns(WAITING_TO_MAKE);
    OneMoreTurn(WAITING_TO_MAKE, 0, WAITING_TO_MAKE.packs.Keys, WAITING_TO_MAKE, MAIN, MADE);
    assert WAITING_TO_MAKE.packs.Keys - {MAIN} == {};
    hide Turns;
    WalkEnds(WAITING_TO_MAKE, 1, {}, MADE);
    assert 2 in MADE.packs.Keys;
  }

  lemma WalkEnds(a: Http, n: nat, left: set<nat>, b: Http)
    requires Turns(a, n, left, {}, b)
    ensures ResetRun(a, b)
  {
  }

  // ----- a callback that sends again on its own queue -----

  const AGAIN: seq<UserOp> := [Send(2, [])]

  const QUEUE_2: OptionsData := OptionsData(CancelRequests, 2)

  /** A user's queue with a request in flight, and options for one more. */
  const WAITING_TO_SEND: Http :=
    START.(packs := map[MAIN := Pack(None, None), 2 := Pack(None, Some(0))], options := map[1 := QUEUE_2, 2 := QUEUE_2],
           requests := map[1 := RequestData(1, 0, false)], engines := map[0 := Engine(1, 0, 0)],
           nextEngine := 1, tickets := map[0 := Ticket(0, 1, false, false, AGAIN)], nextSerial := 1,
           log := [Made(2), Placed(2, CancelRequests)])

  const PREPARED: Http :=
    START.(packs := map[MAIN := Pack(None, None), 2 := Pack(None, None)], options := map[1 := QUEUE_2, 2 := QUEUE_2],
           log := [Made(2)])

  const PREPARATION: seq<UserOp> := [NewQueue, CreateOpt, SetQueueOpt(1, 2), CreateOpt, SetQueueOpt(2, 2)]

  /** Options are created and set to a queue. */
  lemma OptionsForQueue(ops: seq<UserOp>, a: Http, o: nat, q: nat)
    requires OpsRun(START, ops, a) && MAIN in a.packs && q in a.packs && IsFree(a.options, o)
    ensures OpsRun(START, ops + [CreateOpt] + [SetQueueOpt(o, q)], WithOptions(a, o, OptionsData(CancelRequests, q)))
  {
    var m := WithOptions(a, o, DEFAULTS);
    var b := WithOptions(a, o, OptionsData(CancelRequests, q));
    assert m.options[o := OptionsData(CancelRequests, q)] == b.options;
    assert OpStep(m, SetQueueOpt(o, q), b);
    OptionsAreMade(a, o);
    hide OpsRun, OpStep;
    OneMoreOp(START, ops, a, CreateOpt, m);
    OneMoreOp(START, ops + [CreateOpt], m, SetQueueOpt(o, q), b);
  }

  lemma ToPrepared()
    ensures OpsRun(START, PREPARATION, PREPARED)
  {
    hide OpStep, OpsRun;
    var m := MakeQueue(START, 2);
    QueueIsMade(START, 2);
    OneOp(START, NewQueue, m);
    OptionsForQueue([NewQueue], m, 1, 2);
    OptionsForQueue([NewQueue] + [CreateOpt] + [SetQueueOpt(1, 2)], WithOptions(m, 1, QUEUE_2), 2, 2);
    assert [NewQueue] + [CreateOpt] + [SetQueueOpt(1, 2)] + [CreateOpt] + [SetQueueOpt(2, 2)] == PREPARATION;
    assert WithOptions(WithOptions(m, 1, QUEUE_2), 2, QUEUE_2) == PREPARED;
  }

  lemma ToWaitingToSend()
    ensures OpsRun(START, PREPARATION + [Send(1, AGAIN)], WAITING_TO_SEND) && Fine(WAITING_TO_SEND)
  {
    hide Fine, OpStep, OpsRun;
    ToPrepared();
    RequestIsSent(PREPARED, 1, 1, AGAIN);
    assert WAITING_TO_SEND == SendTo(PREPARED, 1, 1, AGAIN);
    hide SendTo;
    OneMoreOp(START, PREPARATION, PREPARED, Send(1, AGAIN), WAITING_TO_SEND);
    StartIsFine();
    OpsRunKeeps(START, PREPARATION + [Send(1, AGAIN)], WAITING_TO_SEND);
  }

  /** The request has been cancelled; its callback has put a new engine into the queue. */
  const SENT_AGAIN: Http :=
    WAITING_TO_SEND.(packs := map[MAIN := Pack(None, None), 2 := Pack(None, Some(1))], options := map[2 := QUEUE_2],
                     requests := map[2 := RequestData(2, 1, false)],
                     engines := map[0 := Engine(1, 1, 0), 1 := Engine(1, 0, 0)], nextEngine := 2,
                     tickets := map[1 := Ticket(1, 2, false, false, [])], nextSerial := 2, dropped := [0],
                     log := [Made(2), Placed(2, CancelRequests), Placed(2, CancelRequests)])

  /** The request has been cancelled; its callback is about to run. */
  const ABOUT_TO_SEND: Http :=
    WAITING_TO_SEND.(packs := map[MAIN := Pack(None, None), 2 := Pack(None, None)],
                     engines := map[0 := Engine(1, 1, 0)],
                     tickets := map[0 := Ticket(0, 1, false, true, AGAIN)], dying := Some(0))

  lemma SenderIsCancelled()
    ensures Cancelled(WAITING_TO_SEND, 2, 0) == ABOUT_TO_SEND
  {
    assert MarkAll(WAITING_TO_SEND.tickets, 0, true, false) == ABOUT_TO_SEND.tickets;
  }

  /** It has sent again. */
  const SENDING_AGAIN: Http :=
    SENT_AGAIN.(options := map[1 := QUEUE_2, 2 := QUEUE_2],
                requests := map[1 := RequestData(1, 0, true), 2 := RequestData(2, 1, false)],
                dying := Some(0), dropped := [])

  lemma SenderSends()
    ensures OpsRun(Answered(ABOUT_TO_SEND, 0), AGAIN, SENDING_AGAIN)
  {
    var w := Answered(ABOUT_TO_SEND, 0);
    RequestIsSent(w, 2, 2, []);
    hide OpsRun, OpStep;
    OneOp(w, Send(2, []), SendTo(w, 2, 2, []));
    assert SendTo(w, 2, 2, []) == SENDING_AGAIN;
  }

  lemma SenderIsDestroyed()
    ensures Destroyed(ABOUT_TO_SEND, 0, SENT_AGAIN)
  {
    SenderSends();
    hide OpsRun;
    LoneRequest(ABOUT_TO_SEND, 0, 0, SENDING_AGAIN);
    hide Destroyed;
    assert Buried(Deleted(SENDING_AGAIN, 1), 0) == SENT_AGAIN;
  }

  lemma SenderRuns()
    ensures CancelStep(WAITING_TO_SEND, 2, SENT_AGAIN)
  {
    hide Cancelled, Destroyed;
    SenderIsCancelled();
    SenderIsDestroyed();
  }

  /** The queue is gone, and with it the new engine. */
  const ENDED: Http :=
    SENT_AGAIN.(packs := map[MAIN := Pack(None, None)], options := map[], requests := map[], tickets := map[],
                dropped := [0, 1])

  lemma NewEngineEnds()
    ensures EraseStep(SENT_AGAIN, 2, ENDED)
  {
    var h := Without(SENT_AGAIN, 2).(dying := Some(1));
    var w := Answered(h, 1);
    NoOps(w);
    hide OpsRun;
    LoneRequest(h, 1, 1, w);
    hide Destroyed;
    assert Buried(Deleted(w, 2), 1) == ENDED;
  }

  lemma NothingIsLeftToDo(h: Http)
    requires h.packs == map[MAIN := Pack(None, None)]
    ensures QueueStep(h, MAIN, h)
  {
    assert CancelStep(h, MAIN, h) && ForgetStep(h, MAIN, h) && EraseStep(h, MAIN, h);
    hide CancelStep, ForgetStep, EraseStep;
    OneTurn(h, MAIN, h, h, h);
  }

  /** An engine that the callback of a cancelled request puts into a user's queue is destroyed without a cancel. */
  lemma EngineEndsUncancelled()
    ensures Fine(WAITING_TO_SEND) && ResetRun(WAITING_TO_SEND, ENDED)
    ensures 1 in ENDED.dropped[|WAITING_TO_SEND.dropped|..] && 1 in ENDED.engines && ENDED.engines[1].cancels == 0
  {
    hide Fine, OpsRun, CancelStep, EraseStep, QueueStep, Turns, ResetRun;
    var a := WAITING_TO_SEND;
    ToWaitingToSend();
    SenderRuns();
    NewEngineEnds();
    assert ForgetStep(SENT_AGAIN, 2, SENT_AGAIN);
    hide ForgetStep;
    assert a.packs.Keys == {MAIN, 2} && {MAIN, 2} - {2} == {MAIN} && {MAIN} - {MAIN} == {};
    OneTurn(a, 2, SENT_AGAIN, SENT_AGAIN, ENDED);
    NothingIsLeftToDo(ENDED);
    NoTurns(a);
    OneMoreTurn(a, 0, {MAIN, 2}, a, 2, ENDED);
    OneMoreTurn(a, 1, {MAIN}, ENDED, MAIN, ENDED);
    WalkEnds(a, 2, {}, ENDED);
    assert ENDED.dropped[|a.dropped|..] == [0, 1];
  }
}
