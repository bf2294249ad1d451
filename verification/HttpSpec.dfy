/**
 The request manager of the module as a value (src/EasyHttpModule.cpp and .h, and the completion closure in
 src/module.cpp): options, requests and queues behind handles, and the engines that queues own.  An engine is
 abstract: it has an identity, it counts the cancel and forget calls it got, and it completes each request given to
 it at most once.  The steps are relations: which handle is recycled, which request of an engine completes first
 and in which order queues are walked is open.
 */
module HttpSpec {
  import opened Common

  const MAIN: nat := 1
  const MAIN_QUEUE_THREADS: nat := 6

  datatype EndBehaviour = CancelRequests | ForgetRequests

  datatype OptionsData = OptionsData(behaviour: EndBehaviour, queue: nat)

  const DEFAULTS: OptionsData := OptionsData(CancelRequests, MAIN)

  /** `serial` tells requests apart whose handle is the same; no code looks at it. */
  datatype RequestData = RequestData(options: nat, serial: nat, responded: bool)

  type EngineId = nat

  datatype Pack = Pack(forgettable: Option<EngineId>, terminating: Option<EngineId>) {
    function Slot(b: EndBehaviour): Option<EngineId> {
      if b == CancelRequests then terminating else forgettable
    }

    function Put(b: EndBehaviour, e: Option<EngineId>): Pack {
      if b == CancelRequests then this.(terminating := e) else this.(forgettable := e)
    }
  }

  datatype Engine = Engine(threads: nat, cancels: nat, forgets: nat)

  /** What a plugin may ask for, from its code or from a callback.  A request brings what its own callback will do. */
  datatype UserOp =
    | CreateOpt
    | DestroyOpt(options: nat)
    | SetBehaviourOpt(options: nat, behaviour: EndBehaviour)
    | SetQueueOpt(options: nat, queue: nat)
    | Send(options: nat, callback: seq<UserOp>)
    | NewQueue

  /** A request that an engine has not completed; the completion closure holds its handle. */
  datatype Ticket = Ticket(engine: EngineId, request: nat, forgotten: bool, canceled: bool, callback: seq<UserOp>)

  /** What plugins have done that matters to a map change: where a request was put, and which queue was made. */
  datatype Doing = Placed(queue: nat, behaviour: EndBehaviour) | Made(queue: nat)

  datatype Place = InSlot(queue: nat, behaviour: EndBehaviour) | InForgotten(i: nat) | IsDying | InDropped(i: nat)

  /** The tables, by handle, and tickets by the serial of the request; `dying` is an engine whose destructor runs,
      `dropped` the engines destroyed, `misused` whether plugins have shared options or destroyed some in use. */
  datatype Http = Http(packs: map<nat, Pack>, options: map<nat, OptionsData>, requests: map<nat, RequestData>,
                       engines: map<EngineId, Engine>, nextEngine: EngineId,
                       tickets: map<nat, Ticket>, nextSerial: nat,
                       forgotten: seq<EngineId>, dying: Option<EngineId>, dropped: seq<EngineId>,
                       log: seq<Doing>, misused: bool) {
    function SlotOf(q: nat, b: EndBehaviour): Option<EngineId> {
      if q in packs then packs[q].Slot(b) else None
    }

    function At(p: Place): Option<EngineId> {
      match p
      case InSlot(q, b) => SlotOf(q, b)
      case InForgotten(i) => if i < |forgotten| then Some(forgotten[i]) else None
      case IsDying => dying
      case InDropped(i) => if i < |dropped| then Some(dropped[i]) else None
    }
  }

  /** The module as it is constructed: with the main queue. */
  const START: Http :=
    Http(map[MAIN := Pack(None, None)], map[], map[], map[], 0, map[], 0, [], None, [], [], false)

  function InUse(requests: map<nat, RequestData>): set<nat> {
    set r | r in requests :: requests[r].options
  }

  // ----- what a plugin asks for -----

  /** The engine of a queue for this behaviour, made when there is none. */
  function Equip(h: Http, q: nat, b: EndBehaviour): (r: Http)
    requires q in h.packs
    ensures r.SlotOf(q, b).Some?
  {
    if h.SlotOf(q, b).Some? then h
    else
      h.(packs := h.packs[q := h.packs[q].Put(b, Some(h.nextEngine))],
         engines := h.engines[h.nextEngine := Engine(if q == MAIN then MAIN_QUEUE_THREADS else 1, 0, 0)],
         nextEngine := h.nextEngine + 1)
  }

  /** Options whose queue is gone go to the main queue. */
  function QueueFor(h: Http, d: OptionsData): nat {
    if d.queue in h.packs then d.queue else MAIN
  }

  /** A request with options o gets handle r. */
  function SendTo(h: Http, o: nat, r: nat, callback: seq<UserOp>): Http
    requires o in h.options && MAIN in h.packs
  {
    var d := h.options[o];
    var q := QueueFor(h, d);
    var h1 := Equip(h, q, d.behaviour);
    h1.(requests := h.requests[r := RequestData(o, h.nextSerial, false)],
        tickets := h.tickets[h.nextSerial := Ticket(h1.SlotOf(q, d.behaviour).value, r, false, false, callback)],
        nextSerial := h.nextSerial + 1,
        log := h.log + [Placed(q, d.behaviour)],
        misused := h.misused || o in InUse(h.requests))
  }

  function WithOptions(h: Http, o: nat, d: OptionsData): Http {
    h.(options := h.options[o := d])
  }

  /** A handle that is not in use. */
  predicate IsFree<V>(m: map<nat, V>, k: nat) {
    k > 0 && k !in m
  }

  function Destroy(h: Http, o: nat): Http {
    h.(options := h.options - {o}, misused := h.misused || o in InUse(h.requests))
  }

  function MakeQueue(h: Http, k: nat): Http {
    h.(packs := h.packs[k := Pack(None, None)], log := h.log + [Made(k)])
  }

  ghost predicate OpStep(a: Http, op: UserOp, b: Http)
    requires MAIN in a.packs
  {
    match op
    case CreateOpt => exists o :: IsFree(a.options, o) && b == WithOptions(a, o, DEFAULTS)
    case DestroyOpt(o) => b == Destroy(a, o)
    case SetBehaviourOpt(o, behaviour) =>
      b == if o in a.options then WithOptions(a, o, a.options[o].(behaviour := behaviour)) else a
    case SetQueueOpt(o, q) =>
      b == if o in a.options && q in a.packs then WithOptions(a, o, a.options[o].(queue := q)) else a
    case Send(o, callback) =>
      if o == 0 then
        exists k, r :: IsFree(a.options, k) && IsFree(a.requests, r)
                       && b == SendTo(WithOptions(a, k, DEFAULTS), k, r, callback)
      else if o in a.options then exists r :: IsFree(a.requests, r) && b == SendTo(a, o, r, callback)
      else b == a  // the lookup throws before anything changes
    case NewQueue => exists k :: IsFree(a.packs, k) && b == MakeQueue(a, k)
  }

  ghost predicate OpsRun(a: Http, ops: seq<UserOp>, b: Http) {
    if ops == [] then b == a
    else
      exists m: Http :: MAIN in m.packs && OpsRun(a, ops[..|ops|-1], m) && OpStep(m, ops[|ops|-1], b)
  }

  // ----- completions -----

  function Popped(h: Http, s: nat): Http {
    h.(tickets := h.tickets - {s})
  }

  /** The closure has found its request and stored the response. */
  function Answered(h: Http, s: nat): Http
    requires s in h.tickets && h.tickets[s].request in h.requests
  {
    var r := h.tickets[s].request;
    Popped(h, s).(requests := h.requests[r := h.requests[r].(responded := true)])
  }

  /** DeleteRequest with the options of the request. */
  function Deleted(h: Http, r: nat): Http
    requires r in h.requests
  {
    h.(requests := h.requests - {r}, options := h.options - {h.requests[r].options})
  }

  /** A request completes: its callback runs, and the request goes with its options; a forgotten one calls no one. */
  ghost predicate CompleteStep(a: Http, s: nat, b: Http) {
    && s in a.tickets
    && var t := a.tickets[s];
       if t.forgotten then b == Popped(a, s)
       else
         && t.request in a.requests
         && exists m: Http ::
              OpsRun(Answered(a, s), t.callback, m) && t.request in m.requests && b == Deleted(m, t.request)
  }

  /** n requests of engine e complete. */
  ghost predicate DrainRun(a: Http, e: EngineId, n: nat, b: Http) {
    if n == 0 then b == a
    else
      exists m: Http, s: nat ::
        DrainRun(a, e, n - 1, m) && s in m.tickets && m.tickets[s].engine == e && CompleteStep(m, s, b)
  }

  predicate Active(tickets: map<nat, Ticket>, e: EngineId) {
    exists s :: s in tickets && tickets[s].engine == e
  }

  function Buried(h: Http, e: EngineId): Http {
    h.(dying := None, dropped := h.dropped + [e])
  }

  /** The destructor of an engine: it completes what is pending, callbacks and all, before the engine is gone. */
  ghost predicate Destroyed(a: Http, e: EngineId, b: Http) {
    exists n: nat, m: Http :: DrainRun(a, e, n, m) && !Active(m.tickets, e) && b == Buried(m, e)
  }

  // ----- a map change -----

  function Called(e: Engine, cancel: bool, forget: bool): Engine {
    Engine(e.threads, e.cancels + (if cancel then 1 else 0), e.forgets + (if forget then 1 else 0))
  }

  function Marked(t: Ticket, cancel: bool, forget: bool): Ticket {
    t.(canceled := t.canceled || cancel, forgotten := t.forgotten || forget)
  }

  function MarkAll(tickets: map<nat, Ticket>, e: EngineId, cancel: bool, forget: bool): (r: map<nat, Ticket>)
    ensures r.Keys == tickets.Keys
    ensures forall s :: s in r ==>
              r[s] == Marked(tickets[s], tickets[s].engine == e && cancel, tickets[s].engine == e && forget)
  {
    map s | s in tickets :: Marked(tickets[s], tickets[s].engine == e && cancel, tickets[s].engine == e && forget)
  }

  /** The slot is emptied; the main queue gets a new engine in it. */
  function Vacated(h: Http, q: nat, b: EndBehaviour): Http
    requires q in h.packs
  {
    var h1 := h.(packs := h.packs[q := h.packs[q].Put(b, None)]);
    if q == MAIN then Equip(h1, q, b) else h1
  }

  /** The terminating engine of a queue has been cancelled and its slot assigned; its destructor is about to run. */
  function Cancelled(h: Http, q: nat, e: EngineId): Http
    requires q in h.packs && e in h.engines
  {
    var h1 := Vacated(h, q, CancelRequests);
    h1.(engines := h1.engines[e := Called(h.engines[e], true, false)],
        tickets := MarkAll(h.tickets, e, true, false), dying := Some(e))
  }

  /** The forgettable engine of a queue has been told to forget its requests and moved to the list. */
  function Forgot(h: Http, q: nat, e: EngineId): Http
    requires q in h.packs && e in h.engines
  {
    var h1 := Vacated(h, q, ForgetRequests);
    h1.(engines := h1.engines[e := Called(h.engines[e], false, true)],
        tickets := MarkAll(h.tickets, e, false, true), forgotten := h.forgotten + [e])
  }

  ghost predicate CancelStep(a: Http, q: nat, b: Http)
    requires q in a.packs
  {
    match a.SlotOf(q, CancelRequests)
    case None => b == a
    case Some(e) => e in a.engines && Destroyed(Cancelled(a, q, e), e, b)
  }

  ghost predicate ForgetStep(a: Http, q: nat, b: Http)
    requires q in a.packs
  {
    match a.SlotOf(q, ForgetRequests)
    case None => b == a
    case Some(e) => e in a.engines && b == Forgot(a, q, e)
  }

  function Without(h: Http, q: nat): Http {
    h.(packs := h.packs - {q})
  }

  /** A user's queue is erased; an engine that a callback has put into it meanwhile is destroyed with it. */
  ghost predicate EraseStep(a: Http, q: nat, b: Http)
    requires q in a.packs
  {
    if q == MAIN then b == a
    else
      match a.SlotOf(q, CancelRequests)
      case None => b == Without(a, q)
      case Some(e) => Destroyed(Without(a, q).(dying := Some(e)), e, b)
  }

  /** One turn of the loop over the queues. */
  ghost predicate QueueStep(a: Http, q: nat, b: Http) {
    && q in a.packs
    && exists m1: Http, m2: Http ::
         CancelStep(a, q, m1) && q in m1.packs && ForgetStep(m1, q, m2) && q in m2.packs && EraseStep(m2, q, b)
  }

  /** The queues that callbacks have made since a, as far as they are still there. */
  ghost predicate MadeSince(a: Http, b: Http, k: nat) {
    k in b.packs && a.log <= b.log && Made(k) in b.log[|a.log|..]
  }

  /** n turns have led from a to b.  `left` are the queues of a whose turn is to come; `todo` holds these and the queues
      made meanwhile that the walk over the table will still come to, which may be any of them. */
  ghost predicate Turns(a: Http, n: nat, left: set<nat>, todo: set<nat>, b: Http) {
    if n == 0 then b == a && left == todo == a.packs.Keys
    else
      exists l0: set<nat>, t0: set<nat>, m: Http, q: nat ::
        && Turns(a, n - 1, l0, t0, m) && q in t0 && QueueStep(m, q, b)
        && left == l0 - {q} && t0 - {q} <= todo
        && forall k :: k in todo ==> k in t0 - {q} || MadeSince(a, b, k)
  }

  /** A map change, when the walk has come to its end. */
  ghost predicate ResetRun(a: Http, b: Http) {
    exists n: nat, left: set<nat> :: Turns(a, n, left, {}, b)
  }
}
