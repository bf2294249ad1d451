/**
 The request manager in place (src/EasyHttpModule.cpp and .h, and the completion closure in src/module.cpp): the three
 tables of handles, the engines and the list of forgotten ones.  Each method is proved against HttpSpec.
 */
module HttpModule {
  import opened Common
  import opened HandleContainer
  import opened HttpSpec
  import opened HttpLaws
  import opened ResetLaws

  // ----- the frames of forgotten engines -----

  /** The engines that still have a request, in their order. */
  function Busy(list: seq<EngineId>, tickets: map<nat, Ticket>): (r: seq<EngineId>)
    ensures forall e :: e in r <==> e in list && Active(tickets, e)
  {
    if list == [] then []
    else
      var front := Busy(list[..|list|-1], tickets);
      var last := list[|list|-1];
      assert forall e :: e in list <==> e in list[..|list|-1] || e == last;
      if Active(tickets, last) then front + [last] else front
  }

  /** The engines that have none, in their order. */
  function Idle(list: seq<EngineId>, tickets: map<nat, Ticket>): (r: seq<EngineId>)
    ensures forall e :: e in r <==> e in list && !Active(tickets, e)
  {
    if list == [] then []
    else
      var front := Idle(list[..|list|-1], tickets);
      var last := list[|list|-1];
      assert forall e :: e in list <==> e in list[..|list|-1] || e == last;
      if Active(tickets, last) then front else front + [last]
  }

  /** The requests still pending when these engines have run a frame in which `completed` were ready. */
  function AfterFrame(tickets: map<nat, Ticket>, list: seq<EngineId>, completed: set<nat>): map<nat, Ticket> {
    map s | s in tickets && !(s in completed && tickets[s].engine in list) :: tickets[s]
  }

  ghost predicate Precedes(list: seq<EngineId>, e: EngineId, f: EngineId) {
    exists i, j :: 0 <= i < j < |list| && list[i] == e && list[j] == f
  }

  lemma PrecedesInLonger(front: seq<EngineId>, last: EngineId, e: EngineId, f: EngineId)
    ensures Precedes(front + [last], e, f) <==> Precedes(front, e, f) || (e in front && f == last)
  {
    var list := front + [last];
    assert forall i :: 0 <= i < |front| ==> list[i] == front[i];
    if e in front && f == last {
      var i :| 0 <= i < |front| && front[i] == e;
      assert list[i] == e && list[|front|] == f;
    }
    if Precedes(front, e, f) {
      var i, j :| 0 <= i < j < |front| && front[i] == e && front[j] == f;
      assert list[i] == e && list[j] == f;
    }
  }

  lemma NothingPrecedes(e: EngineId, f: EngineId)
    ensures !Precedes([], e, f)
  {
  }

  /** Each engine is as many times in one of the two as in the list, and those in the same one keep their order. */
  lemma {:induction false} SortingKeepsOrder(list: seq<EngineId>, tickets: map<nat, Ticket>, e: EngineId, f: EngineId)
    ensures Precedes(Busy(list, tickets), e, f) <==> Precedes(list, e, f) && Active(tickets, e) && Active(tickets, f)
    ensures Precedes(Idle(list, tickets), e, f) <==> Precedes(list, e, f) && !Active(tickets, e) && !Active(tickets, f)
  {
    hide Active, Precedes;
    if list == [] {
      NothingPrecedes(e, f);
    } else {
      var front, last := list[..|list|-1], list[|list|-1];
      SortingKeepsOrder(front, tickets, e, f);
      assert list == front + [last];
      PrecedesInLonger(front, last, e, f);
      PrecedesInLonger(Busy(front, tickets), last, e, f);
      PrecedesInLonger(Idle(front, tickets), last, e, f);
    }
  }

  /** After a cleanup frame: a request is pending no more iff it was ready and its engine is a forgotten one, all others
      are as they were, and a forgotten engine stays iff it has a request that was not ready. */
  lemma FrameMeaning(tickets: map<nat, Ticket>, list: seq<EngineId>, completed: set<nat>)
    ensures var end := AfterFrame(tickets, list, completed);
            && (forall s: nat :: s in end <==> s in tickets && (s !in completed || tickets[s].engine !in list))
            && (forall s: nat :: s in end ==> end[s] == tickets[s])
            && (forall e :: e in Busy(list, end) <==>
                  e in list && exists s: nat :: s in tickets && tickets[s].engine == e && s !in completed)
            && (forall e :: e in Idle(list, end) <==>
                  e in list && forall s: nat :: s in tickets && tickets[s].engine == e ==> s in completed)
  {
    var end := AfterFrame(tickets, list, completed);
    forall e | e in list
      ensures Active(end, e) <==> exists s: nat :: s in tickets && tickets[s].engine == e && s !in completed
    {
      if s: nat :| s in tickets && tickets[s].engine == e && s !in completed {
        assert s in end;
      }
    }
  }

  /** Where an engine was before the one at `i` of the forgotten list was destroyed. */
  function Before(h: Http, i: nat, p: Place): Place {
    match p
    case InForgotten(j) => if j < i then p else InForgotten(j + 1)
    case InDropped(j) => if j == |h.dropped| then InForgotten(i) else p
    case _ => p
  }

  /** The forgotten engine at i goes. */
  function Expired(h: Http, i: nat): Http
    requires i < |h.forgotten|
  {
    h.(forgotten := h.forgotten[..i] + h.forgotten[i + 1..], dropped := h.dropped + [h.forgotten[i]])
  }

  lemma ExpiredAt(h: Http, i: nat, p: Place)
    requires i < |h.forgotten|
    ensures Expired(h, i).At(p).Some? ==> Expired(h, i).At(p) == h.At(Before(h, i, p))
  {
  }

  lemma BeforeIsInjective(h: Http, i: nat, p: Place, q: Place)
    ensures Before(h, i, p) == Before(h, i, q) ==> p == q
  {
  }

  lemma ExpiredIsNotShared(h: Http, i: nat)
    requires NoSharing(h) && i < |h.forgotten|
    ensures NoSharing(Expired(h, i))
  {
    var b := Expired(h, i);
    forall p | b.At(p).Some? ensures b.At(p) == h.At(Before(h, i, p)) {
      ExpiredAt(h, i, p);
    }
    hide Http.At, Before, Expired;
    forall p, q | b.At(p).Some? && b.At(p) == b.At(q) ensures p == q {
      BeforeIsInjective(h, i, p, q);
    }
  }

  lemma ExpiredIsFine(h: Http, i: nat)
    requires Fine(h) && i < |h.forgotten| && !Active(h.tickets, h.forgotten[i])
    ensures Fine(Expired(h, i))
  {
    ExpiredIsNotShared(h, i);
    hide NoSharing, OptionsRule;
    var b := Expired(h, i);
    forall e | e in b.forgotten ensures e in h.forgotten {
    }
    assert TicketsFine(b);
  }

  lemma AfterFrameIsFine(h: Http, list: seq<EngineId>, completed: set<nat>)
    requires Fine(h)
    ensures Fine(h.(tickets := AfterFrame(h.tickets, list, completed)))
  {
    hide NoSharing, OptionsRule;
    SamePlacesAreNotShared(h, h.(tickets := AfterFrame(h.tickets, list, completed)));
  }

  /** The frame of the forgotten engine at i; it goes when it has nothing left to do. */
  function FrameOf(h: Http, i: nat, completed: set<nat>): Http
    requires i < |h.forgotten|
  {
    var h1 := h.(tickets := AfterFrame(h.tickets, [h.forgotten[i]], completed));
    if Active(h1.tickets, h.forgotten[i]) then h1 else Expired(h1, i)
  }

  /** Of the first k forgotten engines, those that will still have a request when all have run. */
  function Stayed(a: Http, k: nat, completed: set<nat>): seq<EngineId>
    requires k <= |a.forgotten|
  {
    Busy(a.forgotten[..k], AfterFrame(a.tickets, a.forgotten, completed))
  }

  /** The first k forgotten engines have run their frames. */
  function Cleaned(a: Http, k: nat, completed: set<nat>): Http
    requires k <= |a.forgotten|
  {
    a.(tickets := AfterFrame(a.tickets, a.forgotten[..k], completed),
       forgotten := Stayed(a, k, completed) + a.forgotten[k..],
       dropped := a.dropped + Idle(a.forgotten[..k], AfterFrame(a.tickets, a.forgotten, completed)))
  }

  lemma NoFrames(a: Http, completed: set<nat>)
    ensures Cleaned(a, 0, completed) == a && Stayed(a, 0, completed) == []
  {
    assert AfterFrame(a.tickets, a.forgotten[..0], completed) == a.tickets;
    assert a.forgotten[0..] == a.forgotten;
  }

  lemma AllFrames(a: Http, completed: set<nat>)
    ensures var end := AfterFrame(a.tickets, a.forgotten, completed);
            Cleaned(a, |a.forgotten|, completed) == a.(tickets := end, forgotten := Busy(a.forgotten, end),
                                                       dropped := a.dropped + Idle(a.forgotten, end))
  {
    assert a.forgotten[..|a.forgotten|] == a.forgotten;
  }

  /** Whether an engine stays busy is settled when it has run its own frame. */
  lemma FrameSettles(tickets: map<nat, Ticket>, list: seq<EngineId>, completed: set<nat>, k: nat)
    requires k < |list|
    ensures AfterFrame(AfterFrame(tickets, list[..k], completed), [list[k]], completed)
            == AfterFrame(tickets, list[..k + 1], completed)
    ensures Active(AfterFrame(tickets, list[..k + 1], completed), list[k])
            == Active(AfterFrame(tickets, list, completed), list[k])
  {
    assert list[..k + 1] == list[..k] + [list[k]];
    var one, all := AfterFrame(tickets, list[..k + 1], completed), AfterFrame(tickets, list, completed);
    if Active(one, list[k]) {
      var s :| s in one && one[s].engine == list[k];
      assert s in all && all[s].engine == list[k];
    }
    if Active(all, list[k]) {
      var s :| s in all && all[s].engine == list[k];
      assert s in one && one[s].engine == list[k];
    }
  }

  lemma OneMoreSorted(list: seq<EngineId>, tickets: map<nat, Ticket>, k: nat)
    requires k < |list|
    ensures Busy(list[..k + 1], tickets)
            == if Active(tickets, list[k]) then Busy(list[..k], tickets) + [list[k]] else Busy(list[..k], tickets)
    ensures Idle(list[..k + 1], tickets)
            == if Active(tickets, list[k]) then Idle(list[..k], tickets) else Idle(list[..k], tickets) + [list[k]]
  {
    hide Active;
    assert list[..k + 1][..k] == list[..k];
  }

  lemma CleanedSize(a: Http, k: nat, completed: set<nat>)
    requires k <= |a.forgotten|
    ensures |Cleaned(a, k, completed).forgotten| == |Stayed(a, k, completed)| + |a.forgotten| - k
  {
    hide AfterFrame, Busy, Idle;
  }

  lemma NextToClean(a: Http, k: nat, completed: set<nat>)
    requires k < |a.forgotten|
    ensures var i := |Stayed(a, k, completed)|; var b := Cleaned(a, k, completed);
            && i < |b.forgotten| && b.forgotten[i] == a.forgotten[k]
            && b.forgotten[..i] + b.forgotten[i + 1..] == Stayed(a, k, completed) + a.forgotten[k + 1..]
            && b.forgotten == Stayed(a, k, completed) + [a.forgotten[k]] + a.forgotten[k + 1..]
  {
    hide AfterFrame, Busy, Idle;
    KeptOrErased(a.forgotten, k, Stayed(a, k, completed));
  }

  /** One more engine is sorted: it stays in the list, or moves to the end of those destroyed. */
  lemma CleanedOneMore(a: Http, k: nat, completed: set<nat>)
    requires k < |a.forgotten|
    ensures var b := Cleaned(a, k, completed); var c := Cleaned(a, k + 1, completed); var e := a.forgotten[k];
            if Active(AfterFrame(a.tickets, a.forgotten, completed), e)
            then c == b.(tickets := c.tickets) && |Stayed(a, k + 1, completed)| == |Stayed(a, k, completed)| + 1
            else c == b.(tickets := c.tickets, forgotten := Stayed(a, k, completed) + a.forgotten[k + 1..],
                         dropped := b.dropped + [e])
                 && |Stayed(a, k + 1, completed)| == |Stayed(a, k, completed)|
  {
    var end, list := AfterFrame(a.tickets, a.forgotten, completed), a.forgotten;
    OneMoreSorted(list, end, k);
    hide AfterFrame, Busy, Idle, Active;
    StaysOrGoes(list, k, Active(end, list[k]), Busy(list[..k], end), Busy(list[..k + 1], end),
                a.dropped, Idle(list[..k], end), Idle(list[..k + 1], end));
  }

  lemma StaysOrGoes(list: seq<EngineId>, k: nat, stays: bool, front: seq<EngineId>, front': seq<EngineId>,
                    dropped: seq<EngineId>, idle: seq<EngineId>, idle': seq<EngineId>)
    requires k < |list| && front' == (if stays then front + [list[k]] else front)
    requires idle' == if stays then idle else idle + [list[k]]
    ensures front' + list[k + 1..] == if stays then front + list[k..] else front + list[k + 1..]
    ensures dropped + idle' == if stays then dropped + idle else dropped + idle + [list[k]]
  {
    assert list[k..] == [list[k]] + list[k + 1..];
  }

  /** Erasing while iterating: the next engine is where the iterator stands, and stays or goes. */
  lemma OneMoreFrame(a: Http, k: nat, completed: set<nat>)
    requires k < |a.forgotten|
    ensures var i := |Stayed(a, k, completed)|; var b := Cleaned(a, k, completed);
            && i < |b.forgotten| && b.forgotten[i] == a.forgotten[k]
            && FrameOf(b, i, completed) == Cleaned(a, k + 1, completed)
            && |Stayed(a, k + 1, completed)|
               == i + (if Active(FrameOf(b, i, completed).tickets, b.forgotten[i]) then 1 else 0)
  {
    FrameSettles(a.tickets, a.forgotten, completed, k);
    CleanedOneMore(a, k, completed);
    NextToClean(a, k, completed);
    CleanedTickets(a, k, completed);
    CleanedTickets(a, k + 1, completed);
    hide AfterFrame, Active, Stayed, Cleaned;
  }

  lemma CleanedTickets(a: Http, k: nat, completed: set<nat>)
    requires k <= |a.forgotten|
    ensures Cleaned(a, k, completed).tickets == AfterFrame(a.tickets, a.forgotten[..k], completed)
  {
  }

  /** The list when the engines before k are settled, and when the next one is, too. */
  lemma KeptOrErased(list: seq<EngineId>, k: nat, front: seq<EngineId>)
    requires k < |list|
    ensures var all := front + list[k..];
            && all[|front|] == list[k]
            && all == front + [list[k]] + list[k + 1..]
            && all[..|front|] + all[|front| + 1..] == front + [] + list[k + 1..]
  {
  }

  // ----- what DeleteRequest may meet -----

  /** No engine will complete a request under this handle. */
  predicate Settled(h: Http, r: nat) {
    forall s :: s in h.tickets ==> h.tickets[s].request != r
  }

  /** A request is deleted, with or without its options. */
  function WithoutRequest(h: Http, r: nat, deleteRelated: bool): Http
    requires deleteRelated ==> r in h.requests
  {
    if deleteRelated then Deleted(h, r) else h.(requests := h.requests - {r})
  }

  /** The closures that are waiting find what they look for iff none of them waits for this request. */
  lemma RemovedIsFineIff(h: Http, r: nat, deleteRelated: bool)
    requires Fine(h) && (deleteRelated ==> r in h.requests)
    ensures Fine(WithoutRequest(h, r, deleteRelated)) <==> Settled(h, r)
  {
    var b := WithoutRequest(h, r, deleteRelated);
    SamePlacesAreNotShared(h, b);
    hide NoSharing, OptionsRule;
    if !h.misused {
      RemovalKeepsRule(h.requests, h.options, r);
      if deleteRelated {
        CompletionKeepsRule(h.requests, h.options, r);
      }
    }
    if !Settled(h, r) {
      var s :| s in h.tickets && h.tickets[s].request == r;
      assert !Matching(b);
    }
  }

  // ----- how a slot is emptied -----

  /** The engine of a slot has been told what becomes of its requests, and the slot is empty. */
  function TakenOut(h: Http, q: nat, b: EndBehaviour, e: EngineId): (r: Http)
    requires q in h.packs && e in h.engines
    ensures q in r.packs && r.forgotten == h.forgotten
  {
    h.(engines := h.engines[e := Called(h.engines[e], b == CancelRequests, b == ForgetRequests)],
       tickets := MarkAll(h.tickets, e, b == CancelRequests, b == ForgetRequests),
       packs := h.packs[q := h.packs[q].Put(b, None)])
  }

  /** A new engine may as well be made after the old one was called. */
  lemma CancelledInOrder(h: Http, q: nat, e: EngineId)
    requires q in h.packs && e in h.engines && (q == MAIN ==> e < h.nextEngine)
    ensures var h1 := TakenOut(h, q, CancelRequests, e);
            Cancelled(h, q, e) == (if q == MAIN then Equip(h1, q, CancelRequests) else h1).(dying := Some(e))
  {
    hide MarkAll;
  }

  lemma ForgotInOrder(h: Http, q: nat, e: EngineId)
    requires q in h.packs && e in h.engines && (q == MAIN ==> e < h.nextEngine)
    ensures var h1 := TakenOut(h, q, ForgetRequests, e).(forgotten := h.forgotten + [e]);
            Forgot(h, q, e) == if q == MAIN then Equip(h1, q, ForgetRequests) else h1
  {
    hide MarkAll;
  }

  // ----- the module -----

  class EasyHttpModule {
    const packs: ContainerWithHandles<Pack>
    const options: ContainerWithHandles<OptionsData>
    const requests: ContainerWithHandles<RequestData>
    var forgotten: seq<EngineId>
    var engines: map<EngineId, Engine>
    var nextEngine: EngineId
    var tickets: map<nat, Ticket>  // by the serial of the request
    var nextSerial: nat
    ghost var dying: Option<EngineId>
    ghost var dropped: seq<EngineId>
    ghost var log: seq<Doing>
    ghost var misused: bool

    ghost function State(): Http
      reads this, packs, options, requests
    {
      Http(packs.values, options.values, requests.values, engines, nextEngine, tickets, nextSerial,
           forgotten, dying, dropped, log, misused)
    }

    ghost predicate Containers()
      reads packs, options, requests
    {
      && packs as object != options && packs as object != requests && options as object != requests
      && packs.Valid() && options.Valid() && requests.Valid()
    }

    ghost predicate Valid()
      reads this, packs, options, requests
    {
      Containers() && Fine(State())
    }

    constructor ()
      ensures Valid() && fresh(packs) && fresh(options) && fresh(requests)
      ensures State() == START
    {
      hide ContainerWithHandles.Valid, Live, Peak, Range, Fine;
      packs := new ContainerWithHandles<Pack>();
      options := new ContainerWithHandles<OptionsData>();
      requests := new ContainerWithHandles<RequestData>();
      forgotten, dropped, log := [], [], [];
      engines, nextEngine := map[], 0;
      tickets, nextSerial := map[], 0;
      dying, misused := None, false;
      new;
      var main := packs.Add(Pack(None, None));
      assert main == MAIN;
      assert packs.values == map[MAIN := Pack(None, None)];
      StartIsFine();
    }

    // ----- what plugins ask for -----

    method CreateQueue() returns (q: nat)
      requires Valid()
      modifies this`log, packs
      ensures Valid()
      ensures IsFree(old(packs.values), q) && State() == MakeQueue(old(State()), q)
    {
      hide ContainerWithHandles.Valid, Live, Peak, Range, Fine;
      q := packs.Add(Pack(None, None));
      log := log + [Made(q)];
      MakeQueueKeeps(old(State()), q);
    }

    method CreateOptions() returns (o: nat)
      requires Valid()
      modifies options
      ensures Valid()
      ensures IsFree(old(options.values), o) && State() == WithOptions(old(State()), o, DEFAULTS)
    {
      hide ContainerWithHandles.Valid, Live, Peak, Range, Fine;
      o := options.Add(DEFAULTS);
      WithOptionsKeeps(old(State()), o, DEFAULTS);
    }

    method DeleteOptions(o: nat) returns (removed: bool)
      requires Valid()
      modifies this`misused, options
      ensures Valid()
      ensures removed == (o in old(options.values)) && State() == Destroy(old(State()), o)
    {
      hide ContainerWithHandles.Valid, Live, Peak, Range, Fine, InUse;
      DestroyKeeps(State(), o);
      misused := misused || o in InUse(requests.values);
      removed := options.Remove(o);
    }

    method SetBehaviour(o: nat, behaviour: EndBehaviour) returns (ok: bool)
      requires Valid()
      modifies options
      ensures Valid()
      ensures ok == (o in old(options.values))
      ensures State() == if ok then WithOptions(old(State()), o, old(options.values)[o].(behaviour := behaviour))
                         else old(State())
    {
      hide ContainerWithHandles.Valid, Live, Peak, Range, Fine;
      ok := options.Contains(o);
      if ok {
        WithOptionsKeeps(State(), o, options.values[o].(behaviour := behaviour));
        options.Set(o, options.values[o].(behaviour := behaviour));
      }
    }

    method SetQueue(o: nat, q: nat) returns (ok: bool)
      requires Valid()
      modifies options
      ensures Valid()
      ensures ok == (o in old(options.values) && q in packs.values)
      ensures State() == if ok then WithOptions(old(State()), o, old(options.values)[o].(queue := q)) else old(State())
    {
      hide ContainerWithHandles.Valid, Live, Peak, Range, Fine;
      ok := options.Contains(o) && packs.Contains(q);
      if ok {
        WithOptionsKeeps(State(), o, options.values[o].(queue := q));
        options.Set(o, options.values[o].(queue := q));
      }
    }

    /** The engine of a queue for this behaviour, made on first use. */
    method GetEasyHttp(q: nat, b: EndBehaviour) returns (e: EngineId)
      requires Containers() && q in packs.values
      modifies this`engines, this`nextEngine, packs
      ensures Containers() && State() == Equip(old(State()), q, b) && State().SlotOf(q, b) == Some(e)
    {
      hide ContainerWithHandles.Valid, Live, Peak, Range;
      var slot := packs.values[q].Slot(b);
      if slot.Some? {
        return slot.value;
      }
      e := nextEngine;
      engines := engines[e := Engine(if q == MAIN then MAIN_QUEUE_THREADS else 1, 0, 0)];
      nextEngine := nextEngine + 1;
      packs.Set(q, packs.values[q].Put(b, Some(e)));
    }

    /** A request with options that are there.  Options whose queue is gone go to the main queue. */
    method SendWith(o: nat, callback: seq<UserOp>) returns (r: nat)
      requires Valid() && o in options.values
      modifies this, packs, requests
      ensures Valid()
      ensures MAIN in old(packs.values) && IsFree(old(requests.values), r)
      ensures State() == SendTo(old(State()), o, r, callback)
    {
      hide ContainerWithHandles.Valid, Live, Peak, Range, Fine, InUse;
      FineHasMain(State());
      var data := options.values[o];
      var q := data.queue;
      if !packs.Contains(q) {
        q := MAIN;
      }
      EquipLeaves(State(), q, data.behaviour);
      hide Equip;
      var e := GetEasyHttp(q, data.behaviour);
      r := Enqueue(e, o, callback, Placed(q, data.behaviour));
      SendToKeeps(old(State()), o, r, callback);
    }

    /** Null options are created; options that are not there throw before anything changes. */
    method SendRequest(optionsId: nat, callback: seq<UserOp>) returns (request: Option<nat>)
      requires Valid()
      modifies this, packs, options, requests
      ensures Valid()
      ensures MAIN in old(packs.values) && OpStep(old(State()), Send(optionsId, callback), State())
      ensures request.None? <==> optionsId != 0 && optionsId !in old(options.values)
      ensures request.Some? ==>
        && IsFree(old(requests.values), request.value)
        && requests.values.Keys == old(requests.values).Keys + {request.value}
        && requests.values[request.value].serial == old(nextSerial)
    {
      hide Containers, Fine, SendTo, Equip;
      FineHasMain(State());
      var o := optionsId;
      if optionsId == 0 {
        o := CreateOptions();
      }
      if !options.Contains(o) {
        return None;
      }
      ghost var h := State();
      var r := SendWith(o, callback);
      SentRequest(h, o, r, callback);
      return Some(r);
    }

    /** The engine's SendRequest, and the entry in the table of requests that its closure will look for. */
    method Enqueue(e: EngineId, o: nat, callback: seq<UserOp>, ghost what: Doing) returns (r: nat)
      requires Containers()
      modifies this`tickets, this`nextSerial, this`log, this`misused, requests
      ensures Containers() && IsFree(old(requests.values), r)
      ensures State() == old(State()).(requests := old(requests.values)[r := RequestData(o, old(nextSerial), false)],
                                       tickets := old(tickets)[old(nextSerial) := Ticket(e, r, false, false, callback)],
                                       nextSerial := old(nextSerial) + 1, log := old(log) + [what],
                                       misused := old(misused) || o in InUse(old(requests.values)))
    {
      hide ContainerWithHandles.Valid, Live, Peak, Range, InUse;
      r := requests.Add(RequestData(o, nextSerial, false));
      misused := misused || o in InUse(old(requests.values));
      tickets := tickets[nextSerial := Ticket(e, r, false, false, callback)];
      nextSerial := nextSerial + 1;
      log := log + [what];
    }

    method RunUserOp(op: UserOp)
      requires Valid()
      modifies this, packs, options, requests
      ensures Valid()
      ensures MAIN in old(packs.values) && OpStep(old(State()), op, State())
    {
      hide Containers, Fine;
      FineHasMain(State());
      match op
      case CreateOpt => var _ := CreateOptions();
      case DestroyOpt(o) => var _ := DeleteOptions(o);
      case SetBehaviourOpt(o, b) => var _ := SetBehaviour(o, b);
      case SetQueueOpt(o, q) => var _ := SetQueue(o, q);
      case Send(o, callback) => var _ := SendRequest(o, callback);
      case NewQueue => var _ := CreateQueue();
    }

    /** A callback of a plugin, or any of its code. */
    method RunCallback(ops: seq<UserOp>)
      requires Valid()
      modifies this, packs, options, requests
      ensures Valid() && OpsRun(old(State()), ops, State())
    {
      hide Containers, Fine, OpStep;
      assert ops[..0] == [];
      for i := 0 to |ops|
        invariant Valid() && OpsRun(old(State()), ops[..i], State())
      {
        ghost var m := State();
        RunUserOp(ops[i]);
        assert ops[..i + 1][..|ops[..i + 1]|-1] == ops[..i];
      }
      assert ops[..|ops|] == ops;
    }

    // ----- completions -----

    /**
     None when the request that should take its options with it is not there: the lookup throws, and nothing changes.
     The waiting closures go on finding their requests iff none of them waits for this one.
     */
    method DeleteRequest(handle: nat, deleteRelated: bool) returns (removed: Option<bool>)
      requires Valid()
      modifies options, requests
      ensures Containers() && (Valid() <==> Settled(old(State()), handle))
      ensures removed.None? <==> deleteRelated && handle !in old(requests.values)
      ensures removed.None? ==> State() == old(State())
      ensures removed.Some? ==>
        removed.value == (handle in old(requests.values))
            && State() == WithoutRequest(old(State()), handle, deleteRelated)
    {
      hide ContainerWithHandles.Valid, Live, Peak, Range;
      if deleteRelated && !requests.Contains(handle) {
        return None;
      }
      hide Fine;
      RemovedIsFineIff(State(), handle, deleteRelated);
      if deleteRelated {
        var _ := options.Remove(requests.values[handle].options);
      }
      var there := requests.Remove(handle);
      removed := Some(there);
    }

    /**
     A request completes.  Its closure finds the very request that it was made for, runs the plugin's callback, which
     may do anything a plugin may do, and then deletes the request with its options.  The callback of a forgotten
     request does not run.
     */
    method Complete(s: nat)
      requires Valid() && s in tickets
      modifies this, packs, options, requests
      ensures Valid() && CompleteStep(old(State()), s, State())
    {
      hide ContainerWithHandles.Valid, Live, Peak, Range, Fine, OpsRun;
      ghost var a := State();
      var t := tickets[s];
      if t.forgotten {
        PoppedKeeps(a, s);
        tickets := tickets - {s};
        return;
      }
      AnsweredKeeps(a, s);
      requests.Set(t.request, requests.values[t.request].(responded := true));
      tickets := tickets - {s};
      RunCallback(t.callback);
      ghost var m := State();
      OpsRunKeeps(Answered(a, s), t.callback, m);
      OwnSerial(a, s, m);
      OwnRequestIsSettled(m, t.request, s);
      var _ := DeleteRequest(t.request, true);
    }

    /** The destructor of an engine completes what is pending; what callbacks send meanwhile goes to other engines. */
    method DestroyEngine(e: EngineId)
      requires Valid() && dying == Some(e)
      modifies this, packs, options, requests
      ensures Valid() && Destroyed(old(State()), e, State())
    {
      hide Containers, Fine, CompleteStep, Effect, Drained;
      ghost var a, n := State(), 0;
      while Active(tickets, e)
        invariant Valid() && dying == Some(e) && DrainRun(a, e, n, State())
        decreases Pending(tickets, e)
      {
        var s :| s in tickets && tickets[s].engine == e;
        ghost var m := State();
        Complete(s);
        OneLessOf(m, e, s, State());
        n := n + 1;
      }
      DrainKeeps(a, e, n, State());
      BuriedIsFine(State(), e);
      dying, dropped := None, dropped + [e];
    }

    // ----- a map change -----

    /** CancelAllRequests or ForgetAllRequests on the engine of a slot, which is then taken out of it. */
    method TakeOut(q: nat, b: EndBehaviour, e: EngineId)
      requires Containers() && q in packs.values && e in engines
      modifies this`engines, this`tickets, packs
      ensures Containers() && State() == TakenOut(old(State()), q, b, e)
    {
      hide ContainerWithHandles.Valid, Live, Peak, Range, MarkAll, Called;
      engines := engines[e := Called(engines[e], b == CancelRequests, b == ForgetRequests)];
      tickets := MarkAll(tickets, e, b == CancelRequests, b == ForgetRequests);
      packs.Set(q, packs.values[q].Put(b, None));
    }

    /** The terminating engine is cancelled, and its slot assigned. */
    method CancelAndReplace(q: nat, e: EngineId)
      requires Containers() && q in packs.values && e in engines && (q == MAIN ==> e < nextEngine)
      modifies this`engines, this`tickets, this`nextEngine, this`dying, packs
      ensures Containers() && State() == Cancelled(old(State()), q, e)
    {
      hide Containers, Cancelled, Equip, TakenOut;
      CancelledInOrder(State(), q, e);
      TakeOut(q, CancelRequests, e);
      if q == MAIN {
        var _ := GetEasyHttp(q, CancelRequests);
      }
      dying := Some(e);
    }

    /** The terminating engine of a queue is cancelled; it is destroyed when its slot has been assigned. */
    method CancelEngine(q: nat)
      requires Valid() && q in packs.values && dying.None?
      modifies this, packs, options, requests
      ensures Valid() && CancelStep(old(State()), q, State())
    {
      hide Containers, Fine, Destroyed, Cancelled;
      var slot := packs.values[q].terminating;
      if slot.None? {
        return;
      }
      var e := slot.value;
      FineHasMain(State());
      SlotEngineIsKnown(State(), q, CancelRequests);
      CancelledIsFine(State(), q, e);
      CancelledIsDying(State(), q, e);
      CancelAndReplace(q, e);
      DestroyEngine(e);
    }

    /** The forgettable engine is told to forget, and moves to the end of the list. */
    method ForgetAndMove(q: nat, e: EngineId)
      requires Containers() && q in packs.values && e in engines && (q == MAIN ==> e < nextEngine)
      modifies this`engines, this`tickets, this`nextEngine, this`forgotten, packs
      ensures Containers() && State() == Forgot(old(State()), q, e)
    {
      hide Containers, Forgot, Equip, TakenOut;
      ForgotInOrder(State(), q, e);
      TakeOut(q, ForgetRequests, e);
      forgotten := forgotten + [e];
      if q == MAIN {
        var _ := GetEasyHttp(q, ForgetRequests);
      }
    }

    method ForgetEngine(q: nat)
      requires Valid() && q in packs.values
      modifies this, packs
      ensures Valid() && ForgetStep(old(State()), q, State())
    {
      hide Containers, Fine, Forgot;
      var slot := packs.values[q].forgettable;
      if slot.None? {
        return;
      }
      FineHasMain(State());
      SlotEngineIsKnown(State(), q, ForgetRequests);
      ForgotIsFine(State(), q, slot.value);
      ForgetAndMove(q, slot.value);
    }

    /** A user's queue leaves the table, and with it the engine that a callback may have put there. */
    method EraseQueue(q: nat)
      requires Valid() && q in packs.values && q != MAIN && dying.None? && packs.values[q].forgettable.None?
      modifies this, packs, options, requests
      ensures Valid() && EraseStep(old(State()), q, State())
    {
      hide ContainerWithHandles.Valid, Live, Peak, Range, Fine, Destroyed;
      ErasedIsFine(State(), q);
      var last := packs.values[q].terminating;
      packs.RemoveAt(q);
      dying := last;
      if last.Some? {
        DestroyEngine(last.value);
      }
    }

    /** One turn of the loop: both slots of a queue; then a user's queue goes. */
    method ResetQueue(q: nat)
      requires Valid() && dying.None? && q in packs.values
      modifies this, packs, options, requests
      ensures Valid() && dying.None? && QueueStep(old(State()), q, State())
    {
      hide Containers, Fine, CancelStep, ForgetStep, EraseStep;
      ghost var h := State();
      CancelEngine(q);
      ghost var m1 := State();
      CancelStepSettles(h, q, m1);
      ForgetEngine(q);
      ghost var m2 := State();
      ForgetStepSettles(m1, q, m2);
      if q != MAIN {
        EraseQueue(q);
      } else {
        MainIsNotErased(m2);
      }
      EraseStepSettles(m2, q, State());
    }

    /**
     A map change.  `reach` says which of the queues that callbacks make the walk over the table still comes to.
     Whatever the order of the queues, and whatever callbacks do: every terminating engine there was is cancelled once
     and destroyed, and its requests have completed; every forgettable one is forgotten once and listed; the queues
     there were are gone, but for the main one.
     */
    method ResetMainAndRemoveUsersQueues(reach: seq<set<nat>>)
      requires Valid() && dying.None?
      modifies this, packs, options, requests
      ensures Valid() && dying.None?
      ensures ResetRun(old(State()), State())
      ensures old(log) <= log
      ensures EnginesChanged(old(State()), State()) && TicketsChanged(old(State()), State())
      ensures QueuesChanged(old(State()), State()) && NewEnginesChanged(old(State()), State())
    {
      hide Containers, Fine, QueueStep, Turns, Kept;
      ghost var a, n, left := State(), 0, packs.values.Keys;
      var todo, k := packs.values.Keys, 0;
      NoTurnsYet(a);
      while todo != {}
        invariant Valid() && dying.None? && k <= |reach|
        invariant Turns(a, n, left, todo, State()) && todo <= packs.values.Keys
        decreases |reach| - k, todo
      {
        var q :| q in todo;
        ghost var m := State();
        ResetQueue(q);
        var more: set<nat> := {};
        if k < |reach| {
          more := reach[k] * packs.values.Keys - {MAIN};
          k := k + 1;
        }
        WalkGoesOn(a, n, left, todo, m, q, State(), more);
        left, n, todo := left - {q}, n + 1, todo - {q} + more;
      }
      WalkIsOver(a, n, left, State());
      ResetResult(a, State());
    }

    // ----- every frame -----

    /**
     The cleanup of every frame, with the requests that had completed by then: no callback runs, so options and
     requests stay; the engines with nothing left to do are destroyed, the others keep their order.
     */
    method RunCleanupFrameForForgottenEasyHttp(completed: set<nat>)
      requires Valid()
      modifies this`tickets, this`forgotten, this`dropped
      ensures Valid()
      ensures tickets == AfterFrame(old(tickets), old(forgotten), completed)
      ensures forgotten == Busy(old(forgotten), tickets)
      ensures dropped == old(dropped) + Idle(old(forgotten), tickets)
    {
      hide Containers, Fine, AfterFrame, Busy, Idle, Active, Cleaned, FrameOf;
      ghost var a, k := State(), 0;
      NoFrames(a, completed);
      var i := 0;
      while i < |forgotten|
        invariant Valid() && 0 <= k <= |a.forgotten|
        invariant State() == Cleaned(a, k, completed) && i == |Stayed(a, k, completed)|
        invariant |forgotten| - i == |a.forgotten| - k
        decreases |forgotten| - i
      {
        OneMoreFrame(a, k, completed);
        var active := RunForgotten(i, completed);
        if active {
          i := i + 1;
        }
        k := k + 1;
        CleanedSize(a, k, completed);
      }
      AllFrames(a, completed);
    }

    /** RunFrame of one forgotten engine; it is destroyed when it has nothing left to do. */
    method RunForgotten(i: nat, completed: set<nat>) returns (active: bool)
      requires Valid() && i < |forgotten|
      modifies this`tickets, this`forgotten, this`dropped
      ensures Valid() && State() == FrameOf(old(State()), i, completed)
      ensures active == Active(tickets, old(forgotten)[i])
    {
      hide Containers, Fine, AfterFrame, Active;
      var e := forgotten[i];
      AfterFrameIsFine(State(), [e], completed);
      tickets := AfterFrame(tickets, [e], completed);
      active := Active(tickets, e);
      if !active {
        ExpiredIsFine(State(), i);
        forgotten := forgotten[..i] + forgotten[i + 1..];
        dropped := dropped + [e];
      }
    }
  }

  lemma EquipLeaves(h: Http, q: nat, b: EndBehaviour)
    requires q in h.packs
    ensures var r := Equip(h, q, b);
            r == h.(packs := r.packs, engines := r.engines, nextEngine := r.nextEngine)
  {
  }

  lemma SentRequest(h: Http, o: nat, r: nat, callback: seq<UserOp>)
    requires o in h.options && MAIN in h.packs
    ensures SendTo(h, o, r, callback).requests == h.requests[r := RequestData(o, h.nextSerial, false)]
  {
  }

  lemma OwnRequestIsSettled(m: Http, r: nat, s: nat)
    requires Fine(m) && r in m.requests && m.requests[r].serial == s && s !in m.tickets
    ensures Settled(m, r)
  {
  }

  /** What an engine has to complete. */
  function Pending(tickets: map<nat, Ticket>, e: EngineId): set<nat> {
    set s | s in tickets && tickets[s].engine == e
  }

  /** A completion leaves its engine one request less. */
  lemma OneLessOf(a: Http, e: EngineId, s: nat, b: Http)
    requires Fine(a) && a.dying == Some(e) && s in a.tickets && CompleteStep(a, s, b) && a.tickets[s].engine == e
    ensures Pending(b.tickets, e) < Pending(a.tickets, e) && b.dying == a.dying
  {
    hide Fine, CompleteStep, Gone;
    CompleteKeeps(a, s, b);
    EffectKeeps(a, b);
    hide Effect;
    forall t | t in Pending(b.tickets, e) ensures t in Pending(a.tickets, e) && t != s {
      assert t in Popped(a, s).tickets;
    }
    assert s in Pending(a.tickets, e);
  }

  /** A fresh look at a single turn. */
  lemma CancelStepSettles(h: Http, q: nat, b: Http)
    requires Fine(h) && h.dying.None? && q in h.packs && CancelStep(h, q, b)
    ensures b.dying.None? && q in b.packs
  {
    hide Fine, CancelStep, Kept;
    NothingMet(h);
    CancelStepKeeps(h, Rest(h.packs.Keys, h.packs.Keys, h.packs.Keys), h, q, b);
  }

  lemma CancelledIsDying(h: Http, q: nat, e: EngineId)
    requires q in h.packs && e in h.engines
    ensures Cancelled(h, q, e).dying == Some(e)
  {
  }

  lemma ForgetStepSettles(h: Http, q: nat, b: Http)
    requires Fine(h) && h.dying.None? && q in h.packs && ForgetStep(h, q, b)
    ensures b.dying.None? && q in b.packs && (q != MAIN ==> b.packs[q].forgettable.None?)
  {
    hide MarkAll;
  }

  lemma EraseStepSettles(h: Http, q: nat, b: Http)
    requires h.dying.None? && q in h.packs && EraseStep(h, q, b)
    ensures b.dying.None?
  {
    hide DrainRun, Active;
  }

  lemma MainIsNotErased(h: Http)
    requires MAIN in h.packs
    ensures EraseStep(h, MAIN, h)
  {
  }

  // ----- the walk over the queues -----

  lemma NoTurnsYet(a: Http)
    ensures Turns(a, 0, a.packs.Keys, a.packs.Keys, a)
  {
  }

  /** After a turn the walk comes to what was to come, and to any of the queues that callbacks have made. */
  lemma WalkGoesOn(a: Http, n: nat, left: set<nat>, todo: set<nat>, m: Http, q: nat, b: Http, more: set<nat>)
    requires Fine(a) && a.dying.None? && Turns(a, n, left, todo, m) && q in todo && QueueStep(m, q, b)
    requires more <= b.packs.Keys - {MAIN} && todo <= m.packs.Keys
    ensures Turns(a, n + 1, left - {q}, todo - {q} + more, b) && todo - {q} + more <= b.packs.Keys
  {
    hide Fine, Kept, QueueStep;
    var now := todo - {q} + more;
    TurnsKeep(a, n, left, todo, m);
    KeptIsFine(a, left, m);
    QueueStepKeeps(a, left, m, q, b);
    OthersStay(m, q, b);
    forall k: nat | k in now ensures k in todo - {q} || MadeSince(a, b, k) {
      if k in more {
        OldOrMade(a, left - {q}, b, k);
      }
    }
  }

  lemma OldOrMade(a: Http, left: set<nat>, b: Http, k: nat)
    requires Kept(a, All(left), b) && k in b.packs && k != MAIN
    ensures k in left || MadeSince(a, b, k)
  {
    hide Fine, SlotsKept, OldEnginesKept, ForgottenKept, EndsKept, TicketsKept;
  }

  lemma OthersStay(h: Http, q: nat, b: Http)
    requires Fine(h) && h.dying.None? && QueueStep(h, q, b)
    ensures h.packs.Keys - {q} <= b.packs.Keys
  {
    hide Fine, Kept, QueueStep;
    NothingMet(h);
    FineHasMain(h);
    QueueStepKeeps(h, h.packs.Keys, h, q, b);
    KeptQueueStays(h, All(h.packs.Keys - {q}), b);
  }

  lemma KeptQueueStays(a: Http, rest: Rest, b: Http)
    requires Kept(a, rest, b)
    ensures rest.whole <= b.packs.Keys
  {
    hide Fine, SlotsKept, OldEnginesKept, ForgottenKept, EndsKept, TicketsKept;
  }

  lemma WalkIsOver(a: Http, n: nat, left: set<nat>, b: Http)
    requires Turns(a, n, left, {}, b)
    ensures ResetRun(a, b)
  {
  }
}
