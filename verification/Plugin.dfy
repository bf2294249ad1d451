/**
 The life of one plugin of Metamod (dep/metamod/mplugin.cpp): loading, unloading, reloading, retrying,
 pausing and clearing, under the plugin's own limits on when it may be attached and detached.
 What the plugin's DLL does (open, query, attach, detach) is an outcome given to each operation;
 every use of the DLL is recorded on a trace.
 */
module Plugin {
  import opened Common

  /** PLUG_STATUS; the order of the constructors matters. */
  datatype Status = Empty | Valid | BadFile | Opened | Failed | Running | Paused {
    function Rank(): nat {
      match this
      case Empty => 0
      case Valid => 1
      case BadFile => 2
      case Opened => 3
      case Failed => 4
      case Running => 5
      case Paused => 6
    }
  }

  /** PLUG_ACTION. */
  datatype Action = NullAction | NoAction | Keep | ToLoad | ToAttach | ToUnload | ToReload

  /** PLUG_LOADTIME; the order of the constructors matters. */
  datatype LoadTime = Never | Startup | ChangeLevel | AnyTime | AnyPause {
    function Rank(): nat {
      match this
      case Never => 0
      case Startup => 1
      case ChangeLevel => 2
      case AnyTime => 3
      case AnyPause => 4
    }

    predicate Before(other: LoadTime) {
      Rank() < other.Rank()
    }
  }

  /** PL_UNLOAD_REASON. */
  datatype Reason =
    NullReason | IniDeleted | FileNewer | Command | CmdForced | Delay | ByPlugin | PluginForced | Reloading

  /** The values of META_ERRNO that these operations use. */
  datatype Errno =
    | NoError | Already | Delayed | NotAllowed | BadReq | Argument | NullResult | MaxReached | NotFound
    | NoFile | NoMem | DlOpen | DlMissing | DlError | IfVersion | UnloadUnloader | UnloadSelf

  datatype Source = FromIni | FromCommand | FromPlugin

  type Handle = nat

  /** plugin_info_t; `id` stands for its address. */
  datatype Info = Info(id: nat, name: string, logtag: string, loadable: LoadTime, unloadable: LoadTime)

  /** The fields of an MPlugin. */
  datatype Record = Record(index: nat, filename: string, file: string, desc: string, pathname: string,
                           pfspecific: int, status: Status, action: Action, source: Source,
                           handle: Option<Handle>, info: Option<Info>, timeLoaded: nat,
                           unloaderIndex: nat, isUnloader: bool)

  // ----- the outside world -----

  /** What DLOPEN and query() come to.  A refusal carries the info and the meta_errno that query() leaves;
      a call made by the plugin's Meta_Query may have set the latter. */
  datatype QueryOutcome =
    | OpenFails
    | Refused(handle: Handle, errno: Errno, left: Option<Info>)
    | Accepted(handle: Handle, info: Info)

  /** What the plugin's DLL will do, and the clock; `gameInit` says whether it hooks GameInit. */
  datatype Env = Env(query: QueryOutcome, attachError: Option<Errno>, detachError: Option<Errno>,
                     gameInit: bool, clock: nat)

  datatype Event =
    | Open(handle: Handle)
    | Close(handle: Handle)
    | Attach(now: LoadTime, loadable: LoadTime, ok: bool)
    | Detach(now: LoadTime, unloadable: Option<LoadTime>, reason: Reason, ok: bool)
    | GameInit
    | Disabled(plugin: nat)  // the commands and cvars registered for this index are

  // ----- what the operations come to -----

  datatype Outcome = Outcome(plugin: Record, ok: bool, errno: Errno, events: seq<Event>)

  /** The part of the state invariant that the operations themselves rely on. */
  predicate InfoKnown(p: Record) {
    p.status.Rank() >= Opened.Rank() ==> p.info.Some?
  }

  predicate HasNames(p: Record) {
    p.status != Empty && p.file != "" && p.filename != "" && p.pathname != ""
  }

  /** An operation on a plugin leaves its index and its names, fills no empty slot, and opens no file without a name. */
  predicate SameSlot(p: Record, q: Record) {
    && q.index == p.index && q.pathname == p.pathname && q.file == p.file && q.filename == p.filename
    && (p.status == Empty ==> q.status == Empty)
    && (q.status.Rank() >= Opened.Rank() ==> p.status.Rank() >= Opened.Rank() || HasNames(p))
  }

  /** Nor does it raise is_unloader. */
  predicate KeepsSlot(p: Record, q: Record) {
    SameSlot(p, q) && (q.isUnloader ==> p.isUnloader)
  }

  /** check_input() fills in a missing description. */
  function Described(p: Record): Record {
    if p.desc == "" then p.(desc := "<" + p.file + ">") else p
  }

  function Cleared(p: Record): Record {
    p.(status := Empty, action := NullAction, handle := None, info := None, timeLoaded := 0,
       unloaderIndex := 0, isUnloader := false)
  }

  function CloseEvents(h: Option<Handle>): seq<Event> {
    if h.Some? then [Close(h.value)] else []
  }

  function ClearOutcome(p: Record): (o: Outcome)
    ensures KeepsSlot(p, o.plugin)
  {
    if p.status.Failed? || p.status.BadFile? || p.status.Empty? || p.status.Opened? then
      Outcome(Cleared(p), true, NoError, CloseEvents(p.handle))
    else
      Outcome(p, false, BadReq, [])
  }

  /** load() from the point where the plugin's info is known. */
  function AttachOutcome(p: Record, now: LoadTime, env: Env): (o: Outcome)
    requires p.info.Some?
    ensures o.plugin.info == p.info
    ensures HasNames(p) ==> KeepsSlot(p, o.plugin) && HasNames(o.plugin)
  {
    var limit := p.info.value.loadable;
    if limit.Before(now) then
      if Startup.Before(limit) then Outcome(p, false, Delayed, [])
      else Outcome(p.(action := NoAction), false, NotAllowed, [])
    else if env.attachError.Some? then
      Outcome(p.(status := Failed), false, env.attachError.value, [Attach(now, limit, false)])
    else
      Outcome(p.(status := Running, action := NoAction, timeLoaded := env.clock), true, NoError,
              [Attach(now, limit, true)] + if now != Startup && env.gameInit then [GameInit] else [])
  }

  function QueriedDesc(desc: string, info: Info): string {
    if desc != "" && desc[0] == '<' then info.name else desc
  }

  function LoadOutcome(p: Record, now: LoadTime, env: Env): (o: Outcome)
    requires InfoKnown(p)
    ensures InfoKnown(o.plugin) && KeepsSlot(p, o.plugin)
  {
    var q := Described(p);
    if !HasNames(p) then Outcome(p, false, Argument, [])
    else if q.status.Rank() >= Running.Rank() then Outcome(q, false, Already, [])
    else if q.action != ToLoad && q.action != ToAttach then Outcome(q, false, BadReq, [])
    else if q.status.Rank() >= Opened.Rank() then AttachOutcome(q, now, env)
    else
      var o := QueryResult(q, env);
      if !o.ok then o
      else var a := AttachOutcome(o.plugin, now, env); a.(events := o.events + a.events)
  }

  /** The part of load() for a plugin whose file is not open. */
  function QueryResult(p: Record, env: Env): (o: Outcome)
    ensures o.ok ==> o.plugin.info.Some?
    ensures HasNames(p) ==> KeepsSlot(p, o.plugin) && HasNames(o.plugin)
  {
    match env.query
    case OpenFails =>
      Outcome(p.(status := BadFile, handle := None, info := None), false, DlOpen, [])
    case Refused(h, e, _) =>
      // an open handle is kept when the refusal looks like a failure to open
      Outcome(p.(status := BadFile, handle := if e == DlOpen then Some(h) else None, info := None), false, e,
              [Open(h)] + if e == DlOpen then [] else [Close(h)])
    case Accepted(h, info) =>
      Outcome(p.(status := Opened, handle := Some(h), info := Some(info), desc := QueriedDesc(p.desc, info)),
              true, NoError, [Open(h)])
  }

  datatype Decision = Refuse(plugin: Record, errno: Errno) | Proceed(plugin: Record)

  /** unload() up to the call of detach(). */
  function UnloadDecision(p: Record, now: LoadTime, reason: Reason): (d: Decision)
    ensures InfoKnown(p) ==> InfoKnown(d.plugin)
  {
    var q := Described(p);
    if !HasNames(p) then Refuse(p, Argument)
    else if q.status.Rank() < Running.Rank() && reason != CmdForced && reason != Reloading then Refuse(q, Already)
    else if q.action != ToUnload && q.action != ToReload then Refuse(q, BadReq)
    else if q.info.Some? && q.info.value.unloadable.Before(now) && reason != CmdForced then
      if Startup.Before(q.info.value.unloadable) then Refuse(q, Delayed)
      else Refuse(q.(action := NoAction), NotAllowed)
    else Proceed(q)
  }

  /** unload() after detach(). */
  function UnloadFinish(p: Record): (q: Record)
    ensures InfoKnown(p) ==> InfoKnown(q)
  {
    if p.action == ToUnload then Cleared(p)
    else if p.action == ToReload then p.(status := Valid, action := ToLoad, handle := None)
    else p.(handle := None)
  }

  function DetachEvents(p: Record, now: LoadTime, reason: Reason, error: Option<Errno>): seq<Event> {
    if p.handle.None? then []
    else [Detach(now, if p.info.Some? then Some(p.info.value.unloadable) else None, reason, error.None?)]
  }

  /** What unload() does after detach(), before it closes the file and as it does. */
  function FinishEvents(p: Record): seq<Event> {
    [Disabled(p.index)] + CloseEvents(p.handle)
  }

  function UnloadOutcome(p: Record, now: LoadTime, reason: Reason, env: Env): (o: Outcome)
    ensures InfoKnown(p) ==> InfoKnown(o.plugin)
    ensures KeepsSlot(p, o.plugin)
  {
    match UnloadDecision(p, now, reason)
    case Refuse(q, e) => Outcome(q, false, e, [])
    case Proceed(q) =>
      if q.handle.Some? && env.detachError.Some? && reason != Reloading && reason != CmdForced then
        Outcome(q, false, env.detachError.value, DetachEvents(q, now, reason, env.detachError))
      else
        Outcome(UnloadFinish(q), true, NoError, DetachEvents(q, now, reason, env.detachError) + FinishEvents(q))
  }

  function ReloadOutcome(p: Record, now: LoadTime, reason: Reason, env: Env): (o: Outcome)
    requires InfoKnown(p)
    ensures InfoKnown(o.plugin) && KeepsSlot(p, o.plugin)
  {
    var q := Described(p);
    if !HasNames(p) then Outcome(p, false, Argument, [])
    else if q.info.Some? && q.info.value.loadable.Before(now) then
      if Startup.Before(q.info.value.loadable) then Outcome(q, false, Delayed, [])
      else Outcome(q.(action := NoAction), false, NotAllowed, [])
    else UnloadAndLoad(q, now, if q.status.Rank() < Running.Rank() then Reloading else reason, env)
  }

  function UnloadAndLoad(p: Record, now: LoadTime, reason: Reason, env: Env): (o: Outcome)
    requires InfoKnown(p)
    ensures InfoKnown(o.plugin) && KeepsSlot(p, o.plugin)
  {
    var u := UnloadOutcome(p, now, reason, env);
    if !u.ok then u
    else var l := LoadOutcome(u.plugin, now, env); l.(events := u.events + l.events)
  }

  function RetryOutcome(p: Record, now: LoadTime, reason: Reason, env: Env): (o: Outcome)
    requires InfoKnown(p)
    ensures InfoKnown(o.plugin) && KeepsSlot(p, o.plugin)
  {
    if p.action == ToLoad || p.action == ToAttach then LoadOutcome(p, now, env)
    else if p.action == ToUnload then UnloadOutcome(p, now, reason, env)
    else if p.action == ToReload then ReloadOutcome(p, now, reason, env)
    else Outcome(p, false, BadReq, [])
  }

  /** plugin_unload(), when no other request arrives while the plugin is detached; `unloader` is who asks. */
  function RequestOutcome(p: Record, unloader: nat, now: LoadTime, reason: Reason, env: Env): (o: Outcome)
    ensures InfoKnown(p) ==> InfoKnown(o.plugin)
    ensures KeepsSlot(p, o.plugin)
  {
    if p.index == unloader then Outcome(p, false, UnloadSelf, [])
    else if p.isUnloader then Outcome(p, false, UnloadUnloader, [])
    else
      var o := UnloadOutcome(p.(unloaderIndex := unloader, action := ToUnload), now, reason, env);
      if !o.ok && o.errno == Delayed then o.(plugin := o.plugin.(action := p.action), errno := NotAllowed) else o
  }

  function PauseOutcome(p: Record): (o: Outcome)
    requires InfoKnown(p)
    ensures KeepsSlot(p, o.plugin)
  {
    if p.status == Paused then Outcome(p, false, Already, [])
    else if p.status != Running then Outcome(p, false, BadReq, [])
    else if p.info.value.unloadable.Before(AnyPause) then Outcome(p.(action := NoAction), false, NotAllowed, [])
    else Outcome(p.(status := Paused), true, NoError, [])
  }

  function UnpauseOutcome(p: Record): (o: Outcome)
    ensures KeepsSlot(p, o.plugin)
  {
    if p.status != Paused then Outcome(p, false, BadReq, [])
    else Outcome(p.(status := Running), true, NoError, [])
  }

  lemma Assoc<T>(a: seq<T>, b: seq<T>, c: seq<T>)
    ensures a + b + c == a + (b + c)
  {
  }

  // ----- the class -----

  class MPlugin {
    var index: nat
    var filename: string
    var file: string
    var desc: string
    var pathname: string
    var pfspecific: int
    var status: Status
    var action: Action
    var source: Source
    var handle: Option<Handle>
    var info: Option<Info>
    var timeLoaded: nat
    var unloaderIndex: nat
    var isUnloader: bool
    ghost var trace: seq<Event>

    constructor (index: nat)
      ensures Fields() == EmptySlot(index) && trace == []
    {
      this.index := index;
      filename, file, desc, pathname := "", "", "", "";
      pfspecific, status, action, source := 0, Empty, NullAction, FromIni;
      handle, info, timeLoaded := None, None, 0;
      unloaderIndex, isUnloader := 0, false;
      trace := [];
    }

    function Fields(): Record
      reads this
    {
      Record(index, filename, file, desc, pathname, pfspecific, status, action, source,
             handle, info, timeLoaded, unloaderIndex, isUnloader)
    }

    /** The object after an operation is what the outcome says. */
    twostate predicate Became(o: Outcome)
      reads this
    {
      Fields() == o.plugin && trace == old(trace) + o.events
    }

    /** The copy that add() makes. */
    method Fill(filename: string, file: string, desc: string, pathname: string, source: Source)
      modifies this
      ensures Fields() == old(Fields()).(filename := filename, file := file, desc := desc, pathname := pathname,
                                         source := source, status := Valid)
      ensures trace == old(trace)
    {
      this.filename, this.file, this.desc := filename, file, desc;
      this.pathname, this.source, status := pathname, source, Valid;
    }

    /** memset() to zero, keeping the index. */
    method Zero()
      modifies this
      ensures Fields() == EmptySlot(old(index))
      ensures trace == old(trace)
    {
      ResetFields();
      filename, file, desc, pathname := "", "", "", "";
      pfspecific, source := 0, FromIni;
    }

    method CheckInput() returns (ok: bool)
      modifies this
      ensures ok == HasNames(old(Fields()))
      ensures Fields() == if ok then Described(old(Fields())) else old(Fields())
      ensures trace == old(trace)
    {
      if status == Empty || file == "" || filename == "" || pathname == "" {
        return false;
      }
      if desc == "" {
        desc := "<" + file + ">";
      }
      return true;
    }

    method Load(now: LoadTime, env: Env) returns (ok: bool, errno: Errno)
      requires InfoKnown(Fields())
      modifies this
      ensures var o := LoadOutcome(old(Fields()), now, env); Became(o) && ok == o.ok && errno == o.errno
    {
      hide QueryResult, AttachOutcome;
      var valid := CheckInput();
      if !valid {
        return false, Argument;
      }
      if status.Rank() >= Running.Rank() {
        return false, Already;
      }
      if action != ToLoad && action != ToAttach {
        return false, BadReq;
      }
      if status.Rank() < Opened.Rank() {
        ok, errno := OpenAndQuery(env);
        if !ok {
          return;
        }
      }
      ok, errno := AttachInTime(now, env);
    }

    /** The part of load() for a plugin whose file is not open. */
    method OpenAndQuery(env: Env) returns (ok: bool, errno: Errno)
      modifies this
      ensures var o := QueryResult(old(Fields()), env); Became(o) && ok == o.ok && errno == o.errno
    {
      ok, errno := Query(env);
      if !ok {
        if errno != DlOpen {
          trace := trace + [Close(handle.value)];
          handle := None;
        }
        status := BadFile;
        info := None;
        return;
      }
      status := Opened;
    }

    /** The rest of load(): attach, if this is a time at which the plugin may be attached. */
    method AttachInTime(now: LoadTime, env: Env) returns (ok: bool, errno: Errno)
      requires info.Some?
      modifies this
      ensures var o := AttachOutcome(old(Fields()), now, env); Became(o) && ok == o.ok && errno == o.errno
    {
      if info.value.loadable.Before(now) {
        if Startup.Before(info.value.loadable) {
          return false, Delayed;
        }
        action := NoAction;
        return false, NotAllowed;
      }
      ok, errno := AttachTo(now, env);
      if !ok {
        status := Failed;
        return;
      }
      status := Running;
      action := NoAction;
      if now != Startup && env.gameInit {
        trace := trace + [GameInit];
      }
    }

    method Query(env: Env) returns (ok: bool, errno: Errno)
      modifies this
      ensures ok == env.query.Accepted?
      ensures match env.query
              case OpenFails =>
                errno == DlOpen && Fields() == old(Fields()).(handle := None) && trace == old(trace)
              case Refused(h, e, i) =>
                errno == e && Fields() == old(Fields()).(handle := Some(h), info := i)
                    && trace == old(trace) + [Open(h)]
              case Accepted(h, i) =>
                && errno == NoError && trace == old(trace) + [Open(h)]
                && Fields() == old(Fields()).(handle := Some(h), info := Some(i), desc := QueriedDesc(old(desc), i))
    {
      match env.query {
        case OpenFails =>
          handle := None;
          return false, DlOpen;
        case Refused(h, e, i) =>
          handle := Some(h);
          info := i;
          trace := trace + [Open(h)];
          return false, e;
        case Accepted(h, i) =>
          handle := Some(h);
          trace := trace + [Open(h)];
          info := Some(i);
          if desc != "" && desc[0] == '<' {
            desc := i.name;
          }
          return true, NoError;
      }
    }

    method AttachTo(now: LoadTime, env: Env) returns (ok: bool, errno: Errno)
      requires info.Some?
      modifies this
      ensures ok == env.attachError.None? && errno == env.attachError.GetOr(NoError)
      ensures Fields() == if ok then old(Fields()).(timeLoaded := env.clock) else old(Fields())
      ensures trace == old(trace) + [Attach(now, info.value.loadable, ok)]
    {
      trace := trace + [Attach(now, info.value.loadable, env.attachError.None?)];
      match env.attachError {
        case Some(e) => return false, e;
        case None =>
          timeLoaded := env.clock;
          return true, NoError;
      }
    }

    method Unload(now: LoadTime, reason: Reason, env: Env) returns (ok: bool, errno: Errno)
      modifies this
      ensures var o := UnloadOutcome(old(Fields()), now, reason, env); Became(o) && ok == o.ok && errno == o.errno
    {
      ok, errno := MayUnload(now, reason);
      if !ok {
        return;
      }
      ok, errno := DetachFrom(now, reason, env.detachError);
      if !ok && reason != Reloading && reason != CmdForced {
        return;
      }
      FinishUnload();
      return true, NoError;
    }

    /** unload() up to the call of detach(). */
    method MayUnload(now: LoadTime, reason: Reason) returns (ok: bool, errno: Errno)
      modifies this
      ensures trace == old(trace)
      ensures match UnloadDecision(old(Fields()), now, reason)
              case Refuse(q, e) => !ok && errno == e && Fields() == q
              case Proceed(q) => ok && Fields() == q
    {
      ok := CheckInput();
      if !ok {
        return false, Argument;
      }
      if status.Rank() < Running.Rank() {
        if reason != CmdForced && reason != Reloading {
          return false, Already;
        }
      }
      if action != ToUnload && action != ToReload {
        return false, BadReq;
      }
      if info.Some? && info.value.unloadable.Before(now) {
        if reason != CmdForced {
          if Startup.Before(info.value.unloadable) {
            return false, Delayed;
          }
          action := NoAction;
          return false, NotAllowed;
        }
      }
      return true, NoError;
    }

    /** unload() after detach(). */
    method FinishUnload()
      modifies this
      ensures Fields() == UnloadFinish(old(Fields()))
      ensures trace == old(trace) + FinishEvents(old(Fields()))
    {
      trace := trace + [Disabled(index)];
      CloseHandle();
      Settle();
    }

    method Settle()
      requires handle.None?
      modifies this
      ensures Fields() == UnloadFinish(old(Fields()))
      ensures trace == old(trace)
    {
      if action == ToUnload {
        status := Empty;
        var _, _ := Clear();
      } else if action == ToReload {
        status := Valid;
        action := ToLoad;
        var _, _ := Clear();  // refuses a Valid plugin
      }
    }

    method DetachFrom(now: LoadTime, reason: Reason, error: Option<Errno>) returns (ok: bool, errno: Errno)
      modifies this`trace
      ensures ok == (handle.None? || error.None?)
      ensures !ok ==> errno == error.value
      ensures trace == old(trace) + DetachEvents(Fields(), now, reason, error)
    {
      if handle.None? {
        return true, NoError;
      }
      trace := trace + DetachEvents(Fields(), now, reason, error);
      match error {
        case Some(e) => return false, e;
        case None => return true, NoError;
      }
    }

    /** DLCLOSE, which is assumed to succeed on an open handle. */
    method CloseHandle()
      modifies this
      ensures Fields() == old(Fields()).(handle := None)
      ensures trace == old(trace) + CloseEvents(old(handle))
    {
      trace := trace + CloseEvents(handle);
      handle := None;
    }

    method Clear() returns (ok: bool, errno: Errno)
      modifies this
      ensures var o := ClearOutcome(old(Fields())); Became(o) && ok == o.ok && errno == o.errno
    {
      if status != Failed && status != BadFile && status != Empty && status != Opened {
        return false, BadReq;
      }
      CloseHandle();
      ResetFields();
      return true, NoError;
    }

    method ResetFields()
      modifies this
      ensures Fields() == Cleared(old(Fields()))
      ensures trace == old(trace)
    {
      status, action := Empty, NullAction;
      handle, info, timeLoaded := None, None, 0;
      unloaderIndex, isUnloader := 0, false;
    }

    method Reload(now: LoadTime, reason: Reason, env: Env) returns (ok: bool, errno: Errno)
      requires InfoKnown(Fields())
      modifies this
      ensures var o := ReloadOutcome(old(Fields()), now, reason, env); Became(o) && ok == o.ok && errno == o.errno
    {
      var valid := CheckInput();
      if !valid {
        return false, Argument;
      }
      if info.Some? && info.value.loadable.Before(now) {
        if Startup.Before(info.value.loadable) {
          return false, Delayed;
        }
        action := NoAction;
        return false, NotAllowed;
      }
      ok, errno := UnloadThenLoad(now, if status.Rank() < Running.Rank() then Reloading else reason, env);
    }

    /** The rest of reload(). */
    method UnloadThenLoad(now: LoadTime, reason: Reason, env: Env) returns (ok: bool, errno: Errno)
      requires InfoKnown(Fields())
      modifies this
      ensures var o := UnloadAndLoad(old(Fields()), now, reason, env); Became(o) && ok == o.ok && errno == o.errno
    {
      ok, errno := Unload(now, reason, env);
      if !ok {
        return;
      }
      ghost var unloaded := Fields();
      ok, errno := Load(now, env);
      Assoc(old(trace), UnloadOutcome(old(Fields()), now, reason, env).events, LoadOutcome(unloaded, now, env).events);
    }

    method Pause() returns (ok: bool, errno: Errno)
      requires InfoKnown(Fields())
      modifies this
      ensures var o := PauseOutcome(old(Fields())); Became(o) && ok == o.ok && errno == o.errno
    {
      if status == Paused {
        return false, Already;
      }
      if status != Running {
        return false, BadReq;
      }
      if info.value.unloadable.Before(AnyPause) {
        action := NoAction;
        return false, NotAllowed;
      }
      status := Paused;
      return true, NoError;
    }

    method Unpause() returns (ok: bool, errno: Errno)
      modifies this
      ensures var o := UnpauseOutcome(old(Fields())); Became(o) && ok == o.ok && errno == o.errno
    {
      if status != Paused {
        return false, BadReq;
      }
      status := Running;
      return true, NoError;
    }

    method Retry(now: LoadTime, reason: Reason, env: Env) returns (ok: bool, errno: Errno)
      requires InfoKnown(Fields())
      modifies this
      ensures var o := RetryOutcome(old(Fields()), now, reason, env); Became(o) && ok == o.ok && errno == o.errno
    {
      if action == ToLoad || action == ToAttach {
        ok, errno := Load(now, env);
      } else if action == ToUnload {
        ok, errno := Unload(now, reason, env);
      } else if action == ToReload {
        ok, errno := Reload(now, reason, env);
      } else {
        return false, BadReq;
      }
    }
  }

  function EmptySlot(index: nat): Record {
    Record(index, "", "", "", "", 0, Empty, NullAction, FromIni, None, None, 0, 0, false)
  }
}
