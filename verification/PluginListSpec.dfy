/**
 Metamod's plugin list (dep/metamod/mlist.cpp) as a value: 50 slots, of which those below `endlist`
 are in use, with holes.  Looking plugins up, adding them, and reading plugins.ini at startup and
 again on a refresh.
 */
module PluginListSpec {
  import opened Common
  import opened Strings
  import opened Plugin

  const MAX_PLUGINS: nat := 50

  datatype Plist = Plist(slots: seq<Record>, endlist: nat)

  /** What the lookups below rely on. */
  predicate Bounded(l: Plist) {
    && |l.slots| == MAX_PLUGINS
    && l.endlist <= MAX_PLUGINS
    && forall i :: 0 <= i < MAX_PLUGINS ==> InfoKnown(l.slots[i])
  }

  // ----- lookups -----

  /** The first used slot below n that satisfies a test. */
  function FirstSlot(l: Plist, n: nat, test: Record -> bool): (r: Option<nat>)
    requires n <= |l.slots|
    ensures r.Some? ==> r.value < n && l.slots[r.value].status != Empty && test(l.slots[r.value])
    ensures forall i :: 0 <= i < n && l.slots[i].status != Empty && test(l.slots[i]) ==> r.Some? && r.value <= i
  {
    if n == 0 then None
    else
      var r := FirstSlot(l, n - 1, test);
      if r.None? && l.slots[n-1].status != Empty && test(l.slots[n-1]) then Some(n - 1) else r
  }

  function FindByPath(l: Plist, path: string): (r: Option<nat>)
    requires Bounded(l)
    ensures r.Some? ==> r.value < l.endlist && l.slots[r.value].status != Empty && l.slots[r.value].pathname == path
    ensures forall i :: 0 <= i < l.endlist && l.slots[i].status != Empty && l.slots[i].pathname == path ==>
              r.Some? && r.value <= i
  {
    FirstSlot(l, l.endlist, (p: Record) => p.pathname == path)
  }

  function FindByInfo(l: Plist, id: nat): (r: Option<nat>)
    requires Bounded(l)
    ensures r.Some? ==> r.value < l.endlist && l.slots[r.value].status != Empty && HasId(l.slots[r.value], id)
    ensures forall i :: 0 <= i < l.endlist && l.slots[i].status != Empty && HasId(l.slots[i], id) ==>
              r.Some? && r.value <= i
  {
    FirstSlot(l, l.endlist, (p: Record) => HasId(p, id))
  }

  predicate HasId(p: Record, id: nat) {
    p.info.Some? && p.info.value.id == id
  }

  function FindByHandle(l: Plist, handle: Handle): (r: Option<nat>)
    requires Bounded(l)
    ensures r.Some? ==>
              r.value < l.endlist && l.slots[r.value].status != Empty && l.slots[r.value].handle == Some(handle)
    ensures forall i :: 0 <= i < l.endlist && l.slots[i].status != Empty && l.slots[i].handle == Some(handle) ==>
              r.Some? && r.value <= i
  {
    FirstSlot(l, l.endlist, (p: Record) => p.handle == Some(handle))
  }

  /** The part of a file name that does not depend on the platform. */
  function StemLength(file: string): Option<nat> {
    var u := LastIndexOf(file, '_');
    if u.Some? && IsPlatformPostfix(file[u.value..]) then u else LastIndexOf(file, '.')
  }

  predicate IsPlatformPostfix(s: string) {
    "_i386." <= s || "_i486." <= s || "_i586." <= s || "_i686." <= s || "_amd64." <= s
  }

  predicate SameStem(a: string, b: string) {
    && StemLength(a).Some?
    && StemLength(b) == StemLength(a)
    && StemLength(a).value <= |a| && StemLength(a).value <= |b|
    && a[..StemLength(a).value] == b[..StemLength(a).value]
  }

  /** platform_match(): the same plugin, perhaps built for another platform. */
  predicate PlatformMatch(p: Record, other: Record)
    requires InfoKnown(p) && InfoKnown(other)
  {
    && p.status != Empty && other.status != Empty
    && (|| p.file == other.file
        || (p.status.Rank() >= Opened.Rank() && other.status.Rank() >= Opened.Rank()
            && p.info.value.logtag == other.info.value.logtag)
        || (p.desc != "" && SameName(p.desc, other.desc))
        || SameStem(p.file, other.file))
  }

  function FindMatch(l: Plist, p: Record): (r: Option<nat>)
    requires Bounded(l) && InfoKnown(p)
    ensures r.Some? ==> r.value < l.endlist && PlatformMatch(p, l.slots[r.value])
    ensures forall i :: 0 <= i < l.endlist && PlatformMatch(p, l.slots[i]) ==> r.Some? && r.value <= i
  {
    FirstSlot(l, l.endlist, (other: Record) => InfoKnown(other) && PlatformMatch(p, other))
  }

  // ----- adding -----

  /** The least empty slot below endlist, or endlist. */
  function FreeSlot(l: Plist, n: nat): (r: nat)
    requires n <= l.endlist <= |l.slots|
    ensures n <= r <= l.endlist
    ensures forall i :: n <= i < r ==> l.slots[i].status != Empty
    ensures r < l.endlist ==> l.slots[r].status == Empty
    decreases l.endlist - n
  {
    if n == l.endlist || l.slots[n].status == Empty then n else FreeSlot(l, n + 1)
  }

  /** What a line of plugins.ini, a console command or a plugin's request gives. */
  datatype Entry = Entry(filename: string, file: string, desc: string, pathname: string,
                         pfspecific: int, source: Source)

  function Filled(slot: Record, e: Entry): Record {
    slot.(filename := e.filename, file := e.file, desc := e.desc, pathname := e.pathname,
          source := e.source, status := Valid)
  }

  /** A zeroed MPlugin into which an entry has been parsed. */
  function Parsed(e: Entry): Record {
    Filled(EmptySlot(0), e).(pfspecific := e.pfspecific)
  }

  /** add(): None when all slots are in use. */
  function Add(l: Plist, e: Entry): (r: Option<(Plist, nat)>)
    requires Bounded(l)
    ensures r.Some? ==> Bounded(r.value.0) && r.value.1 < r.value.0.endlist
  {
    var i := FreeSlot(l, 0);
    if i == MAX_PLUGINS then None
    else Some((Plist(l.slots[i := Filled(l.slots[i], e)], if i == l.endlist then i + 1 else l.endlist), i))
  }

  function SetAction(l: Plist, i: nat, a: Action): (r: Plist)
    requires i < |l.slots|
    ensures Bounded(l) ==> Bounded(r)
  {
    l.(slots := l.slots[i := l.slots[i].(action := a)])
  }

  function Wipe(l: Plist, i: nat): (r: Plist)
    requires i < |l.slots|
    ensures Bounded(l) ==> Bounded(r)
  {
    l.(slots := l.slots[i := EmptySlot(l.slots[i].index)])
  }

  // ----- plugins.ini -----

  /** A line of plugins.ini that holds no entry for this platform, or the entry it holds. */
  datatype Line = NoEntry | Line(entry: Entry)

  /** One line at startup: entries are parsed straight into the slot at endlist. */
  function StartupLine(l: Plist, line: Line): (r: Plist)
    requires Bounded(l)
    ensures Bounded(r)
  {
    if line.NoEntry? || l.endlist == MAX_PLUGINS then l
    else
      var n := l.endlist;
      var p := Filled(l.slots[n], line.entry).(pfspecific := line.entry.pfspecific, source := FromIni);
      var l1 := l.(slots := l.slots[n := p]);
      if FindByPath(l1, p.pathname).Some? then l1
      else
        var m := FindMatch(l1, p);
        if m.Some? && l1.slots[m.value].pfspecific >= p.pfspecific then l1
        else SetAction(if m.Some? then Wipe(l1, m.value) else l1, n, ToLoad).(endlist := n + 1)
  }

  /** The files on disk, with the later of their change and modification times. */
  type Disk = map<string, nat>

  /** One line on a refresh, with the count of the lines taken so far. */
  function RefreshLine(l: Plist, n: nat, line: Line, disk: Disk): (r: (Plist, nat))
    requires Bounded(l)
    ensures Bounded(r.0)
  {
    if line.NoEntry? || n >= MAX_PLUGINS then (l, n)
    else
      match FindByPath(l, line.entry.pathname)
      case None => RefreshNew(l, n, line.entry)
      case Some(k) => RefreshKnown(l, n, k, line.entry, disk)
  }

  /** No plugin has this path: add it, unless a better one for this platform is there. */
  function RefreshNew(l: Plist, n: nat, e: Entry): (r: (Plist, nat))
    requires Bounded(l)
    ensures Bounded(r.0)
  {
    var m := FindMatch(l, Parsed(e).(source := FromIni));
    if m.Some? && (l.slots[m.value].pfspecific >= e.pfspecific || l.slots[m.value].action != ToLoad) then (l, n)
    else
      var l1 := if m.Some? then Wipe(l, m.value) else l;
      match Add(l1, e.(source := FromIni))
      case None => (l1, n)
      case Some((l2, k)) => (SetAction(l2, k, ToLoad), n + 1)
  }

  function Redescribed(p: Record, desc: string): Record {
    if desc != "" && desc[0] == '<' then p else p.(desc := desc)
  }

  /** A plugin with this path is listed: keep it, or mark it for a reload when its file is newer. */
  function RefreshKnown(l: Plist, n: nat, k: nat, e: Entry, disk: Disk): (r: (Plist, nat))
    requires k < |l.slots|
    ensures Bounded(l) ==> Bounded(r.0)
  {
    (l.(slots := l.slots[k := Marked(Redescribed(l.slots[k], e.desc), disk)]),
     if l.slots[k].pathname in disk then n + 1 else n)
  }

  function Marked(p: Record, disk: Disk): Record {
    if p.pathname !in disk then p
    else if disk[p.pathname] <= p.timeLoaded then p.(action := Keep)
    else if p.status.Rank() >= Opened.Rank() then p.(action := ToReload)
    else p
  }

  function StartupLines(l: Plist, lines: seq<Line>, k: nat): (r: Plist)
    requires Bounded(l) && k <= |lines|
    ensures Bounded(r)
  {
    if k == 0 then l
    else StartupLine(StartupLines(l, lines, k - 1), lines[k-1])
  }

  /** The mark phase of a refresh, after the first k lines. */
  function MarkLines(l: Plist, lines: seq<Line>, k: nat, disk: Disk): (r: (Plist, nat))
    requires Bounded(l) && k <= |lines|
    ensures Bounded(r.0)
  {
    if k == 0 then (l, 0)
    else
      var (m, n) := MarkLines(l, lines, k - 1, disk);
      RefreshLine(m, n, lines[k-1], disk)
  }

  // ----- the sweep of a refresh -----

  /** What a refresh does to one slot, by the action it is marked with. */
  function SweepSlot(p: Record, now: LoadTime, env: Env): (o: Outcome)
    requires InfoKnown(p)
    ensures InfoKnown(o.plugin)
  {
    if p.status == Empty then Outcome(p, true, NoError, [])
    else
      match p.action
      case Keep => Outcome(p.(action := NoAction), true, NoError, [])
      case ToLoad => LoadOutcome(p, now, env)
      case ToReload => ReloadOutcome(p, now, FileNewer, env)
      case NoAction =>
        if p.source == FromIni && p.status.Rank() >= Running.Rank()
        then UnloadOutcome(p.(action := ToUnload), now, IniDeleted, env)
        else Outcome(p, true, NoError, [])
      case ToAttach => RetryOutcome(p, now, Delay, env)
      case ToUnload => RetryOutcome(p, now, Delay, env)
      case NullAction => Outcome(p, true, NoError, [])
  }

  /** r are the slots of which the first k have been swept; the environment may answer each slot differently. */
  predicate SweptTo(slots: seq<Record>, k: nat, now: LoadTime, envs: seq<Env>, r: seq<Record>)
    requires k <= |slots| <= |envs|
    requires forall i :: 0 <= i < |slots| ==> InfoKnown(slots[i])
  {
    && |r| == |slots|
    && forall i :: 0 <= i < |slots| ==> r[i] == if i < k then SweepSlot(slots[i], now, envs[i]).plugin else slots[i]
  }

  lemma OneMoreSwept(slots: seq<Record>, k: nat, now: LoadTime, envs: seq<Env>, s: seq<Record>)
    requires k < |slots| <= |envs| && forall i :: 0 <= i < |slots| ==> InfoKnown(slots[i])
    requires SweptTo(slots, k, now, envs, s)
    ensures InfoKnown(s[k]) && SweptTo(slots, k + 1, now, envs, s[k := SweepSlot(s[k], now, envs[k]).plugin])
  {
    hide SweepSlot, InfoKnown;
  }

  lemma NothingSwept(slots: seq<Record>, now: LoadTime, envs: seq<Env>)
    requires |slots| <= |envs| && forall i :: 0 <= i < |slots| ==> InfoKnown(slots[i])
    ensures SweptTo(slots, 0, now, envs, slots)
  {
    hide SweepSlot, InfoKnown;
  }

  function Swept(slots: seq<Record>, k: nat, now: LoadTime, envs: seq<Env>): (r: seq<Record>)
    requires k <= |slots| <= |envs|
    requires forall i :: 0 <= i < |slots| ==> InfoKnown(slots[i])
    ensures SweptTo(slots, k, now, envs, r)
  {
    hide SweepSlot, SweptTo, InfoKnown;
    if k == 0 then NothingSwept(slots, now, envs); slots
    else
      var s := Swept(slots, k - 1, now, envs);
      OneMoreSwept(slots, k - 1, now, envs, s);
      s[k-1 := SweepSlot(s[k-1], now, envs[k-1]).plugin]
  }

  function Refresh(l: Plist, lines: seq<Line>, disk: Disk, now: LoadTime, envs: seq<Env>): (r: Plist)
    requires Bounded(l) && |envs| == MAX_PLUGINS
    ensures Bounded(r)
  {
    var m := MarkLines(l, lines, |lines|, disk).0;
    m.(slots := Swept(m.slots, m.endlist, now, envs))
  }

  // ----- loading one more plugin -----

  /** cmd_addload() and plugin_addload(), once the given name has been resolved to a file. */
  function AddLoad(l: Plist, e: Entry, now: LoadTime, env: Env): (r: (Plist, bool, Errno))
    requires Bounded(l)
    ensures Bounded(r.0)
  {
    if FindByPath(l, e.pathname).Some? then (l, false, Already)
    else
      match Add(l, e)
      case None => (l, false, MaxReached)
      case Some((l1, k)) =>
        var o := LoadAdded(l1.slots[k], e.source, now, env);
        (l1.(slots := l1.slots[k := o.plugin]), o.ok, o.errno)
  }

  /** A plugin that may not be attached now is dropped again; one added from the console may wait. */
  function LoadAdded(p: Record, source: Source, now: LoadTime, env: Env): (r: Outcome)
    requires InfoKnown(p)
    ensures InfoKnown(r.plugin)
  {
    var o := LoadOutcome(p.(action := ToLoad), now, env);
    if !o.ok && (o.errno == NotAllowed || (o.errno == Delayed && source == FromPlugin)) then
      var c := ClearOutcome(o.plugin);
      o.(plugin := c.plugin, events := o.events + c.events)
    else o
  }
}
