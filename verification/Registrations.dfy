/**
 What a history of registrations of command and cvar names means (dep/metamod/mreg.cpp, reg_support.cpp).  The
 engine keeps a name for ever, so it is told each name once; which plugin serves the name may change.
 */
module Registrations {
  import opened Common
  import opened Strings

  type Function = nat

  datatype Event =
    | Registered(name: string, fn: Option<Function>, owner: nat)
    | Unloaded(owner: nat)
    | Failed(name: string)  // its function was called when it was no longer there

  /** Owner 0 is an unknown plugin. */
  datatype Handler = Handler(fn: Option<Function>, owner: nat)

  /** Who serves a name after a history. */
  function Serving(h: seq<Event>, name: string): Option<Handler> {
    if h == [] then None
    else
      var before := Serving(h[..|h|-1], name);
      match h[|h|-1]
      case Registered(n, f, p) => if SameName(n, name) then Some(Handler(f, p)) else before
      case Unloaded(p) => if before.Some? && before.value.owner == p then None else before
      case Failed(n) => if SameName(n, name) then None else before
  }

  predicate Ends(e: Event, name: string, owner: nat) {
    match e
    case Registered(n, _, _) => SameName(n, name)
    case Unloaded(p) => p == owner
    case Failed(n) => SameName(n, name)
  }

  predicate Starts(e: Event, name: string, h: Handler) {
    e.Registered? && SameName(e.name, name) && e.fn == h.fn && e.owner == h.owner
  }

  /** A registration serves until the name is registered again or fails, or its plugin is unloaded. */
  ghost predicate StillServes(h: seq<Event>, name: string, s: Handler) {
    exists k :: 0 <= k < |h| && Starts(h[k], name, s) && forall j :: k < j < |h| ==> !Ends(h[j], name, s.owner)
  }

  lemma {:induction false} ServingMeaning(h: seq<Event>, name: string, s: Handler)
    ensures Serving(h, name) == Some(s) <==> StillServes(h, name, s)
  {
    if h == [] {
    } else {
      var front, last := h[..|h|-1], h[|h|-1];
      ServingMeaning(front, name, s);
      if StillServes(front, name, s) && !Ends(last, name, s.owner) {
        var k :| 0 <= k < |front| && Starts(front[k], name, s)
                 && forall j :: k < j < |front| ==> !Ends(front[j], name, s.owner);
        assert Starts(h[k], name, s) && forall j :: k < j < |h| ==> !Ends(h[j], name, s.owner);
      }
      if StillServes(h, name, s) && !Starts(last, name, s) {
        var k :| 0 <= k < |h| && Starts(h[k], name, s) && forall j :: k < j < |h| ==> !Ends(h[j], name, s.owner);
        assert Starts(front[k], name, s) && forall j :: k < j < |front| ==> !Ends(front[j], name, s.owner);
      }
      if Starts(last, name, s) {
        assert Starts(h[|h|-1], name, s);
      }
    }
  }

  /** After the unload of a plugin it serves no name; every other plugin serves what it did. */
  lemma UnloadedServesNothing(h: seq<Event>, owner: nat, name: string)
    ensures var after := Serving(h + [Unloaded(owner)], name);
            && (after.Some? ==> after.value.owner != owner)
            && (Serving(h, name).Some? && Serving(h, name).value.owner != owner ==> after == Serving(h, name))
  {
    assert (h + [Unloaded(owner)])[..|h|] == h;
  }

  lemma {:induction false} CaseDoesNotMatter(h: seq<Event>, a: string, b: string)
    requires SameName(a, b)
    ensures Serving(h, a) == Serving(h, b)
  {
    if h == [] {
    } else {
      CaseDoesNotMatter(h[..|h|-1], a, b);
      assert forall n :: SameName(n, a) == SameName(n, b);
    }
  }

  /** A name up to case is in the list. */
  ghost predicate Known(names: seq<string>, name: string) {
    exists i :: 0 <= i < |names| && SameName(names[i], name)
  }

  ghost predicate Distinct(names: seq<string>) {
    forall i, j :: 0 <= i < j < |names| ==> !SameName(names[i], names[j])
  }

  /** The names that the engine is told in the course of a history. */
  ghost function Told(h: seq<Event>): seq<string> {
    if h == [] then []
    else
      var before, last := Told(h[..|h|-1]), h[|h|-1];
      if last.Registered? && !Known(before, last.name) then before + [last.name] else before
  }

  /** Each name is told once, whatever its case. */
  lemma {:induction false} EachNameIsToldOnce(h: seq<Event>)
    ensures Distinct(Told(h))
  {
    if h == [] {
    } else {
      EachNameIsToldOnce(h[..|h|-1]);
    }
  }

  /** The names told are the names registered. */
  lemma {:induction false} EveryNameIsTold(h: seq<Event>, name: string)
    ensures Known(Told(h), name) <==> exists k :: 0 <= k < |h| && h[k].Registered? && SameName(h[k].name, name)
  {
    if h == [] {
    } else {
      var front, last := h[..|h|-1], h[|h|-1];
      EveryNameIsTold(front, name);
      forall k | 0 <= k < |front| ensures front[k] == h[k] {
      }
      if last.Registered? && !Known(Told(front), last.name) {
        assert Told(h)[|Told(front)|] == last.name
               && forall i :: 0 <= i < |Told(front)| ==> Told(h)[i] == Told(front)[i];
      } else if last.Registered? && SameName(last.name, name) {
        var i :| 0 <= i < |Told(front)| && SameName(Told(front)[i], last.name);
        assert SameName(Told(h)[i], name);
      }
    }
  }

  lemma ServedIsTold(h: seq<Event>, name: string)
    ensures Serving(h, name).Some? ==> Known(Told(h), name)
  {
    if Serving(h, name).Some? {
      var s := Serving(h, name).value;
      ServingMeaning(h, name, s);
      var k :| 0 <= k < |h| && Starts(h[k], name, s) && forall j :: k < j < |h| ==> !Ends(h[j], name, s.owner);
      EveryNameIsTold(h, name);
    }
  }

  lemma ToldAfter(h: seq<Event>, name: string, fn: Option<Function>, owner: nat)
    ensures Told(h + [Registered(name, fn, owner)]) == if Known(Told(h), name) then Told(h) else Told(h) + [name]
  {
    assert (h + [Registered(name, fn, owner)])[..|h|] == h;
  }

  lemma NothingTold(h: seq<Event>, e: Event)
    requires !e.Registered?
    ensures Told(h + [e]) == Told(h)
  {
    assert (h + [e])[..|h|] == h;
  }

  /** A registration changes who serves its own name, and no other. */
  lemma ServingAfter(h: seq<Event>, name: string, fn: Option<Function>, owner: nat, i: nat)
    requires i < |Told(h)| && SameName(Told(h)[i], name)
    ensures var h' := h + [Registered(name, fn, owner)];
            && Told(h') == Told(h)
            && Serving(h', Told(h)[i]) == Some(Handler(fn, owner))
            && forall k :: 0 <= k < |Told(h)| && k != i ==> Serving(h', Told(h)[k]) == Serving(h, Told(h)[k])
  {
    assert (h + [Registered(name, fn, owner)])[..|h|] == h;
    EachNameIsToldOnce(h);
    forall k | 0 <= k < |Told(h)| && k != i ensures !SameName(name, Told(h)[k]) {
      assert SameName(name, Told(h)[k]) ==> SameName(Told(h)[i], Told(h)[k]) && SameName(Told(h)[k], Told(h)[i]);
    }
  }

  lemma ServingAfterNew(h: seq<Event>, name: string, fn: Option<Function>, owner: nat)
    requires !Known(Told(h), name)
    ensures var h' := h + [Registered(name, fn, owner)];
            && Told(h') == Told(h) + [name]
            && Serving(h', name) == Some(Handler(fn, owner))
            && forall k :: 0 <= k < |Told(h)| ==> Serving(h', Told(h)[k]) == Serving(h, Told(h)[k])
  {
    assert (h + [Registered(name, fn, owner)])[..|h|] == h;
    forall k | 0 <= k < |Told(h)| ensures !SameName(name, Told(h)[k]) {
      assert SameName(name, Told(h)[k]) ==> SameName(Told(h)[k], name);
    }
  }
}
