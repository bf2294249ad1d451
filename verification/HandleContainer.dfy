/**
 The container that hands out small integer handles and recycles them
 (src/utils/ContainerWithHandles.h).  Zero is never a handle.
 */
module HandleContainer {
  import opened Common

  // ----- what a history of additions and removals means -----

  datatype Op = Added(handle: nat) | Removed(handle: nat) | Cleared

  /** The handles in use after a history. */
  function Live(h: seq<Op>): set<nat> {
    if h == [] then {}
    else
      match h[|h|-1]
      case Added(x) => Live(h[..|h|-1]) + {x}
      case Removed(x) => Live(h[..|h|-1]) - {x}
      case Cleared => {}
  }

  /** The largest number of handles in use at one time since the last clear. */
  function Peak(h: seq<Op>): nat {
    if h == [] then 0
    else
      match h[|h|-1]
      case Added(_) => if |Live(h)| > Peak(h[..|h|-1]) then |Live(h)| else Peak(h[..|h|-1])
      case Removed(_) => Peak(h[..|h|-1])
      case Cleared => 0
  }

  /** The handles 1..n. */
  function Range(n: nat): (r: set<nat>)
    ensures |r| == n
    ensures forall i :: i in r <==> 1 <= i <= n
  {
    if n == 0 then {} else Range(n - 1) + {n}
  }

  /** With nothing to recycle the next handle follows the ones in use, so no probing is needed. */
  lemma NextFollowsLive(live: set<nat>, n: nat)
    requires live == Range(n)
    ensures |live| == n && n + 1 !in live
    ensures live + {n + 1} == Range(n + 1)
  {
  }

  lemma RecycledStaysBelowPeak(live: set<nat>, free: set<nat>, n: nat, x: nat)
    requires live + free == Range(n) && live !! free && x in free
    ensures |live + {x}| <= n
    ensures live + {x} + (free - {x}) == Range(n)
  {
    assert |live + free| == |live| + |free|;
  }

  lemma AfterAdded(h: seq<Op>, x: nat)
    ensures Live(h + [Added(x)]) == Live(h) + {x}
    ensures Peak(h + [Added(x)]) == if |Live(h) + {x}| > Peak(h) then |Live(h) + {x}| else Peak(h)
  {
    assert (h + [Added(x)])[..|h|] == h;
  }

  /** Adding a free handle, or the next one when none is free, keeps the handles gapless. */
  lemma AddedHandle(h: seq<Op>, free: set<nat>, x: nat)
    requires Live(h) + free == Range(Peak(h)) && Live(h) !! free
    requires if free != {} then x in free else x == |Live(h)| + 1
    ensures var h' := h + [Added(x)];
            && Live(h') == Live(h) + {x}
            && Live(h') + (free - {x}) == Range(Peak(h'))
  {
    hide Live, Peak, Range;
    AfterAdded(h, x);
    if free == {} {
      assert Live(h) + free == Live(h);
      NextFollowsLive(Live(h), Peak(h));
    } else {
      RecycledStaysBelowPeak(Live(h), free, Peak(h), x);
    }
  }

  lemma AfterRemoved(h: seq<Op>, x: nat)
    ensures Live(h + [Removed(x)]) == Live(h) - {x} && Peak(h + [Removed(x)]) == Peak(h)
  {
    assert (h + [Removed(x)])[..|h|] == h;
  }

  // ----- the container -----

  class ContainerWithHandles<V> {
    var values: map<nat, V>
    var freeHandles: set<nat>
    ghost var history: seq<Op>

    /** Live and free handles are disjoint, and together exactly 1..peak. */
    ghost predicate Valid()
      reads this
    {
      && values.Keys == Live(history)
      && values.Keys !! freeHandles
      && values.Keys + freeHandles == Range(Peak(history))
    }

    constructor ()
      ensures Valid() && values == map[] && freeHandles == {} && history == []
    {
      values := map[];
      freeHandles := {};
      history := [];
    }

    /** A free handle, any of them; else the first one from size() + 1 on that is not in use. */
    method GetFreeHandle() returns (handle: nat)
      modifies this`freeHandles
      ensures if old(freeHandles) != {}
              then handle in old(freeHandles) && freeHandles == old(freeHandles) - {handle}
              else
                && freeHandles == {} && handle > |values| && handle !in values
                && forall k :: |values| < k < handle ==> k in values
    {
      handle := |values| + 1;
      if freeHandles != {} {
        handle :| handle in freeHandles;
        freeHandles := freeHandles - {handle};
      } else {
        ghost var above := set k | k in values && k >= handle;
        while handle in values
          invariant handle > |values|
          invariant forall k :: |values| < k < handle ==> k in values
          invariant above == set k | k in values && k >= handle
          decreases above
        {
          above := above - {handle};
          handle := handle + 1;
        }
      }
    }

    /** The handle is not one in use, and when none is free it is exactly the next one. */
    method Add(value: V) returns (handle: nat)
      requires Valid()
      modifies this
      ensures Valid()
      ensures handle !in old(values) && handle > 0
      ensures old(freeHandles) != {} ==> handle in old(freeHandles)
      ensures old(freeHandles) == {} ==> handle == |old(values)| + 1
      ensures values == old(values)[handle := value]
      ensures history == old(history) + [Added(handle)]
    {
      hide Range, Live, Peak;
      if freeHandles == {} {
        assert values.Keys + freeHandles == values.Keys;
        NextFollowsLive(values.Keys, Peak(history));
      }
      handle := GetFreeHandle();
      AddedHandle(history, old(freeHandles), handle);
      values := values[handle := value];
      history := history + [Added(handle)];
    }

    method Remove(handle: nat) returns (removed: bool)
      requires Valid()
      modifies this
      ensures Valid()
      ensures removed == (handle in old(values))
      ensures values == old(values) - {handle}
      ensures history == if removed then old(history) + [Removed(handle)] else old(history)
    {
      if handle !in values {
        return false;
      }
      RemoveAt(handle);
      return true;
    }

    /** Remove(iterator): the iterator stands on an element. */
    method RemoveAt(handle: nat)
      requires Valid() && handle in values
      modifies this
      ensures Valid()
      ensures values == old(values) - {handle}
      ensures history == old(history) + [Removed(handle)]
    {
      hide Range, Live, Peak;
      AfterRemoved(history, handle);
      freeHandles := freeHandles + {handle};
      values := values - {handle};
      history := history + [Removed(handle)];
    }

    /** Assignment through the reference that at() returns. */
    method Set(handle: nat, value: V)
      requires Valid() && handle in values
      modifies this`values
      ensures Valid() && values == old(values)[handle := value] && values.Keys == old(values).Keys
    {
      values := values[handle := value];
      assert values.Keys == old(values).Keys;
    }

    method Clear()
      modifies this
      ensures Valid() && values == map[] && freeHandles == {}
      ensures history == old(history) + [Cleared]
    {
      values := map[];
      freeHandles := {};
      history := history + [Cleared];
    }

    predicate Contains(handle: nat)
      reads this
    {
      handle in values
    }

    /** at(), which throws for a handle that is not in use. */
    function At(handle: nat): (r: Option<V>)
      reads this
      ensures r.Some? <==> Contains(handle)
    {
      if handle in values then Some(values[handle]) else None
    }
  }
}
