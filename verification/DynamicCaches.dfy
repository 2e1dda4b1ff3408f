/**
 The client's cache of its last query: one ability, valid as long as the waterline that was read
 before the ability was queried is still the published one.
 */
module DynamicCaches {
  import opened Common

  /** The published values never repeat; they are numbered in the order of publication. */
  type Waterline = nat

  const DEFAULT_WATERLINE: Waterline := 0   // nothing has been published
  const NO_SA: Sa := -1

  datatype Cache = Cache(localPara: Option<Waterline>, lastQuerySaId: Sa, lastQuerySaProxy: Option<Obj>)

  predicate CanUse(c: Cache, sa: Sa, waterLine: Waterline, dead: set<Obj>) {
    && c.localPara == Some(waterLine)
    && c.lastQuerySaId == sa
    && waterLine != DEFAULT_WATERLINE
    && c.lastQuerySaProxy.Some?
    && c.lastQuerySaProxy.value !in dead
  }

  function Cleared(c: Cache): Cache {
    Cache(c.localPara, NO_SA, None)
  }

  function Stored(sa: Sa, waterLine: Waterline, o: Obj): Cache {
    Cache(Some(waterLine), sa, Some(o))
  }

  /** What was stored is used for the same ability as long as the waterline stays and the object
      lives, and for nothing else. */
  lemma StoredIsUsable(sa: Sa, waterLine: Waterline, o: Obj, sa': Sa, waterLine': Waterline, dead: set<Obj>)
    ensures CanUse(Stored(sa, waterLine, o), sa', waterLine', dead) <==>
            sa' == sa && waterLine' == waterLine && waterLine != DEFAULT_WATERLINE && o !in dead
    ensures !CanUse(Cleared(Stored(sa, waterLine, o)), sa', waterLine', dead)
  {
  }

  class DynamicCache {
    var localPara: Option<Waterline>
    var lastQuerySaId: Sa
    var lastQuerySaProxy: Option<Obj>

    constructor ()
      ensures Value() == Cache(None, NO_SA, None)
    {
      localPara, lastQuerySaId, lastQuerySaProxy := None, NO_SA, None;
    }

    ghost function Value(): Cache
      reads this
    {
      Cache(localPara, lastQuerySaId, lastQuerySaProxy)
    }

    method CanUseCache(sa: Sa, waterLine: Waterline, dead: set<Obj>) returns (r: bool)
      ensures r == CanUse(Value(), sa, waterLine, dead)
    {
      r := localPara.Some? && lastQuerySaId == sa && waterLine != DEFAULT_WATERLINE && waterLine == localPara.value
           && lastQuerySaProxy.Some? && lastQuerySaProxy.value !in dead;
    }

    method ClearCache()
      modifies this
      ensures Value() == Cleared(old(Value()))
    {
      lastQuerySaId := NO_SA;
      lastQuerySaProxy := None;
    }

    /** A query with nothing in between. `answer` is what the server returns if it is asked. */
    method QueryResult(sa: Sa, waterLine: Waterline, dead: set<Obj>, answer: Option<Obj>) returns (r: Option<Obj>)
      modifies this
      ensures CanUse(old(Value()), sa, waterLine, dead) ==> r == old(lastQuerySaProxy) && Value() == old(Value())
      ensures !CanUse(old(Value()), sa, waterLine, dead) ==>
                && r == answer
                && Value() == if answer.Some? then Stored(sa, waterLine, answer.value) else Cleared(old(Value()))
    {
      var hit := CanUseCache(sa, waterLine, dead);
      if hit {
        return lastQuerySaProxy;
      }
      ClearCache();
      r := answer;
      if r.None? {
        return;
      }
      localPara := Some(waterLine);
      lastQuerySaId := sa;
      lastQuerySaProxy := r;
    }
  }
}
