/**
 What the server's table holds after any steps, how invalidations are accounted for, and what whole
 queries do, for the client cache.
 */
module CacheQueries {
  import opened Common
  import opened DynamicCaches
  import opened ClientCache

  // ---- the table is what was written last ----

  /** The replacement that was begun last. */
  function LastCover(steps: seq<Step>): Option<(Sa, Obj)> {
    if steps == [] then None
    else
      var a := steps[|steps| - 1];
      if a.CoverLockAndPost? then Some((a.sa, a.o)) else LastCover(steps[..|steps| - 1])
  }

  /** What the steps have last written for an ability. */
  function LastWrite(steps: seq<Step>, sa: Sa): Option<Obj> {
    if steps == [] then None
    else
      var rest := steps[..|steps| - 1];
      match steps[|steps| - 1]
      case Register(x, o) => if x == sa then Some(o) else LastWrite(rest, sa)
      case CoverAssign =>
        var c := LastCover(rest);
        if c.Some? && c.value.0 == sa then Some(c.value.1) else LastWrite(rest, sa)
      case Remove(x) => if x == sa then None else LastWrite(rest, sa)
      case RemoveDied(x) => if x == sa then None else LastWrite(rest, sa)
      case _ => LastWrite(rest, sa)
  }

  lemma StepWrites(s: State, a: Step, sa: Sa)
    requires Enabled(s, a)
    ensures var s' := Apply(s, a);
            && (match a
                case Register(x, o) => x == sa ==> sa in s'.table && s'.table[sa] == o
                case CoverAssign => s.writer.value.sa == sa ==> sa in s'.table && s'.table[sa] == s.writer.value.o
                case Remove(x) => x == sa ==> sa !in s'.table
                case RemoveDied(x) => x == sa ==> sa !in s'.table
                case _ => s'.table == s.table)
            && (s'.writer.Some? <==> a.CoverLockAndPost? || (s.writer.Some? && !a.CoverAssign?))
            && (a.CoverLockAndPost? ==> s'.writer.value.sa == a.sa && s'.writer.value.o == a.o)
            && (s.writer.Some? && s'.writer.Some? && !a.CoverLockAndPost? ==> s'.writer == s.writer)
  {
  }

  lemma StepLeavesOthers(s: State, a: Step, sa: Sa)
    requires Enabled(s, a) && !(a.Register? && a.sa == sa) && !(a.Remove? && a.sa == sa)
    requires !(a.RemoveDied? && a.sa == sa) && !(a.CoverAssign? && s.writer.value.sa == sa)
    ensures (sa in Apply(s, a).table <==> sa in s.table) && (sa in s.table ==> Apply(s, a).table[sa] == s.table[sa])
  {
  }

  function Held(s: State, sa: Sa): Option<Obj> {
    if sa in s.table then Some(s.table[sa]) else None
  }

  /** The server's table holds for every ability what was last registered or assigned for it and not
      removed since; a replacement under way is the one begun last. */
  lemma {:induction false} TableIsWhatWasWritten(states: seq<State>, steps: seq<Step>, n: nat, sa: Sa)
    requires IsRun(states, steps) && n < |states|
    ensures Held(states[n], sa) == LastWrite(steps[..n], sa)
    ensures var w := states[n].writer;
            w.Some? ==> LastCover(steps[..n]) == Some((w.value.sa, w.value.o))
  {
    if n > 0 {
      TableIsWhatWasWritten(states, steps, n - 1, sa);
      assert steps[..n][..n - 1] == steps[..n - 1] && steps[..n][n - 1] == steps[n - 1];
      var s, a := states[n - 1], steps[n - 1];
      assert Enabled(s, a) && states[n] == Apply(s, a);
      StepWrites(s, a, sa);
      if !(a.Register? && a.sa == sa) && !(a.Remove? && a.sa == sa) && !(a.RemoveDied? && a.sa == sa)
         && !(a.CoverAssign? && s.writer.value.sa == sa) {
        StepLeavesOthers(s, a, sa);
      }
      hide Apply, IsRun;
    }
  }

  /** With the table lock free an absent ability can be registered, and a present one replaced or removed. */
  lemma ServerCanAct(s: State, sa: Sa, o: Obj)
    requires s.writer.None?
    ensures sa !in s.table ==> Enabled(s, Register(sa, o)) && Held(Apply(s, Register(sa, o)), sa) == Some(o)
    ensures sa in s.table ==>
              && Enabled(s, Remove(sa)) && Held(Apply(s, Remove(sa)), sa) == None
              && Enabled(Apply(s, Remove(sa)), PostInvalidation)
              && Enabled(s, CoverLockAndPost(sa, o))
              && var s1 := Apply(s, CoverLockAndPost(sa, o));
                 && Enabled(s1, CoverAssign) && Enabled(s1, Publish(true)) && s1.table == s.table
                 && Held(Apply(s1, CoverAssign), sa) == Some(o)
  {
  }

  // ---- invalidations ----

  predicate Invalidates(a: Step) {
    a.Remove? || a.CoverLockAndPost?
  }

  function Count(steps: seq<Step>, p: Step -> bool): nat {
    if steps == [] then 0 else Count(steps[..|steps| - 1], p) + if p(steps[|steps| - 1]) then 1 else 0
  }

  const INVALIDATING: Step -> bool := (a: Step) => Invalidates(a)
  const PUBLISHING: Step -> bool := (a: Step) => a.Publish?
  const SUCCEEDING: Step -> bool := (a: Step) => a.Publish? && a.ok

  /** Every removal and replacement is followed by exactly one attempt to publish, and every successful
      one by a new waterline: none is lost on the way and none made up. */
  lemma {:induction false} InvalidationsAreConserved(states: seq<State>, steps: seq<Step>, n: nat)
    requires IsRun(states, steps) && n < |states|
    ensures Count(steps[..n], INVALIDATING) == Count(steps[..n], PUBLISHING) + states[n].posted + states[n].unposted
    ensures states[n].waterline == Count(steps[..n], SUCCEEDING)
    ensures states[n].lost <==> Count(steps[..n], PUBLISHING) > Count(steps[..n], SUCCEEDING)
    ensures Count(steps[..n], PUBLISHING) >= Count(steps[..n], SUCCEEDING)
  {
    if n > 0 {
      InvalidationsAreConserved(states, steps, n - 1);
      assert steps[..n][..n - 1] == steps[..n - 1] && steps[..n][n - 1] == steps[n - 1];
      InvalidationStep(states[n - 1], steps[n - 1]);
      hide Apply, Enabled;
    }
  }

  lemma InvalidationStep(s: State, a: Step)
    requires Enabled(s, a)
    ensures var s' := Apply(s, a);
            && s'.posted + s'.unposted ==
               s.posted + s.unposted + (if Invalidates(a) then 1 else 0) - (if a.Publish? then 1 else 0)
            && s'.waterline == s.waterline + (if a.Publish? && a.ok then 1 else 0)
            && (s'.lost <==> s.lost || (a.Publish? && !a.ok))
  {
  }

  // ---- whole queries ----

  /** The steps can be taken one after the other. */
  ghost predicate IsPath(states: seq<State>, steps: seq<Step>) {
    && |states| == |steps| + 1
    && forall i :: 0 <= i < |steps| ==> Enabled(states[i], steps[i]) && states[i + 1] == Apply(states[i], steps[i])
  }

  lemma Then(states: seq<State>, steps: seq<Step>, a: Step)
    requires IsPath(states, steps) && Enabled(states[|steps|], a)
    ensures IsPath(states + [Apply(states[|steps|], a)], steps + [a])
  {
  }

  /** Everything but the cache and the threads. */
  predicate SameServer(s: State, s': State) {
    && s'.table == s.table && s'.writer == s.writer && s'.unposted == s.unposted && s'.posted == s.posted
    && s'.lost == s.lost && s'.waterline == s.waterline && s'.dead == s.dead
  }

  /** A query begins by reading the waterline. */
  lemma Begins(s: State, t: Tid, sa: Sa)
    requires t !in s.threads
    ensures Enabled(s, ReadWaterline(t, sa))
    ensures var s' := Apply(s, ReadWaterline(t, sa));
            && SameServer(s, s') && s'.cache == s.cache && t in s'.threads && s'.threads - {t} == s.threads
            && s'.threads[t].Testing? && s'.threads[t].q.sa == sa && s'.threads[t].q.w == s.waterline
  {
    var q := Query(sa, s.waterline, |s.history|, !Outstanding(s));
    assert s.threads[t := Testing(q)] - {t} == s.threads;
  }

  /** The test of the cache ends the query exactly when the cache can be used. */
  lemma Tests(s: State, t: Tid)
    requires t in s.threads && s.threads[t].Testing?
    ensures Enabled(s, TestCache(t))
    ensures IsHit(s, t) <==> CanUse(s.cache, s.threads[t].q.sa, s.threads[t].q.w, s.dead)
    ensures var s' := Apply(s, TestCache(t));
            && SameServer(s, s') && s'.cache == s.cache && s'.threads - {t} == s.threads - {t}
            && (IsHit(s, t) ==> t !in s'.threads)
            && (!IsHit(s, t) ==> t in s'.threads && s'.threads[t] == Missed(s.threads[t].q))
  {
    assert s.threads[t := Missed(s.threads[t].q)] - {t} == s.threads - {t};
  }

  lemma Clears(s: State, t: Tid)
    requires t in s.threads && s.threads[t].Missed?
    ensures Enabled(s, ClearCache(t))
    ensures var s' := Apply(s, ClearCache(t));
            && SameServer(s, s') && s'.threads - {t} == s.threads - {t}
            && s'.cache.lastQuerySaProxy == None && s'.cache.localPara == s.cache.localPara
            && t in s'.threads && s'.threads[t] == Asking(s.threads[t].q)
  {
    assert s.threads[t := Asking(s.threads[t].q)] - {t} == s.threads - {t};
  }

  /** The server answers with what its table holds. */
  lemma Asks(s: State, t: Tid)
    requires t in s.threads && s.threads[t].Asking? && s.writer.None? && s.threads[t].q.sa in s.table
    ensures Enabled(s, AskServer(t, false))
    ensures var s' := Apply(s, AskServer(t, false));
            && SameServer(s, s') && s'.cache == s.cache && s'.threads - {t} == s.threads - {t}
            && t in s'.threads && s'.threads[t].Got? && s'.threads[t].q == s.threads[t].q
            && s'.threads[t].h.o == s.table[s.threads[t].q.sa]
            && s'.threads[t].h.sa == s.threads[t].q.sa && s'.threads[t].h.w == s.threads[t].q.w
  {
    var q := s.threads[t].q;
    var x := Got(q, Holding(q.sa, q.w, s.table[q.sa], |s.history|));
    assert s.threads[t := x] - {t} == s.threads - {t};
  }

  lemma Stores(s: State, t: Tid)
    requires t in s.threads && s.threads[t].Got?
    ensures Enabled(s, Store(t))
    ensures var s' := Apply(s, Store(t));
            && SameServer(s, s') && s'.threads == s.threads - {t}
            && s'.cache == Stored(s.threads[t].h.sa, s.threads[t].h.w, s.threads[t].h.o)
  {
  }

  /** The first three steps of a query that misses. */
  lemma MissClears(s: State, t: Tid, sa: Sa) returns (states: seq<State>, steps: seq<Step>)
    requires t !in s.threads && !CanUse(s.cache, sa, s.waterline, s.dead)
    ensures IsPath(states, steps) && states[0] == s
    ensures steps == [ReadWaterline(t, sa), TestCache(t), ClearCache(t)]
    ensures var s' := states[3];
            && SameServer(s, s') && t in s'.threads && s'.threads - {t} == s.threads
            && s'.threads[t].Asking? && s'.threads[t].q.sa == sa && s'.threads[t].q.w == s.waterline
  {
    Begins(s, t, sa);
    var s1 := Apply(s, ReadWaterline(t, sa));
    Tests(s1, t);
    var s2 := Apply(s1, TestCache(t));
    Clears(s2, t);
    states, steps := [s, s1, s2, Apply(s2, ClearCache(t))], [ReadWaterline(t, sa), TestCache(t), ClearCache(t)];
    hide Apply, Enabled, CanUse, IsHit;
  }

  /** A query that misses asks the server, gets what the table holds and stores it under the waterline it
      read first. */
  lemma MissAsksAndStores(s: State, t: Tid, sa: Sa) returns (states: seq<State>, steps: seq<Step>)
    requires t !in s.threads && s.writer.None? && sa in s.table && !CanUse(s.cache, sa, s.waterline, s.dead)
    ensures IsPath(states, steps) && states[0] == s
    ensures steps == [ReadWaterline(t, sa), TestCache(t), ClearCache(t), AskServer(t, false), Store(t)]
    ensures var s' := states[5];
            SameServer(s, s') && s'.threads == s.threads && s'.cache == Stored(sa, s.waterline, s.table[sa])
  {
    hide Apply, Enabled, CanUse, IsHit;
    states, steps := MissClears(s, t, sa);
    var s3 := states[3];
    Asks(s3, t);
    Then(states, steps, AskServer(t, false));
    var s4 := Apply(s3, AskServer(t, false));
    states, steps := states + [s4], steps + [AskServer(t, false)];
    Stores(s4, t);
    Then(states, steps, Store(t));
    states, steps := states + [Apply(s4, Store(t))], steps + [Store(t)];
  }

  /** The next query of the same ability is a hit and returns the stored object, as long as nothing has
      been published, the object lives and the cache has been left alone. */
  lemma NextQueryHits(s: State, t: Tid, sa: Sa, o: Obj)
    requires t !in s.threads && s.waterline != DEFAULT_WATERLINE && o !in s.dead
    requires s.cache == Stored(sa, s.waterline, o)
    ensures Enabled(s, ReadWaterline(t, sa))
    ensures var s1 := Apply(s, ReadWaterline(t, sa));
            && Enabled(s1, TestCache(t)) && IsHit(s1, t) && s1.cache.lastQuerySaProxy == Some(o)
            && Apply(s1, TestCache(t)).threads == s.threads && Apply(s1, TestCache(t)).cache == s.cache
  {
    Begins(s, t, sa);
    var s1 := Apply(s, ReadWaterline(t, sa));
    hide Apply, Enabled, IsHit;
    Tests(s1, t);
    var s2 := Apply(s1, TestCache(t));
    assert s2.threads == s2.threads - {t};
  }

  /** An ability that is not there is not found, and the notice of a death empties the cache. */
  lemma AbsentIsNotFound(s: State, t: Tid)
    requires t in s.threads && s.threads[t].Asking? && s.writer.None? && s.threads[t].q.sa !in s.table
    ensures Enabled(s, AskServer(t, false)) && t !in Apply(s, AskServer(t, false)).threads
    ensures Enabled(s, AskServer(t, true)) && Apply(s, AskServer(t, true)).threads == s.threads
    ensures forall sa, w :: !CanUse(Apply(s, OnRemoteDied).cache, sa, w, s.dead)
  {
  }
}
