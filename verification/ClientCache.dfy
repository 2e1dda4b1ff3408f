/**
 The client cache against the server, step by step. Any number of client threads read the waterline,
 test the cache, clear it, ask the server and store the answer; the server changes its table under
 the table lock and publishes new waterlines from a task queue. Removal erases first and posts the
 invalidation later; replacement posts it first and assigns while it still holds the lock. The history
 keeps the table of every moment.
 */
module ClientCache {
  import opened Common
  import opened DynamicCaches

  type Tid = nat
  type Table = map<Sa, Obj>

  /** An answer the client has obtained: read from the table at moment `at` after reading `w`. */
  datatype Holding = Holding(sa: Sa, w: Waterline, o: Obj, at: nat)

  /** A query: it read waterline `w` at moment `began`; `quiet` tells that no invalidation was
      outstanding then. */
  datatype Query = Query(sa: Sa, w: Waterline, began: nat, quiet: bool)

  datatype Thread =
    | Testing(q: Query)
    | Missed(q: Query)
    | Asking(q: Query)
    | Got(q: Query, h: Holding)

  /** A replacement inside the table lock; `since` is the waterline when its task was posted. */
  datatype Writer = Writer(sa: Sa, o: Obj, since: Waterline)

  datatype State = State(
    table: Table,
    writer: Option<Writer>,
    unposted: nat,
    posted: nat,
    lost: bool,
    waterline: Waterline,
    dead: set<Obj>,
    cache: Cache,
    cachedAt: nat,
    threads: map<Tid, Thread>,
    publishedAt: seq<nat>,
    history: seq<Table>)

  predicate Init(s: State) {
    s == State(map[], None, 0, 0, false, DEFAULT_WATERLINE, {}, Cache(None, NO_SA, None), 0, map[], [], [map[]])
  }

  /** Some change of the table has not been published yet, or its publication failed. */
  predicate Outstanding(s: State) {
    s.unposted > 0 || s.posted > 0 || s.lost
  }

  datatype Step =
    | Register(sa: Sa, o: Obj)
    | CoverLockAndPost(sa: Sa, o: Obj)
    | CoverAssign
    | Remove(sa: Sa)
    | PostInvalidation
    | Publish(ok: bool)
    | Die(o: Obj)
    | RemoveDied(sa: Sa)
    | ReadWaterline(t: Tid, sa: Sa)
    | TestCache(t: Tid)
    | ClearCache(t: Tid)
    | AskServer(t: Tid, retry: bool)
    | AskFailed(t: Tid)
    | Store(t: Tid)
    | OnRemoteDied

  predicate Enabled(s: State, a: Step) {
    match a
    case Register(sa, _) => s.writer.None? && sa !in s.table
    case CoverLockAndPost(sa, _) => s.writer.None? && sa in s.table
    case CoverAssign => s.writer.Some?
    case Remove(sa) => s.writer.None? && sa in s.table
    case PostInvalidation => s.unposted > 0
    case Publish(_) => s.posted > 0
    case Die(_) => true
    case RemoveDied(sa) => s.writer.None? && sa in s.table && s.table[sa] in s.dead
    case ReadWaterline(t, _) => t !in s.threads
    case TestCache(t) => t in s.threads && s.threads[t].Testing?
    case ClearCache(t) => t in s.threads && s.threads[t].Missed?
    case AskServer(t, _) => t in s.threads && s.threads[t].Asking? && s.writer.None?
    case AskFailed(t) => t in s.threads && s.threads[t].Asking?
    case Store(t) => t in s.threads && s.threads[t].Got?
    case OnRemoteDied => true
  }

  predicate IsHit(s: State, t: Tid) {
    && t in s.threads && s.threads[t].Testing?
    && CanUse(s.cache, s.threads[t].q.sa, s.threads[t].q.w, s.dead)
  }

  function Change(s: State, a: Step): State
    requires Enabled(s, a)
  {
    match a
    case Register(sa, o) => s.(table := s.table[sa := o])
    case CoverLockAndPost(sa, o) => s.(writer := Some(Writer(sa, o, s.waterline)), posted := s.posted + 1)
    case CoverAssign => s.(table := s.table[s.writer.value.sa := s.writer.value.o], writer := None)
    case Remove(sa) => s.(table := s.table - {sa}, unposted := s.unposted + 1)
    case PostInvalidation => s.(unposted := s.unposted - 1, posted := s.posted + 1)
    case Publish(ok) =>
      if ok then s.(posted := s.posted - 1, waterline := s.waterline + 1, publishedAt := s.publishedAt + [|s.history|])
      else s.(posted := s.posted - 1, lost := true)
    case Die(o) => s.(dead := s.dead + {o})
    case RemoveDied(sa) => s.(table := s.table - {sa})
    case ReadWaterline(t, sa) =>
      s.(threads := s.threads[t := Testing(Query(sa, s.waterline, |s.history|, !Outstanding(s)))])
    case TestCache(t) =>
      if IsHit(s, t) then s.(threads := s.threads - {t})
      else s.(threads := s.threads[t := Missed(s.threads[t].q)])
    case ClearCache(t) => s.(cache := Cleared(s.cache), threads := s.threads[t := Asking(s.threads[t].q)])
    case AskServer(t, retry) =>
      var q := s.threads[t].q;
      if q.sa in s.table then s.(threads := s.threads[t := Got(q, Holding(q.sa, q.w, s.table[q.sa], |s.history|))])
      else if retry then s else s.(threads := s.threads - {t})
    case AskFailed(t) => s.(threads := s.threads - {t})
    case Store(t) =>
      var h := s.threads[t].h;
      s.(cache := Stored(h.sa, h.w, h.o), cachedAt := h.at, threads := s.threads - {t})
    case OnRemoteDied => s.(cache := Cleared(s.cache))
  }

  function Apply(s: State, a: Step): State
    requires Enabled(s, a)
  {
    var s' := Change(s, a);
    s'.(history := s.history + [s'.table])
  }

  ghost predicate IsRun(states: seq<State>, steps: seq<Step>) {
    && |states| == |steps| + 1
    && Init(states[0])
    && forall i :: 0 <= i < |steps| ==> Enabled(states[i], steps[i]) && states[i + 1] == Apply(states[i], steps[i])
  }

  // ---- the invariant ----

  predicate TableHeld(s: State, sa: Sa, o: Obj, at: nat) {
    at < |s.history| && sa in s.history[at] && s.history[at][sa] == o
  }

  /** An answer was in the table after its waterline was published. While that waterline is the
      current one the answer still is in the table, or an invalidation is outstanding. */
  ghost predicate HoldingOk(s: State, h: Holding) {
    && h.w <= s.waterline
    && TableHeld(s, h.sa, h.o, h.at)
    && (h.w > 0 ==> h.w <= |s.publishedAt| && s.publishedAt[h.w - 1] <= h.at)
    && (h.w == s.waterline && h.o !in s.dead ==> Outstanding(s) || (h.sa in s.table && s.table[h.sa] == h.o))
    && (s.writer.Some? ==> h.w <= s.writer.value.since)
  }

  /** An answer that a query could be given was read after the query began, or was in the table when
      the query began in a quiet moment. */
  ghost predicate Suits(s: State, q: Query, h: Holding) {
    q.quiet && q.w == h.w && h.o !in s.dead ==> q.began <= h.at || TableHeld(s, h.sa, h.o, q.began)
  }

  ghost predicate CacheHolds(s: State, h: Holding) {
    s.cache == Stored(h.sa, h.w, h.o) && h.at == s.cachedAt
  }

  ghost predicate Holds(s: State, h: Holding) {
    CacheHolds(s, h) || exists t :: t in s.threads && s.threads[t].Got? && s.threads[t].h == h
  }

  ghost predicate QueryOk(s: State, q: Query) {
    && q.w <= s.waterline && q.began < |s.history|
    && (q.w > 0 ==> q.w <= |s.publishedAt| && s.publishedAt[q.w - 1] <= q.began)
  }

  ghost predicate Scalars(s: State) {
    && |s.history| > 0 && s.history[|s.history| - 1] == s.table
    && |s.publishedAt| == s.waterline
    && (forall i :: 0 <= i < |s.publishedAt| ==> s.publishedAt[i] < |s.history|)
    && (s.writer.Some? ==> s.writer.value.since <= s.waterline)
    && (s.writer.Some? ==> s.waterline > s.writer.value.since || s.posted > 0 || s.lost)
  }

  ghost predicate Inv(s: State) {
    && Scalars(s)
    && (s.cache.lastQuerySaProxy.Some? ==> s.cache.localPara.Some?)
    && (forall t :: t in s.threads ==> QueryOk(s, s.threads[t].q))
    && (forall t :: t in s.threads ==> OwnWaterline(s.threads[t]))
    && (forall h :: Holds(s, h) ==> HoldingOk(s, h))
    && (forall t, h :: t in s.threads && Holds(s, h) ==> Suits(s, s.threads[t].q, h))
  }

  // ---- one step ----

  lemma StepKeepsScalars(s: State, a: Step)
    requires Scalars(s) && Enabled(s, a)
    ensures Scalars(Apply(s, a))
  {
  }

  /** Answers are only obtained by asking the server. */
  lemma WhereHoldingsComeFrom(s: State, a: Step, h: Holding)
    requires Enabled(s, a) && Holds(Apply(s, a), h)
    ensures Holds(s, h) || (a.AskServer? && Fresh(s, s.threads[a.t].q, h))
  {
    var s' := Apply(s, a);
    if exists t :: t in s'.threads && s'.threads[t].Got? && s'.threads[t].h == h {
      var t :| t in s'.threads && s'.threads[t].Got? && s'.threads[t].h == h;
      assert t in s.threads;
    } else {
      assert CacheHolds(s', h);
      if a.Store? {
        assert s.threads[a.t].h == h;
      }
    }
  }

  ghost predicate Fresh(s: State, q: Query, h: Holding) {
    q.sa in s.table && h == Holding(q.sa, q.w, s.table[q.sa], |s.history|)
  }

  lemma HistoryStays(s: State, a: Step, sa: Sa, o: Obj, at: nat)
    requires Enabled(s, a) && TableHeld(s, sa, o, at)
    ensures TableHeld(Apply(s, a), sa, o, at)
  {
  }

  lemma HoldingStaysOk(s: State, a: Step, h: Holding)
    requires Scalars(s) && Enabled(s, a) && HoldingOk(s, h)
    ensures HoldingOk(Apply(s, a), h)
  {
    HistoryStays(s, a, h.sa, h.o, h.at);
    hide TableHeld;
  }

  lemma FreshHoldingIsOk(s: State, t: Tid, retry: bool, h: Holding)
    requires Scalars(s) && Enabled(s, AskServer(t, retry)) && QueryOk(s, s.threads[t].q) && Fresh(s, s.threads[t].q, h)
    ensures HoldingOk(Apply(s, AskServer(t, retry)), h)
  {
    var s' := Apply(s, AskServer(t, retry));
    assert s'.history[h.at] == s.table;
  }

  lemma QueryStaysOk(s: State, a: Step, q: Query)
    requires Scalars(s) && Enabled(s, a) && QueryOk(s, q)
    ensures QueryOk(Apply(s, a), q)
  {
  }

  lemma SuitsStays(s: State, a: Step, q: Query, h: Holding)
    requires Enabled(s, a) && Suits(s, q, h)
    ensures Suits(Apply(s, a), q, h)
  {
  }

  /** A query that begins in a quiet moment finds only answers that are in the table. */
  lemma NewQuerySuits(s: State, t: Tid, sa: Sa, h: Holding)
    requires Scalars(s) && Enabled(s, ReadWaterline(t, sa)) && HoldingOk(s, h)
    ensures var s' := Apply(s, ReadWaterline(t, sa));
            QueryOk(s', s'.threads[t].q) && Suits(s', s'.threads[t].q, h)
  {
    var s' := Apply(s, ReadWaterline(t, sa));
    assert s'.history[s'.threads[t].q.began] == s.table;
  }

  lemma NewQueryIsOk(s: State, t: Tid, sa: Sa)
    requires Scalars(s) && Enabled(s, ReadWaterline(t, sa))
    ensures var s' := Apply(s, ReadWaterline(t, sa)); QueryOk(s', s'.threads[t].q)
  {
  }

  /** A thread keeps its query from step to step. */
  lemma QueriesStay(s: State, a: Step, t: Tid)
    requires Enabled(s, a) && t in Apply(s, a).threads
    ensures t in s.threads ==> Apply(s, a).threads[t].q == s.threads[t].q
    ensures t !in s.threads ==> a.ReadWaterline? && a.t == t
  {
  }

  lemma StepKeepsQueries(s: State, a: Step, t: Tid)
    requires Inv(s) && Enabled(s, a) && t in Apply(s, a).threads
    ensures QueryOk(Apply(s, a), Apply(s, a).threads[t].q)
  {
    QueriesStay(s, a, t);
    if t in s.threads {
      assert QueryOk(s, s.threads[t].q);
      hide Inv, Apply, Enabled, QueryOk;
      QueryStaysOk(s, a, s.threads[t].q);
    } else {
      NewQueryIsOk(s, t, a.sa);
    }
  }

  lemma AskingThread(s: State, a: Step)
    requires Inv(s) && Enabled(s, a) && a.AskServer?
    ensures a.t in s.threads && QueryOk(s, s.threads[a.t].q)
  {
  }

  lemma StepKeepsHoldings(s: State, a: Step, h: Holding)
    requires Inv(s) && Enabled(s, a) && Holds(Apply(s, a), h)
    ensures HoldingOk(Apply(s, a), h)
  {
    hide Apply, Enabled, Holds, HoldingOk, QueryOk, Fresh;
    WhereHoldingsComeFrom(s, a, h);
    if Holds(s, h) {
      HoldingStaysOk(s, a, h);
    } else {
      AskingThread(s, a);
      FreshHoldingIsOk(s, a.t, a.retry, h);
    }
  }

  lemma FreshSuits(s: State, a: Step, q: Query, asker: Query, h: Holding)
    requires Enabled(s, a) && QueryOk(s, q) && Fresh(s, asker, h)
    ensures Suits(Apply(s, a), q, h)
  {
  }

  lemma StepKeepsSuits(s: State, a: Step, t: Tid, h: Holding)
    requires Inv(s) && Enabled(s, a) && t in Apply(s, a).threads && Holds(Apply(s, a), h)
    ensures Suits(Apply(s, a), Apply(s, a).threads[t].q, h)
  {
    hide Apply, Enabled, Holds, HoldingOk, QueryOk, Fresh, Suits;
    WhereHoldingsComeFrom(s, a, h);
    QueriesStay(s, a, t);
    if t !in s.threads {
      NewQuerySuits(s, t, a.sa, h);
    } else if Holds(s, h) {
      SuitsStays(s, a, s.threads[t].q, h);
    } else {
      AskingThread(s, a);
      FreshSuits(s, a, s.threads[t].q, s.threads[a.t].q, h);
    }
  }

  /** A thread's answer was read under the waterline of its query. */
  ghost predicate OwnWaterline(x: Thread) {
    x.Got? ==> x.h.w == x.q.w
  }

  lemma StepKeepsWaterlines(s: State, a: Step, t: Tid)
    requires Enabled(s, a) && t in Apply(s, a).threads && (t in s.threads ==> OwnWaterline(s.threads[t]))
    ensures OwnWaterline(Apply(s, a).threads[t])
  {
  }

  lemma StepKeepsCacheShape(s: State, a: Step)
    requires Enabled(s, a) && (s.cache.lastQuerySaProxy.Some? ==> s.cache.localPara.Some?)
    ensures Apply(s, a).cache.lastQuerySaProxy.Some? ==> Apply(s, a).cache.localPara.Some?
  {
  }

  lemma StepKeepsInv(s: State, a: Step)
    requires Inv(s) && Enabled(s, a)
    ensures Inv(Apply(s, a))
  {
    hide Apply, Enabled, Holds, HoldingOk, QueryOk, Suits, OwnWaterline;
    var s' := Apply(s, a);
    StepKeepsScalars(s, a);
    StepKeepsCacheShape(s, a);
    forall t | t in s'.threads ensures OwnWaterline(s'.threads[t]) { StepKeepsWaterlines(s, a, t); }
    forall t | t in s'.threads ensures QueryOk(s', s'.threads[t].q) { StepKeepsQueries(s, a, t); }
    forall h | Holds(s', h) ensures HoldingOk(s', h) { StepKeepsHoldings(s, a, h); }
    forall t, h | t in s'.threads && Holds(s', h) ensures Suits(s', s'.threads[t].q, h) { StepKeepsSuits(s, a, t, h); }
  }

  lemma {:induction false} RunKeepsInv(states: seq<State>, steps: seq<Step>, n: nat)
    requires IsRun(states, steps) && n < |states|
    ensures Inv(states[n])
  {
    if n > 0 {
      RunKeepsInv(states, steps, n - 1);
      hide Inv, Apply, Enabled;
      StepKeepsInv(states[n - 1], steps[n - 1]);
    }
  }

  /** The history is the table of every state of the run. */
  lemma {:induction false} HistoryIsTheRun(states: seq<State>, steps: seq<Step>, n: nat, k: nat)
    requires IsRun(states, steps) && k <= n < |states|
    ensures |states[n].history| == n + 1 && states[n].history[k] == states[k].table
  {
    if n > 0 {
      HistoryIsTheRun(states, steps, n - 1, if k < n then k else 0);
    }
  }

  // ---- results ----

  lemma PublishedAreCounted(states: seq<State>, steps: seq<Step>, n: nat)
    requires IsRun(states, steps) && n < |states|
    ensures |states[n].publishedAt| == states[n].waterline
  {
    RunKeepsInv(states, steps, n);
  }

  lemma NewQueryRecords(s: State, t: Tid, sa: Sa)
    requires Enabled(s, ReadWaterline(t, sa))
    ensures var s' := Apply(s, ReadWaterline(t, sa));
            var q := s'.threads[t].q;
            && q.w == s'.waterline == s.waterline && s'.publishedAt == s.publishedAt
            && q.began == |s.history| && (q.quiet <==> !Outstanding(s'))
  {
  }

  lemma PublicationsStay(s: State, a: Step)
    requires Enabled(s, a)
    ensures s.publishedAt <= Apply(s, a).publishedAt
  {
  }

  /** What a query records about its beginning: the waterline of that moment, which was the last one
      published, and whether anything was outstanding. */
  lemma {:induction false} QueryRecordsItsBeginning(states: seq<State>, steps: seq<Step>, n: nat, t: Tid)
    requires IsRun(states, steps) && n < |states| && t in states[n].threads
    ensures var q := states[n].threads[t].q;
            && 0 < q.began <= n && q.w == states[q.began].waterline == |states[q.began].publishedAt|
            && states[q.began].publishedAt <= states[n].publishedAt
            && (q.quiet <==> !Outstanding(states[q.began]))
  {
    hide Apply, Enabled, Outstanding, Inv;
    if n > 0 {
      QueriesStay(states[n - 1], steps[n - 1], t);
      PublicationsStay(states[n - 1], steps[n - 1]);
      if t in states[n - 1].threads {
        QueryRecordsItsBeginning(states, steps, n - 1, t);
      } else {
        HistoryIsTheRun(states, steps, n - 1, n - 1);
        NewQueryRecords(states[n - 1], t, steps[n - 1].sa);
        PublishedAreCounted(states, steps, n - 1);
      }
    }
  }

  /** A hit at moment `n` returns what the table held no earlier than the last publication that the
      query could see when it began. */
  lemma HitIsNotOlderThanTheWaterline(states: seq<State>, steps: seq<Step>, n: nat, t: Tid) returns (k: nat)
    requires IsRun(states, steps) && n < |states| && IsHit(states[n], t)
    ensures var q := states[n].threads[t].q;
            && k <= n && q.sa in states[k].table
            && states[n].cache.lastQuerySaProxy == Some(states[k].table[q.sa])
            && q.began <= n && var seen := states[q.began].publishedAt; seen != [] && seen[|seen| - 1] <= k
  {
    RunKeepsInv(states, steps, n);
    QueryRecordsItsBeginning(states, steps, n, t);
    var s := states[n];
    var h := Holding(s.cache.lastQuerySaId, s.cache.localPara.value, s.cache.lastQuerySaProxy.value, s.cachedAt);
    assert CacheHolds(s, h);
    assert HoldingOk(s, h);
    k := h.at;
    HistoryIsTheRun(states, steps, n, n);
    HistoryIsTheRun(states, steps, n, k);
  }

  /** A hit of a query that began when no invalidation was outstanding returns what the table held
      at some moment between the beginning of the query and now. */
  lemma QuietHitIsCurrent(states: seq<State>, steps: seq<Step>, n: nat, t: Tid) returns (k: nat)
    requires IsRun(states, steps) && n < |states| && IsHit(states[n], t)
    requires states[n].threads[t].q.began <= n && !Outstanding(states[states[n].threads[t].q.began])
    ensures var q := states[n].threads[t].q;
            && q.began <= k <= n && q.sa in states[k].table
            && states[n].cache.lastQuerySaProxy == Some(states[k].table[q.sa])
  {
    RunKeepsInv(states, steps, n);
    QueryRecordsItsBeginning(states, steps, n, t);
    var s := states[n];
    var h := Holding(s.cache.lastQuerySaId, s.cache.localPara.value, s.cache.lastQuerySaProxy.value, s.cachedAt);
    assert CacheHolds(s, h);
    assert Holds(s, h);
    assert HoldingOk(s, h) && Suits(s, s.threads[t].q, h);
    k := if s.threads[t].q.began <= h.at then h.at else s.threads[t].q.began;
    HistoryIsTheRun(states, steps, n, n);
    HistoryIsTheRun(states, steps, n, k);
  }
}
