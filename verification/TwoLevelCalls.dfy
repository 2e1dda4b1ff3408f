/**
 What the calls of the two-level subscriptions achieve, whatever is interleaved with them: when a call
 starts to visit the managers, how it ends, and what is true then.
 */
module TwoLevelCalls {
  import opened Common
  import opened UserLifecycle
  import opened TwoLevel
  import V = SubscriptionView

  // ---- how calls begin ----

  /** A subscribe-for-all visits all managers, unless its key is in the list already or its process is
      full, when it does nothing but purge the list. */
  lemma SubscribeBegins(states: seq<State>, steps: seq<Step>, n: nat, k: V.Key, pid: Pid)
    requires IsRun(states, steps) && n < |states| && states[n].lock.Free? && CheckInputSysAbilityId(k.0)
    ensures Enabled(states[n], BeginSubscribe(k, pid))
    ensures var s, s' := states[n], Apply(states[n], BeginSubscribe(k, pid));
            var g := Living(s.globals, s.dead);
            && s'.globals == g && s'.managers == s.managers && s'.dead == s.dead
            && (if k in GlobalKeys(g) || PidCount(g, pid) >= MAX_SUBSCRIBE_COUNT then s'.lock.Free?
                else s'.lock == Offering(k, pid, {}, s.managers.Keys))
  {
  }

  /** An unsubscribe-for-all of a listed key visits all managers. */
  lemma UnsubscribeBegins(states: seq<State>, steps: seq<Step>, n: nat, k: V.Key)
    requires IsRun(states, steps) && n < |states| && states[n].lock.Free?
    ensures Enabled(states[n], BeginUnsubscribe(k))
    ensures var s, s' := states[n], Apply(states[n], BeginUnsubscribe(k));
            && s'.globals == Living(s.globals, s.dead) && s'.managers == s.managers && s'.dead == s.dead
            && (s'.lock.Free? <==> k !in GlobalKeys(Living(s.globals, s.dead)))
            && (!s'.lock.Free? ==> && s'.lock.Dropping? && s'.lock.todo == s.managers.Keys && s'.lock.done == {}
                                   && s'.lock.entry < |s'.globals| && s'.globals[s'.lock.entry].Key() == k)
            && (k.1 !in s.dead ==> (k in GlobalKeys(Living(s.globals, s.dead)) <==> k in GlobalKeys(s.globals)))
  {
    LivingKeys(states[n].globals, states[n].dead);
  }

  // ---- how a subscribe-for-all ends ----

  /** A visit that was refused. */
  ghost predicate RefusedAt(states: seq<State>, steps: seq<Step>, m: nat)
    requires IsRun(states, steps) && m < |steps|
  {
    && steps[m].OfferOne? && states[m].lock.Offering? && steps[m].u in states[m].managers
    && V.Subscribe(states[m].managers[steps[m].u], states[m].lock.k, true, states[m].lock.pid).1 != ErrOk
  }

  /** A held subscribe-for-all goes on offering until a visit is refused, and then takes back. */
  lemma OfferOrTakeBack(s: State, a: Step)
    requires Enabled(s, a) && (s.lock.Offering? || s.lock.TakingBack?) && !Apply(s, a).lock.Free?
    ensures var s' := Apply(s, a);
            && (s.lock.TakingBack? ==> s'.lock.TakingBack?)
            && (s.lock.Offering? ==>
                  if a.OfferOne? && V.Subscribe(s.managers[a.u], s.lock.k, true, s.lock.pid).1 != ErrOk
                  then s'.lock.TakingBack? else s'.lock.Offering?)
  {
    hide V.Subscribe, V.Unsubscribe;
  }

  ghost predicate RefusedWithin(states: seq<State>, steps: seq<Step>, i: nat, m: nat)
    requires IsRun(states, steps) && m <= |steps|
  {
    exists x :: i < x < m && RefusedAt(states, steps, x)
  }

  lemma OneMoreVisit(states: seq<State>, steps: seq<Step>, i: nat, m: nat)
    requires IsRun(states, steps) && i < m < |steps|
    ensures RefusedWithin(states, steps, i, m + 1) <==>
            RefusedWithin(states, steps, i, m) || RefusedAt(states, steps, m)
  {
    hide RefusedAt, IsRun;
  }

  lemma PhaseStep(states: seq<State>, steps: seq<Step>, m: nat)
    requires IsRun(states, steps) && m < |steps| && !states[m + 1].lock.Free?
    requires states[m].lock.Offering? || states[m].lock.TakingBack?
    ensures states[m + 1].lock.Offering? || states[m + 1].lock.TakingBack?
    ensures states[m + 1].lock.TakingBack? <==> states[m].lock.TakingBack? || RefusedAt(states, steps, m)
  {
    StepOf(states, steps, m);
    OfferOrTakeBack(states[m], steps[m]);
    hide Apply, IsRun, V.Subscribe;
  }

  lemma CallBeginsOffering(states: seq<State>, steps: seq<Step>, i: nat, k: V.Key, pid: Pid)
    requires IsRun(states, steps) && i < |steps| && steps[i] == BeginSubscribe(k, pid) && !states[i + 1].lock.Free?
    ensures states[i + 1].lock.Offering? && !RefusedWithin(states, steps, i, i + 1)
  {
    StepOf(states, steps, i);
    hide IsRun, V.Subscribe;
  }

  lemma {:induction false} PhaseOfCall(states: seq<State>, steps: seq<Step>, i: nat, m: nat, j: nat, k: V.Key,
                                       pid: Pid)
    requires IsRun(states, steps) && i < m <= j < |steps| && OneCall(states, steps, i, j, k, pid)
    ensures states[m].lock.Offering? || states[m].lock.TakingBack?
    ensures states[m].lock.TakingBack? <==> RefusedWithin(states, steps, i, m)
  {
    hide IsRun, RefusedAt, RefusedWithin;
    if m == i + 1 {
      CallBeginsOffering(states, steps, i, k, pid);
    } else {
      PhaseOfCall(states, steps, i, m - 1, j, k, pid);
      PhaseStep(states, steps, m - 1);
      OneMoreVisit(states, steps, i, m - 1);
    }
  }

  /** A subscribe-for-all that comes to its end is refused exactly when some manager refused its visit. */
  lemma RefusedIffAManagerRefused(states: seq<State>, steps: seq<Step>, i: nat, j: nat, k: V.Key, pid: Pid)
    requires IsRun(states, steps) && i < j < |steps| && OneCall(states, steps, i, j, k, pid)
    requires states[j + 1].lock.Free?
    ensures steps[j] == TakeBackDone || steps[j] == OfferDone
    ensures steps[j] == TakeBackDone <==> RefusedWithin(states, steps, i, j)
  {
    PhaseOfCall(states, steps, i, j, j, k, pid);
    StepOf(states, steps, j);
    hide V.Subscribe, V.Unsubscribe, IsRun, RefusedWithin;
  }

  // ---- how an unsubscribe-for-all ends ----

  /** The call that begins at step `i` holds the lock up to step `j`. */
  ghost predicate OneDrop(states: seq<State>, steps: seq<Step>, i: nat, j: nat, k: V.Key)
    requires IsRun(states, steps) && i < j < |steps|
  {
    && steps[i] == BeginUnsubscribe(k)
    && forall m :: i < m <= j ==> !states[m].lock.Free?
  }

  /** How far an unsubscribe-for-all has got with a manager that was `v` when it began. */
  ghost predicate TracksDrop(s: State, u: User, v: V.View, k: V.Key, g: seq<GlobalSubscription>) {
    && u in s.managers && s.globals == g && s.lock.Dropping? && s.lock.entry < |g| && g[s.lock.entry].Key() == k
    && (u in s.lock.done || u in s.lock.todo) && !(u in s.lock.done && u in s.lock.todo)
    && s.managers[u] == if u in s.lock.done then V.Unsubscribe(v, k, true).0 else v
  }

  lemma StepTracksDrop(s: State, a: Step, u: User, v: V.View, k: V.Key, g: seq<GlobalSubscription>)
    requires Inv(s) && Enabled(s, a) && !Touches(a, u) && !Apply(s, a).lock.Free? && TracksDrop(s, u, v, k, g)
    ensures TracksDrop(Apply(s, a), u, v, k, g)
  {
    LegalId(s.globals, s.lock.entry);
    hide Inv, V.Subscribe;
  }

  /** The same for the list alone, whatever happens to the managers. */
  ghost predicate Drops(s: State, k: V.Key, g: seq<GlobalSubscription>) {
    s.globals == g && s.lock.Dropping? && s.lock.entry < |g| && g[s.lock.entry].Key() == k
  }

  lemma StepDrops(s: State, a: Step, k: V.Key, g: seq<GlobalSubscription>)
    requires Inv(s) && Enabled(s, a) && !Apply(s, a).lock.Free? && Drops(s, k, g)
    ensures Drops(Apply(s, a), k, g)
  {
    LegalId(s.globals, s.lock.entry);
    hide Inv, V.Subscribe;
  }

  lemma {:induction false} CallDrops(states: seq<State>, steps: seq<Step>, i: nat, m: nat, j: nat, k: V.Key)
    requires IsRun(states, steps) && i < m <= j < |steps| && OneDrop(states, steps, i, j, k)
    ensures Drops(states[m], k, Living(states[i].globals, states[i].dead))
  {
    hide Apply, Enabled, Inv, Drops;
    StepOf(states, steps, m - 1);
    if m == i + 1 {
      DropBegins(states, steps, i, k);
    } else {
      CallDrops(states, steps, i, m - 1, j, k);
      RunKeepsInv(states, steps, m - 1);
      StepDrops(states[m - 1], steps[m - 1], k, Living(states[i].globals, states[i].dead));
    }
  }

  lemma DropBegins(states: seq<State>, steps: seq<Step>, i: nat, k: V.Key)
    requires IsRun(states, steps) && i < |steps| && steps[i] == BeginUnsubscribe(k) && !states[i + 1].lock.Free?
    ensures var g := Living(states[i].globals, states[i].dead);
            && Drops(states[i + 1], k, g)
            && forall u :: u in states[i].managers ==> TracksDrop(states[i + 1], u, states[i].managers[u], k, g)
  {
    StepOf(states, steps, i);
    UnsubscribeBegins(states, steps, i, k);
  }

  lemma {:induction false} CallTracksDrop(states: seq<State>, steps: seq<Step>, i: nat, m: nat, j: nat, u: User,
                                          k: V.Key)
    requires IsRun(states, steps) && i < m <= j < |steps| && OneDrop(states, steps, i, j, k)
    requires u in states[i].managers && forall n :: i < n < j ==> !Touches(steps[n], u)
    ensures TracksDrop(states[m], u, states[i].managers[u], k, Living(states[i].globals, states[i].dead))
  {
    hide Apply, Enabled, Inv, TracksDrop;
    StepOf(states, steps, m - 1);
    if m == i + 1 {
      DropBegins(states, steps, i, k);
    } else {
      CallTracksDrop(states, steps, i, m - 1, j, u, k);
      RunKeepsInv(states, steps, m - 1);
      var g := Living(states[i].globals, states[i].dead);
      StepTracksDrop(states[m - 1], steps[m - 1], u, states[i].managers[u], k, g);
    }
  }

  /**
   An unsubscribe-for-all of a listed key ends by removing it: the key is gone from the list, whose other
   living entries stay, and from the foreground subscriptions of every live manager while its listener
   lives, whatever was interleaved.
   */
  lemma UnsubscribedEverywhere(states: seq<State>, steps: seq<Step>, i: nat, j: nat, k: V.Key)
    requires IsRun(states, steps) && i < j < |steps| && OneDrop(states, steps, i, j, k) && states[j + 1].lock.Free?
    ensures steps[j] == DropDone
    ensures var g := Living(states[i].globals, states[i].dead);
            && k in GlobalKeys(g) && GlobalKeys(states[j + 1].globals) == GlobalKeys(g) - {k}
            && forall e :: e in states[j + 1].globals <==> e in g && e.Key() != k
    ensures k.1 !in states[j + 1].dead ==> NobodyHolds(states[j + 1], k)
  {
    CallDrops(states, steps, i, j, j, k);
    RunKeepsInv(states, steps, j);
    var s, g := states[j], Living(states[i].globals, states[i].dead);
    StepOf(states, steps, j);
    DropOnlyEndsDone(s, steps[j], k, g);
    assert Replayable(g);
    EraseReplayable(g, s.lock.entry);
    ErasedEntries(g, s.lock.entry);
    RunKeepsInv(states, steps, j + 1);
    if k.1 !in states[j + 1].dead {
      UnlistedIsHeldByNobody(states[j + 1], k);
    }
  }

  ghost predicate NobodyHolds(s: State, k: V.Key) {
    forall u :: u in s.managers ==> k !in s.managers[u].foreground
  }

  lemma UnlistedIsHeldByNobody(s: State, k: V.Key)
    requires Inv(s) && s.lock.Free? && k.1 !in s.dead && k !in GlobalKeys(s.globals)
    ensures NobodyHolds(s, k)
  {
    forall u | u in s.managers ensures k !in s.managers[u].foreground {
      assert Agrees(s.managers[u], Expected(s, u), s.dead);
    }
  }

  lemma DropOnlyEndsDone(s: State, a: Step, k: V.Key, g: seq<GlobalSubscription>)
    requires Inv(s) && Enabled(s, a) && Drops(s, k, g) && Apply(s, a).lock.Free?
    ensures a == DropDone && Apply(s, a).managers == s.managers
    ensures Apply(s, a).globals == g[..s.lock.entry] + g[s.lock.entry + 1..]
  {
    LegalId(s.globals, s.lock.entry);
    hide Inv, V.Subscribe;
  }

  lemma ErasedEntries(g: seq<GlobalSubscription>, i: nat)
    requires DistinctKeys(g) && i < |g|
    ensures forall e :: e in g[..i] + g[i + 1..] <==> e in g && e.Key() != g[i].Key()
  {
    var r := g[..i] + g[i + 1..];
    assert forall j :: 0 <= j < |r| ==> r[j] == g[if j < i then j else j + 1];
    forall e | e in g && e.Key() != g[i].Key() ensures e in r {
      var j :| 0 <= j < |g| && g[j] == e;
      assert r[if j < i then j else j - 1] == e;
    }
  }

  /** At its end a manager that was otherwise left alone has exactly dropped the foreground subscription. */
  lemma DroppedExactly(states: seq<State>, steps: seq<Step>, i: nat, j: nat, u: User, k: V.Key)
    requires IsRun(states, steps) && i < j < |steps| && OneDrop(states, steps, i, j, k) && states[j + 1].lock.Free?
    requires u in states[i].managers && forall n :: i < n < j ==> !Touches(steps[n], u)
    ensures u in states[j + 1].managers && states[j + 1].managers[u] == V.Unsubscribe(states[i].managers[u], k, true).0
  {
    CallTracksDrop(states, steps, i, j, j, u, k);
    CallDrops(states, steps, i, j, j, k);
    RunKeepsInv(states, steps, j);
    StepOf(states, steps, j);
    DropOnlyEndsDone(states[j], steps[j], k, Living(states[i].globals, states[i].dead));
    hide Inv, V.Unsubscribe;
  }

  // ---- users that come and go ----

  /** An activation can begin for every user without a manager while the lock is free. */
  lemma ActivationBegins(s: State, u: User)
    requires s.lock.Free? && u !in s.managers
    ensures Enabled(s, BeginActivate(u))
    ensures var s' := Apply(s, BeginActivate(u));
            && s'.globals == Living(s.globals, s.dead) && s'.managers == s.managers && s'.dead == s.dead
            && s'.lock == Building(u, V.EMPTY, 0)
  {
  }

  /** Each replay step takes the next entry: a dead listener's is passed over, any other one becomes a
      foreground subscription of the new manager. */
  lemma ReplayAdvances(states: seq<State>, steps: seq<Step>, n: nat)
    requires IsRun(states, steps) && n < |states| && states[n].lock.Building?
    requires states[n].lock.next < |states[n].globals|
    ensures Enabled(states[n], ReplayOne)
    ensures var s, s' := states[n], Apply(states[n], ReplayOne);
            var e := s.globals[s.lock.next];
            && s'.lock.Building? && s'.lock.user == s.lock.user && s'.lock.next == s.lock.next + 1
            && s'.managers == s.managers && s'.globals == s.globals
            && s'.lock.view.direct == s.lock.view.direct
            && s'.lock.view.foreground == s.lock.view.foreground + if e.obj in s.dead then {} else {e.Key()}
  {
    RunKeepsInv(states, steps, n);
    ReplayFitsHere(states[n]);
    var s := states[n];
    var e := s.globals[s.lock.next];
    V.SubscribeKeepsValid(s.lock.view, e.Key(), true, e.pid);
    V.FlaggedMeaning(s.lock.view);
    V.FlaggedMeaning(V.Subscribe(s.lock.view, e.Key(), true, e.pid).0);
    hide V.Subscribe;
  }

  /** After the last entry the user is live: without direct subscriptions, holding for live listeners
      exactly the keys of the list, with all other managers as they were. */
  lemma ActivationEnds(states: seq<State>, steps: seq<Step>, n: nat)
    requires IsRun(states, steps) && n < |states| && states[n].lock.Building?
    requires states[n].lock.next == |states[n].globals|
    ensures Enabled(states[n], ActivateDone)
    ensures var s, s' := states[n], Apply(states[n], ActivateDone);
            var u := s.lock.user;
            && s'.lock.Free? && s'.globals == s.globals && u !in s.managers && u in s'.managers
            && s'.managers[u].direct == {} && Agrees(s'.managers[u], GlobalKeys(s.globals), s.dead)
            && s'.managers - {u} == s.managers
  {
    RunKeepsInv(states, steps, n);
    assert states[n].globals[..states[n].lock.next] == states[n].globals;
  }

  /** A stop takes out exactly the user's manager. */
  lemma StopTakesOut(s: State, u: User)
    requires u in s.managers && (s.lock.Free? || s.lock.Building?)
    ensures Enabled(s, Stop(u))
    ensures var s' := Apply(s, Stop(u));
            u !in s'.managers && s'.managers == s.managers - {u} && s'.globals == s.globals && s'.lock == s.lock
  {
  }

  // ---- direct calls and deaths ----

  /** Only one user's manager is different. */
  ghost predicate OnlyManagerChanged(s: State, s': State, u: User) {
    && u in s'.managers && s'.managers - {u} == s.managers - {u}
    && s'.globals == s.globals && s'.dead == s.dead && s'.lock == s.lock
  }

  /** A direct subscription adds exactly its key to the direct ones when its id is legal and the key is
      listed already or its process below the limit; a new key is charged to its process. */
  lemma DirectSubscribeWorks(states: seq<State>, steps: seq<Step>, n: nat, u: User, k: V.Key, pid: Pid)
    requires IsRun(states, steps) && n < |states| && u in states[n].managers
    ensures Enabled(states[n], DirectSubscribe(u, k, pid))
    ensures var s, s' := states[n], Apply(states[n], DirectSubscribe(u, k, pid));
            var v, v' := s.managers[u], s'.managers[u];
            && OnlyManagerChanged(s, s', u) && v'.foreground == v.foreground
            && (if CheckInputSysAbilityId(k.0) && (k in v.owner || V.Count(v.owner, pid) < MAX_SUBSCRIBE_COUNT)
                then v'.direct == v.direct + {k} && v'.owner == if k in v.owner then v.owner else v.owner[k := pid]
                else v' == v)
  {
    RunKeepsInv(states, steps, n);
    V.SubscribeKeepsValid(states[n].managers[u], k, false, pid);
  }

  /** A direct unsubscription removes exactly its key from the direct ones, and from the listed ones
      unless the foreground subscription holds it. */
  lemma DirectUnsubscribeWorks(states: seq<State>, steps: seq<Step>, n: nat, u: User, k: V.Key)
    requires IsRun(states, steps) && n < |states| && u in states[n].managers && CheckInputSysAbilityId(k.0)
    ensures Enabled(states[n], DirectUnsubscribe(u, k))
    ensures var s, s' := states[n], Apply(states[n], DirectUnsubscribe(u, k));
            var v, v' := s.managers[u], s'.managers[u];
            && OnlyManagerChanged(s, s', u) && v'.foreground == v.foreground && v'.direct == v.direct - {k}
            && v'.owner == if k in v.foreground then v.owner else v.owner - {k}
  {
  }

  /** The notice of a death takes exactly the listener's keys out of a manager. */
  lemma DeathNoticeWorks(s: State, u: User, o: Obj)
    requires u in s.managers && o in s.dead
    ensures Enabled(s, DeathNotice(u, o))
    ensures var s' := Apply(s, DeathNotice(u, o));
            var v, v' := s.managers[u], s'.managers[u];
            && OnlyManagerChanged(s, s', u)
            && (forall k :: k in v'.direct <==> k in v.direct && k.1 != o)
            && (forall k :: k in v'.foreground <==> k in v.foreground && k.1 != o)
            && (forall k :: k in v'.owner <==> k in v.owner && k.1 != o)
            && (forall k :: k in v'.owner ==> v'.owner[k] == v.owner[k])
  {
  }

  /** A death is never forgotten, and its notice also reaches a manager under construction. */
  lemma DeathReachesNewManager(s: State, o: Obj)
    ensures Enabled(s, Die(o)) && Apply(s, Die(o)).dead == s.dead + {o} && Apply(s, Die(o)).managers == s.managers
    ensures s.lock.Building? && o in s.dead ==>
              && Enabled(s, DeathNoticeWhileBuilding(o))
              && var lock := Apply(s, DeathNoticeWhileBuilding(o)).lock;
                 && lock.Building? && lock.user == s.lock.user && lock.next == s.lock.next
                 && (forall k :: k in lock.view.foreground <==> k in s.lock.view.foreground && k.1 != o)
                 && (forall k :: k in lock.view.owner <==> k in s.lock.view.owner && k.1 != o)
  {
  }
}
