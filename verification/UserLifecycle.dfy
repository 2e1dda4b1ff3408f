/**
 The manager of all user managers, one call at a time: user state changes, subscriptions made for
 all users with their rollback, and the replay of those subscriptions into a new user manager.
 `LifecycleProtocol` and `TwoLevel` treat the same operations step by step under interleaving.
 */
module UserLifecycle {
  import opened Common
  import opened ListenerTables
  import opened UserManagers
  import V = SubscriptionView

  /** One entry of the list of subscriptions made for all users. */
  datatype GlobalSubscription = GlobalSubscription(sa: Sa, obj: Obj, pid: Pid) {
    function Key(): V.Key { (sa, obj) }
  }

  function GlobalKeys(g: seq<GlobalSubscription>): set<V.Key> {
    set e | e in g :: e.Key()
  }

  /** Entries of the list made by process `pid`. */
  function PidCount(g: seq<GlobalSubscription>, pid: Pid): nat {
    if g == [] then 0 else (if g[0].pid == pid then 1 else 0) + PidCount(g[1..], pid)
  }

  ghost predicate DistinctKeys(g: seq<GlobalSubscription>) {
    forall i, j :: 0 <= i < j < |g| ==> g[i].Key() != g[j].Key()
  }

  /** What makes the list replayable: legal ids, no duplicates, every process within its quota. */
  ghost predicate Replayable(g: seq<GlobalSubscription>) {
    && DistinctKeys(g)
    && (forall e :: e in g ==> CheckInputSysAbilityId(e.sa))
    && (forall p :: PidCount(g, p) <= MAX_SUBSCRIBE_COUNT)
  }

  /** The list without the entries of dead listeners. */
  function Living(g: seq<GlobalSubscription>, dead: set<Obj>): seq<GlobalSubscription> {
    if g == [] then []
    else if g[0].obj in dead then Living(g[1..], dead)
    else [g[0]] + Living(g[1..], dead)
  }

  lemma {:induction false} LivingMeaning(g: seq<GlobalSubscription>, dead: set<Obj>, p: Pid)
    ensures forall e :: e in Living(g, dead) <==> e in g && e.obj !in dead
    ensures PidCount(Living(g, dead), p) <= PidCount(g, p)
    ensures DistinctKeys(g) ==> DistinctKeys(Living(g, dead))
  {
    if g != [] {
      LivingMeaning(g[1..], dead, p);
      var r := Living(g[1..], dead);
      assert ([g[0]] + r)[1..] == r;
      if DistinctKeys(g) && g[0].obj !in dead {
        forall j | 0 <= j < |r| ensures r[j].Key() != g[0].Key() {
          assert r[j] in g[1..];
        }
      }
    }
  }

  lemma LivingReplayable(g: seq<GlobalSubscription>, dead: set<Obj>)
    requires Replayable(g)
    ensures Replayable(Living(g, dead))
  {
    forall p ensures PidCount(Living(g, dead), p) <= MAX_SUBSCRIBE_COUNT { LivingMeaning(g, dead, p); }
    LivingMeaning(g, dead, 0);
  }

  lemma LivingKeys(g: seq<GlobalSubscription>, dead: set<Obj>)
    ensures forall k: V.Key :: k.1 !in dead ==> (k in GlobalKeys(Living(g, dead)) <==> k in GlobalKeys(g))
    ensures forall k: V.Key :: k in GlobalKeys(Living(g, dead)) ==> k.1 !in dead
  {
    LivingMeaning(g, dead, 0);
    forall k: V.Key | k in GlobalKeys(g) && k.1 !in dead ensures k in GlobalKeys(Living(g, dead)) {
      var e :| e in g && e.Key() == k;
      assert e in Living(g, dead);
    }
  }

  lemma {:induction false} PidCountAppend(a: seq<GlobalSubscription>, b: seq<GlobalSubscription>, p: Pid)
    ensures PidCount(a + b, p) == PidCount(a, p) + PidCount(b, p)
  {
    if a == [] {
      assert a + b == b;
    } else {
      PidCountAppend(a[1..], b, p);
      assert (a + b)[1..] == a[1..] + b;
    }
  }

  lemma AppendReplayable(g: seq<GlobalSubscription>, e: GlobalSubscription)
    requires Replayable(g) && e.Key() !in GlobalKeys(g) && CheckInputSysAbilityId(e.sa)
    requires PidCount(g, e.pid) < MAX_SUBSCRIBE_COUNT
    ensures Replayable(g + [e]) && GlobalKeys(g + [e]) == GlobalKeys(g) + {e.Key()}
  {
    forall p ensures PidCount(g + [e], p) <= MAX_SUBSCRIBE_COUNT {
      PidCountAppend(g, [e], p);
      assert PidCount([e], p) == if e.pid == p then 1 else 0;
      assert PidCount(g, p) <= MAX_SUBSCRIBE_COUNT;
    }
    forall i | 0 <= i < |g| ensures g[i].Key() != e.Key() {
      assert g[i].Key() in GlobalKeys(g);
    }
  }

  lemma EraseKeys(g: seq<GlobalSubscription>, i: int)
    requires DistinctKeys(g) && 0 <= i < |g|
    ensures var r := g[..i] + g[i + 1..];
            DistinctKeys(r) && GlobalKeys(r) == GlobalKeys(g) - {g[i].Key()}
  {
    var r := g[..i] + g[i + 1..];
    assert forall j :: 0 <= j < |r| ==> r[j] == g[if j < i then j else j + 1];
    forall k | k in GlobalKeys(g) && k != g[i].Key() ensures k in GlobalKeys(r) {
      var j :| 0 <= j < |g| && g[j].Key() == k;
      assert r[if j < i then j else j - 1] == g[j];
    }
  }

  lemma EraseReplayable(g: seq<GlobalSubscription>, i: int)
    requires Replayable(g) && 0 <= i < |g|
    ensures var r := g[..i] + g[i + 1..];
            Replayable(r) && GlobalKeys(r) == GlobalKeys(g) - {g[i].Key()}
  {
    EraseKeys(g, i);
    var r := g[..i] + g[i + 1..];
    forall p ensures PidCount(r, p) <= MAX_SUBSCRIBE_COUNT {
      PidCountAppend(g[..i], g[i + 1..], p);
      PidCountAppend(g[..i], g[i..], p);
      assert g[..i] + g[i..] == g && g[i..][1..] == g[i + 1..];
      assert PidCount(g, p) <= MAX_SUBSCRIBE_COUNT;
    }
  }

  /** A user manager's foreground subscriptions of live listeners are those of the global list. */
  ghost predicate Agrees(v: V.View, keys: set<V.Key>, dead: set<Obj>) {
    forall k: V.Key :: k.1 !in dead ==> (k in v.foreground <==> k in keys)
  }

  /** What a manager looks like after an accepted foreground subscription was taken back. */
  lemma RolledBack(v: V.View, k: V.Key, pid: Pid)
    requires V.Valid(v) && V.Subscribe(v, k, true, pid).1 == ErrOk
    ensures var w := V.Unsubscribe(V.Subscribe(v, k, true, pid).0, k, true).0;
            && w.foreground - {k} == v.foreground - {k}
            && (k !in v.foreground ==> w == v)
  {
    V.RollbackIsExact(v, k, true, pid);
    V.SubscribeKeepsValid(v, k, true, pid);
    V.UnsubscribeKeepsValid(V.Subscribe(v, k, true, pid).0, k, true);
  }

  lemma AgreesAfterSubscribe(v: V.View, keys: set<V.Key>, dead: set<Obj>, k: V.Key, pid: Pid)
    requires V.Valid(v) && Agrees(v, keys, dead) && V.Subscribe(v, k, true, pid).1 == ErrOk
    ensures Agrees(V.Subscribe(v, k, true, pid).0, keys + {k}, dead)
  {
    V.SubscribeKeepsValid(v, k, true, pid);
  }

  lemma AgreesAfterUnsubscribe(v: V.View, keys: set<V.Key>, dead: set<Obj>, k: V.Key)
    requires V.Valid(v) && Agrees(v, keys, dead) && CheckInputSysAbilityId(k.0)
    ensures Agrees(V.Unsubscribe(v, k, true).0, keys - {k}, dead)
  {
    V.UnsubscribeKeepsValid(v, k, true);
  }

  lemma LegalId(g: seq<GlobalSubscription>, i: nat)
    requires Replayable(g) && i < |g|
    ensures CheckInputSysAbilityId(g[i].sa)
  {
  }

  lemma AgreesAfterRefusal(v: V.View, w: V.View, keys: set<V.Key>, dead: set<Obj>, k: V.Key)
    requires Agrees(v, keys, dead) && w.foreground - {k} == v.foreground - {k}
    requires k.1 !in dead ==> w == v
    ensures Agrees(w, keys, dead)
  {
    forall q: V.Key | q.1 !in dead && k.1 in dead ensures q in w.foreground <==> q in v.foreground {
      assert q in w.foreground - {k} <==> q in v.foreground - {k};
    }
  }

  lemma SameOwnerSameCounts(a: map<Pid, int>, b: map<Pid, int>, owner: map<V.Key, Pid>)
    requires CountsExact(a, owner) && CountsExact(b, owner)
    ensures a == b
  {
    forall p | p in a.Keys ensures p in b.Keys { assert V.Count(owner, p) > 0; }
    forall p | p in b.Keys ensures p in a.Keys { assert V.Count(owner, p) > 0; }
    assert a.Keys <= b.Keys && b.Keys <= a.Keys;
    forall p | p in a ensures a[p] == b[p] { assert a[p] == V.Count(owner, p); }
  }

  // ---- replaying the global list into a new manager ----

  /** The state of a replay after the first `i` entries. */
  ghost predicate Replayed(v: V.View, g: seq<GlobalSubscription>, i: int, dead: set<Obj>,
                           restored: seq<GlobalSubscription>)
    requires 0 <= i <= |g|
  {
    && v.direct == {}
    && v.foreground == GlobalKeys(restored)
    && (forall e :: e in restored <==> e in g[..i] && e.obj !in dead)
    && (forall p :: V.Count(v.owner, p) <= PidCount(g[..i], p))
  }

  lemma EmptyReplay(v: V.View, g: seq<GlobalSubscription>, dead: set<Obj>)
    requires v == V.EMPTY
    ensures Replayed(v, g, 0, dead, [])
  {
    forall p ensures V.Count(v.owner, p) == 0 { assert V.Charged(v.owner, p) == {}; }
  }

  lemma PidCountSnoc(g: seq<GlobalSubscription>, i: int, p: Pid)
    requires 0 <= i < |g|
    ensures PidCount(g[..i + 1], p) == PidCount(g[..i], p) + if g[i].pid == p then 1 else 0
  {
    assert g[..i + 1] == g[..i] + [g[i]];
    PidCountAppend(g[..i], [g[i]], p);
    assert PidCount([g[i]], p) == if g[i].pid == p then 1 else 0;
  }

  lemma PidCountPrefix(g: seq<GlobalSubscription>, i: int, p: Pid)
    requires 0 <= i <= |g|
    ensures PidCount(g[..i], p) <= PidCount(g, p)
  {
    assert g == g[..i] + g[i..];
    PidCountAppend(g[..i], g[i..], p);
  }

  lemma ReplaySkips(v: V.View, g: seq<GlobalSubscription>, i: int, dead: set<Obj>, restored: seq<GlobalSubscription>)
    requires 0 <= i < |g| && Replayed(v, g, i, dead, restored) && g[i].obj in dead
    ensures Replayed(v, g, i + 1, dead, restored)
  {
    forall p ensures V.Count(v.owner, p) <= PidCount(g[..i + 1], p) { PidCountSnoc(g, i, p); }
    assert g[..i + 1] == g[..i] + [g[i]];
  }

  /** The quota invariant of the list is what makes each replayed entry find its count below the limit. */
  lemma ReplayFits(v: V.View, g: seq<GlobalSubscription>, i: int, dead: set<Obj>, restored: seq<GlobalSubscription>)
    requires 0 <= i < |g| && V.Valid(v) && Replayed(v, g, i, dead, restored) && Replayable(g)
    ensures V.Count(v.owner, g[i].pid) < MAX_SUBSCRIBE_COUNT
    ensures V.Subscribe(v, g[i].Key(), true, g[i].pid).1 == ErrOk
  {
    PidCountSnoc(g, i, g[i].pid);
    PidCountPrefix(g, i + 1, g[i].pid);
    assert PidCount(g, g[i].pid) <= MAX_SUBSCRIBE_COUNT;
    LegalId(g, i);
  }

  lemma ReplayCounts(v: V.View, k: V.Key, pid: Pid, p: Pid)
    requires V.Subscribe(v, k, true, pid).1 == ErrOk
    ensures V.Count(V.Subscribe(v, k, true, pid).0.owner, p) <= V.Count(v.owner, p) + if p == pid then 1 else 0
  {
    if k !in v.owner {
      V.CountAfterCharge(v.owner, k, pid, p);
    }
  }

  lemma RestoredOneMore(g: seq<GlobalSubscription>, i: int, dead: set<Obj>, restored: seq<GlobalSubscription>)
    requires 0 <= i < |g| && g[i].obj !in dead && forall e :: e in restored <==> e in g[..i] && e.obj !in dead
    ensures forall e :: e in restored + [g[i]] <==> e in g[..i + 1] && e.obj !in dead
    ensures GlobalKeys(restored + [g[i]]) == GlobalKeys(restored) + {g[i].Key()}
  {
    assert g[..i + 1] == g[..i] + [g[i]];
  }

  lemma ReplayStep(v: V.View, g: seq<GlobalSubscription>, i: int, dead: set<Obj>, restored: seq<GlobalSubscription>)
    requires 0 <= i < |g| && V.Valid(v) && Replayed(v, g, i, dead, restored) && g[i].obj !in dead
    ensures Replayable(g) ==> V.Subscribe(v, g[i].Key(), true, g[i].pid).1 == ErrOk
    ensures var (w, r) := V.Subscribe(v, g[i].Key(), true, g[i].pid);
            if r == ErrOk then Replayed(w, g, i + 1, dead, restored + [g[i]]) else w == v
  {
    if Replayable(g) {
      ReplayFits(v, g, i, dead, restored);
    }
    var (w, r) := V.Subscribe(v, g[i].Key(), true, g[i].pid);
    V.SubscribeKeepsValid(v, g[i].Key(), true, g[i].pid);
    V.FlaggedMeaning(v);
    V.FlaggedMeaning(w);
    hide V.Valid, V.Count, V.Subscribe, V.Flagged, PidCount, Replayable;
    if r == ErrOk {
      forall p ensures V.Count(w.owner, p) <= PidCount(g[..i + 1], p) {
        PidCountSnoc(g, i, p);
        ReplayCounts(v, g[i].Key(), g[i].pid, p);
        assert V.Count(v.owner, p) <= PidCount(g[..i], p);
      }
      RestoredOneMore(g, i, dead, restored);
    }
  }

  lemma ReplayDone(v: V.View, g: seq<GlobalSubscription>, dead: set<Obj>, restored: seq<GlobalSubscription>)
    requires Replayed(v, g, |g|, dead, restored)
    ensures v.direct == {} && Agrees(v, GlobalKeys(g), dead)
  {
    assert g[..|g|] == g;
    forall k: V.Key | k.1 !in dead ensures k in v.foreground <==> k in GlobalKeys(g) {
      if k in GlobalKeys(g) {
        var e :| e in g && e.Key() == k;
        assert e in restored;
      }
    }
  }

  lemma DroppedFromTheEnd(was: V.View, v: V.View, restored: seq<GlobalSubscription>, i: int, r: Err)
    requires 0 <= i < |restored| && V.Valid(was) && (v, r) == V.Unsubscribe(was, restored[i].Key(), true)
    requires was.direct == {} && was.foreground <= GlobalKeys(restored[..i + 1])
    ensures v.direct == {} && v.foreground <= GlobalKeys(restored[..i])
  {
    V.UnsubscribeKeepsValid(was, restored[i].Key(), true);
    V.FlaggedMeaning(was);
    V.FlaggedMeaning(v);
    GlobalKeysSnoc(restored, i);
    assert v.direct == {} && v.foreground <= was.foreground;
    assert restored[i].Key() !in v.foreground by {
      if r != ErrOk {
        assert restored[i].Key() !in was.owner.Keys;
      }
    }
  }

  lemma GlobalKeysSnoc(g: seq<GlobalSubscription>, i: int)
    requires 0 <= i < |g|
    ensures GlobalKeys(g[..i + 1]) == GlobalKeys(g[..i]) + {g[i].Key()}
  {
    assert g[..i + 1] == g[..i] + [g[i]];
  }

  class UserLifecycleManager {
    var managers: seq<UserManager>         // the values of multiUserManagers_, in iteration order
    var globals: seq<GlobalSubscription>   // globalSubscriptions_.systemAbilitySubscriptions

    /** Every manager is initialised and not yet destroyed, no user has two of them, and the global
        list can be replayed. */
    ghost predicate Valid()
      reads this, managers
    {
      && (forall m :: m in managers ==> m.Valid())
      && (forall i, j :: 0 <= i < j < |managers| ==> managers[i].userId != managers[j].userId)
      && Replayable(globals)
    }

    /** A live listener is in the global list for an ability iff every user manager holds its
        foreground subscription. */
    ghost predicate Coherent(dead: set<Obj>)
      reads this, managers
    {
      forall m :: m in managers ==> Agrees(m.View(), GlobalKeys(globals), dead)
    }

    /** No manager holds an expired object. */
    ghost predicate NoneGone(gone: set<Obj>)
      reads this, managers
    {
      forall m :: m in managers ==> NotHeld(m.T(), gone)
    }

    /** Every user manager would accept the foreground subscription. */
    ghost predicate AllAccept(k: V.Key, pid: Pid)
      reads this, managers
    {
      forall m :: m in managers ==> V.Subscribe(m.View(), k, true, pid).1 == ErrOk
    }

    /** Every user manager's subscriptions, listed keys and process counts are as they were. */
    twostate predicate AllAsBefore()
      reads this, managers
    {
      && managers == old(managers)
      && forall m :: m in managers ==> m.View() == old(m.View()) && m.counts == old(m.counts)
    }

    /** Every user manager holds the foreground subscription and nothing else changed. */
    twostate predicate AllSubscribed(k: V.Key, pid: Pid)
      reads this, managers
    {
      && managers == old(managers)
      && forall m :: m in managers ==> m.View() == V.Subscribe(old(m.View()), k, true, pid).0
    }

    /** Drops the entries of dead listeners, which no claim about live listeners depends on. */
    method RemoveExpiredGlobalSubscriptionsLocked(dead: set<Obj>)
      requires Valid() && Coherent(dead)
      modifies `globals
      ensures globals == Living(old(globals), dead)
      ensures Valid() && Coherent(dead)
    {
      hide UserManager.Valid, UserManager.View;
      globals := RemoveDead(globals, dead);
      LivingReplayable(old(globals), dead);
      LivingKeys(old(globals), dead);
    }

    static method RemoveDead(g: seq<GlobalSubscription>, dead: set<Obj>) returns (kept: seq<GlobalSubscription>)
      ensures kept == Living(g, dead)
    {
      kept := [];
      assert g[0..] == g;
      for i := 0 to |g|
        invariant Living(g, dead) == kept + Living(g[i..], dead)
      {
        assert g[i..][1..] == g[i + 1..];
        if g[i].obj !in dead {
          kept := kept + [g[i]];
        }
      }
    }

    /** Takes a foreground subscription back from the managers that accepted it, last one first. */
    method RollbackSaSubscribe(managers: seq<UserManager>, sa: Sa, o: Obj, gone: set<Obj>)
      requires forall i, j :: 0 <= i < j < |managers| ==> managers[i] != managers[j]
      requires forall m :: m in managers ==> m.Valid() && NotHeld(m.T(), gone)
      requires o !in gone
      modifies set m | m in managers
      ensures forall m :: m in managers ==> m.Valid() && m.View() == V.Unsubscribe(old(m.View()), (sa, o), true).0
    {
      hide *;
      var i := |managers|;
      while i > 0
        invariant 0 <= i <= |managers|
        invariant forall j :: 0 <= j < i ==> unchanged(managers[j])
        invariant forall j :: i <= j < |managers| ==>
                                && managers[j].Valid()
                                && managers[j].View() == V.Unsubscribe(old(managers[j].View()), (sa, o), true).0
      {
        i := i - 1;
        var _ := managers[i].UnSubscribeSystemAbility(sa, Some(o), true, gone);
      }
    }
  
    /**
     Offers a foreground subscription to every manager and takes it back from all of them when one
     refuses. It is accepted by all or by none, and after a refusal every manager that did not hold
     this foreground subscription before is exactly as it was.
     */
    method FanOutSubscribe(managers: seq<UserManager>, sa: Sa, o: Obj, pid: Pid, gone: set<Obj>) returns (r: Err)
      requires forall i, j :: 0 <= i < j < |managers| ==> managers[i] != managers[j]
      requires forall m :: m in managers ==> m.Valid() && NotHeld(m.T(), gone)
      requires o !in gone
      modifies set m | m in managers
      ensures forall m :: m in managers ==> m.Valid()
      ensures r == ErrOk <==> forall m :: m in managers ==> V.Subscribe(old(m.View()), (sa, o), true, pid).1 == ErrOk
      ensures r == ErrOk ==> forall m :: m in managers ==> m.View() == V.Subscribe(old(m.View()), (sa, o), true, pid).0
      ensures r != ErrOk ==> forall m :: m in managers && (sa, o) !in old(m.View()).foreground ==>
                                           m.View() == old(m.View()) && m.counts == old(m.counts)
      ensures r != ErrOk ==> forall m :: m in managers ==>
                                           m.View().foreground - {(sa, o)} == old(m.View()).foreground - {(sa, o)}
    {
      hide *;
      forall m | m in managers ensures V.Valid(old(m.View())) && CountsExact(old(m.counts), old(m.View()).owner) {
        m.ViewIsValid();
      }
      var i := 0;
      while i < |managers|
        invariant 0 <= i <= |managers|
        invariant forall j :: i <= j < |managers| ==> unchanged(managers[j])
        invariant forall j :: 0 <= j < i ==> managers[j].Valid() && NotHeld(managers[j].T(), gone)
        invariant forall j :: 0 <= j < i ==>
                                (managers[j].View(), ErrOk) == V.Subscribe(old(managers[j].View()), (sa, o), true, pid)
      {
        r := managers[i].SubscribeSystemAbilityWithPid(sa, Some(o), true, pid, gone);
        if r != ErrOk {
          V.SubscribeKeepsValid(old(managers[i].View()), (sa, o), true, pid);
          RollbackSaSubscribe(managers[..i], sa, o, gone);
          forall m | m in managers
            ensures m.Valid() && m.View().foreground - {(sa, o)} == old(m.View()).foreground - {(sa, o)}
            ensures (sa, o) !in old(m.View()).foreground ==> m.View() == old(m.View()) && m.counts == old(m.counts) {
            var j :| 0 <= j < |managers| && managers[j] == m;
            if j < i {
              assert m == managers[..i][j];
              RolledBack(old(m.View()), (sa, o), pid);
            }
            m.ViewIsValid();
            if m.View() == old(m.View()) {
              SameOwnerSameCounts(old(m.counts), m.counts, m.View().owner);
            }
          }
          return;
        }
        i := i + 1;
      }
      return ErrOk;
    }
  
    /** The place of an entry for this ability and listener, or the length of the list. */
    static method FindGlobal(g: seq<GlobalSubscription>, k: V.Key) returns (i: nat)
      ensures i <= |g|
      ensures i < |g| ==> g[i].Key() == k
      ensures i < |g| <==> k in GlobalKeys(g)
    {
      i := 0;
      while i < |g| && g[i].Key() != k
        invariant 0 <= i <= |g|
        invariant forall j :: 0 <= j < i ==> g[j].Key() != k
      {
        i := i + 1;
      }
      if i < |g| {
        assert g[i] in g;
      }
    }

    static method CountGlobal(g: seq<GlobalSubscription>, pid: Pid) returns (n: nat)
      ensures n == PidCount(g, pid)
    {
      n := 0;
      assert g[0..] == g;
      for i := 0 to |g|
        invariant PidCount(g, pid) == n + PidCount(g[i..], pid)
      {
        assert g[i..][1..] == g[i + 1..];
        if g[i].pid == pid {
          n := n + 1;
        }
      }
    }

    /** The part of subscribe-for-all after the checks of the global list. */
    method SubscribeNew(sa: Sa, o: Obj, pid: Pid, dead: set<Obj>, gone: set<Obj>) returns (r: Err)
      requires Valid() && Coherent(dead) && NoneGone(gone) && CheckInputSysAbilityId(sa) && o !in gone
      requires (sa, o) !in GlobalKeys(globals) && PidCount(globals, pid) < MAX_SUBSCRIBE_COUNT
      modifies `globals, managers
      ensures Valid() && Coherent(dead)
      ensures r == ErrOk <==> old(AllAccept((sa, o), pid))
      ensures globals == if r == ErrOk then old(globals) + [GlobalSubscription(sa, o, pid)] else old(globals)
      ensures r == ErrOk ==> AllSubscribed((sa, o), pid)
      ensures r != ErrOk && o !in dead ==> AllAsBefore()
    {
      hide UserManager.Valid, UserManager.View, UserManager.T, NotHeld, V.Subscribe, GlobalKeys, Replayable, PidCount;
      forall m | m in managers ensures V.Valid(m.View()) { m.ViewIsValid(); }
      r := FanOutSubscribe(managers, sa, o, pid, gone);
      if r == ErrOk {
        AppendReplayable(globals, GlobalSubscription(sa, o, pid));
        globals := globals + [GlobalSubscription(sa, o, pid)];
        forall m | m in managers ensures Agrees(m.View(), GlobalKeys(globals), dead) {
          AgreesAfterSubscribe(old(m.View()), GlobalKeys(old(globals)), dead, (sa, o), pid);
        }
      } else {
        forall m | m in managers ensures Agrees(m.View(), GlobalKeys(globals), dead) {
          AgreesAfterRefusal(old(m.View()), m.View(), GlobalKeys(globals), dead, (sa, o));
        }
      }
    }

    /**
     Subscribe-for-all is all or nothing. When it succeeds, every user manager has subscribed and
     the entry is in the global list; when it is refused for a live listener, every manager's
     direct and foreground subscriptions, listed keys and process counts are as before the call
     and the list gains nothing. The caller has checked the ability id
     (SystemAbilityManager::SubscribeSystemAbility).
     */
    method SubscribeSystemAbilityForAllUsers(sa: Sa, listener: Option<Obj>, pid: Pid, dead: set<Obj>, gone: set<Obj>)
        returns (r: Err)
      requires Valid() && Coherent(dead) && NoneGone(gone) && CheckInputSysAbilityId(sa)
      requires listener.Some? ==> listener.value !in gone
      modifies `globals, managers
      ensures Valid() && Coherent(dead)
      ensures listener.None? ==> r == InvalidValue && globals == old(globals) && AllAsBefore()
      ensures listener.Some? ==>
                var k := (sa, listener.value);
                var g := Living(old(globals), dead);
                if k in GlobalKeys(g) then r == ErrOk && globals == g && AllAsBefore()
                else
                  && (r == ErrOk <==> PidCount(g, pid) < MAX_SUBSCRIBE_COUNT && old(AllAccept(k, pid)))
                  && globals == (if r == ErrOk then g + [GlobalSubscription(sa, k.1, pid)] else g)
                  && (r == ErrOk ==> AllSubscribed(k, pid))
                  && (r != ErrOk && k.1 !in dead ==> AllAsBefore())
    {
      hide UserManager.Valid, UserManager.View, UserManager.T, NotHeld, V.Subscribe;
      hide GlobalKeys, Replayable, PidCount, Living, Agrees;
      if listener.None? {
        return InvalidValue;
      }
      var k := (sa, listener.value);
      RemoveExpiredGlobalSubscriptionsLocked(dead);
      var existing := FindGlobal(globals, k);
      if existing < |globals| {
        return ErrOk;
      }
      var subscriptionCount := CountGlobal(globals, pid);
      if subscriptionCount >= MAX_SUBSCRIBE_COUNT {
        return PermissionDenied;
      }
      r := SubscribeNew(sa, k.1, pid, dead, gone);
    }
  
    /** Gives a foreground subscription back to the managers that had dropped it, last one first. */
    method RollbackSaUnsubscribe(managers: seq<UserManager>, sa: Sa, o: Obj, pid: Pid, gone: set<Obj>)
      requires forall i, j :: 0 <= i < j < |managers| ==> managers[i] != managers[j]
      requires forall m :: m in managers ==> m.Valid() && NotHeld(m.T(), gone)
      requires o !in gone
      modifies set m | m in managers
      ensures forall m :: m in managers ==> m.Valid() && m.View() == V.Subscribe(old(m.View()), (sa, o), true, pid).0
    {
      hide *;
      var i := |managers|;
      while i > 0
        invariant 0 <= i <= |managers|
        invariant forall j :: 0 <= j < i ==> unchanged(managers[j])
        invariant forall j :: i <= j < |managers| ==>
                                && managers[j].Valid()
                                && managers[j].View() == V.Subscribe(old(managers[j].View()), (sa, o), true, pid).0
      {
        i := i - 1;
        var _ := managers[i].SubscribeSystemAbilityWithPid(sa, Some(o), true, pid, gone);
      }
    }

    /** Takes a foreground subscription away from every manager; refused only for an illegal id, and
        then by the first manager already. */
    method FanOutUnsubscribe(managers: seq<UserManager>, sa: Sa, o: Obj, pid: Pid, gone: set<Obj>) returns (r: Err)
      requires forall i, j :: 0 <= i < j < |managers| ==> managers[i] != managers[j]
      requires forall m :: m in managers ==> m.Valid() && NotHeld(m.T(), gone)
      requires o !in gone
      modifies set m | m in managers
      ensures forall m :: m in managers ==> m.Valid()
      ensures r == ErrOk <==> managers == [] || CheckInputSysAbilityId(sa)
      ensures forall m :: m in managers ==> m.View() == V.Unsubscribe(old(m.View()), (sa, o), true).0
    {
      hide *;
      forall m | m in managers ensures V.Valid(old(m.View())) { m.ViewIsValid(); }
      var i := 0;
      while i < |managers|
        invariant 0 <= i <= |managers|
        invariant i > 0 ==> CheckInputSysAbilityId(sa)
        invariant forall j :: i <= j < |managers| ==> unchanged(managers[j])
        invariant forall j :: 0 <= j < i ==> managers[j].Valid() && NotHeld(managers[j].T(), gone)
        invariant forall j :: 0 <= j < i ==>
                                managers[j].View() == V.Unsubscribe(old(managers[j].View()), (sa, o), true).0
      {
        r := managers[i].UnSubscribeSystemAbility(sa, Some(o), true, gone);
        V.UnsubscribeKeepsValid(old(managers[i].View()), (sa, o), true);
        if r != ErrOk {
          RollbackSaUnsubscribe(managers[..i], sa, o, pid, gone);
          forall m | m in managers ensures m.Valid() && m.View() == V.Unsubscribe(old(m.View()), (sa, o), true).0 {
            V.UnsubscribeKeepsValid(old(m.View()), (sa, o), true);
          }
          return;
        }
        i := i + 1;
      }
      return ErrOk;
    }

    /** Every user manager has dropped the foreground subscription and nothing else changed. */
    twostate predicate AllUnsubscribed(k: V.Key)
      reads this, managers
    {
      && managers == old(managers)
      && forall m :: m in managers ==> m.View() == V.Unsubscribe(old(m.View()), k, true).0
    }

    /** Unsubscribe-for-all succeeds for every listener: an entry of the list is taken out of the
        list and out of every user manager, keeping the direct subscriptions. */
    method UnSubscribeSystemAbilityForAllUsers(sa: Sa, listener: Option<Obj>, dead: set<Obj>, gone: set<Obj>)
        returns (r: Err)
      requires Valid() && Coherent(dead) && NoneGone(gone)
      requires listener.Some? ==> listener.value !in gone
      modifies `globals, managers
      ensures Valid() && Coherent(dead)
      ensures r == if listener.None? then InvalidValue else ErrOk
      ensures listener.None? ==> globals == old(globals) && AllAsBefore()
      ensures listener.Some? ==>
                var k := (sa, listener.value);
                var g := Living(old(globals), dead);
                && GlobalKeys(globals) == GlobalKeys(g) - {k}
                && (if k in GlobalKeys(g) then AllUnsubscribed(k) else AllAsBefore())
    {
      hide UserManager.Valid, UserManager.View, UserManager.T, NotHeld, V.Unsubscribe;
      hide GlobalKeys, Replayable, PidCount, Living, Agrees;
      if listener.None? {
        return InvalidValue;
      }
      var k := (sa, listener.value);
      RemoveExpiredGlobalSubscriptionsLocked(dead);
      var subscription := FindGlobal(globals, k);
      if subscription == |globals| {
        return ErrOk;
      }
      r := UnsubscribeEntry(subscription, dead, gone);
    }

    method UnsubscribeEntry(i: nat, dead: set<Obj>, gone: set<Obj>) returns (r: Err)
      requires Valid() && Coherent(dead) && NoneGone(gone)
      requires i < |globals| && globals[i].obj !in gone
      modifies `globals, managers
      ensures Valid() && Coherent(dead) && r == ErrOk
      ensures GlobalKeys(globals) == GlobalKeys(old(globals)) - {old(globals)[i].Key()}
      ensures AllUnsubscribed(old(globals)[i].Key())
    {
      var e := globals[i];
      LegalId(globals, i);
      hide UserManager.Valid, UserManager.View, UserManager.T, NotHeld, V.Unsubscribe, GlobalKeys, Replayable, PidCount;
      forall m | m in managers ensures V.Valid(m.View()) { m.ViewIsValid(); }
      r := FanOutUnsubscribe(managers, e.sa, e.obj, e.pid, gone);
      EraseReplayable(globals, i);
      globals := globals[..i] + globals[i + 1..];
      forall m | m in managers ensures Agrees(m.View(), GlobalKeys(globals), dead) {
        AgreesAfterUnsubscribe(old(m.View()), GlobalKeys(old(globals)), dead, e.Key());
      }
    }
  
    /** Undoes the replayed subscriptions of a new manager, last one first. */
    static method RollbackGlobalSubscriptions(m: UserManager, restored: seq<GlobalSubscription>, gone: set<Obj>)
      requires m.Valid() && NotHeld(m.T(), gone) && forall e :: e in restored ==> e.obj !in gone
      requires m.View().direct == {} && m.View().foreground <= GlobalKeys(restored)
      modifies m
      ensures m.Valid() && m.View() == V.EMPTY
    {
      hide UserManager.Valid, UserManager.View, UserManager.T, NotHeld, V.Unsubscribe;
      var i := |restored|;
      assert restored[..i] == restored;
      while i > 0
        invariant 0 <= i <= |restored| && m.Valid() && NotHeld(m.T(), gone)
        invariant m.View().direct == {} && m.View().foreground <= GlobalKeys(restored[..i])
      {
        i := i - 1;
        var e := restored[i];
        m.ViewIsValid();
        V.UnsubscribeKeepsValid(m.View(), e.Key(), true);
        ghost var was := m.View();
        var result := m.UnSubscribeSystemAbility(e.sa, Some(e.obj), true, gone);
        DroppedFromTheEnd(was, m.View(), restored, i, result);
      }
      m.ViewIsValid();
      assert m.View().owner == map[];
    }

    /**
     Replays the global subscriptions into a new manager. The abilities of a list that is replayable
     are never refused, so the result is that of the process subscriptions (`processResult`, the part
     kept by the state scheduler), and after success the manager agrees with the list; after a refusal
     the manager is empty again.
     */
    static method InitGlobalSubscriptions(m: UserManager, subscriptions: seq<GlobalSubscription>,
                                          processResult: Err, dead: set<Obj>, gone: set<Obj>) returns (r: Err)
      requires m.Valid() && m.View() == V.EMPTY && gone <= dead
      modifies m
      ensures m.Valid()
      ensures Replayable(subscriptions) ==> r == processResult
      ensures r == ErrOk ==> processResult == ErrOk
      ensures r == ErrOk ==> m.View().direct == {} && Agrees(m.View(), GlobalKeys(subscriptions), dead)
      ensures r != ErrOk ==> m.View() == V.EMPTY
    {
      hide UserManager.Valid, UserManager.View, UserManager.T, V.Subscribe, PidCount, Replayable, GlobalKeys, Agrees;
      var restored: seq<GlobalSubscription> := [];
      EmptyReplay(m.View(), subscriptions, dead);
      assert NotHeld(m.T(), gone) by { m.OwnerView(); }
      for i := 0 to |subscriptions|
        invariant m.Valid() && NotHeld(m.T(), gone)
        invariant Replayed(m.View(), subscriptions, i, dead, restored)
      {
        var e := subscriptions[i];
        if e.obj in dead {
          ReplaySkips(m.View(), subscriptions, i, dead, restored);
          continue;
        }
        m.ViewIsValid();
        ghost var was := m.View();
        r := m.SubscribeSystemAbilityWithPid(e.sa, Some(e.obj), true, e.pid, gone);
        ReplayStep(was, subscriptions, i, dead, restored);
        if r != ErrOk {
          RollbackGlobalSubscriptions(m, restored, gone);
          return;
        }
        restored := restored + [e];
      }
      r := processResult;
      if r != ErrOk {
        RollbackGlobalSubscriptions(m, restored, gone);
        return;
      }
      ReplayDone(m.View(), subscriptions, dead, restored);
    }
  
    method HasManager(userId: User) returns (found: bool)
      ensures found <==> exists m :: m in managers && m.userId == userId
    {
      for i := 0 to |managers|
        invariant forall j :: 0 <= j < i ==> managers[j].userId != userId
      {
        if managers[i].userId == userId {
          return true;
        }
      }
      return false;
    }

    /**
     Activating a user. A user that is being stopped is refused and one that has a manager is left
     alone. Otherwise a new manager replays the global list and joins the others, in agreement with
     the list; as the replay of ability subscriptions is never refused, this fails only if the profiles
     are missing or the process subscriptions fail, and then nothing but the purge of dead entries has
     happened. The source's second
     look for a manager, which never finds one, is part of the step system of the lifecycle.
     */
    method HandleUserActivating(userId: User, stopping: bool, profiles: bool, processResult: Err, dead: set<Obj>,
                                gone: set<Obj>) returns (r: Err)
      requires Valid() && Coherent(dead) && gone <= dead
      modifies `globals, `managers
      ensures Valid() && Coherent(dead)
      ensures stopping ==> r == InvalidOperation
      ensures !stopping && old(exists m :: m in managers && m.userId == userId) ==> r == ErrOk
      ensures if stopping || old(exists m :: m in managers && m.userId == userId)
              then globals == old(globals) && managers == old(managers)
              else && globals == Living(old(globals), dead) && Joined(userId, r)
                   && r == if profiles then processResult else InvalidValue
    {
      hide UserManager.Valid, UserManager.View, Replayable, Agrees, Living, GlobalKeys;
      if stopping {
        return InvalidOperation;
      }
      var found := HasManager(userId);
      if found {
        return ErrOk;
      }
      RemoveExpiredGlobalSubscriptionsLocked(dead);
      if !profiles {
        return InvalidValue;
      }
      var mgr := new UserManager(userId);
      assert forall m :: m in managers ==> m != mgr;
      r := InitGlobalSubscriptions(mgr, globals, processResult, dead, gone);
      if r != ErrOk {
        mgr.Destroy();
        return;
      }
      managers := managers + [mgr];
      assert forall m :: m in managers ==> m in old(managers) || m == mgr;
    }

    /** After success the user has a new manager without direct subscriptions, besides the others. */
    twostate predicate Joined(userId: User, r: Err)
      reads this, managers
    {
      if r == ErrOk
      then && |managers| == |old(managers)| + 1 && managers[..|managers| - 1] == old(managers)
           && fresh(managers[|managers| - 1]) && managers[|managers| - 1].userId == userId
           && managers[|managers| - 1].View().direct == {}
      else managers == old(managers)
    }

    /** Stopping a user takes its manager out; the other managers are not touched. */
    method DetachUser(i: nat) returns (mgr: UserManager)
      requires Valid() && i < |managers|
      modifies `managers
      ensures Valid() && mgr == old(managers)[i] && managers == old(managers)[..i] + old(managers)[i + 1..]
      ensures forall dead :: old(Coherent(dead)) ==> Coherent(dead)
    {
      hide UserManager.Valid, UserManager.View, Replayable, Agrees, GlobalKeys;
      mgr := managers[i];
      managers := managers[..i] + managers[i + 1..];
      assert forall m :: m in managers ==> m in old(managers);
    }
  }
}
