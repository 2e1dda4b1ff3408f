/**
 Subscriptions for all users under interleaving. The global subscription lock serialises
 subscribe-for-all, unsubscribe-for-all and activation, but while one of them visits the user
 managers one by one, direct subscriptions, direct unsubscriptions, deaths of listeners and their
 notices happen between the visits. Each manager-level operation is one step. The fan-outs also hold
 the user-state lock shared, so no user joins or leaves during them; a replay does not hold it.
 */
module TwoLevel {
  import opened Common
  import opened UserLifecycle
  import V = SubscriptionView

  /** Who holds the global subscription lock, and how far it got. */
  datatype Lock =
    | Free
    | Offering(k: V.Key, pid: Pid, done: set<User>, todo: set<User>)
    | TakingBack(k: V.Key, todo: set<User>)
    | Dropping(entry: nat, done: set<User>, todo: set<User>)
    | Restoring(k: V.Key, pid: Pid, todo: set<User>)
    | Building(user: User, view: V.View, next: nat)

  datatype State = State(
    globals: seq<GlobalSubscription>,
    managers: map<User, V.View>,
    dead: set<Obj>,
    lock: Lock,
    replayRefused: bool)

  datatype Step =
    | BeginSubscribe(k: V.Key, pid: Pid)
    | OfferOne(u: User)
    | OfferDone
    | TakeBackOne(u: User)
    | TakeBackDone
    | BeginUnsubscribe(k: V.Key)
    | DropOne(u: User)
    | DropDone
    | RestoreOne(u: User)
    | RestoreDone
    | BeginActivate(u: User)
    | ReplayOne
    | ActivateDone
    | ActivateFail
    | Stop(u: User)
    | DirectSubscribe(u: User, k: V.Key, pid: Pid)
    | DirectUnsubscribe(u: User, k: V.Key)
    | Die(o: Obj)
    | DeathNotice(u: User, o: Obj)
    | DeathNoticeWhileBuilding(o: Obj)

  predicate Init(s: State) {
    s == State([], map[], {}, Free, false)
  }

  function IndexOfKey(g: seq<GlobalSubscription>, k: V.Key): (i: nat)
    ensures i <= |g|
    ensures i < |g| ==> g[i].Key() == k
    ensures i == |g| ==> k !in GlobalKeys(g)
  {
    if g == [] then 0 else if g[0].Key() == k then 0 else 1 + IndexOfKey(g[1..], k)
  }

  /** When a step can happen. `BeginSubscribe` follows the id check of the calling layer. */
  predicate Enabled(s: State, a: Step) {
    match a
    case BeginSubscribe(k, _) => s.lock.Free? && CheckInputSysAbilityId(k.0)
    case OfferOne(u) => s.lock.Offering? && u in s.lock.todo && u in s.managers
    case OfferDone => s.lock.Offering? && s.lock.todo == {}
    case TakeBackOne(u) => s.lock.TakingBack? && u in s.lock.todo && u in s.managers
    case TakeBackDone => s.lock.TakingBack? && s.lock.todo == {}
    case BeginUnsubscribe(_) => s.lock.Free?
    case DropOne(u) => s.lock.Dropping? && s.lock.entry < |s.globals| && u in s.lock.todo && u in s.managers
    case DropDone => s.lock.Dropping? && s.lock.entry < |s.globals| && s.lock.todo == {}
    case RestoreOne(u) => s.lock.Restoring? && u in s.lock.todo && u in s.managers
    case RestoreDone => s.lock.Restoring? && s.lock.todo == {}
    case BeginActivate(u) => s.lock.Free? && u !in s.managers
    case ReplayOne => s.lock.Building? && s.lock.next < |s.globals|
    case ActivateDone => s.lock.Building? && s.lock.next >= |s.globals|
    case ActivateFail => s.lock.Building? && s.lock.next >= |s.globals|
    case Stop(u) => (s.lock.Free? || s.lock.Building?) && u in s.managers
    case DirectSubscribe(u, _, _) => u in s.managers
    case DirectUnsubscribe(u, _) => u in s.managers
    case Die(_) => true
    case DeathNotice(u, o) => u in s.managers && o in s.dead
    case DeathNoticeWhileBuilding(o) => s.lock.Building? && o in s.dead
  }

  function Put(s: State, u: User, v: V.View): State {
    s.(managers := s.managers[u := v])
  }

  function AfterBeginSubscribe(s: State, k: V.Key, pid: Pid): State {
    var g := Living(s.globals, s.dead);
    if IndexOfKey(g, k) < |g| || PidCount(g, pid) >= MAX_SUBSCRIBE_COUNT then s.(globals := g)
    else s.(globals := g, lock := Offering(k, pid, {}, s.managers.Keys))
  }

  function AfterOfferOne(s: State, u: User): State
    requires Enabled(s, OfferOne(u))
  {
    var Offering(k, pid, done, todo) := s.lock;
    var (v, r) := V.Subscribe(s.managers[u], k, true, pid);
    Put(s, u, v).(lock := if r == ErrOk then Offering(k, pid, done + {u}, todo - {u}) else TakingBack(k, done))
  }

  function AfterDropOne(s: State, u: User): State
    requires Enabled(s, DropOne(u))
  {
    var Dropping(i, done, todo) := s.lock;
    var e := s.globals[i];
    var (v, r) := V.Unsubscribe(s.managers[u], e.Key(), true);
    Put(s, u, v).(lock := if r == ErrOk then Dropping(i, done + {u}, todo - {u}) else Restoring(e.Key(), e.pid, done))
  }

  function AfterReplayOne(s: State): State
    requires Enabled(s, ReplayOne)
  {
    var Building(user, view, next) := s.lock;
    var e := s.globals[next];
    if e.obj in s.dead then s.(lock := Building(user, view, next + 1))
    else
      var (v, r) := V.Subscribe(view, e.Key(), true, e.pid);
      if r == ErrOk then s.(lock := Building(user, v, next + 1)) else s.(lock := Free, replayRefused := true)
  }

  function Apply(s: State, a: Step): State
    requires Enabled(s, a)
  {
    match a
    case BeginSubscribe(k, pid) => AfterBeginSubscribe(s, k, pid)
    case OfferOne(u) => AfterOfferOne(s, u)
    case OfferDone =>
      s.(globals := s.globals + [GlobalSubscription(s.lock.k.0, s.lock.k.1, s.lock.pid)], lock := Free)
    case TakeBackOne(u) =>
      Put(s, u, V.Unsubscribe(s.managers[u], s.lock.k, true).0).(lock := TakingBack(s.lock.k, s.lock.todo - {u}))
    case TakeBackDone => s.(lock := Free)
    case BeginUnsubscribe(k) =>
      var g := Living(s.globals, s.dead);
      var i := IndexOfKey(g, k);
      s.(globals := g, lock := if i < |g| then Dropping(i, {}, s.managers.Keys) else Free)
    case DropOne(u) => AfterDropOne(s, u)
    case DropDone =>
      s.(globals := s.globals[..s.lock.entry] + s.globals[s.lock.entry + 1..], lock := Free)
    case RestoreOne(u) =>
      Put(s, u, V.Subscribe(s.managers[u], s.lock.k, true, s.lock.pid).0)
      .(lock := Restoring(s.lock.k, s.lock.pid, s.lock.todo - {u}))
    case RestoreDone => s.(lock := Free)
    case BeginActivate(u) => s.(globals := Living(s.globals, s.dead), lock := Building(u, V.EMPTY, 0))
    case ReplayOne => AfterReplayOne(s)
    case ActivateDone => Put(s, s.lock.user, s.lock.view).(lock := Free)
    case ActivateFail => s.(lock := Free)
    case Stop(u) => s.(managers := s.managers - {u})
    case DirectSubscribe(u, k, pid) => Put(s, u, V.Subscribe(s.managers[u], k, false, pid).0)
    case DirectUnsubscribe(u, k) => Put(s, u, V.Unsubscribe(s.managers[u], k, false).0)
    case Die(o) => s.(dead := s.dead + {o})
    case DeathNotice(u, o) => Put(s, u, V.DropListener(s.managers[u], o))
    case DeathNoticeWhileBuilding(o) =>
      s.(lock := Building(s.lock.user, V.DropListener(s.lock.view, o), s.lock.next))
  }

  /** A run from the empty system; any enabled step may come next. */
  ghost predicate IsRun(states: seq<State>, steps: seq<Step>) {
    && |states| == |steps| + 1
    && Init(states[0])
    && forall i :: 0 <= i < |steps| ==> Enabled(states[i], steps[i]) && states[i + 1] == Apply(states[i], steps[i])
  }

  /** The keys a user manager's foreground subscriptions should be at this point of the fan-out. */
  ghost function Expected(s: State, u: User): set<V.Key> {
    var keys := GlobalKeys(s.globals);
    match s.lock
    case Free => keys
    case Offering(k, _, done, _) => if u in done then keys + {k} else keys
    case TakingBack(k, todo) => if u in todo then keys + {k} else keys
    case Dropping(i, done, _) => if u in done && i < |s.globals| then keys - {s.globals[i].Key()} else keys
    case Restoring(_, _, _) => keys
    case Building(_, _, _) => keys
  }

  ghost predicate ManagersAgree(s: State) {
    forall u :: u in s.managers ==> V.Valid(s.managers[u]) && Agrees(s.managers[u], Expected(s, u), s.dead)
  }

  /** The manager under construction has replayed the first `next` entries, for live listeners. */
  ghost predicate BuildInv(v: V.View, g: seq<GlobalSubscription>, next: nat, dead: set<Obj>) {
    && next <= |g|
    && V.Valid(v)
    && v.direct == {}
    && Agrees(v, GlobalKeys(g[..next]), dead)
    && v.foreground <= GlobalKeys(g[..next])
    && (forall p :: V.Count(v.owner, p) <= PidCount(g[..next], p))
  }

  ghost predicate LockInv(s: State) {
    match s.lock
    case Free => true
    case Offering(k, pid, done, todo) =>
      && CheckInputSysAbilityId(k.0) && k !in GlobalKeys(s.globals)
      && PidCount(s.globals, pid) < MAX_SUBSCRIBE_COUNT
      && (forall u :: u in s.managers ==> u in done || u in todo)
      && (forall u :: u in done ==> u !in todo)
    case TakingBack(k, todo) => CheckInputSysAbilityId(k.0) && k !in GlobalKeys(s.globals)
    case Dropping(i, done, todo) =>
      && i < |s.globals|
      && (forall u :: u in s.managers ==> u in done || u in todo)
      && (forall u :: u in done ==> u !in todo)
    case Restoring(_, _, _) => false
    case Building(u, v, next) => u !in s.managers && BuildInv(v, s.globals, next, s.dead)
  }

  ghost predicate Inv(s: State) {
    Replayable(s.globals) && !s.replayRefused && LockInv(s) && ManagersAgree(s)
  }

  // ---- what single steps do to a manager's agreement with the list ----

  lemma AgreesWhenMoreDie(v: V.View, keys: set<V.Key>, dead: set<Obj>, o: Obj)
    requires Agrees(v, keys, dead)
    ensures Agrees(v, keys, dead + {o})
  {
  }

  lemma AgreesAfterDirect(v: V.View, keys: set<V.Key>, dead: set<Obj>, k: V.Key, pid: Pid)
    requires V.Valid(v) && Agrees(v, keys, dead)
    ensures V.Valid(V.Subscribe(v, k, false, pid).0) && Agrees(V.Subscribe(v, k, false, pid).0, keys, dead)
    ensures V.Valid(V.Unsubscribe(v, k, false).0) && Agrees(V.Unsubscribe(v, k, false).0, keys, dead)
  {
    V.SubscribeKeepsValid(v, k, false, pid);
    V.UnsubscribeKeepsValid(v, k, false);
  }

  lemma AgreesAfterNotice(v: V.View, keys: set<V.Key>, dead: set<Obj>, o: Obj)
    requires V.Valid(v) && Agrees(v, keys, dead) && o in dead
    ensures V.Valid(V.DropListener(v, o)) && Agrees(V.DropListener(v, o), keys, dead)
  {
    V.DropListenerKeepsValid(v, o);
  }

  lemma AgreesAfterPurge(v: V.View, g: seq<GlobalSubscription>, dead: set<Obj>)
    requires Agrees(v, GlobalKeys(g), dead)
    ensures Agrees(v, GlobalKeys(Living(g, dead)), dead)
  {
    LivingKeys(g, dead);
  }

  /** A step that changes one manager and keeps it valid and in agreement keeps all of them so. */
  lemma PutKeepsAgreement(s: State, t: State, u: User, v: V.View)
    requires ManagersAgree(s) && u in s.managers
    requires t.managers == s.managers[u := v] && t.dead == s.dead
    requires forall w :: w in s.managers && w != u ==> Expected(t, w) == Expected(s, w)
    requires V.Valid(v) && Agrees(v, Expected(t, u), s.dead)
    ensures ManagersAgree(t)
  {
  }

  // ---- every step keeps the invariant ----

  lemma BeginSubscribeKeeps(s: State, k: V.Key, pid: Pid)
    requires Inv(s) && Enabled(s, BeginSubscribe(k, pid))
    ensures Inv(Apply(s, BeginSubscribe(k, pid)))
  {
    LivingReplayable(s.globals, s.dead);
    forall u | u in s.managers ensures Agrees(s.managers[u], GlobalKeys(Living(s.globals, s.dead)), s.dead) {
      AgreesAfterPurge(s.managers[u], s.globals, s.dead);
    }
  }

  lemma BeginUnsubscribeKeeps(s: State, k: V.Key)
    requires Inv(s) && Enabled(s, BeginUnsubscribe(k))
    ensures Inv(Apply(s, BeginUnsubscribe(k)))
  {
    LivingReplayable(s.globals, s.dead);
    forall u | u in s.managers ensures Agrees(s.managers[u], GlobalKeys(Living(s.globals, s.dead)), s.dead) {
      AgreesAfterPurge(s.managers[u], s.globals, s.dead);
    }
  }

  lemma BeginActivateKeeps(s: State, u: User)
    requires Inv(s) && Enabled(s, BeginActivate(u))
    ensures Inv(Apply(s, BeginActivate(u)))
  {
    LivingReplayable(s.globals, s.dead);
    forall w | w in s.managers ensures Agrees(s.managers[w], GlobalKeys(Living(s.globals, s.dead)), s.dead) {
      AgreesAfterPurge(s.managers[w], s.globals, s.dead);
    }
    forall p ensures V.Count(V.EMPTY.owner, p) == 0 { assert V.Charged(V.EMPTY.owner, p) == {}; }
    assert Living(s.globals, s.dead)[..0] == [];
    assert V.Valid(V.EMPTY);
  }

  lemma OfferOneKeeps(s: State, u: User)
    requires Inv(s) && Enabled(s, OfferOne(u))
    ensures Inv(Apply(s, OfferOne(u)))
  {
    var Offering(k, pid, done, todo) := s.lock;
    var t := Apply(s, OfferOne(u));
    V.SubscribeKeepsValid(s.managers[u], k, true, pid);
    if V.Subscribe(s.managers[u], k, true, pid).1 == ErrOk {
      AgreesAfterSubscribe(s.managers[u], GlobalKeys(s.globals), s.dead, k, pid);
    }
    PutKeepsAgreement(s, t, u, V.Subscribe(s.managers[u], k, true, pid).0);
  }

  lemma OfferDoneKeeps(s: State)
    requires Inv(s) && Enabled(s, OfferDone)
    ensures Inv(Apply(s, OfferDone))
  {
    AppendReplayable(s.globals, GlobalSubscription(s.lock.k.0, s.lock.k.1, s.lock.pid));
  }

  lemma TakeBackOneKeeps(s: State, u: User)
    requires Inv(s) && Enabled(s, TakeBackOne(u))
    ensures Inv(Apply(s, TakeBackOne(u)))
  {
    var k := s.lock.k;
    var t := Apply(s, TakeBackOne(u));
    V.UnsubscribeKeepsValid(s.managers[u], k, true);
    AgreesAfterUnsubscribe(s.managers[u], GlobalKeys(s.globals) + {k}, s.dead, k);
    assert GlobalKeys(s.globals) + {k} - {k} == GlobalKeys(s.globals);
    PutKeepsAgreement(s, t, u, V.Unsubscribe(s.managers[u], k, true).0);
  }

  lemma DropOneKeeps(s: State, u: User)
    requires Inv(s) && Enabled(s, DropOne(u))
    ensures Inv(Apply(s, DropOne(u)))
  {
    var Dropping(i, done, todo) := s.lock;
    var k := s.globals[i].Key();
    var t := Apply(s, DropOne(u));
    LegalId(s.globals, i);
    V.UnsubscribeKeepsValid(s.managers[u], k, true);
    AgreesAfterUnsubscribe(s.managers[u], GlobalKeys(s.globals), s.dead, k);
    PutKeepsAgreement(s, t, u, V.Unsubscribe(s.managers[u], k, true).0);
  }

  lemma DropDoneKeeps(s: State)
    requires Inv(s) && Enabled(s, DropDone)
    ensures Inv(Apply(s, DropDone))
  {
    EraseReplayable(s.globals, s.lock.entry);
  }

  lemma ReplayFitsHere(s: State)
    requires Inv(s) && Enabled(s, ReplayOne)
    ensures var e := s.globals[s.lock.next];
            V.Subscribe(s.lock.view, e.Key(), true, e.pid).1 == ErrOk
  {
    var g, i := s.globals, s.lock.next;
    PidCountSnoc(g, i, g[i].pid);
    PidCountPrefix(g, i + 1, g[i].pid);
    assert PidCount(g, g[i].pid) <= MAX_SUBSCRIBE_COUNT;
    assert V.Count(s.lock.view.owner, g[i].pid) <= PidCount(g[..i], g[i].pid);
    LegalId(g, i);
  }

  lemma BuildInvSubscribes(v: V.View, g: seq<GlobalSubscription>, i: nat, dead: set<Obj>)
    requires BuildInv(v, g, i, dead) && i < |g| && g[i].obj !in dead
    requires V.Subscribe(v, g[i].Key(), true, g[i].pid).1 == ErrOk
    ensures BuildInv(V.Subscribe(v, g[i].Key(), true, g[i].pid).0, g, i + 1, dead)
  {
    var k, pid := g[i].Key(), g[i].pid;
    var w := V.Subscribe(v, k, true, pid).0;
    V.SubscribeKeepsValid(v, k, true, pid);
    AgreesAfterSubscribe(v, GlobalKeys(g[..i]), dead, k, pid);
    GlobalKeysSnoc(g, i);
    forall p ensures V.Count(w.owner, p) <= PidCount(g[..i + 1], p) {
      PidCountSnoc(g, i, p);
      ReplayCounts(v, k, pid, p);
      assert V.Count(v.owner, p) <= PidCount(g[..i], p);
    }
  }

  lemma BuildInvSkips(v: V.View, g: seq<GlobalSubscription>, i: nat, dead: set<Obj>)
    requires BuildInv(v, g, i, dead) && i < |g| && g[i].obj in dead
    ensures BuildInv(v, g, i + 1, dead)
  {
    GlobalKeysSnoc(g, i);
    forall p ensures V.Count(v.owner, p) <= PidCount(g[..i + 1], p) {
      PidCountSnoc(g, i, p);
      assert V.Count(v.owner, p) <= PidCount(g[..i], p);
    }
  }

  lemma BuildInvNotices(v: V.View, g: seq<GlobalSubscription>, i: nat, dead: set<Obj>, o: Obj)
    requires BuildInv(v, g, i, dead) && o in dead
    ensures BuildInv(V.DropListener(v, o), g, i, dead)
  {
    AgreesAfterNotice(v, GlobalKeys(g[..i]), dead, o);
    forall p ensures V.Count(V.DropListener(v, o).owner, p) <= PidCount(g[..i], p) {
      V.CountMonotone(v.owner, V.DropListener(v, o).owner, p);
      assert V.Count(v.owner, p) <= PidCount(g[..i], p);
    }
  }

  lemma ReplayOneKeeps(s: State)
    requires Inv(s) && Enabled(s, ReplayOne)
    ensures Inv(Apply(s, ReplayOne))
  {
    ReplayFitsHere(s);
    var Building(user, view, next) := s.lock;
    if s.globals[next].obj in s.dead {
      BuildInvSkips(view, s.globals, next, s.dead);
    } else {
      BuildInvSubscribes(view, s.globals, next, s.dead);
    }
  }

  lemma ActivateDoneKeeps(s: State)
    requires Inv(s) && Enabled(s, ActivateDone)
    ensures Inv(Apply(s, ActivateDone))
  {
    assert s.globals[..s.lock.next] == s.globals;
  }

  lemma DirectStepsKeep(s: State, u: User, k: V.Key, pid: Pid)
    requires Inv(s) && u in s.managers
    ensures Inv(Apply(s, DirectSubscribe(u, k, pid))) && Inv(Apply(s, DirectUnsubscribe(u, k)))
  {
    AgreesAfterDirect(s.managers[u], Expected(s, u), s.dead, k, pid);
    PutKeepsAgreement(s, Apply(s, DirectSubscribe(u, k, pid)), u, V.Subscribe(s.managers[u], k, false, pid).0);
    PutKeepsAgreement(s, Apply(s, DirectUnsubscribe(u, k)), u, V.Unsubscribe(s.managers[u], k, false).0);
  }

  lemma DieKeeps(s: State, o: Obj)
    requires Inv(s)
    ensures Inv(Apply(s, Die(o)))
  {
    var t := Apply(s, Die(o));
    forall u | u in s.managers ensures Agrees(t.managers[u], Expected(t, u), t.dead) {
      AgreesWhenMoreDie(s.managers[u], Expected(s, u), s.dead, o);
    }
    if s.lock.Building? {
      AgreesWhenMoreDie(s.lock.view, GlobalKeys(s.globals[..s.lock.next]), s.dead, o);
    }
  }

  lemma NoticesKeep(s: State, u: User, o: Obj)
    requires Inv(s) && Enabled(s, DeathNotice(u, o))
    ensures Inv(Apply(s, DeathNotice(u, o)))
  {
    AgreesAfterNotice(s.managers[u], Expected(s, u), s.dead, o);
    PutKeepsAgreement(s, Apply(s, DeathNotice(u, o)), u, V.DropListener(s.managers[u], o));
  }

  lemma StepKeepsInv(s: State, a: Step)
    requires Inv(s) && Enabled(s, a)
    ensures Inv(Apply(s, a))
  {
    match a
    case BeginSubscribe(k, pid) => BeginSubscribeKeeps(s, k, pid);
    case OfferOne(u) => OfferOneKeeps(s, u);
    case OfferDone => OfferDoneKeeps(s);
    case TakeBackOne(u) => TakeBackOneKeeps(s, u);
    case TakeBackDone =>
    case BeginUnsubscribe(k) => BeginUnsubscribeKeeps(s, k);
    case DropOne(u) => DropOneKeeps(s, u);
    case DropDone => DropDoneKeeps(s);
    case RestoreOne(u) =>
    case RestoreDone =>
    case BeginActivate(u) => BeginActivateKeeps(s, u);
    case ReplayOne => ReplayOneKeeps(s);
    case ActivateDone => ActivateDoneKeeps(s);
    case ActivateFail =>
    case Stop(u) =>
    case DirectSubscribe(u, k, pid) => DirectStepsKeep(s, u, k, pid);
    case DirectUnsubscribe(u, k) => DirectStepsKeep(s, u, k, 0);
    case Die(o) => DieKeeps(s, o);
    case DeathNotice(u, o) => NoticesKeep(s, u, o);
    case DeathNoticeWhileBuilding(o) => BuildInvNotices(s.lock.view, s.globals, s.lock.next, s.dead, o);
  }

  lemma {:induction false} RunKeepsInv(states: seq<State>, steps: seq<Step>, n: nat)
    requires IsRun(states, steps) && n < |states|
    ensures Inv(states[n])
  {
    if n > 0 {
      RunKeepsInv(states, steps, n - 1);
      StepKeepsInv(states[n - 1], steps[n - 1]);
    }
  }

  // ---- the results ----

  /** Whenever the global subscription lock is free, a live listener is in the global list for an
      ability iff every live user manager holds its foreground subscription and lists it. */
  lemma CoherenceOverEveryRun(states: seq<State>, steps: seq<Step>, n: nat, u: User, k: V.Key)
    requires IsRun(states, steps) && n < |states| && states[n].lock.Free?
    requires u in states[n].managers && k.1 !in states[n].dead
    ensures k in GlobalKeys(states[n].globals) <==>
            k in states[n].managers[u].foreground && k in states[n].managers[u].owner
  {
    RunKeepsInv(states, steps, n);
    assert V.Valid(states[n].managers[u]) && Agrees(states[n].managers[u], Expected(states[n], u), states[n].dead);
    assert k in states[n].managers[u].foreground ==> k in states[n].managers[u].owner.Keys;
  }

  /** The global list never holds a key twice nor more than 256 entries of one process, and no replay
      of it into a new manager is ever refused. */
  lemma ReplayIsNeverRefused(states: seq<State>, steps: seq<Step>, n: nat)
    requires IsRun(states, steps) && n < |states|
    ensures Replayable(states[n].globals) && !states[n].replayRefused
    ensures Enabled(states[n], ReplayOne) ==> Apply(states[n], ReplayOne).lock.Building?
  {
    RunKeepsInv(states, steps, n);
    if Enabled(states[n], ReplayOne) {
      ReplayOneKeeps(states[n]);
      ReplayFitsHere(states[n]);
    }
  }

  /** No unsubscribe-for-all is ever refused half-way, so its rollback never runs. */
  lemma UnsubscribeForAllNeverRollsBack(states: seq<State>, steps: seq<Step>, n: nat)
    requires IsRun(states, steps) && n < |states|
    ensures !states[n].lock.Restoring?
  {
    RunKeepsInv(states, steps, n);
  }

  // ---- all or nothing, under interleaving ----

  /** The steps that work on user `u`'s manager besides the fan-outs. */
  predicate Touches(a: Step, u: User) {
    || (a.DirectSubscribe? && a.u == u)
    || (a.DirectUnsubscribe? && a.u == u)
    || (a.DeathNotice? && a.u == u)
  }

  /** How far a subscribe-for-all has got with a manager that was `v` when it began. */
  ghost predicate Tracks(s: State, u: User, v: V.View, k: V.Key, pid: Pid, g: seq<GlobalSubscription>) {
    && u in s.managers && s.globals == g
    && match s.lock
       case Offering(k', pid', done, todo) =>
         && k' == k && pid' == pid && (u in done || u in todo) && !(u in done && u in todo)
         && Visited(s.managers[u], v, k, pid, u in done)
       case TakingBack(k', todo) => k' == k && Visited(s.managers[u], v, k, pid, u in todo)
       case _ => false
  }

  /** A manager that has accepted the subscription and not given it back, or is as it was. */
  ghost predicate Visited(now: V.View, v: V.View, k: V.Key, pid: Pid, holds: bool) {
    if holds then V.Subscribe(v, k, true, pid) == (now, ErrOk) else now == v
  }

  lemma OfferTracks(s: State, w: User, u: User, v: V.View, k: V.Key, pid: Pid, g: seq<GlobalSubscription>)
    requires Enabled(s, OfferOne(w)) && Tracks(s, u, v, k, pid, g) && V.Valid(v)
    ensures Tracks(AfterOfferOne(s, w), u, v, k, pid, g)
  {
    if w == u {
      V.SubscribeKeepsValid(v, k, true, pid);
    }
    hide V.Valid, V.Subscribe;
  }

  lemma TakeBackTracks(s: State, w: User, u: User, v: V.View, k: V.Key, pid: Pid, g: seq<GlobalSubscription>)
    requires Enabled(s, TakeBackOne(w)) && Tracks(s, u, v, k, pid, g) && V.Valid(v) && k !in v.foreground
    ensures Tracks(Apply(s, TakeBackOne(w)), u, v, k, pid, g)
  {
    if w == u {
      V.FlaggedMeaning(v);
      V.RollbackIsExact(v, k, true, pid);
    }
    hide V.Valid, V.Subscribe, V.Unsubscribe;
  }

  lemma StepTracks(s: State, a: Step, u: User, v: V.View, k: V.Key, pid: Pid, g: seq<GlobalSubscription>)
    requires Enabled(s, a) && !Touches(a, u) && !Apply(s, a).lock.Free?
    requires Tracks(s, u, v, k, pid, g) && V.Valid(v) && k !in v.foreground
    ensures Tracks(Apply(s, a), u, v, k, pid, g)
  {
    match a
    case OfferOne(w) => OfferTracks(s, w, u, v, k, pid, g);
    case TakeBackOne(w) => TakeBackTracks(s, w, u, v, k, pid, g);
    case _ => hide V.Valid, V.Subscribe, V.Unsubscribe, Visited;
  }

  /** The call that begins at step `i` holds the lock up to step `j`. */
  ghost predicate OneCall(states: seq<State>, steps: seq<Step>, i: nat, j: nat, k: V.Key, pid: Pid)
    requires IsRun(states, steps) && i < j < |steps|
  {
    && steps[i] == BeginSubscribe(k, pid)
    && forall m :: i < m <= j ==> !states[m].lock.Free?
  }

  lemma BeginTracks(states: seq<State>, steps: seq<Step>, i: nat, u: User, k: V.Key, pid: Pid)
    requires IsRun(states, steps) && i < |steps| && steps[i] == BeginSubscribe(k, pid)
    requires !states[i + 1].lock.Free? && u in states[i].managers && k.1 !in states[i].dead
    ensures var v := states[i].managers[u];
            && V.Valid(v) && k !in v.foreground
            && Tracks(states[i + 1], u, v, k, pid, Living(states[i].globals, states[i].dead))
  {
    RunKeepsInv(states, steps, i);
    var s := states[i];
    assert V.Valid(s.managers[u]) && Agrees(s.managers[u], Expected(s, u), s.dead);
    LivingKeys(s.globals, s.dead);
  }

  lemma {:induction false} CallTracks(states: seq<State>, steps: seq<Step>, i: nat, m: nat, j: nat, u: User, k: V.Key,
                                      pid: Pid)
    requires IsRun(states, steps) && i < m <= j < |steps| && OneCall(states, steps, i, j, k, pid)
    requires u in states[i].managers && k.1 !in states[i].dead
    requires forall n :: i < n < j ==> !Touches(steps[n], u)
    ensures Tracks(states[m], u, states[i].managers[u], k, pid, Living(states[i].globals, states[i].dead))
  {
    BeginTracks(states, steps, i, u, k, pid);
    if m > i + 1 {
      CallTracks(states, steps, i, m - 1, j, u, k, pid);
      assert states[m] == Apply(states[m - 1], steps[m - 1]) && !states[m].lock.Free?;
      hide Tracks, Apply, Enabled, V.Valid;
      var g := Living(states[i].globals, states[i].dead);
      StepTracks(states[m - 1], steps[m - 1], u, states[i].managers[u], k, pid, g);
    }
  }

  /**
   Subscribe-for-all is all or nothing whatever is interleaved with it: at its end a manager that no
   direct call and no death notice worked on meanwhile is exactly as before the call if it was refused,
   with both kinds of subscriptions and every charge, and has exactly subscribed if it succeeded; the
   list has lost its dead entries and gained the new one only on success.
   */
  lemma AllOrNothing(states: seq<State>, steps: seq<Step>, i: nat, j: nat, u: User, k: V.Key, pid: Pid)
    requires IsRun(states, steps) && i < j < |steps| && OneCall(states, steps, i, j, k, pid)
    requires u in states[i].managers && k.1 !in states[i].dead
    requires forall n :: i < n < j ==> !Touches(steps[n], u)
    ensures var v, g := states[i].managers[u], Living(states[i].globals, states[i].dead);
            && u in states[j + 1].managers
            && (steps[j] == TakeBackDone ==> states[j + 1].managers[u] == v && states[j + 1].globals == g)
            && (steps[j] == OfferDone ==>
                  && V.Subscribe(v, k, true, pid) == (states[j + 1].managers[u], ErrOk)
                  && states[j + 1].globals == g + [GlobalSubscription(k.0, k.1, pid)])
            && (states[j + 1].lock.Free? ==> steps[j] == TakeBackDone || steps[j] == OfferDone)
  {
    CallTracks(states, steps, i, j, j, u, k, pid);
    hide V.Subscribe, Living;
  }

  // ---- who pays after a refusal ----

  /** A call that has visited user `u`: the foreground flag keeps the key listed, and `p` pays for it. */
  ghost predicate Pays(s: State, u: User, k: V.Key, p: Pid) {
    && (s.lock.Offering? || s.lock.TakingBack?) && s.lock.k == k
    && u in s.managers && k in s.managers[u].foreground && k in s.managers[u].owner && s.managers[u].owner[k] == p
  }

  lemma StepKeepsPaying(s: State, a: Step, u: User, k: V.Key, p: Pid)
    requires Enabled(s, a) && Pays(s, u, k, p) && a != TakeBackOne(u)
    requires k.1 !in s.dead && !Apply(s, a).lock.Free?
    ensures Pays(Apply(s, a), u, k, p)
  {
  }

  /** Who pays for the key of a call once user `u` has been visited: whoever did before, or the caller. */
  function Payer(s: State, u: User): Pid
    requires s.lock.Offering? && u in s.managers
  {
    var owner := s.managers[u].owner;
    if s.lock.k in owner then owner[s.lock.k] else s.lock.pid
  }

  lemma VisitPays(s: State, u: User)
    requires Enabled(s, OfferOne(u)) && V.Subscribe(s.managers[u], s.lock.k, true, s.lock.pid).1 == ErrOk
    ensures Pays(Apply(s, OfferOne(u)), u, s.lock.k, Payer(s, u))
  {
  }

  /** The visit of user `u` at step `m` was accepted, and step `n` takes it back in the same call. */
  ghost predicate VisitTakenBack(states: seq<State>, steps: seq<Step>, m: nat, n: nat, u: User)
    requires IsRun(states, steps)
  {
    && m < n < |steps| && steps[m] == OfferOne(u) && steps[n] == TakeBackOne(u)
    && V.Subscribe(states[m].managers[u], states[m].lock.k, true, states[m].lock.pid).1 == ErrOk
    && (forall i :: m < i <= n ==> !states[i].lock.Free?)
    && (forall i :: m < i < n ==> steps[i] != TakeBackOne(u))
  }

  lemma {:induction false} DeadStayDead(states: seq<State>, steps: seq<Step>, i: nat, n: nat, o: Obj)
    requires IsRun(states, steps) && i <= n < |states| && o in states[i].dead
    ensures o in states[n].dead
  {
    if i < n {
      DeadStayDead(states, steps, i, n - 1, o);
    }
  }

  /** The steps of a run, one at a time. */
  lemma StepOf(states: seq<State>, steps: seq<Step>, i: nat)
    requires IsRun(states, steps) && i < |steps|
    ensures |states| == |steps| + 1 && Enabled(states[i], steps[i]) && states[i + 1] == Apply(states[i], steps[i])
  {
  }

  lemma {:induction false} CallKeepsPaying(states: seq<State>, steps: seq<Step>, m: nat, i: nat, n: nat, u: User)
    requires IsRun(states, steps) && VisitTakenBack(states, steps, m, n, u) && m < i <= n
    requires states[m].lock.Offering? && u in states[m].managers && states[m].lock.k.1 !in states[n].dead
    ensures Pays(states[i], u, states[m].lock.k, Payer(states[m], u))
  {
    hide Apply, Enabled, Pays, Payer, IsRun, V.Subscribe;
    StepOf(states, steps, i - 1);
    if i == m + 1 {
      VisitPays(states[m], u);
    } else {
      CallKeepsPaying(states, steps, m, i - 1, n, u);
      var o := states[m].lock.k.1;
      if o in states[i - 1].dead {
        DeadStayDead(states, steps, i - 1, n, o);
      }
      StepKeepsPaying(states[i - 1], steps[i - 1], u, states[m].lock.k, Payer(states[m], u));
    }
  }

  /**
   What a refused subscribe-for-all leaves with a manager it had visited, whatever was interleaved: the
   key stays listed iff it is directly subscribed when the visit is taken back; whoever paid for it
   before the visit still does, and otherwise the refused process pays. So the refused process is left
   with a charge iff there is a direct subscription then and nobody else paid before the visit.
   */
  lemma WhoPaysAfterRefusal(states: seq<State>, steps: seq<Step>, m: nat, n: nat, u: User)
    requires IsRun(states, steps) && VisitTakenBack(states, steps, m, n, u)
    requires states[m].lock.k.1 !in states[n].dead
    ensures u in states[m].managers && u in states[n].managers && u in states[n + 1].managers
    ensures var k, pid := states[m].lock.k, states[m].lock.pid;
            var was, before, now := states[m].managers[u], states[n].managers[u], states[n + 1].managers[u];
            && (k in now.owner <==> k in before.direct)
            && (k in now.owner ==> now.owner[k] == if k in was.owner then was.owner[k] else pid)
            && (k in now.owner && now.owner[k] == pid <==>
                  k in before.direct && (k !in was.owner || was.owner[k] == pid))
            && now.direct == before.direct && now.foreground == before.foreground - {k}
            && now.owner - {k} == before.owner - {k}
  {
    StepOf(states, steps, m);
    StepOf(states, steps, n);
    CallKeepsPaying(states, steps, m, n, n, u);
    RunKeepsInv(states, steps, n);
    assert CheckInputSysAbilityId(states[n].lock.k.0) && V.Valid(states[n].managers[u]);
    hide Inv;
  }

  /** When a refused subscribe-for-all has been taken back, no live user manager holds its
      foreground subscription, the list does not have it, and a manager lists the key iff somebody
      has subscribed to it directly, whatever happened in between, also to this manager. */
  lemma RefusalLeavesNothing(states: seq<State>, steps: seq<Step>, n: nat, u: User)
    requires IsRun(states, steps) && n < |steps| && steps[n] == TakeBackDone
    requires u in states[n].managers && states[n].lock.k.1 !in states[n].dead
    ensures states[n].lock.k !in states[n + 1].managers[u].foreground
    ensures states[n].lock.k !in GlobalKeys(states[n + 1].globals)
    ensures var v := states[n + 1].managers[u]; states[n].lock.k in v.owner <==> states[n].lock.k in v.direct
  {
    RunKeepsInv(states, steps, n);
    RunKeepsInv(states, steps, n + 1);
    var v := states[n + 1].managers[u];
    assert V.Valid(v) && Agrees(v, Expected(states[n + 1], u), states[n + 1].dead);
    assert states[n].lock.k in v.owner <==> states[n].lock.k in v.direct + v.foreground;
  }

  /** In every reachable state each user manager's listener table is exactly the union of its direct
      and foreground subscriptions, and no process is over its quota in it. */
  lemma ManagersStayValid(states: seq<State>, steps: seq<Step>, n: nat, u: User)
    requires IsRun(states, steps) && n < |states| && u in states[n].managers
    ensures V.Valid(states[n].managers[u])
  {
    RunKeepsInv(states, steps, n);
  }

  /** A user's direct subscriptions change only by that user's own direct calls, by the notice of a
      listener's death, or with the manager itself: no fan-out, rollback or replay touches them. */
  lemma FanOutsKeepDirectSubscriptions(s: State, a: Step, u: User)
    requires Enabled(s, a) && u in s.managers && u in Apply(s, a).managers
    requires !a.DirectSubscribe? && !a.DirectUnsubscribe? && !a.DeathNotice?
    requires a.ActivateDone? ==> s.lock.user != u
    ensures Apply(s, a).managers[u].direct == s.managers[u].direct
  {
  }
}
