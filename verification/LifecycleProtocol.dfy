/**
 The user lifecycle protocol. A state-change request of a user holds that user's lifecycle lock
 until it returns; requests of different users interleave, and so do the teardowns, which run in
 delayed tasks without that lock. Every critical section of the user-state lock, the construction
 and the destruction of a manager are one step each. `live` and `finalised` are the bookkeeping the
 results speak about: the managers that are not yet destroyed, and how often each stopping context
 has destroyed its manager.
 */
module LifecycleProtocol {
  import opened Common

  type Mgr = nat
  type Ctx = nat
  type Tid = nat

  datatype UserState = ACTIVATING | SWITCHING | STOPPING

  datatype Context = Context(user: User, manager: Mgr, finalizing: bool)

  /** Where the request that holds a user's lifecycle lock is. */
  datatype Phase =
    | ActivationChecked
    | ManagerBuilt(mgr: Mgr)
    | ManagerDetached(mgr: Mgr)
    | ContextPublished(ctx: Ctx)
    | CompletingInline(tid: Tid)

  /** A running `CompleteUserStopping` that won the exchange of its context's flag. */
  datatype Completer = Completer(ctx: Ctx, destroyed: bool)

  datatype State = State(
    userState: map<User, UserState>,
    managers: map<User, Mgr>,
    stopping: map<User, Ctx>,
    valid: set<User>,
    foreground: User,
    holder: map<User, Phase>,
    contexts: map<Ctx, Context>,
    tasks: set<Ctx>,
    completers: map<Tid, Completer>,
    live: map<Mgr, User>,
    finalised: map<Ctx, nat>,
    next: nat)

  datatype Step =
    | ActivateRequest(u: User)
    | ActivateGiveUp(u: User)
    | BuildManager(u: User)
    | InitFailed(u: User)
    | InstallManager(u: User)
    | SwitchRequest(u: User)
    | StopRequest(u: User)
    | PublishContext(u: User)
    | PostTask(u: User)
    | CompleteInline(u: User)
    | RunTask(c: Ctx)
    | DestroyManager(t: Tid)
    | FinishCompletion(t: Tid)

  predicate Init(s: State) {
    s == State(map[], map[], map[], {}, SAMGR_INVALID_USER_ID, map[], map[], {}, map[], map[], map[], 0)
  }

  predicate Holds(s: State, u: User, p: Phase) {
    u in s.holder && s.holder[u] == p
  }

  predicate InState(s: State, u: User, x: UserState) {
    u in s.userState && s.userState[u] == x
  }

  predicate LegalUser(u: User) {
    u != SAMGR_INVALID_USER_ID && u != BASE_USER
  }

  predicate Enabled(s: State, a: Step) {
    match a
    case ActivateRequest(u) => LegalUser(u) && u !in s.holder
    case ActivateGiveUp(u) => u in s.holder && s.holder[u].ActivationChecked?
    case BuildManager(u) => u in s.holder && s.holder[u].ActivationChecked?
    case InitFailed(u) => u in s.holder && s.holder[u].ManagerBuilt?
    case InstallManager(u) => u in s.holder && s.holder[u].ManagerBuilt?
    case SwitchRequest(u) => LegalUser(u) && u !in s.holder
    case StopRequest(u) => LegalUser(u) && u !in s.holder
    case PublishContext(u) => u in s.holder && s.holder[u].ManagerDetached?
    case PostTask(u) => u in s.holder && s.holder[u].ContextPublished?
    case CompleteInline(u) => u in s.holder && s.holder[u].ContextPublished? && s.holder[u].ctx in s.contexts
    case RunTask(c) => c in s.tasks && c in s.contexts
    case DestroyManager(t) => t in s.completers && !s.completers[t].destroyed && s.completers[t].ctx in s.contexts
    case FinishCompletion(t) => t in s.completers && s.completers[t].destroyed && s.completers[t].ctx in s.contexts
  }

  function Release(s: State, u: User): State {
    s.(holder := s.holder - {u})
  }

  /** First critical section of `HandleUserActivating`. */
  function AfterActivateRequest(s: State, u: User): State {
    if InState(s, u, STOPPING) then s
    else if u in s.managers then s
    else s.(holder := s.holder[u := ActivationChecked])
  }

  function AfterBuild(s: State, u: User): State {
    s.(live := s.live[s.next := u], holder := s.holder[u := ManagerBuilt(s.next)], next := s.next + 1)
  }

  function AfterInitFailed(s: State, u: User): State
    requires Enabled(s, InitFailed(u))
  {
    Release(s, u).(live := s.live - {s.holder[u].mgr})
  }

  function AfterInstall(s: State, u: User): State
    requires Enabled(s, InstallManager(u))
  {
    var m := s.holder[u].mgr;
    if u in s.managers then Release(s, u).(live := s.live - {m})
    else Release(s, u).(managers := s.managers[u := m], valid := s.valid + {u},
                        userState := s.userState[u := ACTIVATING])
  }

  function AfterSwitch(s: State, u: User): State {
    if InState(s, u, STOPPING) || u == s.foreground || u !in s.managers then s
    else s.(userState := s.userState[u := SWITCHING], foreground := u)
  }

  function AfterStopRequest(s: State, u: User): State {
    if u in s.stopping then s
    else if u !in s.managers then s.(userState := s.userState - {u}, valid := s.valid - {u})
    else s.(userState := s.userState[u := STOPPING], valid := s.valid - {u},
            managers := s.managers - {u},
            foreground := if u == s.foreground then SAMGR_INVALID_USER_ID else s.foreground,
            holder := s.holder[u := ManagerDetached(s.managers[u])])
  }

  function AfterPublish(s: State, u: User): State
    requires Enabled(s, PublishContext(u))
  {
    s.(contexts := s.contexts[s.next := Context(u, s.holder[u].mgr, false)],
       stopping := s.stopping[u := s.next],
       finalised := s.finalised[s.next := 0],
       holder := s.holder[u := ContextPublished(s.next)],
       next := s.next + 1)
  }

  /** The exchange of the finalizing flag that lets exactly one completion of a context go on. */
  function Exchange(s: State, c: Ctx): State
    requires c in s.contexts
  {
    if s.contexts[c].finalizing then s
    else s.(contexts := s.contexts[c := s.contexts[c].(finalizing := true)],
            completers := s.completers[s.next := Completer(c, false)],
            next := s.next + 1)
  }

  function AfterPostTask(s: State, u: User): State
    requires Enabled(s, PostTask(u))
  {
    Release(s, u).(tasks := s.tasks + {s.holder[u].ctx})
  }

  function AfterRunTask(s: State, c: Ctx): State
    requires Enabled(s, RunTask(c))
  {
    Exchange(s.(tasks := s.tasks - {c}), c)
  }

  function AfterCompleteInline(s: State, u: User): State
    requires Enabled(s, CompleteInline(u))
  {
    var c := s.holder[u].ctx;
    if s.contexts[c].finalizing then Release(s, u)
    else Exchange(s, c).(holder := s.holder[u := CompletingInline(s.next)])
  }

  function AfterDestroy(s: State, t: Tid): State
    requires Enabled(s, DestroyManager(t))
  {
    var c := s.completers[t].ctx;
    s.(live := s.live - {s.contexts[c].manager},
       finalised := s.finalised[c := (if c in s.finalised then s.finalised[c] else 0) + 1],
       completers := s.completers[t := Completer(c, true)])
  }

  /** Last critical section of `CompleteUserStopping`. */
  function AfterFinish(s: State, t: Tid): State
    requires Enabled(s, FinishCompletion(t))
  {
    var c := s.completers[t].ctx;
    var u := s.contexts[c].user;
    var s1 := s.(completers := s.completers - {t},
                 holder := if Holds(s, u, CompletingInline(t)) then s.holder - {u} else s.holder);
    if u in s.stopping && s.stopping[u] == c then
      s1.(stopping := s.stopping - {u},
          userState := if InState(s, u, STOPPING) then s.userState - {u} else s.userState)
    else s1
  }

  function Apply(s: State, a: Step): State
    requires Enabled(s, a)
  {
    match a
    case ActivateRequest(u) => AfterActivateRequest(s, u)
    case ActivateGiveUp(u) => Release(s, u)
    case BuildManager(u) => AfterBuild(s, u)
    case InitFailed(u) => AfterInitFailed(s, u)
    case InstallManager(u) => AfterInstall(s, u)
    case SwitchRequest(u) => AfterSwitch(s, u)
    case StopRequest(u) => AfterStopRequest(s, u)
    case PublishContext(u) => AfterPublish(s, u)
    case PostTask(u) => AfterPostTask(s, u)
    case CompleteInline(u) => AfterCompleteInline(s, u)
    case RunTask(c) => AfterRunTask(s, c)
    case DestroyManager(t) => AfterDestroy(s, t)
    case FinishCompletion(t) => AfterFinish(s, t)
  }

  ghost predicate IsRun(states: seq<State>, steps: seq<Step>) {
    && |states| == |steps| + 1
    && Init(states[0])
    && forall i :: 0 <= i < |steps| ==> Enabled(states[i], steps[i]) && states[i + 1] == Apply(states[i], steps[i])
  }

  // ---- the invariant, user by user ----

  /** The public tables agree about user `u`. */
  ghost predicate TablesAgree(s: State, u: User) {
    && (u in s.valid <==> u in s.managers)
    && (u in s.managers <==> InState(s, u, ACTIVATING) || InState(s, u, SWITCHING))
    && (u in s.stopping ==> InState(s, u, STOPPING))
    && (InState(s, u, STOPPING) ==> u in s.stopping || (u in s.holder && s.holder[u].ManagerDetached?))
    && (s.foreground == u && u != SAMGR_INVALID_USER_ID ==> u in s.managers && InState(s, u, SWITCHING))
  }

  /** The manager, of any kind, that user `u` has. */
  ghost function CurrentManager(s: State, u: User): Option<Mgr> {
    if u in s.managers then Some(s.managers[u])
    else if u in s.holder && s.holder[u].ManagerBuilt? then Some(s.holder[u].mgr)
    else if u in s.holder && s.holder[u].ManagerDetached? then Some(s.holder[u].mgr)
    else if u in s.stopping && s.stopping[u] in s.contexts then Some(s.contexts[s.stopping[u]].manager)
    else None
  }

  ghost predicate HolderAgrees(s: State, u: User) {
    u in s.holder ==>
      match s.holder[u]
      case ActivationChecked => u !in s.userState
      case ManagerBuilt(m) => u !in s.userState && m in s.live && s.live[m] == u
      case ManagerDetached(m) => InState(s, u, STOPPING) && u !in s.stopping && m in s.live && s.live[m] == u
      case ContextPublished(c) =>
        && u in s.stopping && s.stopping[u] == c && c in s.contexts && !s.contexts[c].finalizing && c !in s.tasks
      case CompletingInline(t) =>
        t in s.completers && u in s.stopping && s.stopping[u] == s.completers[t].ctx
  }

  ghost predicate UserInv(s: State, u: User) {
    && TablesAgree(s, u)
    && HolderAgrees(s, u)
    && (u in s.managers ==> s.managers[u] in s.live && s.live[s.managers[u]] == u)
    && (u in s.stopping ==> s.stopping[u] in s.contexts && s.contexts[s.stopping[u]].user == u)
  }

  /** A context that is not finalising still has its manager; a finalising one is gone from the
      tables or has exactly one completer, which destroys the manager once. */
  ghost predicate CtxInv(s: State, c: Ctx) {
    c in s.contexts ==>
      var x := s.contexts[c];
      && c < s.next && x.manager < s.next && c in s.finalised && s.finalised[c] <= 1
      && (!x.finalizing ==> && s.finalised[c] == 0 && x.user in s.stopping && s.stopping[x.user] == c
                            && x.manager in s.live && s.live[x.manager] == x.user)
  }

  ghost predicate CompleterInv(s: State, t: Tid) {
    t in s.completers ==>
      var c := s.completers[t].ctx;
      && t < s.next && c in s.contexts && s.contexts[c].finalizing
      && c in s.finalised && s.finalised[c] == (if s.completers[t].destroyed then 1 else 0)
      && s.contexts[c].user in s.stopping && s.stopping[s.contexts[c].user] == c
      && (if s.completers[t].destroyed then s.contexts[c].manager !in s.live
          else s.contexts[c].manager in s.live && s.live[s.contexts[c].manager] == s.contexts[c].user)
  }

  ghost predicate LiveInv(s: State, m: Mgr) {
    m in s.live ==> m < s.next && CurrentManager(s, s.live[m]) == Some(m)
  }

  ghost predicate Inv(s: State) {
    && (forall u :: UserInv(s, u))
    && (forall c :: CtxInv(s, c))
    && (forall t :: CompleterInv(s, t))
    && (forall m :: LiveInv(s, m))
    && TasksInv(s)
  }

  /** A context has at most one completer, and none while its delayed task is pending. */
  ghost predicate TasksInv(s: State) {
    && (forall t1, t2 :: t1 in s.completers && t2 in s.completers && t1 != t2 ==>
                           s.completers[t1].ctx != s.completers[t2].ctx)
    && (forall c :: c in s.tasks ==> c in s.contexts && !s.contexts[c].finalizing)
  }

  /** What the end of a completion leaves: its user without state and context. */
  function Forgotten(s: State, t: Tid, u: User): State {
    s.(completers := s.completers - {t}, stopping := s.stopping - {u}, userState := s.userState - {u},
       holder := if Holds(s, u, CompletingInline(t)) then s.holder - {u} else s.holder)
  }

  // ---- what the invariant says about one context, completion or manager and its user ----

  lemma UserFacts(s: State, u: User)
    requires Inv(s)
    ensures UserInv(s, u) && TasksInv(s)
  {
  }

  lemma Together(s: State)
    requires (forall u :: UserInv(s, u)) && (forall c :: CtxInv(s, c)) && (forall t :: CompleterInv(s, t))
    requires (forall m :: LiveInv(s, m)) && TasksInv(s)
    ensures Inv(s)
  {
  }

  lemma ContextFacts(s: State, c: Ctx)
    requires Inv(s)
    ensures CtxInv(s, c) && (c in s.contexts ==> UserInv(s, s.contexts[c].user))
  {
  }

  lemma CompleterFacts(s: State, t: Tid)
    requires Inv(s)
    ensures CompleterInv(s, t) && TasksInv(s)
    ensures t in s.completers ==> s.completers[t].ctx in s.contexts && CtxInv(s, s.completers[t].ctx)
    ensures t in s.completers ==> UserInv(s, s.contexts[s.completers[t].ctx].user)
  {
    assert CompleterInv(s, t);
  }

  lemma ManagerFacts(s: State, m: Mgr)
    requires Inv(s)
    ensures LiveInv(s, m) && (m in s.live ==> UserInv(s, s.live[m]))
  {
  }

  // ---- every step keeps it ----

  lemma ActivateRequestKeeps(s: State, u: User)
    requires Inv(s) && Enabled(s, ActivateRequest(u))
    ensures Inv(AfterActivateRequest(s, u))
  {
    var s' := AfterActivateRequest(s, u);
    UserFacts(s, u);
    if s' == s { return; }
    hide Inv;
    forall w ensures UserInv(s', w) { UserFacts(s, w); }
    forall x ensures CtxInv(s', x) { ContextFacts(s, x); }
    forall x ensures CompleterInv(s', x) { CompleterFacts(s, x); }
    forall m ensures LiveInv(s', m) { ManagerFacts(s, m); }
    Together(s');
  }

  lemma ActivateGiveUpKeeps(s: State, u: User)
    requires Inv(s) && Enabled(s, ActivateGiveUp(u))
    ensures Inv(Release(s, u))
  {
    var s' := Release(s, u);
    UserFacts(s, u);
    hide Inv;
    forall w ensures UserInv(s', w) { UserFacts(s, w); }
    forall x ensures CtxInv(s', x) { ContextFacts(s, x); }
    forall x ensures CompleterInv(s', x) { CompleterFacts(s, x); }
    forall m ensures LiveInv(s', m) { ManagerFacts(s, m); }
    Together(s');
  }

  lemma BuildKeepsUser(s: State, u: User, w: User)
    requires Enabled(s, BuildManager(u)) && UserInv(s, u) && UserInv(s, w) && LiveInv(s, s.next)
    ensures UserInv(AfterBuild(s, u), w)
  {
  }

  lemma BuildManagerKeeps(s: State, u: User)
    requires Inv(s) && Enabled(s, BuildManager(u))
    ensures Inv(AfterBuild(s, u))
  {
    var s' := AfterBuild(s, u);
    UserFacts(s, u);
    assert LiveInv(s, s.next);
    hide Inv;
    forall w ensures UserInv(s', w) {
      UserFacts(s, w);
      BuildKeepsUser(s, u, w);
    }
    forall x ensures CtxInv(s', x) { ContextFacts(s, x); }
    forall x ensures CompleterInv(s', x) { CompleterFacts(s, x); }
    forall m ensures LiveInv(s', m) { ManagerFacts(s, m); }
    Together(s');
  }

  lemma InitFailedKeeps(s: State, u: User)
    requires Inv(s) && Enabled(s, InitFailed(u))
    ensures Inv(AfterInitFailed(s, u))
  {
    var s' := AfterInitFailed(s, u);
    UserFacts(s, u);
    assert LiveInv(s, s.holder[u].mgr);
    hide Inv;
    forall w ensures UserInv(s', w) { UserFacts(s, w); }
    forall x ensures CtxInv(s', x) { ContextFacts(s, x); }
    forall x ensures CompleterInv(s', x) { CompleterFacts(s, x); }
    forall m ensures LiveInv(s', m) { ManagerFacts(s, m); }
    Together(s');
  }

  lemma InstallManagerKeeps(s: State, u: User)
    requires Inv(s) && Enabled(s, InstallManager(u))
    ensures Inv(AfterInstall(s, u))
  {
    var s' := AfterInstall(s, u);
    UserFacts(s, u);
    assert LiveInv(s, s.holder[u].mgr);
    hide Inv;
    forall w ensures UserInv(s', w) { UserFacts(s, w); }
    forall x ensures CtxInv(s', x) { ContextFacts(s, x); }
    forall x ensures CompleterInv(s', x) { CompleterFacts(s, x); }
    forall m ensures LiveInv(s', m) { ManagerFacts(s, m); }
    Together(s');
  }

  lemma SwitchRequestKeeps(s: State, u: User)
    requires Inv(s) && Enabled(s, SwitchRequest(u))
    ensures Inv(AfterSwitch(s, u))
  {
    var s' := AfterSwitch(s, u);
    UserFacts(s, u);
    if s' == s { return; }
    hide Inv;
    forall w ensures UserInv(s', w) { UserFacts(s, w); }
    forall x ensures CtxInv(s', x) { ContextFacts(s, x); }
    forall x ensures CompleterInv(s', x) { CompleterFacts(s, x); }
    forall m ensures LiveInv(s', m) { ManagerFacts(s, m); }
    Together(s');
  }

  lemma StopRequestKeeps(s: State, u: User)
    requires Inv(s) && Enabled(s, StopRequest(u)) && u in s.managers && u !in s.stopping
    ensures Inv(AfterStopRequest(s, u))
  {
    var s' := AfterStopRequest(s, u);
    UserFacts(s, u);
    ManagerFacts(s, s.managers[u]);
    hide Inv;
    forall w ensures UserInv(s', w) { UserFacts(s, w); }
    forall x ensures CtxInv(s', x) { ContextFacts(s, x); }
    forall x ensures CompleterInv(s', x) { CompleterFacts(s, x); }
    forall m ensures LiveInv(s', m) { ManagerFacts(s, m); }
    Together(s');
  }

  lemma PublishKeepsUser(s: State, u: User, w: User)
    requires Enabled(s, PublishContext(u)) && UserInv(s, u) && UserInv(s, w) && CtxInv(s, s.next) && TasksInv(s)
    ensures UserInv(AfterPublish(s, u), w)
  {
  }

  lemma PublishKeepsContext(s: State, u: User, x: Ctx)
    requires Enabled(s, PublishContext(u)) && UserInv(s, u) && CtxInv(s, x) && LiveInv(s, s.holder[u].mgr)
    requires x in s.contexts ==> UserInv(s, s.contexts[x].user)
    ensures CtxInv(AfterPublish(s, u), x)
  {
  }

  lemma PublishKeepsRest(s: State, u: User, t: Tid, m: Mgr)
    requires Enabled(s, PublishContext(u)) && UserInv(s, u) && CtxInv(s, s.next) && TasksInv(s)
    requires CompleterInv(s, t) && LiveInv(s, m) && (m in s.live ==> UserInv(s, s.live[m]))
    ensures CompleterInv(AfterPublish(s, u), t) && LiveInv(AfterPublish(s, u), m) && TasksInv(AfterPublish(s, u))
  {
  }

  lemma PublishContextKeeps(s: State, u: User)
    requires Inv(s) && Enabled(s, PublishContext(u))
    ensures Inv(AfterPublish(s, u))
  {
    var s' := AfterPublish(s, u);
    UserFacts(s, u);
    ManagerFacts(s, s.holder[u].mgr);
    ContextFacts(s, s.next);
    hide Inv, UserInv, CtxInv, CompleterInv, LiveInv, TasksInv, AfterPublish;
    forall w ensures UserInv(s', w) {
      UserFacts(s, w);
      PublishKeepsUser(s, u, w);
    }
    forall x ensures CtxInv(s', x) {
      ContextFacts(s, x);
      PublishKeepsContext(s, u, x);
    }
    forall t ensures CompleterInv(s', t) && TasksInv(s') {
      CompleterFacts(s, t);
      PublishKeepsRest(s, u, t, s.holder[u].mgr);
    }
    forall m ensures LiveInv(s', m) {
      CompleterFacts(s, 0);
      ManagerFacts(s, m);
      PublishKeepsRest(s, u, 0, m);
    }
    CompleterFacts(s, 0);
    PublishKeepsRest(s, u, 0, s.holder[u].mgr);
    Together(s');
  }

  lemma PostTaskKeeps(s: State, u: User)
    requires Inv(s) && Enabled(s, PostTask(u))
    ensures Inv(AfterPostTask(s, u))
  {
    var s' := AfterPostTask(s, u);
    UserFacts(s, u);
    hide Inv;
    forall w ensures UserInv(s', w) { UserFacts(s, w); }
    forall x ensures CtxInv(s', x) { ContextFacts(s, x); }
    forall x ensures CompleterInv(s', x) { CompleterFacts(s, x); }
    forall m ensures LiveInv(s', m) { ManagerFacts(s, m); }
    Together(s');
  }

  lemma CompleteInlineKeeps(s: State, u: User)
    requires Inv(s) && Enabled(s, CompleteInline(u))
    ensures Inv(AfterCompleteInline(s, u))
  {
    var s' := AfterCompleteInline(s, u);
    UserFacts(s, u);
    assert CtxInv(s, s.holder[u].ctx);
    assert CompleterInv(s, s.next);
    forall x | x in s.completers ensures s.completers[x].ctx != s.holder[u].ctx { assert CompleterInv(s, x); }
    hide Inv;
    forall w ensures UserInv(s', w) { UserFacts(s, w); }
    forall x ensures CtxInv(s', x) { ContextFacts(s, x); }
    forall x ensures CompleterInv(s', x) { CompleterFacts(s, x); }
    forall m ensures LiveInv(s', m) { ManagerFacts(s, m); }
    Together(s');
  }

  lemma RunTaskKeeps(s: State, c: Ctx)
    requires Inv(s) && Enabled(s, RunTask(c))
    ensures Inv(AfterRunTask(s, c))
  {
    var s' := AfterRunTask(s, c);
    assert CtxInv(s, c) && UserInv(s, s.contexts[c].user);
    assert CompleterInv(s, s.next);
    forall x | x in s.completers ensures s.completers[x].ctx != c { assert CompleterInv(s, x); }
    hide Inv;
    forall w ensures UserInv(s', w) { UserFacts(s, w); }
    forall x ensures CtxInv(s', x) { ContextFacts(s, x); }
    forall x ensures CompleterInv(s', x) { CompleterFacts(s, x); }
    forall m ensures LiveInv(s', m) { ManagerFacts(s, m); }
    Together(s');
  }

  lemma DestroyManagerKeeps(s: State, t: Tid)
    requires Inv(s) && Enabled(s, DestroyManager(t))
    ensures Inv(AfterDestroy(s, t))
  {
    var s' := AfterDestroy(s, t);
    CompleterFacts(s, t);
    assert LiveInv(s, s.contexts[s.completers[t].ctx].manager);
    hide Inv;
    forall w ensures UserInv(s', w) { UserFacts(s, w); }
    forall x ensures CtxInv(s', x) { ContextFacts(s, x); }
    forall x ensures CompleterInv(s', x) { CompleterFacts(s, x); }
    forall m ensures LiveInv(s', m) { ManagerFacts(s, m); }
    Together(s');
  }

  lemma FinishForgets(s: State, t: Tid)
    requires Inv(s) && Enabled(s, FinishCompletion(t))
    ensures AfterFinish(s, t) == Forgotten(s, t, s.contexts[s.completers[t].ctx].user)
  {
    CompleterFacts(s, t);
    hide Inv;
  }

  lemma FinishCompletionKeeps(s: State, t: Tid)
    requires Inv(s) && Enabled(s, FinishCompletion(t))
    ensures Inv(AfterFinish(s, t))
  {
    CompleterFacts(s, t);
    FinishForgets(s, t);
    hide Inv, AfterFinish;
    var c := s.completers[t].ctx;
    var u := s.contexts[c].user;
    var s' := Forgotten(s, t, u);
    forall w ensures UserInv(s', w) { UserFacts(s, w); }
    forall x ensures CtxInv(s', x) { ContextFacts(s, x); }
    forall x ensures CompleterInv(s', x) { CompleterFacts(s, x); }
    forall m ensures LiveInv(s', m) { ManagerFacts(s, m); }
    Together(s');
  }

  /** A stop request for a user without a manager, or already stopping, changes nothing. */
  lemma StopOfUnknownUser(s: State, u: User)
    requires Inv(s) && Enabled(s, StopRequest(u)) && (u in s.stopping || u !in s.managers)
    ensures Apply(s, StopRequest(u)) == s
  {
    assert UserInv(s, u);
    assert s.valid - {u} == s.valid || u in s.stopping;
    assert s.userState - {u} == s.userState || u in s.stopping;
  }

  lemma StepKeepsInv(s: State, a: Step)
    requires Inv(s) && Enabled(s, a)
    ensures Inv(Apply(s, a))
  {
    match a
    case ActivateRequest(u) => ActivateRequestKeeps(s, u);
    case ActivateGiveUp(u) => ActivateGiveUpKeeps(s, u);
    case BuildManager(u) => BuildManagerKeeps(s, u);
    case InitFailed(u) => InitFailedKeeps(s, u);
    case InstallManager(u) => InstallManagerKeeps(s, u);
    case SwitchRequest(u) => SwitchRequestKeeps(s, u);
    case StopRequest(u) =>
      if u in s.managers && u !in s.stopping {
        StopRequestKeeps(s, u);
      } else {
        StopOfUnknownUser(s, u);
      }
    case PublishContext(u) => PublishContextKeeps(s, u);
    case PostTask(u) => PostTaskKeeps(s, u);
    case CompleteInline(u) => CompleteInlineKeeps(s, u);
    case RunTask(c) => RunTaskKeeps(s, c);
    case DestroyManager(t) => DestroyManagerKeeps(s, t);
    case FinishCompletion(t) => FinishCompletionKeeps(s, t);
  }

  lemma {:induction false} RunKeepsInv(states: seq<State>, steps: seq<Step>, n: nat)
    requires IsRun(states, steps) && n < |states|
    ensures Inv(states[n])
  {
    if n > 0 {
      RunKeepsInv(states, steps, n - 1);
      StepKeepsInv(states[n - 1], steps[n - 1]);
    }
  }
}
