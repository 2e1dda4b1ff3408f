/** What the user lifecycle protocol guarantees in every state of every run. */
module LifecycleResults {
  import opened Common
  import opened LifecycleProtocol

  /** At most one not yet destroyed manager exists per user at any time, counting the ones under
      construction and the ones being torn down. */
  lemma OneLiveManagerPerUser(states: seq<State>, steps: seq<Step>, n: nat, m1: Mgr, m2: Mgr)
    requires IsRun(states, steps) && n < |states|
    requires m1 in states[n].live && m2 in states[n].live && states[n].live[m1] == states[n].live[m2]
    ensures m1 == m2
  {
    RunKeepsInv(states, steps, n);
    assert LiveInv(states[n], m1) && LiveInv(states[n], m2);
  }

  /** The public tables agree in every reachable state: valid ids are the users with a manager, no
      user is both live and stopping, a stopping context implies the stopping state, and the
      foreground id is invalid or a live user in the switching state. */
  lemma TablesAgreeOverEveryRun(states: seq<State>, steps: seq<Step>, n: nat, u: User)
    requires IsRun(states, steps) && n < |states|
    ensures var s := states[n];
            && (u in s.valid <==> u in s.managers)
            && !(u in s.managers && u in s.stopping)
            && (u in s.stopping ==> InState(s, u, STOPPING))
            && (s.foreground == SAMGR_INVALID_USER_ID
                || (s.foreground in s.managers && InState(s, s.foreground, SWITCHING)))
  {
    RunKeepsInv(states, steps, n);
    assert UserInv(states[n], u) && UserInv(states[n], states[n].foreground);
  }

  /** Each stopping context destroys its manager at most once. */
  lemma FinalisedAtMostOnce(states: seq<State>, steps: seq<Step>, n: nat, c: Ctx)
    requires IsRun(states, steps) && n < |states| && c in states[n].contexts
    ensures c in states[n].finalised && states[n].finalised[c] <= 1
  {
    RunKeepsInv(states, steps, n);
    assert CtxInv(states[n], c);
  }

  /** An activation that can take the lifecycle lock goes on iff the user has no manager and is not
      stopping; it is refused from the stop request until the teardown has ended. */
  lemma ActivationRefusedWhileStopping(states: seq<State>, steps: seq<Step>, n: nat, u: User)
    requires IsRun(states, steps) && n < |states| && Enabled(states[n], ActivateRequest(u))
    ensures Apply(states[n], ActivateRequest(u)) == states[n] <==> u in states[n].managers || u in states[n].stopping
    ensures u in states[n].stopping <==> InState(states[n], u, STOPPING)
  {
    RunKeepsInv(states, steps, n);
    assert UserInv(states[n], u);
    if u !in states[n].managers && u !in states[n].stopping {
      assert u in Apply(states[n], ActivateRequest(u)).holder;
    }
  }

  /** As long as a manager that left the tables is not destroyed, or its completion has not ended,
      its user is in the stopping state and no other request has built a manager for it. */
  lemma TeardownExcludesNewSessions(states: seq<State>, steps: seq<Step>, n: nat, t: Tid)
    requires IsRun(states, steps) && n < |states| && t in states[n].completers
    ensures var s := states[n];
            && s.completers[t].ctx in s.contexts
            && var u := s.contexts[s.completers[t].ctx].user;
               && InState(s, u, STOPPING) && u !in s.managers
               && s.stopping.Items >= {(u, s.completers[t].ctx)}
               && (u in s.holder ==> s.holder[u] == CompletingInline(t))
               && forall m :: m in s.live && s.live[m] == u ==> m == s.contexts[s.completers[t].ctx].manager
  {
    RunKeepsInv(states, steps, n);
    var s := states[n];
    assert CompleterInv(s, t);
    var u := s.contexts[s.completers[t].ctx].user;
    assert UserInv(s, u);
    if u in s.holder && s.holder[u].CompletingInline? {
      assert s.completers[s.holder[u].tid].ctx == s.completers[t].ctx;
    }
    forall m | m in s.live && s.live[m] == u ensures m == s.contexts[s.completers[t].ctx].manager {
      assert LiveInv(s, m);
    }
  }

  /** The end of a completion only forgets its own context: every manager, the valid ids, the
      foreground user and every other user's state stay as they are, and no manager of its user is
      left, so it never touches a later session. */
  lemma CompletionNeverAltersALaterSession(states: seq<State>, steps: seq<Step>, n: nat, t: Tid, w: User)
    requires IsRun(states, steps) && n < |steps| && steps[n] == FinishCompletion(t)
    ensures var s, s' := states[n], states[n + 1];
            var u := s.contexts[s.completers[t].ctx].user;
            && s'.managers == s.managers && s'.valid == s.valid && s'.foreground == s.foreground && s'.live == s.live
            && (forall m :: m in s.live ==> s.live[m] != u)
            && u !in s'.stopping && u !in s'.userState
            && (w != u ==> && (w in s'.stopping <==> w in s.stopping)
                           && (w in s.stopping ==> s'.stopping[w] == s.stopping[w])
                           && forall x :: InState(s', w, x) <==> InState(s, w, x))
  {
    var s := states[n];
    TeardownExcludesNewSessions(states, steps, n, t);
    RunKeepsInv(states, steps, n);
    assert CompleterInv(s, t);
  }

  // ---- what a step leaves alone ----

  /** The user whose request or teardown a step belongs to. */
  function Subject(s: State, a: Step): Option<User> {
    match a
    case ActivateRequest(u) => Some(u)
    case ActivateGiveUp(u) => Some(u)
    case BuildManager(u) => Some(u)
    case InitFailed(u) => Some(u)
    case InstallManager(u) => Some(u)
    case SwitchRequest(u) => Some(u)
    case StopRequest(u) => Some(u)
    case PublishContext(u) => Some(u)
    case PostTask(u) => Some(u)
    case CompleteInline(u) => Some(u)
    case RunTask(c) => if c in s.contexts then Some(s.contexts[c].user) else None
    case DestroyManager(t) => Behind(s, t)
    case FinishCompletion(t) => Behind(s, t)
  }

  /** The user whose teardown a completion works on. */
  function Behind(s: State, t: Tid): Option<User> {
    if t in s.completers && s.completers[t].ctx in s.contexts then Some(s.contexts[s.completers[t].ctx].user) else None
  }

  /** What all tables say about one user. */
  datatype Row = Row(valid: bool, state: Option<UserState>, manager: Option<Mgr>, stopping: Option<Ctx>,
                     holder: Option<Phase>)

  function Get<T>(m: map<User, T>, u: User): Option<T> {
    if u in m then Some(m[u]) else None
  }

  function RowOf(s: State, w: User): Row {
    Row(w in s.valid, Get(s.userState, w), Get(s.managers, w), Get(s.stopping, w), Get(s.holder, w))
  }

  ghost predicate SameFor(s: State, s': State, w: User) {
    RowOf(s', w) == RowOf(s, w)
  }

  // one lemma for each step: other users' tables stay, and mostly all managers

  /** Everything about teardowns that are under way. */
  ghost predicate SameTeardowns(s: State, s': State) {
    s'.contexts == s.contexts && s'.tasks == s.tasks && s'.completers == s.completers && s'.finalised == s.finalised
  }

  lemma ActivateRequestLeaves(s: State, u: User, w: User)
    requires w != u
    ensures SameFor(s, AfterActivateRequest(s, u), w) && AfterActivateRequest(s, u).live == s.live
  {
  }

  lemma ActivateGiveUpLeaves(s: State, u: User, w: User)
    requires w != u
    ensures SameFor(s, Release(s, u), w) && Release(s, u).live == s.live
  {
  }

  lemma BuildManagerLeaves(s: State, u: User, w: User)
    requires w != u
    ensures SameFor(s, AfterBuild(s, u), w)
  {
  }

  lemma InitFailedLeaves(s: State, u: User, w: User)
    requires Enabled(s, InitFailed(u)) && w != u
    ensures SameFor(s, AfterInitFailed(s, u), w)
  {
  }

  lemma InstallManagerLeaves(s: State, u: User, w: User)
    requires Enabled(s, InstallManager(u)) && w != u
    ensures SameFor(s, AfterInstall(s, u), w)
  {
  }

  lemma SwitchRequestLeaves(s: State, u: User, w: User)
    requires w != u
    ensures SameFor(s, AfterSwitch(s, u), w) && AfterSwitch(s, u).live == s.live
  {
  }

  lemma StopOfLiveLeaves(s: State, u: User, w: User)
    requires w != u && u !in s.stopping && u in s.managers
    ensures SameFor(s, AfterStopRequest(s, u), w)
  {
    var s' := AfterStopRequest(s, u);
    assert RowOf(s', w).valid == RowOf(s, w).valid;
    assert RowOf(s', w).state == RowOf(s, w).state;
    assert RowOf(s', w).manager == RowOf(s, w).manager;
    assert RowOf(s', w).stopping == RowOf(s, w).stopping;
    assert RowOf(s', w).holder == RowOf(s, w).holder;
  }

  lemma StopOfOtherLeaves(s: State, u: User, w: User)
    requires w != u && (u in s.stopping || u !in s.managers)
    ensures SameFor(s, AfterStopRequest(s, u), w)
  {
  }

  lemma StopKeepsManagers(s: State, u: User)
    ensures AfterStopRequest(s, u).live == s.live
  {
  }

  lemma StopRequestLeaves(s: State, u: User, w: User)
    requires w != u
    ensures SameFor(s, AfterStopRequest(s, u), w) && AfterStopRequest(s, u).live == s.live
  {
    hide AfterStopRequest, SameFor;
    StopKeepsManagers(s, u);
    if u !in s.stopping && u in s.managers {
      StopOfLiveLeaves(s, u, w);
    } else {
      StopOfOtherLeaves(s, u, w);
    }
  }

  lemma PublishContextLeaves(s: State, u: User, w: User)
    requires Enabled(s, PublishContext(u)) && w != u
    ensures SameFor(s, AfterPublish(s, u), w) && AfterPublish(s, u).live == s.live
  {
  }

  lemma PostTaskLeaves(s: State, u: User, w: User)
    requires Enabled(s, PostTask(u)) && w != u
    ensures SameFor(s, AfterPostTask(s, u), w) && AfterPostTask(s, u).live == s.live
  {
  }

  lemma CompleteInlineLeaves(s: State, u: User, w: User)
    requires Enabled(s, CompleteInline(u)) && w != u
    ensures SameFor(s, AfterCompleteInline(s, u), w) && AfterCompleteInline(s, u).live == s.live
  {
  }

  lemma RunTaskLeaves(s: State, c: Ctx, w: User)
    requires Enabled(s, RunTask(c))
    ensures SameFor(s, AfterRunTask(s, c), w) && AfterRunTask(s, c).live == s.live
  {
  }

  lemma DestroyManagerLeaves(s: State, t: Tid, w: User)
    requires Enabled(s, DestroyManager(t)) && Behind(s, t) != Some(w)
    ensures SameFor(s, AfterDestroy(s, t), w)
  {
  }

  lemma FinishCompletionLeaves(s: State, t: Tid, w: User)
    requires Enabled(s, FinishCompletion(t)) && Behind(s, t) != Some(w)
    ensures SameFor(s, AfterFinish(s, t), w) && AfterFinish(s, t).live == s.live
  {
  }

  lemma StepLeavesUser(s: State, a: Step, w: User)
    requires Enabled(s, a) && Subject(s, a) != Some(w)
    ensures SameFor(s, Apply(s, a), w)
  {
    hide SameFor, Enabled, AfterActivateRequest, Release, AfterBuild, AfterInitFailed, AfterInstall, AfterSwitch;
    hide AfterStopRequest, AfterPublish, AfterPostTask, AfterCompleteInline, AfterRunTask, AfterDestroy, AfterFinish;
    match a
    case ActivateRequest(u) => ActivateRequestLeaves(s, u, w);
    case ActivateGiveUp(u) => ActivateGiveUpLeaves(s, u, w);
    case BuildManager(u) => BuildManagerLeaves(s, u, w);
    case InitFailed(u) => InitFailedLeaves(s, u, w);
    case InstallManager(u) => InstallManagerLeaves(s, u, w);
    case SwitchRequest(u) => SwitchRequestLeaves(s, u, w);
    case StopRequest(u) => StopRequestLeaves(s, u, w);
    case PublishContext(u) => PublishContextLeaves(s, u, w);
    case PostTask(u) => PostTaskLeaves(s, u, w);
    case CompleteInline(u) => CompleteInlineLeaves(s, u, w);
    case RunTask(c) => RunTaskLeaves(s, c, w);
    case DestroyManager(t) => DestroyManagerLeaves(s, t, w);
    case FinishCompletion(t) => FinishCompletionLeaves(s, t, w);
  }

  lemma ForegroundStep(s: State, a: Step)
    requires Enabled(s, a) && (a.SwitchRequest? || a.StopRequest? ==> UserInv(s, a.u))
    ensures var f := Apply(s, a).foreground;
            && (a.SwitchRequest? && a.u in s.managers ==> f == a.u)
            && (a.StopRequest? && a.u in s.managers && a.u == s.foreground ==> f == SAMGR_INVALID_USER_ID)
            && (f != s.foreground ==> || (a.SwitchRequest? && a.u in s.managers)
                                      || (a.StopRequest? && a.u in s.managers && a.u == s.foreground))
  {
    match a
    case SwitchRequest(u) =>
    case StopRequest(u) =>
    case _ => hide UserInv;
  }

  /** What a step may do to the managers that are not destroyed. */
  ghost predicate LiveChange(s: State, a: Step, s': State, m: Mgr) {
    && (m in s.live && m in s'.live ==> s'.live[m] == s.live[m])
    && (m !in s.live && m in s'.live ==> a == BuildManager(s'.live[m]))
    && (m in s.live && m !in s'.live ==>
          || (a.InitFailed? && a.u == s.live[m])
          || (a.DestroyManager? && Behind(s, a.t) == Some(s.live[m])))
  }

  /** Some user whose teardown a completion does not work on. */
  function Other(s: State, t: Tid): User {
    if Behind(s, t) == Some(0) then 1 else 0
  }

  lemma SameLive(s: State, a: Step)
    requires Enabled(s, a) && !a.BuildManager? && !a.InitFailed? && !a.InstallManager? && !a.DestroyManager?
    ensures Apply(s, a).live == s.live
  {
    hide SameFor, Enabled, AfterActivateRequest, Release, AfterSwitch, AfterStopRequest, AfterPublish, AfterPostTask;
    hide AfterCompleteInline, AfterRunTask, AfterFinish;
    match a
    case ActivateRequest(u) => ActivateRequestLeaves(s, u, u + 1);
    case ActivateGiveUp(u) => ActivateGiveUpLeaves(s, u, u + 1);
    case SwitchRequest(u) => SwitchRequestLeaves(s, u, u + 1);
    case StopRequest(u) => StopRequestLeaves(s, u, u + 1);
    case PublishContext(u) => PublishContextLeaves(s, u, u + 1);
    case PostTask(u) => PostTaskLeaves(s, u, u + 1);
    case CompleteInline(u) => CompleteInlineLeaves(s, u, u + 1);
    case RunTask(c) => RunTaskLeaves(s, c, 0);
    case FinishCompletion(t) => FinishCompletionLeaves(s, t, Other(s, t));
  }

  lemma ActivationManagers(s: State, u: User, m: Mgr)
    requires LiveInv(s, m) && UserInv(s, u)
    ensures Enabled(s, BuildManager(u)) ==> LiveChange(s, BuildManager(u), AfterBuild(s, u), m)
    ensures Enabled(s, InitFailed(u)) ==> LiveChange(s, InitFailed(u), AfterInitFailed(s, u), m)
    ensures Enabled(s, InstallManager(u)) ==> LiveChange(s, InstallManager(u), AfterInstall(s, u), m)
  {
  }

  lemma DestroyedManager(s: State, t: Tid, m: Mgr)
    requires Enabled(s, DestroyManager(t)) && CompleterInv(s, t)
    ensures LiveChange(s, DestroyManager(t), AfterDestroy(s, t), m)
  {
  }

  lemma ManagersStep(s: State, a: Step, m: Mgr)
    requires Enabled(s, a) && LiveInv(s, m) && (a.DestroyManager? ==> CompleterInv(s, a.t))
    requires a.BuildManager? || a.InstallManager? || a.InitFailed? ==> UserInv(s, a.u)
    ensures LiveChange(s, a, Apply(s, a), m)
  {
    if a.BuildManager? || a.InitFailed? || a.InstallManager? {
      ActivationManagers(s, a.u, m);
    } else if a.DestroyManager? {
      DestroyedManager(s, a.t, m);
    } else {
      SameLive(s, a);
    }
    hide UserInv, CompleterInv, LiveInv, AfterBuild, AfterInitFailed, AfterInstall, AfterDestroy, LiveChange;
    if !(a.BuildManager? || a.InitFailed? || a.InstallManager? || a.DestroyManager?) {
      SameLiveChange(s, a, Apply(s, a), m);
    }
  }

  lemma SameLiveChange(s: State, a: Step, s': State, m: Mgr)
    requires s'.live == s.live
    ensures LiveChange(s, a, s', m)
  {
  }

  /** No step of one user's request or teardown touches another user's tables. */
  lemma NoStepTouchesAnotherUser(states: seq<State>, steps: seq<Step>, n: nat, w: User)
    requires IsRun(states, steps) && n < |steps|
    ensures Subject(states[n], steps[n]).Some?
    ensures Subject(states[n], steps[n]) != Some(w) ==> SameFor(states[n], states[n + 1], w)
  {
    assert Subject(states[n], steps[n]).Some?;
    hide SameFor, Subject, Apply, Enabled;
    if Subject(states[n], steps[n]) != Some(w) {
      StepLeavesUser(states[n], steps[n], w);
    }
  }

  /** The foreground id changes only when a live user is switched to, or the foreground user is stopped. */
  lemma ForegroundChangesOnlySo(states: seq<State>, steps: seq<Step>, n: nat)
    requires IsRun(states, steps) && n < |steps|
    ensures var s, a, f := states[n], steps[n], states[n + 1].foreground;
            && (a.SwitchRequest? && a.u in s.managers ==> f == a.u)
            && (a.StopRequest? && a.u in s.managers && a.u == s.foreground ==> f == SAMGR_INVALID_USER_ID)
            && (f != s.foreground ==> || (a.SwitchRequest? && a.u in s.managers)
                                      || (a.StopRequest? && a.u in s.managers && a.u == s.foreground))
  {
    hide Inv, UserInv, Apply, Enabled;
    RunKeepsInv(states, steps, n);
    if steps[n].SwitchRequest? || steps[n].StopRequest? {
      UserFacts(states[n], steps[n].u);
    }
    ForegroundStep(states[n], steps[n]);
  }

  /** A manager is born by its user's activation and dies only in a failed activation or by the teardown
      of its user's context. */
  lemma ManagersComeAndGoOnlySo(states: seq<State>, steps: seq<Step>, n: nat, m: Mgr)
    requires IsRun(states, steps) && n < |steps|
    ensures LiveChange(states[n], steps[n], states[n + 1], m)
  {
    hide Inv, UserInv, CompleterInv, LiveInv, LiveChange, Apply, Enabled;
    RunKeepsInv(states, steps, n);
    ManagerFacts(states[n], m);
    if steps[n].DestroyManager? {
      CompleterFacts(states[n], steps[n].t);
    }
    if steps[n].BuildManager? || steps[n].InstallManager? || steps[n].InitFailed? {
      UserFacts(states[n], steps[n].u);
    }
    ManagersStep(states[n], steps[n], m);
  }

  // ---- what requests achieve ----

  /** A switch makes the user the foreground user iff the user is live, and then it is in the
      switching state. */
  lemma SwitchMakesForeground(states: seq<State>, steps: seq<Step>, n: nat, u: User)
    requires IsRun(states, steps) && n < |states| && Enabled(states[n], SwitchRequest(u))
    ensures var s' := Apply(states[n], SwitchRequest(u));
            && (s'.foreground == u <==> u in states[n].managers)
            && (u in states[n].managers ==> InState(s', u, SWITCHING))
            && (u !in states[n].managers ==> s' == states[n])
            && SameTeardowns(states[n], s') && s'.managers == states[n].managers && s'.valid == states[n].valid
            && s'.live == states[n].live && s'.stopping == states[n].stopping && s'.holder == states[n].holder
            && forall w :: w != u ==> SameFor(states[n], s', w)
  {
    RunKeepsInv(states, steps, n);
    UserFacts(states[n], u);
    hide Inv;
  }

  /** The stop of a live user takes it out of all public tables at once and keeps its manager for
      the teardown; a user that is not live is left without a state. */
  lemma StopDetaches(states: seq<State>, steps: seq<Step>, n: nat, u: User)
    requires IsRun(states, steps) && n < |states| && Enabled(states[n], StopRequest(u))
    ensures var s, s' := states[n], Apply(states[n], StopRequest(u));
            && u !in s'.managers && u !in s'.valid && s'.foreground != u
            && (u in s.managers ==> && InState(s', u, STOPPING) && Holds(s', u, ManagerDetached(s.managers[u]))
                                    && CurrentManager(s', u) == Some(s.managers[u]) && s.managers[u] in s'.live)
            && (u !in s.managers && u !in s.stopping ==> u !in s'.userState)
            && s'.managers == s.managers - {u} && s'.valid == s.valid - {u} && s'.live == s.live
            && s'.foreground == (if s.foreground == u then SAMGR_INVALID_USER_ID else s.foreground)
            && s'.stopping == s.stopping && SameTeardowns(s, s')
            && forall w :: w != u ==> SameFor(s, s', w)
  {
    RunKeepsInv(states, steps, n);
    UserFacts(states[n], u);
    var s := states[n];
    if u !in s.managers || u in s.stopping {
      StopOfUnknownUser(s, u);
      assert s.managers - {u} == s.managers && s.valid - {u} == s.valid;
    }
    hide Inv;
  }

  /** An activation that gets to its end makes the user live with the manager it built. */
  lemma InstallMakesLive(states: seq<State>, steps: seq<Step>, n: nat, u: User)
    requires IsRun(states, steps) && n < |states| && Enabled(states[n], InstallManager(u))
    ensures var s, s' := states[n], Apply(states[n], InstallManager(u));
            && u in s'.managers && s'.managers[u] == s.holder[u].mgr && s'.managers[u] in s'.live
            && u in s'.valid && InState(s', u, ACTIVATING) && u !in s'.holder && s'.foreground == s.foreground
  {
    RunKeepsInv(states, steps, n);
    assert UserInv(states[n], u);
  }

  /** The second look at the manager table before a new manager is installed never finds one. */
  lemma NoManagerAppearsDuringActivation(states: seq<State>, steps: seq<Step>, n: nat, u: User)
    requires IsRun(states, steps) && n < |states| && Enabled(states[n], InstallManager(u))
    ensures u !in states[n].managers
  {
    RunKeepsInv(states, steps, n);
    assert UserInv(states[n], u);
  }

  // ---- whole activations and teardowns ----

  /** An activation of a user without a state goes through: it ends with a new manager for the user, and
      everything else is as before. */
  lemma ActivationInOneGo(states: seq<State>, steps: seq<Step>, n: nat, u: User)
    requires IsRun(states, steps) && n < |states| && LegalUser(u) && u !in states[n].holder
    requires u !in states[n].managers && u !in states[n].stopping
    ensures var s := states[n];
            && Enabled(s, ActivateRequest(u))
            && var s1 := Apply(s, ActivateRequest(u));
               && Enabled(s1, BuildManager(u))
               && var s2 := Apply(s1, BuildManager(u));
                  && Enabled(s2, InstallManager(u))
                  && var s3 := Apply(s2, InstallManager(u));
                     && u in s3.managers && s3.managers[u] !in s.live && s3.live == s.live[s3.managers[u] := u]
                     && s3.managers == s.managers[u := s3.managers[u]] && s3.valid == s.valid + {u}
                     && s3.userState == s.userState[u := ACTIVATING] && s3.foreground == s.foreground
                     && s3.stopping == s.stopping && s3.holder == s.holder && SameTeardowns(s, s3)
  {
    RunKeepsInv(states, steps, n);
    var s := states[n];
    UserFacts(s, u);
    ManagerFacts(s, s.next);
    hide Inv;
    assert s.holder[u := ActivationChecked][u := ManagerBuilt(s.next)] - {u} == s.holder;
  }

  /** The state after a live user's stop has been requested, published and its delayed task posted. */
  function Stopped(s: State, u: User): State
    requires u in s.managers
  {
    var c := s.next;
    s.(userState := s.userState[u := STOPPING], valid := s.valid - {u}, managers := s.managers - {u},
       foreground := if u == s.foreground then SAMGR_INVALID_USER_ID else s.foreground,
       contexts := s.contexts[c := Context(u, s.managers[u], false)], stopping := s.stopping[u := c],
       finalised := s.finalised[c := 0], tasks := s.tasks + {c}, next := c + 1)
  }

  lemma StopInOneGo(states: seq<State>, steps: seq<Step>, n: nat, u: User)
    requires IsRun(states, steps) && n < |states| && LegalUser(u) && u !in states[n].holder && u in states[n].managers
    ensures var s := states[n];
            && Enabled(s, StopRequest(u))
            && var s1 := Apply(s, StopRequest(u));
               && Enabled(s1, PublishContext(u))
               && var s2 := Apply(s1, PublishContext(u));
                  Enabled(s2, PostTask(u)) && Apply(s2, PostTask(u)) == Stopped(s, u)
  {
    RunKeepsInv(states, steps, n);
    var s := states[n];
    UserFacts(s, u);
    hide Inv;
    var m := s.managers[u];
    assert s.holder[u := ManagerDetached(m)][u := ContextPublished(s.next)] - {u} == s.holder;
  }

  /** A delayed teardown that runs undisturbed destroys exactly the manager of its context and leaves no
      trace of its user; everything else is as before. */
  lemma TeardownInOneGo(states: seq<State>, steps: seq<Step>, n: nat, c: Ctx)
    requires IsRun(states, steps) && n < |states| && c in states[n].tasks
    ensures var s, t := states[n], states[n].next;
            && Enabled(s, RunTask(c))
            && var s1 := Apply(s, RunTask(c));
               && Enabled(s1, DestroyManager(t))
               && var s2 := Apply(s1, DestroyManager(t));
                  && Enabled(s2, FinishCompletion(t))
                  && var s3, u := Apply(s2, FinishCompletion(t)), s.contexts[c].user;
                     && s3.live == s.live - {s.contexts[c].manager} && s.contexts[c].manager in s.live
                     && s3.userState == s.userState - {u} && s3.stopping == s.stopping - {u}
                     && s3.managers == s.managers && s3.valid == s.valid && s3.foreground == s.foreground
                     && s3.tasks == s.tasks - {c} && s3.completers == s.completers && s3.holder == s.holder
                     && s3.contexts == s.contexts[c := s.contexts[c].(finalizing := true)]
                     && c in s3.finalised && s3.finalised[c] == 1
  {
    RunKeepsInv(states, steps, n);
    var s := states[n];
    TaskFacts(s, c);
    ContextFacts(s, c);
    CompleterFacts(s, s.next);
    hide Inv;
    var t := s.next;
    assert s.completers[t := Completer(c, false)][t := Completer(c, true)] - {t} == s.completers;
  }

  lemma TaskFacts(s: State, c: Ctx)
    requires Inv(s) && c in s.tasks
    ensures c in s.contexts && !s.contexts[c].finalizing
  {
  }

  /** The same when there is no process to wait for and the request completes the teardown itself. */
  lemma InlineTeardownInOneGo(states: seq<State>, steps: seq<Step>, n: nat, u: User)
    requires IsRun(states, steps) && n < |states| && u in states[n].holder && states[n].holder[u].ContextPublished?
    ensures var s, t, c := states[n], states[n].next, states[n].holder[u].ctx;
            && Enabled(s, CompleteInline(u))
            && var s1 := Apply(s, CompleteInline(u));
               && Enabled(s1, DestroyManager(t))
               && var s2 := Apply(s1, DestroyManager(t));
                  && Enabled(s2, FinishCompletion(t))
                  && var s3 := Apply(s2, FinishCompletion(t));
                     && c in s.contexts && s.contexts[c].user == u && s.contexts[c].manager in s.live
                     && s3.live == s.live - {s.contexts[c].manager} && s3.holder == s.holder - {u}
                     && s3.userState == s.userState - {u} && s3.stopping == s.stopping - {u}
                     && s3.managers == s.managers && s3.valid == s.valid && s3.foreground == s.foreground
                     && s3.tasks == s.tasks && s3.completers == s.completers
                     && s3.contexts == s.contexts[c := s.contexts[c].(finalizing := true)]
                     && c in s3.finalised && s3.finalised[c] == 1
  {
    RunKeepsInv(states, steps, n);
    var s := states[n];
    UserFacts(s, u);
    ContextFacts(s, s.holder[u].ctx);
    CompleterFacts(s, s.next);
    hide Inv;
    var t, c := s.next, s.holder[u].ctx;
    assert s.completers[t := Completer(c, false)][t := Completer(c, true)] - {t} == s.completers;
    assert s.holder[u := CompletingInline(t)] - {u} == s.holder - {u};
  }

  /** An activation whose initialisation fails leaves nothing behind. */
  lemma FailedActivationLeavesNothing(states: seq<State>, steps: seq<Step>, n: nat, u: User)
    requires IsRun(states, steps) && n < |states| && LegalUser(u) && u !in states[n].holder
    requires u !in states[n].managers && u !in states[n].stopping
    ensures var s := states[n];
            && Enabled(s, ActivateRequest(u))
            && var s1 := Apply(s, ActivateRequest(u));
               && Enabled(s1, ActivateGiveUp(u)) && Apply(s1, ActivateGiveUp(u)) == s
               && Enabled(s1, BuildManager(u))
               && var s2 := Apply(s1, BuildManager(u));
                  Enabled(s2, InitFailed(u)) && Apply(s2, InitFailed(u)) == s.(next := s.next + 1)
  {
    RunKeepsInv(states, steps, n);
    var s := states[n];
    UserFacts(s, u);
    ManagerFacts(s, s.next);
    hide Inv;
    assert s.holder[u := ActivationChecked] - {u} == s.holder;
    assert s.holder[u := ActivationChecked][u := ManagerBuilt(s.next)] - {u} == s.holder;
    assert s.live[s.next := u] - {s.next} == s.live;
  }
}
