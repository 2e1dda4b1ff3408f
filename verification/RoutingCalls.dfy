/**
 What the routed calls, the deaths of abilities and the changes of the users do to the registries, as
 lookups see them.
 */
module RoutingCalls {
  import opened Common
  import opened Registries
  import opened Routing

  /** One registry has changed in one entry, and nothing else a lookup depends on. */
  ghost predicate OnlyEntryChanged(s: State, s': State, target: Target, sa: Sa) {
    && s'.users == s.users && s'.multi == s.multi
    && (forall t :: t != target ==> RegistryAt(s', t) == RegistryAt(s, t))
    && (forall x :: x != sa ==> (x in RegistryAt(s', target) <==> x in RegistryAt(s, target)))
    && (forall x :: x != sa && x in RegistryAt(s, target) ==> RegistryAt(s', target)[x] == RegistryAt(s, target)[x])
  }

  // ---- the last step of each call, whatever has happened to the users since it got its manager ----

  /** A registration puts its object into the registry of its manager, exactly when it is acceptable and
      there is room, and leaves all other entries alone. */
  lemma EndAddWorks(states: seq<State>, steps: seq<Step>, self: Obj, n: nat, t: Tid)
    requires IsRun(states, steps, self) && n < |states| && t in states[n].calls && states[n].calls[t].Adding?
    ensures Enabled(states[n], EndAdd(t))
    ensures var s, s' := states[n], Apply(states[n], EndAdd(t));
            var Adding(caller, target, r) := s.calls[t];
            && OnlyEntryChanged(s, s', target, r.sa) && s'.calls == s.calls - {t}
            && (if && CheckInputSysAbilityId(r.sa) && r.ability.Some? && r.asInProfile
                   && |RegistryAt(s, target)| < MAX_SERVICES
                then Lookup(RegistryAt(s', target), r.sa) == r.ability
                else RegistryAt(s', target) == RegistryAt(s, target) && s'.log == s.log)
  {
    AddIsAfterEndAdd(states[n], t);
    hide IsRun, Apply;
    AddChangesOneEntry(states[n], t);
  }

  lemma AddChangesOneEntry(s: State, t: Tid)
    requires t in s.calls && s.calls[t].Adding?
    ensures var s' := AfterEndAdd(s, t);
            var Adding(caller, target, r) := s.calls[t];
            && OnlyEntryChanged(s, s', target, r.sa) && s'.calls == s.calls - {t}
            && (if AddSucceeds(RegistryAt(s, target), r) then Lookup(RegistryAt(s', target), r.sa) == r.ability
                else RegistryAt(s', target) == RegistryAt(s, target) && s'.log == s.log)
  {
  }

  /** A removal takes a legal id out of the registry of its manager and leaves all other entries alone. */
  lemma EndRemoveWorks(states: seq<State>, steps: seq<Step>, self: Obj, n: nat, t: Tid)
    requires IsRun(states, steps, self) && n < |states| && t in states[n].calls && states[n].calls[t].Removing?
    ensures Enabled(states[n], EndRemove(t))
    ensures var s, s' := states[n], Apply(states[n], EndRemove(t));
            var Removing(target, sa) := s.calls[t];
            && OnlyEntryChanged(s, s', target, sa) && s'.calls == s.calls - {t}
            && sa !in RegistryAt(s', target)
            && (sa !in RegistryAt(s, target) ==> s'.log == s.log)
            && (sa in RegistryAt(s, target) ==> s'.log == s.log + [Removed(target, sa)])
  {
    RunKeepsInv(states, steps, self, n);
    var s := states[n];
    assert EntryOk(s, s.calls[t].target, s.calls[t].sa);
    hide Inv, IsRun, LastEntry;
  }

  /** The death of an object takes out the first entry that holds it, and only that one. */
  lemma ObjectDeathWorks(s: State, target: Target, sa: Sa, o: Obj)
    requires IsFirstHolder(RegistryAt(s, target), o, sa)
    ensures Enabled(s, ObjectDied(target, sa, o))
    ensures var s' := Apply(s, ObjectDied(target, sa, o));
            OnlyEntryChanged(s, s', target, sa) && sa !in RegistryAt(s', target) && s'.calls == s.calls
  {
    hide IsFirstHolder;
  }

  /** An ability found dead is taken out. */
  lemma DiedAbilityRemovalWorks(s: State, target: Target, sa: Sa)
    requires sa in RegistryAt(s, target)
    ensures Enabled(s, DiedAbilityRemoved(target, sa))
    ensures var s' := Apply(s, DiedAbilityRemoved(target, sa));
            OnlyEntryChanged(s, s', target, sa) && sa !in RegistryAt(s', target) && s'.calls == s.calls
  {
  }

  // ---- removals in one go ----

  /** What a change of one entry does to every lookup. */
  lemma EntryChangeIsSeen(s: State, s': State, target: Target, sa: Sa, caller: User, x: Sa)
    requires OnlyEntryChanged(s, s', target, sa)
    ensures CheckTarget(s', caller, x) == CheckTarget(s, caller, x)
    ensures x != sa || CheckTarget(s, caller, x) != Some(target) ==>
              CheckSystemAbility(s', caller, x) == CheckSystemAbility(s, caller, x)
    ensures x == sa && CheckTarget(s, caller, x) == Some(target) && sa !in RegistryAt(s', target) ==>
              CheckSystemAbility(s', caller, x) == None
  {
  }

  /** The two looks of a live user's removal in one go find the user's own session. */
  lemma LooksInOneGo(s: State, t: Tid, caller: User, sa: Sa)
    requires t !in s.calls && caller != BASE_USER && sa in s.multi && caller in s.users.live && UserOk(s, caller)
    ensures Enabled(s, BeginRemove(t, caller, sa))
    ensures var s1 := Apply(s, BeginRemove(t, caller, sa));
            && Enabled(s1, ResolveRemove(t))
            && Apply(s1, ResolveRemove(t)) == Begun(s, t, Removing(Session(s.users.live[caller]), sa))
  {
    hide CurrentSession, StoppingSession;
    var c := Looked(caller, false, sa);
    var c' := Removing(Session(s.users.live[caller]), sa);
    assert s.calls[t := c][t := c'] == s.calls[t := c'];
  }

  lemma EndRemoveInOneGo(s: State, t: Tid, target: Target, sa: Sa)
    requires t !in s.calls && (sa in RegistryAt(s, target) ==> CheckInputSysAbilityId(sa))
    ensures var s1 := Begun(s, t, Removing(target, sa));
            && Enabled(s1, EndRemove(t))
            && var s2 := Apply(s1, EndRemove(t));
               OnlyEntryChanged(s, s2, target, sa) && sa !in RegistryAt(s2, target) && s2.calls == s.calls
  {
    assert s.calls[t := Removing(target, sa)] - {t} == s.calls;
  }

  /** A live user's removal of a multi-instance ability in one go: the user's lookup finds nothing any
      more, and no lookup of another ability, or by another user, changes. */
  lemma RemovalIsGone(states: seq<State>, steps: seq<Step>, self: Obj, n: nat, t: Tid, caller: User, sa: Sa,
                      other: User, x: Sa)
    requires IsRun(states, steps, self) && n < |states| && t !in states[n].calls
    requires caller != BASE_USER && sa in states[n].multi && caller in states[n].users.live
    ensures var s := states[n];
            var s1 := Apply(s, BeginRemove(t, caller, sa));
            && Enabled(s1, ResolveRemove(t))
            && var s2 := Apply(s1, ResolveRemove(t));
               && Enabled(s2, EndRemove(t))
               && var s3 := Apply(s2, EndRemove(t));
                  && CheckSystemAbility(s3, caller, sa) == None
                  && (other != BASE_USER && (other != caller || x != sa) ==>
                        CheckSystemAbility(s3, other, x) == CheckSystemAbility(s, other, x))
  {
    RunKeepsInv(states, steps, self, n);
    var s := states[n];
    var target := Session(s.users.live[caller]);
    assert UserOk(s, caller) && UserOk(s, other) && EntryOk(s, target, sa);
    hide Inv, IsRun;
    LooksInOneGo(s, t, caller, sa);
    if other != caller {
      DifferentSessions(s, caller, other);
    }
    hide UserOk, LastEntry;
    EndRemoveInOneGo(s, t, target, sa);
    var s3 := Apply(Begun(s, t, Removing(target, sa)), EndRemove(t));
    hide Apply, Enabled;
    EntryChangeIsSeen(s, s3, target, sa, caller, sa);
    EntryChangeIsSeen(s, s3, target, sa, other, x);
    hide OnlyEntryChanged, CheckSystemAbility;
  }

  /** The same for a base caller and an ability that is not multi-instance, as everybody sees it. */
  lemma BaseRemovalIsGone(states: seq<State>, steps: seq<Step>, self: Obj, n: nat, t: Tid, sa: Sa, other: User, x: Sa)
    requires IsRun(states, steps, self) && n < |states| && t !in states[n].calls && sa !in states[n].multi
    ensures var s := states[n];
            && Enabled(s, BeginRemove(t, BASE_USER, sa))
            && var s1 := Apply(s, BeginRemove(t, BASE_USER, sa));
               && Enabled(s1, EndRemove(t))
               && var s2 := Apply(s1, EndRemove(t));
                  && CheckSystemAbility(s2, other, sa) == None
                  && (x != sa ==> CheckSystemAbility(s2, other, x) == CheckSystemAbility(s, other, x))
  {
    RunKeepsInv(states, steps, self, n);
    var s := states[n];
    assert EntryOk(s, Base, sa);
    hide Inv, IsRun, LastEntry;
    EndRemoveInOneGo(s, t, Base, sa);
    var s1 := Begun(s, t, Removing(Base, sa));
    assert Apply(s, BeginRemove(t, BASE_USER, sa)) == s1;
    var s2 := Apply(s1, EndRemove(t));
    hide Apply, Enabled;
    EntryChangeIsSeen(s, s2, Base, sa, other, sa);
    EntryChangeIsSeen(s, s2, Base, sa, other, x);
    hide OnlyEntryChanged, CheckSystemAbility;
  }

  // ---- changes of the users ----

  /** An activation opens an empty session: the user's lookups of multi-instance abilities find nothing,
      and no other user's lookup changes. */
  lemma ActivationOpensEmptySession(states: seq<State>, steps: seq<Step>, self: Obj, n: nat, u: User, other: User,
                                    sa: Sa)
    requires IsRun(states, steps, self) && n < |states| && u != BASE_USER && u != SAMGR_INVALID_USER_ID
    requires u !in states[n].users.live && u !in states[n].users.detached && u !in states[n].users.stopping
    ensures Enabled(states[n], Activate(u))
    ensures var s, s' := states[n], Apply(states[n], Activate(u));
            && u in s'.users.live && CurrentSession(s'.log, u) == Some(s'.users.live[u])
            && s'.users.live == s.users.live[u := s'.users.live[u]] && s'.users.foreground == s.users.foreground
            && (sa in s.multi ==> CheckSystemAbility(s', u, sa) == None)
            && (other != u && other != BASE_USER ==>
                  CheckSystemAbility(s', other, sa) == CheckSystemAbility(s, other, sa))
  {
    RunKeepsInv(states, steps, self, n);
    var s := states[n];
    assert UserOk(s, other) && s.users.next !in s.users.owner;
    hide Inv, IsRun, UserOk, StoppingSession, LastEntry;
    SessionOneMore(s.log, Activated(u, s.users.next), u);
    hide CurrentSession;
    assert other in s.users.live ==> s.users.live[other] != s.users.next by { LiveSessionsAreOld(s, other); }
  }

  lemma LiveSessionsAreOld(s: State, u: User)
    requires UserOk(s, u) && s.users.next !in s.users.owner
    ensures u in s.users.live ==> s.users.live[u] != s.users.next
  {
  }

  /** A stop hides the user's session at once; nobody else's lookups change, except a base caller's when
      the foreground user is stopped. */
  lemma StopHidesSession(states: seq<State>, steps: seq<Step>, self: Obj, n: nat, u: User, other: User, sa: Sa)
    requires IsRun(states, steps, self) && n < |states| && u in states[n].users.live
    ensures Enabled(states[n], Stop(u))
    ensures var s, s' := states[n], Apply(states[n], Stop(u));
            && s'.users.live == s.users.live - {u} && s'.registries == s.registries
            && u in s'.users.detached && s'.users.detached[u] == s.users.live[u]
            && s'.users.foreground == (if s.users.foreground == u then SAMGR_INVALID_USER_ID else s.users.foreground)
            && (sa in s.multi ==> CheckSystemAbility(s', u, sa) == None)
            && (other != u && other != BASE_USER ==>
                  CheckSystemAbility(s', other, sa) == CheckSystemAbility(s, other, sa))
  {
    RunKeepsInv(states, steps, self, n);
    assert UserOk(states[n], u);
    hide Inv, IsRun, CurrentSession, StoppingSession;
  }

  /** The publication of a stopping context makes the stopped session reachable for removals, and the end
      of the teardown empties its registry and forgets it. */
  lemma TeardownEmptiesSession(s: State, u: User)
    requires u in s.users.detached
    ensures Enabled(s, PublishStop(u))
    ensures var s1, n := Apply(s, PublishStop(u)), s.users.detached[u];
            && s1.users.detached == s.users.detached - {u} && s1.users.stopping == s.users.stopping[u := n]
            && s1.users.live == s.users.live && s1.users.foreground == s.users.foreground
            && s1.registries == s.registries && Enabled(s1, Complete(u))
            && var s2 := Apply(s1, Complete(u));
               && u !in s2.users.stopping && s2.users.live == s.users.live && RegistryAt(s2, Session(n)) == map[]
               && s2.users.foreground == s.users.foreground
               && forall t :: t != Session(n) ==> RegistryAt(s2, t) == RegistryAt(s, t)
  {
  }

  /** A switch decides whose multi-instance abilities base callers see, and nothing else. */
  lemma SwitchDecidesBaseLookups(states: seq<State>, steps: seq<Step>, self: Obj, n: nat, u: User, other: User, sa: Sa)
    requires IsRun(states, steps, self) && n < |states| && u in states[n].users.live
    ensures Enabled(states[n], Switch(u))
    ensures var s, s' := states[n], Apply(states[n], Switch(u));
            && (sa in s.multi ==> CheckSystemAbility(s', BASE_USER, sa) == CheckSystemAbility(s, u, sa))
            && (sa !in s.multi || other != BASE_USER ==>
                  CheckSystemAbility(s', other, sa) == CheckSystemAbility(s, other, sa))
  {
    RunKeepsInv(states, steps, self, n);
    hide Inv, IsRun;
  }
}
