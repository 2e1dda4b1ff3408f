/**
 Calls routed to the base registry or to the registry of one user. A routed call first decides on a
 manager and uses it later, so users may be stopped, torn down and activated again in between. Every
 activation opens a new session with its own registry. The log records what happened, and the
 results compare every lookup with a backward scan of the log.
 */
module Routing {
  import opened Common
  import opened Registries

  type Tid = nat

  datatype Target = Base | Session(n: nat)

  datatype Event =
    | Activated(user: User, n: nat)
    | Stopped(user: User)
    | StopPublished(user: User, n: nat)
    | Destroyed(user: User, n: nat)
    | Registered(target: Target, caller: User, sa: Sa, obj: Obj)
    | Removed(target: Target, sa: Sa)
    | LookedUp(caller: User, sa: Sa, found: Option<Obj>)

  /** A routed call that has its manager and has not used it yet, or a removal between its first look,
      whether the user is stopping, and its second one, for the manager. */
  datatype Call =
    | Adding(caller: User, target: Target, r: Registration)
    | Looked(caller: User, stopping: bool, sa: Sa)
    | Removing(target: Target, sa: Sa)
    | Checking(caller: User, target: Target, sa: Sa)

  /** The sessions of the users; `detached` ones are stopped with their context not yet published. */
  datatype Users = Users(
    owner: map<nat, User>,
    live: map<User, nat>,
    detached: map<User, nat>,
    stopping: map<User, nat>,
    foreground: User,
    next: nat)

  datatype State = State(
    multi: set<Sa>,
    registries: map<Target, Registry>,
    users: Users,
    calls: map<Tid, Call>,
    log: seq<Event>)

  /** The manager itself is registered as ability 0 before anything else happens. */
  ghost predicate Init(s: State, self: Obj) {
    && 0 !in s.multi
    && s == State(s.multi, map[Base := map[0 := self]], Users(map[], map[], map[], map[], SAMGR_INVALID_USER_ID, 0),
                  map[], [Registered(Base, BASE_USER, 0, self)])
  }

  // ---- routing ----

  function RouteForUser(s: State, sa: Sa, caller: User): User {
    if sa !in s.multi then BASE_USER else if caller == BASE_USER then s.users.foreground else caller
  }

  function RouteForSa(s: State, sa: Sa, caller: User): Err {
    if caller == BASE_USER then (if sa in s.multi then NotAllowed else ErrOk)
    else (if sa in s.multi then ErrOk else NotAllowed)
  }

  function LiveTarget(s: State, user: User): Option<Target> {
    if user in s.users.live then Some(Session(s.users.live[user])) else None
  }

  function CheckTarget(s: State, caller: User, sa: Sa): Option<Target> {
    var target := RouteForUser(s, sa, caller);
    if target == BASE_USER then Some(Base) else LiveTarget(s, target)
  }

  function AddTarget(s: State, caller: User, sa: Sa): Option<Target> {
    if RouteForSa(s, sa, caller) != ErrOk then None
    else if caller == BASE_USER then Some(Base)
    else LiveTarget(s, caller)
  }

  /** The manager a removal finds with its second look, after the first one saw the user stopping or not. */
  function RemoveTarget(s: State, caller: User, stopping: bool): Option<Target> {
    if !stopping then LiveTarget(s, caller)
    else if caller in s.users.stopping then Some(Session(s.users.stopping[caller]))
    else None
  }

  function RegistryAt(s: State, t: Target): Registry {
    if t in s.registries then s.registries[t] else map[]
  }

  /** A lookup made in one go. */
  function CheckSystemAbility(s: State, caller: User, sa: Sa): Option<Obj> {
    var t := CheckTarget(s, caller, sa);
    if t.None? then None else Lookup(RegistryAt(s, t.value), sa)
  }

  /** A lookup in the registry of a named user, for base callers only. */
  function CheckSystemAbilityOf(s: State, caller: User, sa: Sa, user: User): Option<Obj> {
    if caller != BASE_USER then None
    else
      var t := LiveTarget(s, user);
      if t.None? then None else Lookup(RegistryAt(s, t.value), sa)
  }

  // ---- steps ----

  datatype Step =
    | Activate(user: User)
    | Switch(user: User)
    | Stop(user: User)
    | PublishStop(user: User)
    | Complete(user: User)
    | BeginAdd(t: Tid, caller: User, r: Registration)
    | EndAdd(t: Tid)
    | BeginRemove(t: Tid, caller: User, sa: Sa)
    | ResolveRemove(t: Tid)
    | EndRemove(t: Tid)
    | BeginCheck(t: Tid, caller: User, sa: Sa)
    | EndCheck(t: Tid)
    | ObjectDied(target: Target, sa: Sa, obj: Obj)
    | DiedAbilityRemoved(target: Target, sa: Sa)

  ghost predicate Enabled(s: State, a: Step) {
    match a
    case Activate(u) => u != BASE_USER && u != SAMGR_INVALID_USER_ID && u !in s.users.stopping && u !in s.users.detached
    case Switch(u) => u in s.users.live
    case Stop(u) => u in s.users.live && u !in s.users.stopping
    case PublishStop(u) => u in s.users.detached
    case Complete(u) => u in s.users.stopping
    case BeginAdd(t, _, _) => t !in s.calls
    case EndAdd(t) => t in s.calls && s.calls[t].Adding?
    case BeginRemove(t, _, _) => t !in s.calls
    case ResolveRemove(t) => t in s.calls && s.calls[t].Looked?
    case EndRemove(t) => t in s.calls && s.calls[t].Removing?
    case BeginCheck(t, _, _) => t !in s.calls
    case EndCheck(t) => t in s.calls && s.calls[t].Checking?
    case ObjectDied(target, sa, o) => IsFirstHolder(RegistryAt(s, target), o, sa)
    case DiedAbilityRemoved(target, sa) => sa in RegistryAt(s, target)
  }

  /** A registry is replaced and the event logged. */
  function Put(s: State, target: Target, reg: Registry, e: Event): State {
    s.(registries := s.registries[target := reg], log := s.log + [e])
  }

  function Without(s: State, target: Target, sa: Sa): State {
    Put(s, target, RegistryAt(s, target) - {sa}, Removed(target, sa))
  }

  function Ended(s: State, t: Tid): State {
    s.(calls := s.calls - {t})
  }

  function AfterEndAdd(s: State, t: Tid): State
    requires t in s.calls && s.calls[t].Adding?
  {
    var Adding(caller, target, r) := s.calls[t];
    var reg := RegistryAt(s, target);
    if AddSucceeds(reg, r)
    then Put(Ended(s, t), target, Added(reg, r), Registered(target, caller, r.sa, r.ability.value))
    else Ended(s, t)
  }

  function AfterEndCheck(s: State, t: Tid): State
    requires t in s.calls && s.calls[t].Checking?
  {
    var Checking(caller, target, sa) := s.calls[t];
    Ended(s, t).(log := s.log + [LookedUp(caller, sa, Lookup(RegistryAt(s, target), sa))])
  }

  function AfterEndRemove(s: State, t: Tid): State
    requires t in s.calls && s.calls[t].Removing?
  {
    var Removing(target, sa) := s.calls[t];
    if RemoveSucceeds(RegistryAt(s, target), sa) then Without(Ended(s, t), target, sa) else Ended(s, t)
  }

  /** A change of some user's state, as opposed to a routed call or a death. */
  predicate IsLife(a: Step) {
    a.Activate? || a.Switch? || a.Stop? || a.PublishStop? || a.Complete?
  }

  ghost function ApplyLife(s: State, a: Step): State
    requires IsLife(a) && Enabled(s, a)
  {
    var us := s.users;
    match a
    case Activate(u) =>
      if u in us.live then s
      else Put(s, Session(us.next), map[], Activated(u, us.next))
           .(users := us.(owner := us.owner[us.next := u], live := us.live[u := us.next], next := us.next + 1))
    case Switch(u) => s.(users := us.(foreground := u))
    case Stop(u) =>
      s.(users := us.(live := us.live - {u}, detached := us.detached[u := us.live[u]],
                      foreground := if us.foreground == u then SAMGR_INVALID_USER_ID else us.foreground),
         log := s.log + [Stopped(u)])
    case PublishStop(u) =>
      s.(users := us.(detached := us.detached - {u}, stopping := us.stopping[u := us.detached[u]]),
         log := s.log + [StopPublished(u, us.detached[u])])
    case Complete(u) =>
      Put(s, Session(us.stopping[u]), map[], Destroyed(u, us.stopping[u])).(users := us.(stopping := us.stopping - {u}))
  }

  function Begun(s: State, t: Tid, c: Call): State {
    s.(calls := s.calls[t := c])
  }

  function AfterFirstLook(s: State, t: Tid, caller: User, sa: Sa): State {
    if RouteForSa(s, sa, caller) != ErrOk then s
    else if caller == BASE_USER then Begun(s, t, Removing(Base, sa))
    else Begun(s, t, Looked(caller, caller in s.users.stopping, sa))
  }

  function AfterSecondLook(s: State, t: Tid): State
    requires t in s.calls && s.calls[t].Looked?
  {
    var Looked(caller, stopping, sa) := s.calls[t];
    var target := RemoveTarget(s, caller, stopping);
    if target.None? then Ended(s, t) else Begun(s, t, Removing(target.value, sa))
  }

  ghost function ApplyCall(s: State, a: Step): State
    requires !IsLife(a) && Enabled(s, a)
  {
    match a
    case BeginAdd(t, caller, r) =>
      var target := AddTarget(s, caller, r.sa);
      if target.None? then s else Begun(s, t, Adding(caller, target.value, r))
    case EndAdd(t) => AfterEndAdd(s, t)
    case BeginRemove(t, caller, sa) => AfterFirstLook(s, t, caller, sa)
    case ResolveRemove(t) => AfterSecondLook(s, t)
    case EndRemove(t) => AfterEndRemove(s, t)
    case BeginCheck(t, caller, sa) =>
      var target := CheckTarget(s, caller, sa);
      if target.None? then s else Begun(s, t, Checking(caller, target.value, sa))
    case EndCheck(t) => AfterEndCheck(s, t)
    case ObjectDied(target, sa, _) => Without(s, target, sa)
    case DiedAbilityRemoved(target, sa) => Without(s, target, sa)
  }

  ghost function Apply(s: State, a: Step): State
    requires Enabled(s, a)
  {
    if IsLife(a) then ApplyLife(s, a) else ApplyCall(s, a)
  }

  ghost predicate IsRun(states: seq<State>, steps: seq<Step>, self: Obj) {
    && |states| == |steps| + 1
    && Init(states[0], self)
    && forall i :: 0 <= i < |steps| ==> Enabled(states[i], steps[i]) && states[i + 1] == Apply(states[i], steps[i])
  }

  // ---- what the log says ----

  /** The session of a user according to the log: opened by its latest activation and not stopped. */
  function CurrentSession(log: seq<Event>, user: User): Option<nat> {
    if log == [] then None
    else match log[|log| - 1]
      case Activated(u, n) => if u == user then Some(n) else CurrentSession(log[..|log| - 1], user)
      case Stopped(u) => if u == user then None else CurrentSession(log[..|log| - 1], user)
      case _ => CurrentSession(log[..|log| - 1], user)
  }

  /** The session of a user that is being torn down, from the publication of its stopping context to
      its destruction. */
  function StoppingSession(log: seq<Event>, user: User): Option<nat> {
    if log == [] then None
    else
      var rest := log[..|log| - 1];
      match log[|log| - 1]
      case Activated(u, _) => if u == user then None else StoppingSession(rest, user)
      case Stopped(u) => if u == user then None else StoppingSession(rest, user)
      case StopPublished(u, n) => if u == user then Some(n) else StoppingSession(rest, user)
      case Destroyed(u, _) => if u == user then None else StoppingSession(rest, user)
      case _ => StoppingSession(rest, user)
  }

  /** The last registration of an ability with one manager that has not been removed since. */
  function LastEntry(log: seq<Event>, target: Target, sa: Sa): Option<Obj> {
    if log == [] then None
    else
      var rest := log[..|log| - 1];
      match log[|log| - 1]
      case Registered(t, _, x, o) => if t == target && x == sa then Some(o) else LastEntry(rest, target, sa)
      case Removed(t, x) => if t == target && x == sa then None else LastEntry(rest, target, sa)
      case Activated(_, n) => if target == Session(n) then None else LastEntry(rest, target, sa)
      case Destroyed(_, n) => if target == Session(n) then None else LastEntry(rest, target, sa)
      case _ => LastEntry(rest, target, sa)
  }

  /** What a user should find: its last registration in its current session. */
  function Expected(log: seq<Event>, user: User, sa: Sa): Option<Obj> {
    var n := CurrentSession(log, user);
    if n.None? then None else LastEntry(log, Session(n.value), sa)
  }

  // ---- the invariant ----

  /** Multi-instance abilities live in user registries and all others in the base registry. */
  predicate Belongs(multi: set<Sa>, target: Target, sa: Sa) {
    target.Base? <==> sa !in multi
  }

  /** A registry entry belongs where it is and is what the log says. */
  ghost predicate Fits(multi: set<Sa>, reg: Registry, log: seq<Event>, target: Target, sa: Sa) {
    && (sa in reg ==> Belongs(multi, target, sa) && CheckInputSysAbilityId(sa))
    && LastEntry(log, target, sa) == if sa in reg then Some(reg[sa]) else None
  }

  ghost predicate EntryOk(s: State, target: Target, sa: Sa) {
    Fits(s.multi, RegistryAt(s, target), s.log, target, sa)
  }

  ghost predicate UserOk(s: State, u: User) {
    var us := s.users;
    && (u in us.live ==> us.live[u] in us.owner && us.owner[us.live[u]] == u)
    && (u in us.detached ==> us.detached[u] in us.owner && us.owner[us.detached[u]] == u)
    && (u in us.detached ==> u !in us.live && u !in us.stopping)
    && (u in us.stopping ==> us.stopping[u] in us.owner && us.owner[us.stopping[u]] == u && u !in us.live)
    && CurrentSession(s.log, u) == (if u in us.live then Some(us.live[u]) else None)
    && StoppingSession(s.log, u) == if u in us.stopping then Some(us.stopping[u]) else None
  }

  /** A manager in use by a caller: the base manager, or one of the caller's own sessions. */
  ghost predicate Own(s: State, target: Target, caller: User) {
    target.Session? ==> target.n in s.users.owner && s.users.owner[target.n] == caller
  }

  ghost predicate CallOk(s: State, c: Call) {
    match c
    case Adding(caller, target, r) => Own(s, target, caller) && Belongs(s.multi, target, r.sa)
    case Looked(_, _, _) => true
    case Removing(_, _) => true
    case Checking(caller, target, sa) =>
      (caller != BASE_USER ==> Own(s, target, caller)) && Belongs(s.multi, target, sa)
  }

  /** Events so far: registrations are by the owner of the session, lookups by a user found what
      that user registered. */
  ghost predicate EventOk(s: State, i: nat)
    requires i < |s.log|
  {
    match s.log[i]
    case Registered(target, caller, _, _) => Own(s, target, caller)
    case LookedUp(caller, sa, found) =>
      caller != BASE_USER && sa in s.multi && found.Some? ==> RegisteredBefore(s.log, i, caller, sa, found.value)
    case _ => true
  }

  /** The registration of an object by a user in one of its sessions. */
  predicate ByUser(e: Event, caller: User, sa: Sa, o: Obj) {
    e.Registered? && e.caller == caller && e.sa == sa && e.obj == o && e.target.Session?
  }

  ghost predicate RegisteredBefore(log: seq<Event>, i: nat, caller: User, sa: Sa, o: Obj)
    requires i <= |log|
  {
    exists j :: 0 <= j < i && ByUser(log[j], caller, sa, o)
  }

  ghost predicate Inv(s: State) {
    && (forall n :: n in s.users.owner ==> n < s.users.next)
    && (forall target, sa :: EntryOk(s, target, sa))
    && (forall u :: UserOk(s, u))
    && BASE_USER !in s.users.live && s.users.foreground != BASE_USER
    && (forall t :: t in s.calls ==> CallOk(s, s.calls[t]))
    && (forall i: nat :: i < |s.log| ==> EventOk(s, i))
  }

  lemma {:induction false} EntryComesFromLog(log: seq<Event>, target: Target, sa: Sa) returns (j: nat)
    requires LastEntry(log, target, sa).Some?
    ensures j < |log| && log[j].Registered? && log[j].target == target && log[j].sa == sa
    ensures Some(log[j].obj) == LastEntry(log, target, sa)
  {
    var last := log[|log| - 1];
    if last.Registered? && last.target == target && last.sa == sa {
      j := |log| - 1;
    } else {
      j := EntryComesFromLog(log[..|log| - 1], target, sa);
    }
  }

  // ---- one step ----

  lemma OneMoreEvent(log: seq<Event>, e: Event)
    ensures (log + [e])[..|log|] == log && (log + [e])[|log|] == e
  {
  }

  /** Events that do not concern an entry leave the scan for it alone. */
  predicate Concerns(e: Event, target: Target, sa: Sa) {
    match e
    case Registered(t, _, x, _) => t == target && x == sa
    case Removed(t, x) => t == target && x == sa
    case Activated(_, n) => target == Session(n)
    case Destroyed(_, n) => target == Session(n)
    case _ => false
  }

  lemma ScanOneMore(log: seq<Event>, e: Event, target: Target, sa: Sa)
    ensures LastEntry(log + [e], target, sa) ==
            if !Concerns(e, target, sa) then LastEntry(log, target, sa)
            else if e.Registered? then Some(e.obj) else None
  {
    OneMoreEvent(log, e);
  }

  lemma SessionOneMore(log: seq<Event>, e: Event, u: User)
    ensures CurrentSession(log + [e], u) ==
            if e.Activated? && e.user == u then Some(e.n)
            else if e.Stopped? && e.user == u then None
            else CurrentSession(log, u)
    ensures StoppingSession(log + [e], u) ==
            if e.StopPublished? && e.user == u then Some(e.n)
            else if (e.Activated? || e.Stopped? || e.Destroyed?) && e.user == u then None
            else StoppingSession(log, u)
  {
    OneMoreEvent(log, e);
  }

  /** The step adds at most one event. */
  ghost predicate Extends(log: seq<Event>, log': seq<Event>) {
    log' == log || (|log'| == |log| + 1 && log' == log + [log'[|log|]])
  }

  lemma CallKeepsUsers(s: State, a: Step)
    requires !IsLife(a) && Enabled(s, a)
    ensures ApplyCall(s, a).users == s.users && ApplyCall(s, a).multi == s.multi
  {
    hide IsFirstHolder, Added, AddSucceeds, RemoveSucceeds, Lookup, RegistryAt, AddTarget, RemoveTarget, CheckTarget;
  }

  lemma CallLogsOne(s: State, a: Step)
    requires !IsLife(a) && Enabled(s, a)
    ensures var s' := ApplyCall(s, a);
            s'.log != s.log ==> |s'.log| == |s.log| + 1 && s'.log == s.log + [s'.log[|s.log|]]
                                && var e := s'.log[|s.log|]; e.Registered? || e.Removed? || e.LookedUp?
  {
    hide IsFirstHolder, Added, AddSucceeds, RemoveSucceeds, Lookup, RegistryAt, AddTarget, RemoveTarget, CheckTarget;
  }

  /** A routed call or a death leaves the users alone. */
  lemma CallFrame(s: State, a: Step)
    requires !IsLife(a) && Enabled(s, a)
    ensures var s' := ApplyCall(s, a);
            && s'.users == s.users && s'.multi == s.multi
            && (s'.log != s.log ==> |s'.log| == |s.log| + 1 && s'.log == s.log + [s'.log[|s.log|]]
                                    && var e := s'.log[|s.log|]; e.Registered? || e.Removed? || e.LookedUp?)
  {
    hide ApplyCall, Enabled, IsLife;
    CallKeepsUsers(s, a);
    CallLogsOne(s, a);
  }

  /** A change of a user's state leaves the calls alone. */
  lemma LifeFrame(s: State, a: Step)
    requires IsLife(a) && Enabled(s, a)
    ensures ApplyLife(s, a).calls == s.calls && ApplyLife(s, a).multi == s.multi && Extends(s.log, ApplyLife(s, a).log)
    ensures forall n :: n in s.users.owner && n != s.users.next ==>
                          var owner := ApplyLife(s, a).users.owner; n in owner && owner[n] == s.users.owner[n]
  {
  }

  lemma StepExtends(s: State, a: Step)
    requires Enabled(s, a)
    ensures Extends(s.log, Apply(s, a).log)
  {
    hide ApplyLife, ApplyCall, Enabled, IsLife;
    if IsLife(a) {
      LifeFrame(s, a);
    } else {
      CallFrame(s, a);
    }
  }

  /** What an event does to the registry of one manager. */
  function AfterEvent(reg: Registry, e: Event, target: Target): Registry {
    match e
    case Registered(t, _, sa, o) => if t == target then reg[sa := o] else reg
    case Removed(t, sa) => if t == target then reg - {sa} else reg
    case Activated(_, n) => if target == Session(n) then map[] else reg
    case Destroyed(_, n) => if target == Session(n) then map[] else reg
    case _ => reg
  }

  lemma EventKeepsEntry(multi: set<Sa>, reg: Registry, log: seq<Event>, e: Event, target: Target, sa: Sa)
    requires Fits(multi, reg, log, target, sa)
    requires e.Registered? && e.target == target ==> Belongs(multi, target, e.sa) && CheckInputSysAbilityId(e.sa)
    ensures Fits(multi, AfterEvent(reg, e, target), log + [e], target, sa)
  {
    hide LastEntry;
    ScanOneMore(log, e, target, sa);
  }

  /** Every step changes the registries as the event it logs says. */
  ghost predicate Effect(s: State, s': State, target: Target) {
    && s'.multi == s.multi
    && if s'.log == s.log then RegistryAt(s', target) == RegistryAt(s, target)
       else && Extends(s.log, s'.log)
            && RegistryAt(s', target) == AfterEvent(RegistryAt(s, target), s'.log[|s.log|], target)
  }

  /** A logged replacement of a registry by what the event makes of it. */
  lemma PutEffect(s: State, s0: State, s': State, t: Target, reg: Registry, e: Event, target: Target)
    requires s0.registries == s.registries && s0.log == s.log && s0.multi == s.multi
    requires s'.registries == Put(s0, t, reg, e).registries && s'.log == Put(s0, t, reg, e).log && s'.multi == s.multi
    requires reg == AfterEvent(RegistryAt(s, t), e, t)
    requires target != t ==> AfterEvent(RegistryAt(s, target), e, target) == RegistryAt(s, target)
    ensures Effect(s, s', target)
  {
  }

  lemma EndRemoveEffect(s: State, t: Tid, target: Target)
    requires t in s.calls && s.calls[t].Removing?
    ensures Effect(s, AfterEndRemove(s, t), target)
  {
    var Removing(x, sa) := s.calls[t];
    if RemoveSucceeds(RegistryAt(s, x), sa) {
      assert RegistryAt(Ended(s, t), x) == RegistryAt(s, x);
      PutEffect(s, Ended(s, t), AfterEndRemove(s, t), x, RegistryAt(s, x) - {sa}, Removed(x, sa), target);
    }
  }

  lemma AddedMeaning(reg: Registry, r: Registration)
    requires AddSucceeds(reg, r)
    ensures r.ability.Some?
  {
  }

  lemma RegisteredEffect(reg: Registry, x: Target, caller: User, r: Registration, target: Target)
    requires AddSucceeds(reg, r)
    ensures var e := Registered(x, caller, r.sa, r.ability.value);
            && Added(reg, r) == AfterEvent(reg, e, x)
            && (target != x ==> forall other :: AfterEvent(other, e, target) == other)
  {
  }

  lemma AddEffect(s: State, t: Tid, target: Target)
    requires t in s.calls && s.calls[t].Adding?
    ensures Effect(s, AfterEndAdd(s, t), target)
  {
    hide Added, AddSucceeds, AfterEvent;
    var Adding(caller, x, r) := s.calls[t];
    var reg := RegistryAt(s, x);
    if AddSucceeds(reg, r) {
      AddedMeaning(reg, r);
      RegisteredEffect(reg, x, caller, r, target);
      var e := Registered(x, caller, r.sa, r.ability.value);
      PutEffect(s, Ended(s, t), AfterEndAdd(s, t), x, Added(reg, r), e, target);
    }
  }

  lemma AddedBelongs(s: State, t: Tid)
    requires t in s.calls && s.calls[t].Adding? && CallOk(s, s.calls[t]) && AfterEndAdd(s, t).log != s.log
    ensures var s' := AfterEndAdd(s, t);
            && |s'.log| == |s.log| + 1
            && var e := s'.log[|s.log|];
               e.Registered? && Belongs(s.multi, e.target, e.sa) && CheckInputSysAbilityId(e.sa)
  {
    hide Added, Belongs, Own;
  }

  lemma LifeEffect(s: State, a: Step, target: Target)
    requires IsLife(a) && Enabled(s, a)
    ensures Effect(s, ApplyLife(s, a), target)
  {
    match a
    case Activate(u) =>
      if u !in s.users.live {
        var n := s.users.next;
        PutEffect(s, s, ApplyLife(s, a), Session(n), map[], Activated(u, n), target);
      }
    case Complete(u) =>
      PutEffect(s, s, ApplyLife(s, a), Session(s.users.stopping[u]), map[], Destroyed(u, s.users.stopping[u]), target);
    case _ =>
  }

  lemma WithoutEffect(s: State, x: Target, sa: Sa, target: Target)
    ensures Effect(s, Without(s, x, sa), target)
  {
    PutEffect(s, s, Without(s, x, sa), x, RegistryAt(s, x) - {sa}, Removed(x, sa), target);
  }

  lemma CallEffect(s: State, a: Step, target: Target)
    requires !IsLife(a) && Enabled(s, a) && !a.EndAdd?
    ensures Effect(s, ApplyCall(s, a), target)
  {
    hide IsFirstHolder, AddTarget, RemoveTarget, CheckTarget, Without, AfterEndRemove, AfterEvent;
    match a
    case EndRemove(t) => EndRemoveEffect(s, t, target);
    case EndCheck(t) => EndCheckEffect(s, t, target);
    case ObjectDied(x, sa, _) => WithoutEffect(s, x, sa, target);
    case DiedAbilityRemoved(x, sa) => WithoutEffect(s, x, sa, target);
    case _ =>
  }

  lemma EndCheckEffect(s: State, t: Tid, target: Target)
    requires t in s.calls && s.calls[t].Checking?
    ensures Effect(s, AfterEndCheck(s, t), target)
  {
  }

  lemma OnlyAddsRegister(s: State, a: Step)
    requires Enabled(s, a) && !a.EndAdd? && Apply(s, a).log != s.log
    ensures |Apply(s, a).log| == |s.log| + 1 && !Apply(s, a).log[|s.log|].Registered?
  {
    hide IsFirstHolder, AddTarget, RemoveTarget, CheckTarget, Lookup, RegistryAt;
  }

  lemma AddIsAfterEndAdd(s: State, t: Tid)
    requires Enabled(s, EndAdd(t))
    ensures t in s.calls && s.calls[t].Adding? && Apply(s, EndAdd(t)) == AfterEndAdd(s, t)
  {
  }

  lemma StepKeepsEntries(s: State, a: Step, target: Target, sa: Sa)
    requires Inv(s) && Enabled(s, a)
    ensures EntryOk(Apply(s, a), target, sa)
  {
    hide ApplyLife, ApplyCall, Enabled, RegistryAt, Fits, CallOk, UserOk, EventOk, AfterEvent, Belongs, IsLife;
    assert EntryOk(s, target, sa);
    var s' := Apply(s, a);
    if a.EndAdd? {
      AddIsAfterEndAdd(s, a.t);
      AddEffect(s, a.t, target);
      if s'.log != s.log {
        AddedBelongs(s, a.t);
      }
    } else {
      if IsLife(a) {
        LifeEffect(s, a, target);
      } else {
        CallEffect(s, a, target);
      }
      if s'.log != s.log {
        OnlyAddsRegister(s, a);
      }
    }
    if s'.log != s.log {
      EventKeepsEntry(s.multi, RegistryAt(s, target), s.log, s'.log[|s.log|], target, sa);
    }
  }

  lemma LifeKeepsUsers(s: State, a: Step, u: User)
    requires IsLife(a) && Enabled(s, a) && UserOk(s, u) && s.users.next !in s.users.owner
    ensures UserOk(ApplyLife(s, a), u)
  {
    hide CurrentSession, StoppingSession;
    var s' := ApplyLife(s, a);
    if s'.log != s.log {
      LifeFrame(s, a);
      SessionOneMore(s.log, s'.log[|s.log|], u);
    }
  }

  lemma StepKeepsUsers(s: State, a: Step, u: User)
    requires Enabled(s, a) && UserOk(s, u) && s.users.next !in s.users.owner
    ensures UserOk(Apply(s, a), u)
  {
    hide CurrentSession, StoppingSession, ApplyCall, ApplyLife, Enabled, IsLife;
    if IsLife(a) {
      LifeKeepsUsers(s, a, u);
    } else {
      CallFrame(s, a);
      var s' := ApplyCall(s, a);
      if s'.log != s.log {
        SessionOneMore(s.log, s'.log[|s.log|], u);
      }
    }
  }

  lemma OwnersStay(s: State, a: Step, target: Target, u: User)
    requires s.users.next !in s.users.owner && Enabled(s, a) && Own(s, target, u)
    ensures Own(Apply(s, a), target, u) && Apply(s, a).multi == s.multi
  {
    hide ApplyCall, ApplyLife, Enabled, IsLife;
    if IsLife(a) {
      LifeFrame(s, a);
    } else {
      CallFrame(s, a);
    }
  }

  lemma BeginTargetsAreOwn(s: State, caller: User, sa: Sa)
    requires Inv(s)
    ensures var t := AddTarget(s, caller, sa); t.Some? ==> Own(s, t.value, caller) && Belongs(s.multi, t.value, sa)
    ensures var t := CheckTarget(s, caller, sa);
            t.Some? ==> (caller != BASE_USER ==> Own(s, t.value, caller)) && Belongs(s.multi, t.value, sa)
  {
    assert UserOk(s, caller);
    hide Inv;
  }

  lemma NewAddIsOk(s: State, t: Tid, caller: User, r: Registration)
    requires Inv(s) && Enabled(s, BeginAdd(t, caller, r)) && t in Apply(s, BeginAdd(t, caller, r)).calls
    ensures var s' := Apply(s, BeginAdd(t, caller, r)); CallOk(s', s'.calls[t])
  {
    BeginTargetsAreOwn(s, caller, r.sa);
    hide Inv, AddTarget, CheckTarget;
  }

  lemma NewCheckIsOk(s: State, t: Tid, caller: User, sa: Sa)
    requires Inv(s) && Enabled(s, BeginCheck(t, caller, sa)) && t in Apply(s, BeginCheck(t, caller, sa)).calls
    ensures var s' := Apply(s, BeginCheck(t, caller, sa)); CallOk(s', s'.calls[t])
  {
    BeginTargetsAreOwn(s, caller, sa);
    hide Inv, AddTarget, CheckTarget;
  }

  lemma NewRemovalIsOk(s: State, t: Tid, caller: User, sa: Sa)
    requires Enabled(s, BeginRemove(t, caller, sa)) && t in Apply(s, BeginRemove(t, caller, sa)).calls
    ensures var s' := Apply(s, BeginRemove(t, caller, sa)); CallOk(s', s'.calls[t])
  {
  }

  lemma OnlyBeginningsCall(s: State, a: Step, t: Tid)
    requires Enabled(s, a) && t !in s.calls && t in Apply(s, a).calls
    ensures (a.BeginAdd? || a.BeginRemove? || a.BeginCheck?) && a.t == t
  {
    hide IsFirstHolder, Added, AddSucceeds, RemoveSucceeds, Lookup, RegistryAt, AddTarget, RemoveTarget, CheckTarget;
    if IsLife(a) {
      LifeFrame(s, a);
      hide ApplyLife;
    }
  }

  /** The call that a step starts, if it starts one. */
  lemma NewCallIsOk(s: State, a: Step, t: Tid)
    requires Inv(s) && Enabled(s, a) && t !in s.calls && t in Apply(s, a).calls
    ensures CallOk(Apply(s, a), Apply(s, a).calls[t])
  {
    OnlyBeginningsCall(s, a, t);
    hide Inv, Enabled, Apply, CallOk;
    match a
    case BeginAdd(_, caller, r) => NewAddIsOk(s, t, caller, r);
    case BeginCheck(_, caller, sa) => NewCheckIsOk(s, t, caller, sa);
    case BeginRemove(_, caller, sa) => NewRemovalIsOk(s, t, caller, sa);
    case _ => assert false;
  }

  lemma CallsStay(s: State, a: Step, t: Tid)
    requires Enabled(s, a) && t in s.calls && a != ResolveRemove(t)
    ensures t in Apply(s, a).calls ==> Apply(s, a).calls[t] == s.calls[t]
    ensures t !in Apply(s, a).calls ==> (a.EndAdd? || a.EndRemove? || a.EndCheck?) && a.t == t
  {
    hide IsFirstHolder, Added, AddSucceeds, RemoveSucceeds, Lookup, RegistryAt, AddTarget, RemoveTarget, CheckTarget;
    if IsLife(a) {
      LifeFrame(s, a);
      hide ApplyLife;
    }
  }

  lemma ResolvedIsOk(s: State, t: Tid)
    requires Enabled(s, ResolveRemove(t)) && t in Apply(s, ResolveRemove(t)).calls
    ensures var s' := Apply(s, ResolveRemove(t)); CallOk(s', s'.calls[t])
  {
  }

  lemma StepKeepsCalls(s: State, a: Step, t: Tid)
    requires Inv(s) && Enabled(s, a) && t in Apply(s, a).calls
    ensures CallOk(Apply(s, a), Apply(s, a).calls[t])
  {
    if a == ResolveRemove(t) {
      ResolvedIsOk(s, t);
    } else if t in s.calls {
      assert CallOk(s, s.calls[t]) && s.users.next !in s.users.owner;
      hide Inv, Enabled, Apply, CallOk;
      CallsStay(s, a, t);
      OldCallsStayOk(s, a, s.calls[t]);
    } else {
      NewCallIsOk(s, a, t);
    }
  }

  lemma OldCallsStayOk(s: State, a: Step, c: Call)
    requires s.users.next !in s.users.owner && Enabled(s, a) && CallOk(s, c)
    ensures CallOk(Apply(s, a), c)
  {
    match c
    case Adding(caller, target, _) => OwnersStay(s, a, target, caller);
    case Checking(caller, target, _) =>
      if caller != BASE_USER { OwnersStay(s, a, target, caller); }
    case _ =>
  }

  lemma OldEventsStayOk(s: State, a: Step, i: nat)
    requires Inv(s) && Enabled(s, a) && i < |s.log|
    ensures i < |Apply(s, a).log| && EventOk(Apply(s, a), i)
  {
    var s' := Apply(s, a);
    StepExtends(s, a);
    assert s.users.next !in s.users.owner;
    assert EventOk(s, i) && s'.log[i] == s.log[i] && s'.log[..i] == s.log[..i];
    match s.log[i]
    case Registered(target, caller, _, _) => OwnersStay(s, a, target, caller);
    case LookedUp(caller, sa, found) =>
      if caller != BASE_USER && sa in s.multi && found.Some? {
        var j :| 0 <= j < i && ByUser(s.log[j], caller, sa, found.value);
        assert s'.log[j] == s.log[j];
      }
    case _ =>
  }

  /** A lookup by a user in its own session finds what that user registered. */
  lemma LookupFindsOwn(s: State, t: Tid)
    requires Inv(s) && t in s.calls && s.calls[t].Checking?
    ensures var c := s.calls[t];
            var found := Lookup(RegistryAt(s, c.target), c.sa);
            c.caller != BASE_USER && c.sa in s.multi && found.Some? ==>
              RegisteredBefore(s.log, |s.log|, c.caller, c.sa, found.value)
  {
    var c := s.calls[t];
    assert CallOk(s, c) && EntryOk(s, c.target, c.sa);
    var found := Lookup(RegistryAt(s, c.target), c.sa);
    if c.caller != BASE_USER && c.sa in s.multi && found.Some? {
      var j := EntryComesFromLog(s.log, c.target, c.sa);
      assert EventOk(s, j);
    }
  }

  lemma LookupEventIsOk(s: State, t: Tid)
    requires Inv(s) && Enabled(s, EndCheck(t))
    ensures var s' := Apply(s, EndCheck(t));
            |s'.log| == |s.log| + 1 && EventOk(s', |s.log|)
  {
    LookupFindsOwn(s, t);
    hide Inv;
    var s' := Apply(s, EndCheck(t));
    var c := s.calls[t];
    var found := Lookup(RegistryAt(s, c.target), c.sa);
    if c.caller != BASE_USER && c.sa in s.multi && found.Some? {
      var j :| 0 <= j < |s.log| && ByUser(s.log[j], c.caller, c.sa, found.value);
      assert s'.log[j] == s.log[j];
    }
  }

  lemma NewEventIsOk(s: State, a: Step)
    requires Inv(s) && Enabled(s, a) && Apply(s, a).log != s.log
    ensures |Apply(s, a).log| == |s.log| + 1 && EventOk(Apply(s, a), |s.log|)
  {
    if a.EndCheck? {
      LookupEventIsOk(s, a.t);
    } else {
      assert s.users.next !in s.users.owner;
      assert a.EndAdd? ==> CallOk(s, s.calls[a.t]);
      hide Inv, RegisteredBefore;
      StepExtends(s, a);
      if a.EndAdd? {
        OwnersStay(s, a, s.calls[a.t].target, s.calls[a.t].caller);
      }
    }
  }

  lemma EventsStayOk(s: State, a: Step, i: nat)
    requires Inv(s) && Enabled(s, a) && i < |Apply(s, a).log|
    ensures EventOk(Apply(s, a), i)
  {
    hide Inv, Enabled, Apply, EventOk;
    StepExtends(s, a);
    if i < |s.log| {
      OldEventsStayOk(s, a, i);
    } else {
      NewEventIsOk(s, a);
    }
  }

  lemma ScalarsStayOk(s: State, a: Step)
    requires Enabled(s, a) && BASE_USER !in s.users.live && s.users.foreground != BASE_USER
    requires forall n :: n in s.users.owner ==> n < s.users.next
    ensures var s' := Apply(s, a);
            && BASE_USER !in s'.users.live && s'.users.foreground != BASE_USER
            && (forall n :: n in s'.users.owner ==> n < s'.users.next)
  {
    hide ApplyCall;
    if !IsLife(a) {
      CallFrame(s, a);
    }
  }

  lemma StepKeepsInv(s: State, a: Step)
    requires Inv(s) && Enabled(s, a)
    ensures Inv(Apply(s, a))
  {
    hide Apply, Enabled, EntryOk, UserOk, CallOk, EventOk;
    var s' := Apply(s, a);
    assert s.users.next !in s.users.owner;
    ScalarsStayOk(s, a);
    forall target, sa ensures EntryOk(s', target, sa) {
      StepKeepsEntries(s, a, target, sa);
    }
    forall u ensures UserOk(s', u) {
      assert UserOk(s, u);
      StepKeepsUsers(s, a, u);
    }
    forall t | t in s'.calls ensures CallOk(s', s'.calls[t]) { StepKeepsCalls(s, a, t); }
    forall i: nat | i < |s'.log| ensures EventOk(s', i) { EventsStayOk(s, a, i); }
  }

  lemma {:induction false} RunKeepsInv(states: seq<State>, steps: seq<Step>, self: Obj, n: nat)
    requires IsRun(states, steps, self) && n < |states|
    ensures Inv(states[n])
  {
    if n > 0 {
      RunKeepsInv(states, steps, self, n - 1);
      StepKeepsInv(states[n - 1], steps[n - 1]);
    } else {
      forall target, sa ensures EntryOk(states[0], target, sa) {
        assert states[0].log[..0] == [];
      }
      forall u ensures UserOk(states[0], u) {
        assert states[0].log[..0] == [];
      }
    }
  }

  // ---- results ----

  /** The base registry never holds a multi-instance ability and user registries hold nothing else. */
  lemma RegistriesArePartitioned(states: seq<State>, steps: seq<Step>, self: Obj, n: nat, target: Target, sa: Sa)
    requires IsRun(states, steps, self) && n < |states| && sa in RegistryAt(states[n], target)
    ensures target.Base? <==> sa !in states[n].multi
  {
    RunKeepsInv(states, steps, self, n);
    assert EntryOk(states[n], target, sa);
  }

  /** A registration gets a manager exactly when a base caller registers an ability that is not
      multi-instance, or a user with a current session registers one that is; it is then the base
      manager or the manager of that session. Otherwise the call changes nothing. */
  lemma WhoMayRegister(states: seq<State>, steps: seq<Step>, self: Obj, n: nat, t: Tid, caller: User, r: Registration)
    requires IsRun(states, steps, self) && n < |states| && t !in states[n].calls
    ensures var s, s1 := states[n], Apply(states[n], BeginAdd(t, caller, r));
            var session := CurrentSession(s.log, caller);
            if caller == BASE_USER && r.sa !in s.multi then s1 == Begun(s, t, Adding(caller, Base, r))
            else if caller != BASE_USER && r.sa in s.multi && session.Some?
            then s1 == Begun(s, t, Adding(caller, Session(session.value), r))
            else s1 == s
  {
    RunKeepsInv(states, steps, self, n);
    assert UserOk(states[n], caller);
    hide Inv, CurrentSession, StoppingSession;
  }

  /** Only users removing a multi-instance ability and base callers removing another one get on; the
      base manager is used at once. */
  lemma WhoMayBeginToRemove(states: seq<State>, steps: seq<Step>, self: Obj, n: nat, t: Tid, caller: User, sa: Sa)
    requires IsRun(states, steps, self) && n < |states| && t !in states[n].calls
    ensures var s, s1 := states[n], Apply(states[n], BeginRemove(t, caller, sa));
            if caller == BASE_USER && sa !in s.multi then s1 == Begun(s, t, Removing(Base, sa))
            else if caller != BASE_USER && sa in s.multi
            then s1 == Begun(s, t, Looked(caller, StoppingSession(s.log, caller).Some?, sa))
            else s1 == s
  {
    RunKeepsInv(states, steps, self, n);
    assert UserOk(states[n], caller);
    hide Inv, CurrentSession, StoppingSession;
  }

  /**
   A user's removal gets its manager in two looks, with anything in between. If the first one sees the
   user being torn down, it gets that session unless the teardown has ended by the second one, when it
   is refused even if the user has been activated again; otherwise it gets the session that is current
   at the second look, if there is one.
   */
  lemma WhoMayRemove(states: seq<State>, steps: seq<Step>, self: Obj, m: nat, n: nat, t: Tid, caller: User, sa: Sa)
    requires IsRun(states, steps, self) && m < n < |steps| && caller != BASE_USER && sa in states[m].multi
    requires steps[m] == BeginRemove(t, caller, sa) && steps[n] == ResolveRemove(t)
    requires forall i :: m < i < n ==> steps[i] != ResolveRemove(t)
    ensures var session := if StoppingSession(states[m].log, caller).Some? then StoppingSession(states[n].log, caller)
                           else CurrentSession(states[n].log, caller);
            states[n + 1] == if session.None? then Ended(states[n], t)
                             else Begun(states[n], t, Removing(Session(session.value), sa))
  {
    StepOf(states, steps, self, m);
    StepOf(states, steps, self, n);
    WhoMayBeginToRemove(states, steps, self, m, t, caller, sa);
    LookWaits(states, steps, self, m + 1, n, t);
    RunKeepsInv(states, steps, self, n);
    assert UserOk(states[n], caller);
    hide Inv, CurrentSession, StoppingSession;
  }

  lemma StepOf(states: seq<State>, steps: seq<Step>, self: Obj, i: nat)
    requires IsRun(states, steps, self) && i < |steps|
    ensures |states| == |steps| + 1 && Enabled(states[i], steps[i]) && states[i + 1] == Apply(states[i], steps[i])
  {
  }

  lemma StepsAndStates(states: seq<State>, steps: seq<Step>, self: Obj)
    requires IsRun(states, steps, self)
    ensures |states| == |steps| + 1
  {
  }

  lemma LookStays(s: State, a: Step, t: Tid)
    requires Enabled(s, a) && t in s.calls && s.calls[t].Looked? && a != ResolveRemove(t)
    ensures t in Apply(s, a).calls && Apply(s, a).calls[t] == s.calls[t]
  {
    hide Apply;
    CallsStay(s, a, t);
  }

  lemma CheckStays(s: State, a: Step, t: Tid)
    requires Enabled(s, a) && t in s.calls && s.calls[t].Checking? && a != EndCheck(t)
    ensures t in Apply(s, a).calls && Apply(s, a).calls[t] == s.calls[t]
  {
    hide Apply;
    CallsStay(s, a, t);
  }

  /** A removal between its looks waits for the second one only. */
  lemma {:induction false} LookWaits(states: seq<State>, steps: seq<Step>, self: Obj, m: nat, n: nat, t: Tid)
    requires IsRun(states, steps, self) && m <= n < |states| && t in states[m].calls && states[m].calls[t].Looked?
    requires forall i :: m <= i < n ==> steps[i] != ResolveRemove(t)
    ensures t in states[n].calls && states[n].calls[t] == states[m].calls[t]
  {
    hide IsRun, Apply, Enabled;
    if m < n {
      StepsAndStates(states, steps, self);
      LookWaits(states, steps, self, m, n - 1, t);
      StepOf(states, steps, self, n - 1);
      LookStays(states[n - 1], steps[n - 1], t);
    }
  }

  /** A registration made in one go by somebody who may is found by the registering caller, and no
      other user's lookup of any ability changes when it is a multi-instance one. */
  lemma RegistrationIsFound(states: seq<State>, steps: seq<Step>, self: Obj, n: nat, t: Tid, caller: User,
                            r: Registration, other: User, sa: Sa)
    requires IsRun(states, steps, self) && n < |states| && t !in states[n].calls
    requires AddTarget(states[n], caller, r.sa).Some?
    requires AddSucceeds(RegistryAt(states[n], AddTarget(states[n], caller, r.sa).value), r)
    ensures var s := states[n];
            var s1 := Apply(s, BeginAdd(t, caller, r));
            && Enabled(s1, EndAdd(t))
            && var s2 := Apply(s1, EndAdd(t));
               && CheckSystemAbility(s2, caller, r.sa) == r.ability
               && (caller != BASE_USER && other != caller && other != BASE_USER ==>
                     CheckSystemAbility(s2, other, sa) == CheckSystemAbility(s, other, sa))
  {
    RunKeepsInv(states, steps, self, n);
    var s := states[n];
    assert UserOk(s, caller) && UserOk(s, other) && s.users.foreground != BASE_USER && BASE_USER !in s.users.live;
    hide Inv, UserOk, Lookup;
    var target := AddTarget(s, caller, r.sa).value;
    var s1 := Begun(s, t, Adding(caller, target, r));
    AddInOneGo(s, t, caller, r);
    var s2 := Apply(s1, EndAdd(t));
    var reg := Added(RegistryAt(s, target), r);
    PutIsSeen(s, s2, target, reg, caller, r.sa);
    PutIsSeen(s, s2, target, reg, other, sa);
    AddedIsFound(RegistryAt(s, target), r);
    if other != caller {
      DifferentSessions(s, caller, other);
    }
  }

  lemma AddedIsFound(reg: Registry, r: Registration)
    requires AddSucceeds(reg, r)
    ensures Lookup(Added(reg, r), r.sa) == r.ability
  {
  }

  lemma AddInOneGo(s: State, t: Tid, caller: User, r: Registration)
    requires t !in s.calls && AddTarget(s, caller, r.sa).Some?
    requires AddSucceeds(RegistryAt(s, AddTarget(s, caller, r.sa).value), r)
    ensures var target := AddTarget(s, caller, r.sa).value;
            var s1 := Begun(s, t, Adding(caller, target, r));
            && Apply(s, BeginAdd(t, caller, r)) == s1 && Enabled(s1, EndAdd(t))
            && var s2 := Apply(s1, EndAdd(t));
               && s2.multi == s.multi && s2.users.live == s.users.live && s2.users.foreground == s.users.foreground
               && s2.registries == s.registries[target := Added(RegistryAt(s, target), r)]
  {
    hide Added, AddTarget;
    var s1 := Begun(s, t, Adding(caller, AddTarget(s, caller, r.sa).value, r));
    assert Enabled(s1, EndAdd(t));
    AddIsAfterEndAdd(s1, t);
    hide ApplyLife;
  }

  /** What replacing one registry does to every lookup. */
  lemma PutIsSeen(s: State, s': State, target: Target, reg: Registry, caller: User, sa: Sa)
    requires s'.multi == s.multi && s'.users.live == s.users.live && s'.users.foreground == s.users.foreground
    requires s'.registries == s.registries[target := reg]
    ensures CheckSystemAbility(s', caller, sa) ==
            if CheckTarget(s, caller, sa) == Some(target) then Lookup(reg, sa) else CheckSystemAbility(s, caller, sa)
  {
    hide Lookup;
  }

  lemma DifferentSessions(s: State, u: User, w: User)
    requires UserOk(s, u) && UserOk(s, w) && u != w
    ensures u in s.users.live && w in s.users.live ==> s.users.live[u] != s.users.live[w]
  {
  }

  /** A user's lookup of a multi-instance ability returns exactly its last registration since its
      latest activation that has not been removed. */
  lemma LookupIsLastRegistration(states: seq<State>, steps: seq<Step>, self: Obj, n: nat, user: User, sa: Sa)
    requires IsRun(states, steps, self) && n < |states| && user != BASE_USER && sa in states[n].multi
    ensures CheckSystemAbility(states[n], user, sa) == Expected(states[n].log, user, sa)
  {
    RunKeepsInv(states, steps, self, n);
    var s := states[n];
    assert UserOk(s, user);
    if user in s.users.live {
      assert EntryOk(s, Session(s.users.live[user]), sa);
    }
    hide Inv, LastEntry, CurrentSession, StoppingSession;
  }

  /** A base caller's lookup of a multi-instance ability is the foreground user's; any lookup of
      another ability is the last registration with the base manager. */
  lemma OtherLookups(states: seq<State>, steps: seq<Step>, self: Obj, n: nat, caller: User, sa: Sa)
    requires IsRun(states, steps, self) && n < |states|
    ensures var s := states[n];
            && (sa in s.multi ==> CheckSystemAbility(s, BASE_USER, sa) == Expected(s.log, s.users.foreground, sa))
            && (sa !in s.multi ==> CheckSystemAbility(s, caller, sa) == LastEntry(s.log, Base, sa))
  {
    RunKeepsInv(states, steps, self, n);
    var s := states[n];
    assert UserOk(s, s.users.foreground) && EntryOk(s, Base, sa) && s.users.foreground != BASE_USER;
    if s.users.foreground in s.users.live {
      assert EntryOk(s, Session(s.users.live[s.users.foreground]), sa);
    }
    hide Inv, LastEntry, CurrentSession, StoppingSession;
  }

  /** A lookup that names a user is that user's own view, for base callers, and nothing for others. */
  lemma LookupOfNamedUser(states: seq<State>, steps: seq<Step>, self: Obj, n: nat, caller: User, user: User, sa: Sa)
    requires IsRun(states, steps, self) && n < |states|
    ensures CheckSystemAbilityOf(states[n], caller, sa, user) ==
            if caller == BASE_USER then Expected(states[n].log, user, sa) else None
  {
    RunKeepsInv(states, steps, self, n);
    var s := states[n];
    assert UserOk(s, user);
    if user in s.users.live {
      assert EntryOk(s, Session(s.users.live[user]), sa);
    }
    hide Inv, LastEntry, CurrentSession, StoppingSession;
  }

  /** However calls and user changes interleave, what a user finds under a multi-instance id was
      registered before by that user, never by another one. */
  lemma NeverAnotherUsers(states: seq<State>, steps: seq<Step>, self: Obj, n: nat, i: nat)
    requires IsRun(states, steps, self) && n < |states| && i < |states[n].log|
    requires states[n].log[i].LookedUp? && states[n].log[i].caller != BASE_USER
    requires states[n].log[i].sa in states[n].multi && states[n].log[i].found.Some?
    ensures var e := states[n].log[i];
            RegisteredBefore(states[n].log, i, e.caller, e.sa, e.found.value)
  {
    RunKeepsInv(states, steps, self, n);
    assert EventOk(states[n], i);
  }

  /** A lookup between resolving its manager and reading it waits for the read only. */
  lemma {:induction false} CheckWaits(states: seq<State>, steps: seq<Step>, self: Obj, m: nat, n: nat, t: Tid)
    requires IsRun(states, steps, self) && m <= n < |states| && t in states[m].calls && states[m].calls[t].Checking?
    requires forall i :: m <= i < n ==> steps[i] != EndCheck(t)
    ensures t in states[n].calls && states[n].calls[t] == states[m].calls[t]
  {
    hide IsRun, Apply, Enabled;
    if m < n {
      StepsAndStates(states, steps, self);
      CheckWaits(states, steps, self, m, n - 1, t);
      StepOf(states, steps, self, n - 1);
      CheckStays(states[n - 1], steps[n - 1], t);
    }
  }

  /** The manager the log gives a lookup: the base manager, or the one of the caller's session, or for a
      base caller that of the foreground user. */
  function ExpectedTarget(s: State, caller: User, sa: Sa): Option<Target> {
    var session := CurrentSession(s.log, if caller == BASE_USER then s.users.foreground else caller);
    if sa !in s.multi then Some(Base) else if session.None? then None else Some(Session(session.value))
  }

  /** A lookup that resolves its manager at step `m` and reads it at step `n`, whatever happens in
      between, finds the last registration with the manager of the session that was current at `m`. */
  lemma SplitLookup(states: seq<State>, steps: seq<Step>, self: Obj, m: nat, n: nat, t: Tid, caller: User, sa: Sa)
    requires IsRun(states, steps, self) && m < n < |steps|
    requires steps[m] == BeginCheck(t, caller, sa) && steps[n] == EndCheck(t)
    requires forall i :: m < i < n ==> steps[i] != EndCheck(t)
    requires t in states[m + 1].calls
    ensures var target := ExpectedTarget(states[m], caller, sa);
            && target.Some?
            && states[n + 1].log == states[n].log + [LookedUp(caller, sa, LastEntry(states[n].log, target.value, sa))]
  {
    StepOf(states, steps, self, m);
    StepOf(states, steps, self, n);
    BeginChecks(states, steps, self, m, t, caller, sa);
    CheckWaits(states, steps, self, m + 1, n, t);
    RunKeepsInv(states, steps, self, n);
    assert EntryOk(states[n], ExpectedTarget(states[m], caller, sa).value, sa);
    hide Inv, LastEntry, CurrentSession, StoppingSession;
  }

  lemma BeginChecks(states: seq<State>, steps: seq<Step>, self: Obj, m: nat, t: Tid, caller: User, sa: Sa)
    requires IsRun(states, steps, self) && m < |states| && t !in states[m].calls
    ensures var s, target := states[m], ExpectedTarget(states[m], caller, sa);
            Apply(s, BeginCheck(t, caller, sa)) ==
            if target.None? then s else Begun(s, t, Checking(caller, target.value, sa))
  {
    RunKeepsInv(states, steps, self, m);
    var s := states[m];
    assert UserOk(s, caller) && UserOk(s, s.users.foreground) && s.users.foreground != BASE_USER;
    hide Inv, CurrentSession, StoppingSession;
  }
}
