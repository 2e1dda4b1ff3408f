/**
 Telling the listeners of one ability that it was added, in the base manager. A registration resets
 the listener states, inserts the ability and posts a task that tells every listener still in the
 initial state; a subscription inserts its listener and afterwards, when it sees the ability, posts a
 task for that listener alone. The registration and any number of subscriptions interleave at every
 lock release; queued tasks run in any order. This is a first registration with no removal.
 */
module AddNotification {
  import opened Common

  type Tid = nat

  datatype ListenerState = INIT | NOTIFIED

  /** A subscription between its critical sections. */
  datatype Subscriber = Listed(obj: Obj) | SawAbility(obj: Obj)

  datatype Adder = NotStarted | Refreshed | Inserted | MessagePosted

  datatype State = State(
    registered: bool,
    adder: Adder,
    addedQueued: bool,
    listeners: map<Obj, ListenerState>,
    subscribers: map<Tid, Subscriber>,
    queued: map<Obj, nat>,
    sent: map<Obj, nat>)

  datatype Step =
    | SubscribeInner(t: Tid, o: Obj)
    | SubscribeRefused(t: Tid, o: Obj)
    | CheckAbility(t: Tid)
    | CheckListenerNotify(t: Tid)
    | RefreshListenerState
    | AddRefused
    | InsertAbility
    | SendAddedMsg
    | RunAddedTask
    | RunNotifyTask(o: Obj)

  predicate Init(s: State) {
    s == State(false, NotStarted, false, map[], map[], map[], map[])
  }

  function Times(m: map<Obj, nat>, o: Obj): nat {
    if o in m then m[o] else 0
  }

  predicate Enabled(s: State, a: Step) {
    match a
    case SubscribeInner(t, _) => t !in s.subscribers
    case SubscribeRefused(t, _) => t !in s.subscribers
    case CheckAbility(t) => t in s.subscribers && s.subscribers[t].Listed?
    case CheckListenerNotify(t) => t in s.subscribers && s.subscribers[t].SawAbility?
    case RefreshListenerState => s.adder.NotStarted?
    case AddRefused => s.adder.Refreshed?
    case InsertAbility => s.adder.Refreshed?
    case SendAddedMsg => s.adder.Inserted?
    case RunAddedTask => s.addedQueued
    case RunNotifyTask(o) => Times(s.queued, o) > 0
  }

  /** The loop of `FindSystemAbilityNotify` over the listeners that have not been told. */
  function TellAllInit(s: State): State {
    s.(addedQueued := false,
       listeners := map o | o in s.listeners :: NOTIFIED,
       sent := map o | o in s.sent.Keys + s.listeners.Keys ::
                 Times(s.sent, o) + if o in s.listeners && s.listeners[o] == INIT then 1 else 0)
  }

  function Apply(s: State, a: Step): State
    requires Enabled(s, a)
  {
    match a
    case SubscribeInner(t, o) =>
      if o in s.listeners then s
      else s.(listeners := s.listeners[o := INIT], subscribers := s.subscribers[t := Listed(o)])
    case SubscribeRefused(_, _) => s
    case CheckAbility(t) =>
      if s.registered then s.(subscribers := s.subscribers[t := SawAbility(s.subscribers[t].obj)])
      else s.(subscribers := s.subscribers - {t})
    case CheckListenerNotify(t) =>
      var o := s.subscribers[t].obj;
      var s' := s.(subscribers := s.subscribers - {t});
      if o in s.listeners && s.listeners[o] == INIT
      then s'.(listeners := s.listeners[o := NOTIFIED], queued := s.queued[o := Times(s.queued, o) + 1])
      else s'
    case RefreshListenerState => s.(adder := Refreshed, listeners := map o | o in s.listeners :: INIT)
    case AddRefused => s.(adder := NotStarted)
    case InsertAbility => s.(adder := Inserted, registered := true)
    case SendAddedMsg => s.(adder := MessagePosted, addedQueued := true)
    case RunAddedTask => TellAllInit(s)
    case RunNotifyTask(o) =>
      s.(queued := s.queued[o := Times(s.queued, o) - 1], sent := s.sent[o := Times(s.sent, o) + 1])
  }

  ghost predicate IsRun(states: seq<State>, steps: seq<Step>) {
    && |states| == |steps| + 1
    && Init(states[0])
    && forall i :: 0 <= i < |steps| ==> Enabled(states[i], steps[i]) && states[i + 1] == Apply(states[i], steps[i])
  }

  /** A subscription that will still look at listener `o`. */
  ghost predicate Underway(s: State, o: Obj) {
    exists t :: t in s.subscribers && s.subscribers[t].obj == o
  }

  /** A listener has been told, or a task to tell it is queued, once if it is marked and never if
      it is not. */
  ghost predicate ToldOnce(s: State, o: Obj) {
    Times(s.sent, o) + Times(s.queued, o) == if o in s.listeners && s.listeners[o] == NOTIFIED then 1 else 0
  }

  /** An unmarked listener that the posted task has missed is still being subscribed. */
  ghost predicate NotForgotten(s: State, o: Obj) {
    o in s.listeners && s.listeners[o] == INIT && s.adder.MessagePosted? && !s.addedQueued ==> Underway(s, o)
  }

  /** Before the ability is there, nobody is marked or looks for it. */
  ghost predicate Ordered(s: State) {
    && (s.registered <==> s.adder.Inserted? || s.adder.MessagePosted?)
    && (s.addedQueued ==> s.adder.MessagePosted?)
    && (forall t :: t in s.subscribers ==> s.subscribers[t].obj in s.listeners)
    && (forall t :: t in s.subscribers && s.subscribers[t].SawAbility? ==> s.registered)
    && (!s.registered ==> forall o :: o in s.listeners ==> s.listeners[o] == INIT)
  }

  ghost predicate Inv(s: State) {
    Ordered(s) && (forall o :: ToldOnce(s, o)) && (forall o :: NotForgotten(s, o))
  }

  lemma StepKeepsOrder(s: State, a: Step)
    requires Ordered(s) && Enabled(s, a)
    ensures Ordered(Apply(s, a))
  {
  }

  lemma StepKeepsTold(s: State, a: Step, o: Obj)
    requires Ordered(s) && Enabled(s, a) && ToldOnce(s, o)
    ensures ToldOnce(Apply(s, a), o)
  {
  }

  lemma StepForgetsNobody(s: State, a: Step, o: Obj)
    requires Ordered(s) && Enabled(s, a) && NotForgotten(s, o)
    ensures NotForgotten(Apply(s, a), o)
  {
    var s' := Apply(s, a);
    if o in s.listeners && Underway(s, o) {
      var t :| t in s.subscribers && s.subscribers[t].obj == o;
      assert t in s'.subscribers ==> s'.subscribers[t].obj == o;
    }
    match a
    case SubscribeInner(t, p) => assert o == p && o !in s.listeners ==> s'.subscribers[t].obj == o;
    case _ =>
  }

  lemma StepKeepsInv(s: State, a: Step)
    requires Inv(s) && Enabled(s, a)
    ensures Inv(Apply(s, a))
  {
    hide Apply, Enabled, ToldOnce, NotForgotten, Ordered;
    StepKeepsOrder(s, a);
    forall o ensures ToldOnce(Apply(s, a), o) { StepKeepsTold(s, a, o); }
    forall o ensures NotForgotten(Apply(s, a), o) { StepForgetsNobody(s, a, o); }
  }

  lemma {:induction false} RunKeepsInv(states: seq<State>, steps: seq<Step>, n: nat)
    requires IsRun(states, steps) && n < |states|
    ensures Inv(states[n])
  {
    if n > 0 {
      RunKeepsInv(states, steps, n - 1);
      StepKeepsInv(states[n - 1], steps[n - 1]);
    }
  }

  /** The registration has returned, no subscription is under way and no task is queued. */
  ghost predicate Drained(s: State) {
    && s.adder.MessagePosted? && !s.addedQueued
    && s.subscribers == map[]
    && forall o :: Times(s.queued, o) == 0
  }

  /** A subscription of the listener is among the first `n` steps. */
  ghost predicate Subscribed(steps: seq<Step>, n: nat, o: Obj)
    requires n <= |steps|
  {
    exists i :: 0 <= i < n && steps[i].SubscribeInner? && steps[i].o == o
  }

  lemma StepLists(s: State, a: Step, o: Obj)
    requires Enabled(s, a)
    ensures o in Apply(s, a).listeners <==> o in s.listeners || (a.SubscribeInner? && a.o == o)
  {
  }

  /** The listeners are exactly those that have subscribed. */
  lemma {:induction false} ListedIffSubscribed(states: seq<State>, steps: seq<Step>, n: nat, o: Obj)
    requires IsRun(states, steps) && n < |states|
    ensures o in states[n].listeners <==> Subscribed(steps, n, o)
  {
    if n > 0 {
      ListedIffSubscribed(states, steps, n - 1, o);
      StepLists(states[n - 1], steps[n - 1], o);
      hide Apply, Enabled;
      assert Subscribed(steps, n, o) <==>
             Subscribed(steps, n - 1, o) || (steps[n - 1].SubscribeInner? && steps[n - 1].o == o);
    }
  }

  /** None lost, none doubled: once everything has drained, every listener that has subscribed, before,
      during or after the registration, has been sent exactly one add notification, and nobody else any. */
  lemma ExactlyOneNotification(states: seq<State>, steps: seq<Step>, n: nat, o: Obj)
    requires IsRun(states, steps) && n < |states| && Drained(states[n])
    ensures Times(states[n].sent, o) == if Subscribed(steps, n, o) then 1 else 0
    ensures o in states[n].listeners <==> Subscribed(steps, n, o)
  {
    RunKeepsInv(states, steps, n);
    ListedIffSubscribed(states, steps, n, o);
    assert ToldOnce(states[n], o) && NotForgotten(states[n], o);
  }

  /** Nothing blocks the way there: whatever is under way or queued can take its next step at any time,
      and so can a new subscription. */
  lemma NothingBlocks(s: State, t: Tid, o: Obj)
    ensures t !in s.subscribers ==> Enabled(s, SubscribeInner(t, o))
    ensures t in s.subscribers ==> Enabled(s, CheckAbility(t)) || Enabled(s, CheckListenerNotify(t))
    ensures s.addedQueued ==> Enabled(s, RunAddedTask) && !Apply(s, RunAddedTask).addedQueued
    ensures Times(s.queued, o) > 0 ==>
              && Enabled(s, RunNotifyTask(o))
              && Times(Apply(s, RunNotifyTask(o)).queued, o) == Times(s.queued, o) - 1
              && Times(Apply(s, RunNotifyTask(o)).sent, o) == Times(s.sent, o) + 1
    ensures match s.adder
            case NotStarted => Enabled(s, RefreshListenerState) && Apply(s, RefreshListenerState).adder.Refreshed?
            case Refreshed => Enabled(s, InsertAbility) && Apply(s, InsertAbility).adder.Inserted?
            case Inserted => Enabled(s, SendAddedMsg) && Apply(s, SendAddedMsg).adder.MessagePosted?
            case MessagePosted => true
  {
  }

  /** Never doubled, at any time. */
  lemma NeverTwice(states: seq<State>, steps: seq<Step>, n: nat, o: Obj)
    requires IsRun(states, steps) && n < |states|
    ensures Times(states[n].sent, o) + Times(states[n].queued, o) <= 1
  {
    RunKeepsInv(states, steps, n);
    assert ToldOnce(states[n], o);
  }
}
