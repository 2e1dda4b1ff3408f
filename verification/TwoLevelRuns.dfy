/**
 Why the exactness of a refused subscribe-for-all needs the manager to be left alone: a run in which
 one process subscribes directly between the visit of the fan-out and its rollback, and ends up with
 its subscription charged to the process whose call was refused.
 */
module TwoLevelRuns {
  import opened Common
  import opened TwoLevel
  import V = SubscriptionView

  const VISITED: User := 10
  const FULL: User := 11
  const CALLER: Pid := 1        // the process that subscribes for all users
  const OTHER: Pid := 2         // the process that subscribes directly meanwhile
  const KEY: V.Key := (300, 2)

  ghost predicate EndsIn(states: seq<State>, steps: seq<Step>, s: State) {
    IsRun(states, steps) && states[|states| - 1] == s
  }

  /** A run can be continued by an enabled step. */
  lemma Then(states: seq<State>, steps: seq<Step>, s: State, a: Step, s': State)
      returns (states': seq<State>, steps': seq<Step>)
    requires EndsIn(states, steps, s) && Enabled(s, a) && Apply(s, a) == s'
    ensures EndsIn(states', steps', s') && states' == states + [s'] && steps' == steps + [a]
  {
    states', steps' := states + [s'], steps + [a];
  }

  function Two(visited: V.View, full: V.View, lock: Lock): State {
    State([], map[VISITED := visited, FULL := full], {}, lock, false)
  }

  /** A manager with `n` direct subscriptions of one process. */
  function Filled(n: nat): V.View {
    if n == 0 then V.EMPTY else V.Subscribe(Filled(n - 1), (n - 1, 1), false, CALLER).0
  }

  lemma {:induction false} FilledMeaning(n: nat)
    requires n <= MAX_SUBSCRIBE_COUNT
    ensures V.Count(Filled(n).owner, CALLER) == n
    ensures forall k: V.Key :: k in Filled(n).owner ==> k.0 < n
  {
    if n == 0 {
      assert V.Charged(V.EMPTY.owner, CALLER) == {};
    } else {
      FilledMeaning(n - 1);
      V.CountAfterCharge(Filled(n - 1).owner, (n - 1, 1), CALLER, CALLER);
    }
  }

  /** Two users are activated. */
  lemma Activated() returns (states: seq<State>, steps: seq<Step>)
    ensures EndsIn(states, steps, Two(V.EMPTY, Filled(0), Free))
  {
    var s0 := State([], map[], {}, Free, false);
    states, steps := [s0], [];
    var s1 := s0.(lock := Building(FULL, V.EMPTY, 0));
    states, steps := Then(states, steps, s0, BeginActivate(FULL), s1);
    var s2 := s0.(managers := map[FULL := V.EMPTY]);
    states, steps := Then(states, steps, s1, ActivateDone, s2);
    var s3 := s2.(lock := Building(VISITED, V.EMPTY, 0));
    states, steps := Then(states, steps, s2, BeginActivate(VISITED), s3);
    states, steps := Then(states, steps, s3, ActivateDone, Two(V.EMPTY, Filled(0), Free));
  }

  /** The second one's manager is filled up to the limit. */
  lemma {:induction false} FilledUp(n: nat) returns (states: seq<State>, steps: seq<Step>)
    ensures EndsIn(states, steps, Two(V.EMPTY, Filled(n), Free))
  {
    if n == 0 {
      states, steps := Activated();
    } else {
      states, steps := FilledUp(n - 1);
      hide EndsIn, V.Subscribe;
      var s, s' := Two(V.EMPTY, Filled(n - 1), Free), Two(V.EMPTY, Filled(n), Free);
      states, steps := Then(states, steps, s, DirectSubscribe(FULL, (n - 1, 1), CALLER), s');
    }
  }

  /** The visited manager while the fan-out's process pays for the key. */
  function Paid(direct: set<V.Key>, foreground: set<V.Key>): V.View {
    V.View(direct, foreground, map[KEY := CALLER])
  }

  // the states of the call, with `f` the manager that is full

  function Idle(f: V.View): State { Two(V.EMPTY, f, Free) }
  function Begun(f: V.View): State { Two(V.EMPTY, f, Offering(KEY, CALLER, {}, {VISITED, FULL})) }
  function Offered(f: V.View): State { Two(Paid({}, {KEY}), f, Offering(KEY, CALLER, {VISITED}, {FULL})) }
  function Marked(f: V.View): State { Two(Paid({KEY}, {KEY}), f, Offering(KEY, CALLER, {VISITED}, {FULL})) }
  function Refused(f: V.View): State { Two(Paid({KEY}, {KEY}), f, TakingBack(KEY, {VISITED})) }
  function TakenBack(f: V.View): State { Two(Paid({KEY}, {}), f, TakingBack(KEY, {})) }
  function Done(f: V.View): State { Two(Paid({KEY}, {}), f, Free) }

  lemma BeginOffers(f: V.View)
    ensures Enabled(Idle(f), BeginSubscribe(KEY, CALLER)) && Apply(Idle(f), BeginSubscribe(KEY, CALLER)) == Begun(f)
  {
    assert Idle(f).managers.Keys == {VISITED, FULL};
  }

  lemma VisitedAccepts(f: V.View)
    ensures Enabled(Begun(f), OfferOne(VISITED)) && Apply(Begun(f), OfferOne(VISITED)) == Offered(f)
  {
    assert V.Charged(V.EMPTY.owner, CALLER) == {};
    assert V.Subscribe(V.EMPTY, KEY, true, CALLER) == (Paid({}, {KEY}), ErrOk);
    hide V.Subscribe;
    assert {VISITED, FULL} - {VISITED} == {FULL};
  }

  lemma DirectMarks(f: V.View)
    ensures Enabled(Offered(f), DirectSubscribe(VISITED, KEY, OTHER))
    ensures Apply(Offered(f), DirectSubscribe(VISITED, KEY, OTHER)) == Marked(f)
  {
    assert {} + {KEY} == {KEY};
    assert V.Subscribe(Paid({}, {KEY}), KEY, false, OTHER).0 == Paid({KEY}, {KEY});
    hide V.Subscribe;
  }

  lemma FullRefuses(f: V.View)
    requires V.Subscribe(f, KEY, true, CALLER) == (f, PermissionDenied)
    ensures Enabled(Marked(f), OfferOne(FULL)) && Apply(Marked(f), OfferOne(FULL)) == Refused(f)
  {
    hide V.Subscribe;
  }

  lemma VisitedGivesBack(f: V.View)
    ensures Enabled(Refused(f), TakeBackOne(VISITED)) && Apply(Refused(f), TakeBackOne(VISITED)) == TakenBack(f)
  {
    var w := V.Unmark(Paid({KEY}, {KEY}), KEY, true);
    assert {KEY} - {KEY} == {};
    assert w == Paid({KEY}, {}) && KEY in w.direct + w.foreground;
    assert V.Unsubscribe(Paid({KEY}, {KEY}), KEY, true).0 == w;
    hide V.Unsubscribe;
    assert {VISITED} - {VISITED} == {};
  }

  lemma CallEnds(f: V.View)
    ensures Enabled(TakenBack(f), TakeBackDone) && Apply(TakenBack(f), TakeBackDone) == Done(f)
  {
  }

  /** The six steps of the call, with the direct call in their midst. */
  const CALL: seq<Step> :=
    [BeginSubscribe(KEY, CALLER), OfferOne(VISITED), DirectSubscribe(VISITED, KEY, OTHER), OfferOne(FULL),
     TakeBackOne(VISITED), TakeBackDone]

  /** The states the call passes through. */
  function Passed(f: V.View): seq<State> {
    [Begun(f), Offered(f), Marked(f), Refused(f), TakenBack(f), Done(f)]
  }

  lemma CallRuns(states: seq<State>, steps: seq<Step>, f: V.View) returns (states': seq<State>, steps': seq<Step>)
    requires EndsIn(states, steps, Idle(f)) && V.Subscribe(f, KEY, true, CALLER) == (f, PermissionDenied)
    ensures EndsIn(states', steps', Done(f)) && states' == states + Passed(f) && steps' == steps + CALL
  {
    hide Enabled, Apply, EndsIn, Two, V.Subscribe;
    hide Idle, Begun, Offered, Marked, Refused, TakenBack, Done;
    BeginOffers(f);
    states', steps' := Then(states, steps, Idle(f), BeginSubscribe(KEY, CALLER), Begun(f));
    VisitedAccepts(f);
    states', steps' := Then(states', steps', Begun(f), OfferOne(VISITED), Offered(f));
    DirectMarks(f);
    states', steps' := Then(states', steps', Offered(f), DirectSubscribe(VISITED, KEY, OTHER), Marked(f));
    FullRefuses(f);
    states', steps' := Then(states', steps', Marked(f), OfferOne(FULL), Refused(f));
    VisitedGivesBack(f);
    states', steps' := Then(states', steps', Refused(f), TakeBackOne(VISITED), TakenBack(f));
    CallEnds(f);
    states', steps' := Then(states', steps', TakenBack(f), TakeBackDone, Done(f));
  }

  lemma FullMeaning(n: nat)
    requires n == MAX_SUBSCRIBE_COUNT
    ensures V.Subscribe(Filled(n), KEY, true, CALLER) == (Filled(n), PermissionDenied)
  {
    FilledMeaning(n);
    hide Filled;
  }

  /** What the run below shows; `i` is where the call begins. */
  ghost predicate Mischarged(states: seq<State>, steps: seq<Step>, i: nat) {
    && IsRun(states, steps) && i + |CALL| == |steps| && steps[i..] == CALL
    && VISITED in states[i].managers && states[i].managers[VISITED] == V.EMPTY
    && VisitTakenBack(states, steps, i + 1, i + 4, VISITED)
    && VISITED in states[i + |CALL|].managers
    && states[i + |CALL|].managers[VISITED] == V.View({KEY}, {}, map[KEY := CALLER])
  }

  /** The states and steps of the call, one by one. */
  ghost predicate Laid(states: seq<State>, steps: seq<Step>, i: nat, f: V.View) {
    && |steps| == i + 6 && |states| == i + 7 && steps[i..] == CALL
    && steps[i + 1] == OfferOne(VISITED) && steps[i + 2] == DirectSubscribe(VISITED, KEY, OTHER)
    && steps[i + 3] == OfferOne(FULL) && steps[i + 4] == TakeBackOne(VISITED)
    && states[i] == Idle(f) && states[i + 1] == Begun(f) && states[i + 2] == Offered(f)
    && states[i + 3] == Marked(f) && states[i + 4] == Refused(f) && states[i + 6] == Done(f)
  }

  lemma CallIsLaid(was: seq<State>, before: seq<Step>, states: seq<State>, steps: seq<Step>, f: V.View)
    requires EndsIn(was, before, Idle(f)) && states == was + Passed(f) && steps == before + CALL
    ensures Laid(states, steps, |before|, f)
  {
    hide Enabled, Apply, Idle, Begun, Offered, Marked, Refused, TakenBack, Done;
    assert steps[|before|..] == CALL;
  }

  lemma VisitIsTakenBack(states: seq<State>, steps: seq<Step>, i: nat, f: V.View)
    requires IsRun(states, steps) && Laid(states, steps, i, f)
    ensures VisitTakenBack(states, steps, i + 1, i + 4, VISITED)
  {
    hide IsRun;
    assert V.Charged(V.EMPTY.owner, CALLER) == {};
    assert V.Subscribe(V.EMPTY, KEY, true, CALLER).1 == ErrOk;
    hide V.Subscribe;
  }

  lemma RunIsMischarged(was: seq<State>, before: seq<Step>, states: seq<State>, steps: seq<Step>, f: V.View)
    requires EndsIn(was, before, Idle(f)) && EndsIn(states, steps, Done(f))
    requires states == was + Passed(f) && steps == before + CALL
    ensures Mischarged(states, steps, |before|)
  {
    hide IsRun, VisitTakenBack, Passed;
    CallIsLaid(was, before, states, steps, f);
    VisitIsTakenBack(states, steps, |before|, f);
  }

  lemma AnyFullManagerWillDo(n: nat) returns (states: seq<State>, steps: seq<Step>, i: nat)
    requires n == MAX_SUBSCRIBE_COUNT
    ensures Mischarged(states, steps, i)
  {
    hide EndsIn, Mischarged, Two, Filled, Passed;
    var was, before := FilledUp(n);
    FullMeaning(n);
    states, steps := CallRuns(was, before, Filled(n));
    RunIsMischarged(was, before, states, steps, Filled(n));
    i := |before|;
  }

  /**
   An instance of `WhoPaysAfterRefusal`: the call of one process is refused, yet at its end that process
   pays for the direct subscription that another one made meanwhile; made before or after the call it
   would be charged to its own process.
   */
  lemma DirectCallMeanwhileIsMischarged() returns (states: seq<State>, steps: seq<Step>, i: nat)
    ensures Mischarged(states, steps, i)
    ensures V.Subscribe(V.EMPTY, KEY, false, OTHER).0 == V.View({KEY}, {}, map[KEY := OTHER])
  {
    states, steps, i := AnyFullManagerWillDo(MAX_SUBSCRIBE_COUNT);
    assert V.Charged(V.EMPTY.owner, OTHER) == {};
    hide Mischarged;
  }
}
