/**
 Cancelling the pending stop tasks. A timeout task enters its body only while the shared task state
 is alive and counts itself in and out under the lock of that state; the canceller clears `alive` under
 the same lock and sleeps on the condition until no task is inside. Every critical section is a
 step, sleeping and waking are steps of their own, and a sleeper may also wake spuriously.
 */
module StopTasks {

  type Task = nat

  datatype TaskPc = Posted | InBody | Finished

  /** Deciding: holds the lock and is about to test the wait predicate. */
  datatype CancelPc = NotCancelling | Deciding | Sleeping | Woken | Returned

  datatype State = State(
    alive: bool,
    activeTasks: int,
    tasks: map<Task, TaskPc>,
    canceller: CancelPc,
    enteredAfterReturn: bool)

  datatype Step =
    | Post(t: Task)
    | Enter(t: Task)
    | Leave(t: Task)
    | BeginCancel
    | TestPredicate
    | WakeSpuriously
    | Relock

  predicate Init(s: State) {
    s == State(true, 0, map[], NotCancelling, false)
  }

  /** The canceller keeps the lock from clearing `alive` to its test, so no task step comes between. */
  predicate LockFree(s: State) {
    !s.canceller.Deciding?
  }

  predicate At(s: State, t: Task, pc: TaskPc) {
    t in s.tasks && s.tasks[t] == pc
  }

  predicate Enabled(s: State, a: Step) {
    match a
    case Post(t) => t !in s.tasks
    case Enter(t) => LockFree(s) && At(s, t, Posted)
    case Leave(t) => LockFree(s) && At(s, t, InBody)
    case BeginCancel => s.canceller.NotCancelling?
    case TestPredicate => s.canceller.Deciding?
    case WakeSpuriously => s.canceller.Sleeping?
    case Relock => s.canceller.Woken?
  }

  function Apply(s: State, a: Step): State
    requires Enabled(s, a)
  {
    match a
    case Post(t) => s.(tasks := s.tasks[t := Posted])
    case Enter(t) =>
      if !s.alive then s.(tasks := s.tasks[t := Finished])
      else s.(tasks := s.tasks[t := InBody], activeTasks := s.activeTasks + 1,
              enteredAfterReturn := s.enteredAfterReturn || s.canceller.Returned?)
    case Leave(t) =>
      s.(tasks := s.tasks[t := Finished], activeTasks := s.activeTasks - 1,
         canceller := if !s.alive && s.activeTasks - 1 == 0 && s.canceller.Sleeping? then Woken else s.canceller)
    case BeginCancel => s.(alive := false, canceller := Deciding)
    case TestPredicate => s.(canceller := if s.activeTasks == 0 then Returned else Sleeping)
    case WakeSpuriously => s.(canceller := Woken)
    case Relock => s.(canceller := Deciding)
  }

  ghost predicate IsRun(states: seq<State>, steps: seq<Step>) {
    && |states| == |steps| + 1
    && Init(states[0])
    && forall i :: 0 <= i < |steps| ==> Enabled(states[i], steps[i]) && states[i + 1] == Apply(states[i], steps[i])
  }

  /** The tasks inside their body. */
  function Inside(tasks: map<Task, TaskPc>): set<Task> {
    set t | t in tasks && tasks[t] == InBody
  }

  ghost predicate Inv(s: State) {
    && s.activeTasks == |Inside(s.tasks)|
    && (s.alive <==> s.canceller.NotCancelling?)
    && (s.canceller.Sleeping? ==> s.activeTasks > 0)
    && (s.canceller.Returned? ==> s.activeTasks == 0)
    && !s.enteredAfterReturn
  }

  /** What moving one task does to the set of tasks inside their body. */
  lemma InsideAfter(tasks: map<Task, TaskPc>, t: Task, pc: TaskPc)
    ensures var was, now := Inside(tasks), Inside(tasks[t := pc]);
            && (pc == InBody && t !in was ==> |now| == |was| + 1)
            && (pc != InBody && t in was ==> |now| == |was| - 1)
            && (pc != InBody && t !in was ==> |now| == |was|)
    ensures t in Inside(tasks) <==> t in tasks && tasks[t] == InBody
  {
    assert Inside(tasks[t := pc]) == if pc == InBody then Inside(tasks) + {t} else Inside(tasks) - {t};
  }

  lemma StepKeepsInv(s: State, a: Step)
    requires Inv(s) && Enabled(s, a)
    ensures Inv(Apply(s, a))
  {
    hide Inside;
    match a
    case Post(t) => InsideAfter(s.tasks, t, Posted);
    case Enter(t) => InsideAfter(s.tasks, t, if s.alive then InBody else Finished);
    case Leave(t) => InsideAfter(s.tasks, t, Finished);
    case _ =>
  }

  lemma {:induction false} RunKeepsInv(states: seq<State>, steps: seq<Step>, n: nat)
    requires IsRun(states, steps) && n < |states|
    ensures Inv(states[n])
  {
    if n == 0 {
      assert Inside(states[0].tasks) == {};
    } else {
      RunKeepsInv(states, steps, n - 1);
      StepKeepsInv(states[n - 1], steps[n - 1]);
    }
  }

  /** The counter is the number of tasks inside the body, in every reachable state. */
  lemma CounterCountsBodies(states: seq<State>, steps: seq<Step>, n: nat)
    requires IsRun(states, steps) && n < |states|
    ensures states[n].activeTasks == |Inside(states[n].tasks)|
  {
    RunKeepsInv(states, steps, n);
  }

  lemma {:induction false} ReturnedForGood(states: seq<State>, steps: seq<Step>, n: nat, k: nat)
    requires IsRun(states, steps) && n <= k < |states| && states[n].canceller.Returned?
    ensures states[k].canceller.Returned?
  {
    if k > n {
      ReturnedForGood(states, steps, n, k - 1);
    }
  }

  /** Once the cancellation has returned, no task body is running and none ever runs again. */
  lemma NothingRunsAfterCancel(states: seq<State>, steps: seq<Step>, n: nat, k: nat, t: Task)
    requires IsRun(states, steps) && n <= k < |states| && states[n].canceller.Returned?
    ensures !At(states[k], t, InBody) && !states[k].enteredAfterReturn
    ensures k < |steps| && steps[k] == Enter(t) ==> At(states[k + 1], t, Finished)
  {
    ReturnedForGood(states, steps, n, k);
    RunKeepsInv(states, steps, k);
    var inside := Inside(states[k].tasks);
    assert t !in inside;
  }

  /** The waiter cannot miss its wake-up: while it sleeps, some task is still inside its body, and
      when the last of them leaves, the waiter is awake. */
  lemma WakeUpIsNotMissed(states: seq<State>, steps: seq<Step>, n: nat)
    requires IsRun(states, steps) && n < |states| && states[n].canceller.Sleeping?
    ensures exists t :: At(states[n], t, InBody)
    ensures forall t: Task :: Enabled(states[n], Leave(t)) && Inside(states[n].tasks) == {t} ==>
                          Apply(states[n], Leave(t)).canceller.Woken?
  {
    RunKeepsInv(states, steps, n);
    var inside := Inside(states[n].tasks);
    var t :| t in inside;
    assert At(states[n], t, InBody);
  }

  /** A test of the predicate returns exactly when no body is running. */
  lemma CancelReturnsWhenIdle(states: seq<State>, steps: seq<Step>, n: nat)
    requires IsRun(states, steps) && n < |states| && Enabled(states[n], TestPredicate)
    ensures Apply(states[n], TestPredicate).canceller.Returned? <==> Inside(states[n].tasks) == {}
  {
    RunKeepsInv(states, steps, n);
  }

  /** As long as no cancellation has begun, a posted task that gets the lock enters its body and is
      counted, and leaves it again; afterwards it is turned away. */
  lemma TasksRunUntilCancelled(states: seq<State>, steps: seq<Step>, n: nat, t: Task)
    requires IsRun(states, steps) && n < |states| && At(states[n], t, Posted) && LockFree(states[n])
    ensures var s := states[n];
            && Enabled(s, Enter(t))
            && var s1 := Apply(s, Enter(t));
               if s.canceller.NotCancelling?
               then && At(s1, t, InBody) && s1.activeTasks == s.activeTasks + 1 && Enabled(s1, Leave(t))
                    && var s2 := Apply(s1, Leave(t));
                       At(s2, t, Finished) && s2.activeTasks == s.activeTasks && s2.canceller == s.canceller
               else At(s1, t, Finished) && s1.activeTasks == s.activeTasks
  {
    RunKeepsInv(states, steps, n);
  }

  /** A cancellation turns away all tasks from its beginning on. */
  lemma CancelTurnsAway(states: seq<State>, steps: seq<Step>, n: nat)
    requires IsRun(states, steps) && n < |states| && states[n].canceller.NotCancelling?
    ensures Enabled(states[n], BeginCancel)
    ensures var s, s' := states[n], Apply(states[n], BeginCancel);
            s'.canceller.Deciding? && !s'.alive && s'.tasks == s.tasks && s'.activeTasks == s.activeTasks
            && Enabled(s', TestPredicate)
  {
  }
}
