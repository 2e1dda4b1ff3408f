/**
 Three runs of the timer service. In the first a timer expires between being armed and having its task
 stored, and the process ends in the call of an empty function. In the second, two service threads
 that were handed the same two expired timers in opposite orders serve one each; the closed numbers
 are given to two new timers, and each thread waits in the read of a new one. Nothing is lost, but a
 third timer that has expired meanwhile has to wait for one of those two. In the last run the two new
 timers are posted with delay 0, and both threads are stuck for good.
 */
module TimerRuns {
  import opened TimerService

  ghost predicate EndsIn(states: seq<State>, steps: seq<Step>, s: State) {
    IsRun(states, steps) && states[|states| - 1] == s
  }

  /** A run can be continued by an enabled step. */
  lemma Then(states: seq<State>, steps: seq<Step>, s: State, a: Step, s': State)
      returns (states': seq<State>, steps': seq<Step>)
    requires EndsIn(states, steps, s) && Enabled(s, a) && Apply(s, a) == s'
    ensures EndsIn(states', steps', s')
  {
    states', steps' := states + [s'], steps + [a];
  }

  lemma Start() returns (states: seq<State>, steps: seq<Step>)
    ensures EndsIn(states, steps, Begin0)
  {
    states, steps := [Begin0], [];
  }

  const Begin0 := State(
    map[], map[],
    map[], map[], 0, false, [])

  const Begin1 := State(
    map[1 := 7], map[1 := Timer(0, Armed)],
    map[], map[0 := Polling], 1, false, [])

  lemma BeginLeg1(states: seq<State>, steps: seq<Step>) returns (states': seq<State>, steps': seq<Step>)
    requires EndsIn(states, steps, Begin0)
    ensures EndsIn(states', steps', Begin1)
  {
    hide EndsIn;
    var s1 := Begin0.(open := map[1 := Timer(0, Armed)], posters := map[0 := Storing(1, 7)], next := 1);
    states', steps' := Then(states, steps, Begin0, CreateTimer(0, 1, 7, 1), s1);
    var s2 := s1.(tasks := map[1 := 7], posters := map[0 := StartingThread]);
    states', steps' := Then(states', steps', s1, FirstInsert(0), s2);
    var s3 := s2.(posters := map[], threads := map[0 := Checking]);
    states', steps' := Then(states', steps', s2, StartThread(0, 0), s3);
    assert 1 in s3.tasks;
    states', steps' := Then(states', steps', s3, CheckEmpty(0), Begin1);
  }

  // ---- a task called too early ----

  const Early1 := State(
    map[1 := 7], map[1 := Timer(0, Armed), 2 := Timer(1, Expired)],
    map[0 := Storing(2, 7)], map[0 := Serving([2])], 2, false, [])

  const Early2 := State(
    map[1 := 7], map[1 := Timer(0, Armed), 2 := Timer(1, Consumed)],
    map[0 := Storing(2, 7)], map[0 := Running(2, [])], 2, true, [])

  lemma EarlyLeg1(states: seq<State>, steps: seq<Step>) returns (states': seq<State>, steps': seq<Step>)
    requires EndsIn(states, steps, Begin1)
    ensures EndsIn(states', steps', Early1)
  {
    hide EndsIn;
    var s1 :=
      Begin1.(open := map[1 := Timer(0, Armed), 2 := Timer(1, Armed)],
              posters := map[0 := Storing(2, 7)],
              next := 2);
    states', steps' := Then(states, steps, Begin1, CreateTimer(0, 2, 7, 1), s1);
    var s2 := s1.(open := map[1 := Timer(0, Armed), 2 := Timer(1, Expired)]);
    states', steps' := Then(states', steps', s1, Expire(2), s2);
    states', steps' := Then(states', steps', s2, PollReturns(0, [2]), Early1);
  }

  lemma EarlyLeg2(states: seq<State>, steps: seq<Step>) returns (states': seq<State>, steps': seq<Step>)
    requires EndsIn(states, steps, Early1)
    ensures EndsIn(states', steps', Early2)
  {
    hide EndsIn;
    assert [2][1..] == [];
    var s1 :=
      Early1.(open := map[1 := Timer(0, Armed), 2 := Timer(1, Consumed)],
              threads := map[0 := Running(2, [])]);
    states', steps' := Then(states, steps, Early1, Read(0), s1);
    states', steps' := Then(states', steps', s1, CallTask(0), Early2);
  }

  /** A run that ends with a task stored and the process failed. */
  lemma EarlyExpiryFails() returns (states: seq<State>, steps: seq<Step>)
    ensures IsRun(states, steps)
    ensures var s := states[|states| - 1]; s.failed && s.tasks != map[]
  {
    hide *;
    states, steps := Start();
    states, steps := BeginLeg1(states, steps);
    states, steps := EarlyLeg1(states, steps);
    states, steps := EarlyLeg2(states, steps);
    EarlyEnd(states, steps);
  }

  lemma EarlyEnd(states: seq<State>, steps: seq<Step>)
    requires EndsIn(states, steps, Early2)
    ensures IsRun(states, steps)
    ensures var s := states[|states| - 1]; s.failed && s.tasks != map[]
  {
    assert 1 in Early2.tasks;
  }

  // ---- an expired timer that has to wait ----

  const Reuse1 := State(
    map[1 := 7], map[1 := Timer(0, Consumed)],
    map[], map[0 := Running(1, [])], 1, false, [])

  const Reuse2 := State(
    map[], map[1 := Timer(0, Consumed), 2 := Timer(1, Armed)],
    map[0 := Storing(2, 7)], map[0 := Closing(1, [])], 2, false, [(0, 7)])

  const Reuse3 := State(
    map[2 := 7], map[2 := Timer(1, Armed)],
    map[], map[0 := Serving([]), 1 := Checking], 2, false, [(0, 7)])

  const Reuse4 := State(
    map[2 := 7], map[2 := Timer(1, Armed)],
    map[], map[0 := Polling, 1 := Polling], 2, false, [(0, 7)])

  const Reuse5 := State(
    map[2 := 7, 3 := 7], map[2 := Timer(1, Expired), 3 := Timer(2, Armed)],
    map[], map[0 := Polling, 1 := Polling], 3, false, [(0, 7)])

  const Reuse6 := State(
    map[2 := 7, 3 := 7], map[2 := Timer(1, Expired), 3 := Timer(2, Expired)],
    map[], map[0 := Serving([2, 3]), 1 := Serving([3, 2])], 3, false, [(0, 7)])

  const Reuse7 := State(
    map[2 := 7, 3 := 7], map[2 := Timer(1, Consumed), 3 := Timer(2, Consumed)],
    map[], map[0 := Running(2, [3]), 1 := Ran(3, [2])], 3, false, [(0, 7), (2, 7)])

  const Reuse8 := State(
    map[2 := 7], map[2 := Timer(1, Consumed), 3 := Timer(3, Armed)],
    map[0 := Storing(3, 7)], map[0 := Running(2, [3]), 1 := Serving([2])], 4, false, [(0, 7), (2, 7)])

  const Reuse9 := State(
    map[3 := 7], map[2 := Timer(1, Consumed), 3 := Timer(3, Armed)],
    map[], map[0 := Closing(2, [3]), 1 := Serving([2])], 4, false, [(0, 7), (2, 7), (1, 7)])

  const Reuse10 := State(
    map[2 := 7, 3 := 7], map[2 := Timer(4, Armed), 3 := Timer(3, Armed)],
    map[], map[0 := Serving([3]), 1 := Serving([2])], 5, false, [(0, 7), (2, 7), (1, 7)])

  const Reuse11 := State(
    map[2 := 7, 3 := 7], map[1 := Timer(5, Armed), 2 := Timer(4, Armed), 3 := Timer(3, Armed)],
    map[0 := Storing(1, 7)], map[0 := Blocked(3, 3, []), 1 := Blocked(2, 4, [])], 6, false, [(0, 7), (2, 7), (1, 7)])

  const Reuse12 := State(
    map[1 := 7, 2 := 7, 3 := 7], map[1 := Timer(5, Expired), 2 := Timer(4, Armed), 3 := Timer(3, Armed)],
    map[], map[0 := Blocked(3, 3, []), 1 := Blocked(2, 4, [])], 6, false, [(0, 7), (2, 7), (1, 7)])

  lemma ReuseLeg1(states: seq<State>, steps: seq<Step>) returns (states': seq<State>, steps': seq<Step>)
    requires EndsIn(states, steps, Begin1)
    ensures EndsIn(states', steps', Reuse1)
  {
    hide EndsIn;
    var s1 := Begin1.(open := map[1 := Timer(0, Expired)]);
    states', steps' := Then(states, steps, Begin1, Expire(1), s1);
    var s2 := s1.(threads := map[0 := Serving([1])]);
    states', steps' := Then(states', steps', s1, PollReturns(0, [1]), s2);
    assert [1][1..] == [];
    states', steps' := Then(states', steps', s2, Read(0), Reuse1);
  }

  lemma ReuseLeg2(states: seq<State>, steps: seq<Step>) returns (states': seq<State>, steps': seq<Step>)
    requires EndsIn(states, steps, Reuse1)
    ensures EndsIn(states', steps', Reuse2)
  {
    hide EndsIn;
    var s1 := Reuse1.(threads := map[0 := Ran(1, [])], called := [(0, 7)]);
    states', steps' := Then(states, steps, Reuse1, CallTask(0), s1);
    var s2 := s1.(tasks := map[], threads := map[0 := Closing(1, [])]);
    states', steps' := Then(states', steps', s1, EraseTask(0), s2);
    states', steps' := Then(states', steps', s2, CreateTimer(0, 2, 7, 1), Reuse2);
  }

  lemma ReuseLeg3(states: seq<State>, steps: seq<Step>) returns (states': seq<State>, steps': seq<Step>)
    requires EndsIn(states, steps, Reuse2)
    ensures EndsIn(states', steps', Reuse3)
  {
    hide EndsIn;
    var s1 := Reuse2.(tasks := map[2 := 7], posters := map[0 := StartingThread]);
    states', steps' := Then(states, steps, Reuse2, FirstInsert(0), s1);
    var s2 := s1.(posters := map[], threads := map[0 := Closing(1, []), 1 := Checking]);
    states', steps' := Then(states', steps', s1, StartThread(0, 1), s2);
    states', steps' := Then(states', steps', s2, Close(0), Reuse3);
  }

  lemma ReuseLeg4(states: seq<State>, steps: seq<Step>) returns (states': seq<State>, steps': seq<Step>)
    requires EndsIn(states, steps, Reuse3)
    ensures EndsIn(states', steps', Reuse4)
  {
    hide EndsIn;
    var s1 := Reuse3.(threads := map[0 := Checking, 1 := Checking]);
    states', steps' := Then(states, steps, Reuse3, ServedAll(0), s1);
    assert 2 in s1.tasks;
    var s2 := s1.(threads := map[0 := Polling, 1 := Checking]);
    states', steps' := Then(states', steps', s1, CheckEmpty(0), s2);
    assert 2 in s2.tasks;
    states', steps' := Then(states', steps', s2, CheckEmpty(1), Reuse4);
  }

  lemma ReuseLeg5(states: seq<State>, steps: seq<Step>) returns (states': seq<State>, steps': seq<Step>)
    requires EndsIn(states, steps, Reuse4)
    ensures EndsIn(states', steps', Reuse5)
  {
    hide EndsIn;
    var s1 :=
      Reuse4.(open := map[2 := Timer(1, Armed), 3 := Timer(2, Armed)],
              posters := map[0 := Storing(3, 7)],
              next := 3);
    states', steps' := Then(states, steps, Reuse4, CreateTimer(0, 3, 7, 1), s1);
    assert 2 in s1.tasks;
    var s2 := s1.(tasks := map[2 := 7, 3 := 7], posters := map[]);
    states', steps' := Then(states', steps', s1, FirstInsert(0), s2);
    states', steps' := Then(states', steps', s2, Expire(2), Reuse5);
  }

  lemma ReuseLeg6(states: seq<State>, steps: seq<Step>) returns (states': seq<State>, steps': seq<Step>)
    requires EndsIn(states, steps, Reuse5)
    ensures EndsIn(states', steps', Reuse6)
  {
    hide EndsIn;
    var s1 := Reuse5.(open := map[2 := Timer(1, Expired), 3 := Timer(2, Expired)]);
    states', steps' := Then(states, steps, Reuse5, Expire(3), s1);
    var s2 := s1.(threads := map[0 := Serving([2, 3]), 1 := Polling]);
    states', steps' := Then(states', steps', s1, PollReturns(0, [2, 3]), s2);
    states', steps' := Then(states', steps', s2, PollReturns(1, [3, 2]), Reuse6);
  }

  lemma ReuseLeg7(states: seq<State>, steps: seq<Step>) returns (states': seq<State>, steps': seq<Step>)
    requires EndsIn(states, steps, Reuse6)
    ensures EndsIn(states', steps', Reuse7)
  {
    hide EndsIn;
    var s1 :=
      Reuse6.(open := map[2 := Timer(1, Consumed), 3 := Timer(2, Expired)],
              threads := map[0 := Running(2, [3]), 1 := Serving([3, 2])]);
    states', steps' := Then(states, steps, Reuse6, Read(0), s1);
    var s2 :=
      s1.(open := map[2 := Timer(1, Consumed), 3 := Timer(2, Consumed)],
              threads := map[0 := Running(2, [3]), 1 := Running(3, [2])]);
    states', steps' := Then(states', steps', s1, Read(1), s2);
    states', steps' := Then(states', steps', s2, CallTask(1), Reuse7);
  }

  lemma ReuseLeg8(states: seq<State>, steps: seq<Step>) returns (states': seq<State>, steps': seq<Step>)
    requires EndsIn(states, steps, Reuse7)
    ensures EndsIn(states', steps', Reuse8)
  {
    hide EndsIn;
    var s1 := Reuse7.(tasks := map[2 := 7], threads := map[0 := Running(2, [3]), 1 := Closing(3, [2])]);
    states', steps' := Then(states, steps, Reuse7, EraseTask(1), s1);
    var s2 := s1.(open := map[2 := Timer(1, Consumed)], threads := map[0 := Running(2, [3]), 1 := Serving([2])]);
    states', steps' := Then(states', steps', s1, Close(1), s2);
    states', steps' := Then(states', steps', s2, CreateTimer(0, 3, 7, 1), Reuse8);
  }

  lemma ReuseLeg9(states: seq<State>, steps: seq<Step>) returns (states': seq<State>, steps': seq<Step>)
    requires EndsIn(states, steps, Reuse8)
    ensures EndsIn(states', steps', Reuse9)
  {
    hide EndsIn;
    assert 2 in Reuse8.tasks;
    var s1 := Reuse8.(tasks := map[2 := 7, 3 := 7], posters := map[]);
    states', steps' := Then(states, steps, Reuse8, FirstInsert(0), s1);
    var s2 := s1.(threads := map[0 := Ran(2, [3]), 1 := Serving([2])], called := [(0, 7), (2, 7), (1, 7)]);
    states', steps' := Then(states', steps', s1, CallTask(0), s2);
    states', steps' := Then(states', steps', s2, EraseTask(0), Reuse9);
  }

  lemma ReuseLeg10(states: seq<State>, steps: seq<Step>) returns (states': seq<State>, steps': seq<Step>)
    requires EndsIn(states, steps, Reuse9)
    ensures EndsIn(states', steps', Reuse10)
  {
    hide EndsIn;
    var s1 := Reuse9.(open := map[3 := Timer(3, Armed)], threads := map[0 := Serving([3]), 1 := Serving([2])]);
    states', steps' := Then(states, steps, Reuse9, Close(0), s1);
    var s2 :=
      s1.(open := map[2 := Timer(4, Armed), 3 := Timer(3, Armed)],
              posters := map[0 := Storing(2, 7)],
              next := 5);
    states', steps' := Then(states', steps', s1, CreateTimer(0, 2, 7, 1), s2);
    assert 3 in s2.tasks;
    states', steps' := Then(states', steps', s2, FirstInsert(0), Reuse10);
  }

  lemma ReuseLeg11(states: seq<State>, steps: seq<Step>) returns (states': seq<State>, steps': seq<Step>)
    requires EndsIn(states, steps, Reuse10)
    ensures EndsIn(states', steps', Reuse11)
  {
    hide EndsIn;
    assert [3][1..] == [];
    var s1 := Reuse10.(threads := map[0 := Blocked(3, 3, []), 1 := Serving([2])]);
    states', steps' := Then(states, steps, Reuse10, Read(0), s1);
    assert [2][1..] == [];
    var s2 := s1.(threads := map[0 := Blocked(3, 3, []), 1 := Blocked(2, 4, [])]);
    states', steps' := Then(states', steps', s1, Read(1), s2);
    states', steps' := Then(states', steps', s2, CreateTimer(0, 1, 7, 1), Reuse11);
  }

  lemma ReuseLeg12(states: seq<State>, steps: seq<Step>) returns (states': seq<State>, steps': seq<Step>)
    requires EndsIn(states, steps, Reuse11)
    ensures EndsIn(states', steps', Reuse12)
  {
    hide EndsIn;
    assert 2 in Reuse11.tasks;
    var s1 := Reuse11.(tasks := map[1 := 7, 2 := 7, 3 := 7], posters := map[]);
    states', steps' := Then(states, steps, Reuse11, FirstInsert(0), s1);
    states', steps' := Then(states', steps', s1, Expire(1), Reuse12);
  }

  /** Every thread waits in the read of a timer that has yet to expire. */
  ghost predicate AllWaiting(s: State) {
    forall t :: t in s.threads ==> && s.threads[t].Blocked? && !StuckForGood(s, s.threads[t])
                                   && s.open[s.threads[t].fd].phase == Armed
  }

  lemma ReuseEnd(states: seq<State>, steps: seq<Step>)
    requires EndsIn(states, steps, Reuse12)
    ensures IsRun(states, steps)
    ensures var s := states[|states| - 1];
            && 1 in s.tasks && Readable(s, 1) && !StartUnderway(s) && !s.failed && AllWaiting(s)
  {
  }

  /** A run after which a stored task's timer has expired and every thread is in a read, each of them
      of a timer that has yet to expire. */
  lemma ReuseCanDelay() returns (states: seq<State>, steps: seq<Step>, fd: Fd)
    ensures IsRun(states, steps)
    ensures var s := states[|states| - 1];
            && fd in s.tasks && Readable(s, fd) && !StartUnderway(s) && !s.failed && AllWaiting(s)
  {
    hide *;
    states, steps := Start();
    states, steps := BeginLeg1(states, steps);
    states, steps := ReuseLeg1(states, steps);
    states, steps := ReuseLeg2(states, steps);
    states, steps := ReuseLeg3(states, steps);
    states, steps := ReuseLeg4(states, steps);
    states, steps := ReuseLeg5(states, steps);
    states, steps := ReuseLeg6(states, steps);
    states, steps := ReuseLeg7(states, steps);
    states, steps := ReuseLeg8(states, steps);
    states, steps := ReuseLeg9(states, steps);
    states, steps := ReuseLeg10(states, steps);
    states, steps := ReuseLeg11(states, steps);
    states, steps := ReuseLeg12(states, steps);
    ReuseEnd(states, steps);
    fd := 1;
  }

  // ---- timers that never expire ----

  const Stuck1 := State(
    map[2 := 7], map[2 := Timer(1, Consumed), 3 := Timer(3, Disarmed)],
    map[0 := Storing(3, 7)], map[0 := Running(2, [3]), 1 := Serving([2])], 4, false, [(0, 7), (2, 7)])

  const Stuck2 := State(
    map[3 := 7], map[2 := Timer(1, Consumed), 3 := Timer(3, Disarmed)],
    map[], map[0 := Closing(2, [3]), 1 := Serving([2])], 4, false, [(0, 7), (2, 7), (1, 7)])

  const Stuck3 := State(
    map[2 := 7, 3 := 7], map[2 := Timer(4, Disarmed), 3 := Timer(3, Disarmed)],
    map[], map[0 := Serving([3]), 1 := Serving([2])], 5, false, [(0, 7), (2, 7), (1, 7)])

  const Stuck4 := State(
    map[2 := 7, 3 := 7], map[2 := Timer(4, Disarmed), 3 := Timer(3, Disarmed)],
    map[], map[0 := Blocked(3, 3, []), 1 := Blocked(2, 4, [])], 5, false, [(0, 7), (2, 7), (1, 7)])

  lemma StuckLeg1(states: seq<State>, steps: seq<Step>) returns (states': seq<State>, steps': seq<Step>)
    requires EndsIn(states, steps, Reuse7)
    ensures EndsIn(states', steps', Stuck1)
  {
    hide EndsIn;
    var s1 := Reuse7.(tasks := map[2 := 7], threads := map[0 := Running(2, [3]), 1 := Closing(3, [2])]);
    states', steps' := Then(states, steps, Reuse7, EraseTask(1), s1);
    var s2 := s1.(open := map[2 := Timer(1, Consumed)], threads := map[0 := Running(2, [3]), 1 := Serving([2])]);
    states', steps' := Then(states', steps', s1, Close(1), s2);
    states', steps' := Then(states', steps', s2, CreateTimer(0, 3, 7, 0), Stuck1);
  }

  lemma StuckLeg2(states: seq<State>, steps: seq<Step>) returns (states': seq<State>, steps': seq<Step>)
    requires EndsIn(states, steps, Stuck1)
    ensures EndsIn(states', steps', Stuck2)
  {
    hide EndsIn;
    assert 2 in Stuck1.tasks;
    var s1 := Stuck1.(tasks := map[2 := 7, 3 := 7], posters := map[]);
    states', steps' := Then(states, steps, Stuck1, FirstInsert(0), s1);
    var s2 := s1.(threads := map[0 := Ran(2, [3]), 1 := Serving([2])], called := [(0, 7), (2, 7), (1, 7)]);
    states', steps' := Then(states', steps', s1, CallTask(0), s2);
    states', steps' := Then(states', steps', s2, EraseTask(0), Stuck2);
  }

  lemma StuckLeg3(states: seq<State>, steps: seq<Step>) returns (states': seq<State>, steps': seq<Step>)
    requires EndsIn(states, steps, Stuck2)
    ensures EndsIn(states', steps', Stuck3)
  {
    hide EndsIn;
    var s1 := Stuck2.(open := map[3 := Timer(3, Disarmed)], threads := map[0 := Serving([3]), 1 := Serving([2])]);
    states', steps' := Then(states, steps, Stuck2, Close(0), s1);
    var s2 :=
      s1.(open := map[2 := Timer(4, Disarmed), 3 := Timer(3, Disarmed)],
              posters := map[0 := Storing(2, 7)],
              next := 5);
    states', steps' := Then(states', steps', s1, CreateTimer(0, 2, 7, 0), s2);
    assert 3 in s2.tasks;
    states', steps' := Then(states', steps', s2, FirstInsert(0), Stuck3);
  }

  lemma StuckLeg4(states: seq<State>, steps: seq<Step>) returns (states': seq<State>, steps': seq<Step>)
    requires EndsIn(states, steps, Stuck3)
    ensures EndsIn(states', steps', Stuck4)
  {
    hide EndsIn;
    assert [3][1..] == [];
    var s1 := Stuck3.(threads := map[0 := Blocked(3, 3, []), 1 := Serving([2])]);
    states', steps' := Then(states, steps, Stuck3, Read(0), s1);
    assert [2][1..] == [];
    states', steps' := Then(states', steps', s1, Read(1), Stuck4);
  }

  lemma StuckEnd(states: seq<State>, steps: seq<Step>)
    requires EndsIn(states, steps, Stuck4)
    ensures IsRun(states, steps)
    ensures var s := states[|states| - 1];
            && 2 in s.tasks && !Served(s) && forall t :: t in s.threads ==> ReadsDisarmed(s, s.threads[t])
  {
  }

  /** The same with the two new timers posted with delay 0: a run after which tasks are stored and every
      thread is stuck for good, each of them in the read of a timer that will never expire. */
  lemma DisarmedCanStickEveryThread() returns (states: seq<State>, steps: seq<Step>)
    ensures IsRun(states, steps)
    ensures var s := states[|states| - 1];
            && 2 in s.tasks && !Served(s) && forall t :: t in s.threads ==> ReadsDisarmed(s, s.threads[t])
  {
    hide *;
    states, steps := Start();
    states, steps := BeginLeg1(states, steps);
    states, steps := ReuseLeg1(states, steps);
    states, steps := ReuseLeg2(states, steps);
    states, steps := ReuseLeg3(states, steps);
    states, steps := ReuseLeg4(states, steps);
    states, steps := ReuseLeg5(states, steps);
    states, steps := ReuseLeg6(states, steps);
    states, steps := ReuseLeg7(states, steps);
    states, steps := StuckLeg1(states, steps);
    states, steps := StuckLeg2(states, steps);
    states, steps := StuckLeg3(states, steps);
    states, steps := StuckLeg4(states, steps);
    StuckEnd(states, steps);
  }
}
