/**
 The timer service: posters create and arm a timer, store its task and start a service thread when the
 map of tasks was empty; service threads run while the map is not empty. A thread waits for timers to
 expire, then reads, calls the task of, erases and closes each expired one. Reading a timer that has
 nothing to read blocks the thread; reading a closed one fails at once; calling the task of a timer
 whose entry is not there is the call of an empty function, which ends the process.
 */
module TimerService {
  import opened ConcurrentMaps

  type Fd = nat       // the number of a timer descriptor
  type Tid = nat
  type Task = nat

  /** A timer posted with delay 0 is disarmed and never expires. */
  datatype Phase = Disarmed | Armed | Expired | Consumed

  /** An open timer. Descriptor numbers come back after closing, `id` tells the timers apart. */
  datatype Timer = Timer(id: nat, phase: Phase)

  datatype Poster = Storing(fd: Fd, task: Task) | StartingThread

  /** A service thread: `Running` has read a timer, `Ran` has called its task, `Closing` has erased it. */
  datatype Thread =
    | Checking
    | Polling
    | Serving(events: seq<Fd>)
    | Blocked(fd: Fd, id: nat, rest: seq<Fd>)
    | Running(fd: Fd, rest: seq<Fd>)
    | Ran(fd: Fd, rest: seq<Fd>)
    | Closing(fd: Fd, rest: seq<Fd>)

  datatype State = State(
    tasks: map<Fd, Task>,
    open: map<Fd, Timer>,
    posters: map<Tid, Poster>,
    threads: map<Tid, Thread>,
    next: nat,
    failed: bool,
    called: seq<(nat, Task)>)     // the timers whose task has been called, by id

  predicate Init(s: State) {
    s == State(map[], map[], map[], map[], 0, false, [])
  }

  datatype Step =
    | CreateTimer(p: Tid, fd: Fd, task: Task, delay: nat)
    | FirstInsert(p: Tid)
    | StartThread(p: Tid, t: Tid)
    | Expire(fd: Fd)
    | CheckEmpty(t: Tid)
    | PollReturns(t: Tid, events: seq<Fd>)
    | Read(t: Tid)
    | ReadResumes(t: Tid)
    | CallTask(t: Tid)
    | EraseTask(t: Tid)
    | Close(t: Tid)
    | ServedAll(t: Tid)

  predicate Readable(s: State, fd: Fd) {
    fd in s.open && s.open[fd].phase == Expired
  }

  predicate Enabled(s: State, a: Step) {
    !s.failed &&
    match a
    case CreateTimer(p, fd, _, _) => p !in s.posters && fd !in s.open
    case FirstInsert(p) => p in s.posters && s.posters[p].Storing?
    case StartThread(p, t) => p in s.posters && s.posters[p].StartingThread? && t !in s.threads
    case Expire(fd) => fd in s.open && s.open[fd].phase == Armed
    case CheckEmpty(t) => t in s.threads && s.threads[t].Checking?
    case PollReturns(t, events) =>
      t in s.threads && s.threads[t].Polling? && forall i :: 0 <= i < |events| ==> Readable(s, events[i])
    case Read(t) => t in s.threads && s.threads[t].Serving? && s.threads[t].events != []
    case ReadResumes(t) =>
      && t in s.threads && s.threads[t].Blocked?
      && Readable(s, s.threads[t].fd) && s.open[s.threads[t].fd].id == s.threads[t].id
    case CallTask(t) => t in s.threads && s.threads[t].Running?
    case EraseTask(t) => t in s.threads && s.threads[t].Ran?
    case Close(t) => t in s.threads && s.threads[t].Closing?
    case ServedAll(t) => t in s.threads && s.threads[t].Serving? && s.threads[t].events == []
  }

  function SetThread(s: State, t: Tid, x: Thread): State {
    s.(threads := s.threads[t := x])
  }

  function SetPhase(s: State, fd: Fd, phase: Phase): State
    requires fd in s.open
  {
    s.(open := s.open[fd := Timer(s.open[fd].id, phase)])
  }

  function AfterInsert(s: State, p: Tid): State
    requires p in s.posters && s.posters[p].Storing?
  {
    var (tasks, isFirst) := FirstInserted(s.tasks, s.posters[p].fd, s.posters[p].task);
    s.(tasks := tasks, posters := if isFirst then s.posters[p := StartingThread] else s.posters - {p})
  }

  function AfterRead(s: State, t: Tid): State
    requires t in s.threads && s.threads[t].Serving? && s.threads[t].events != []
  {
    var fd, rest := s.threads[t].events[0], s.threads[t].events[1..];
    if fd !in s.open then SetThread(s, t, Serving(rest))
    else if s.open[fd].phase == Expired then SetThread(SetPhase(s, fd, Consumed), t, Running(fd, rest))
    else SetThread(s, t, Blocked(fd, s.open[fd].id, rest))
  }

  function IdOf(s: State, fd: Fd): nat {
    if fd in s.open then s.open[fd].id else 0
  }

  function AfterCall(s: State, t: Tid): State
    requires t in s.threads && s.threads[t].Running?
  {
    var fd := s.threads[t].fd;
    if fd !in s.tasks then s.(failed := true)
    else SetThread(s, t, Ran(fd, s.threads[t].rest)).(called := s.called + [(IdOf(s, fd), s.tasks[fd])])
  }

  function Apply(s: State, a: Step): State
    requires Enabled(s, a)
  {
    match a
    case CreateTimer(p, fd, task, delay) =>
      s.(open := s.open[fd := Timer(s.next, if delay == 0 then Disarmed else Armed)],
         posters := s.posters[p := Storing(fd, task)], next := s.next + 1)
    case FirstInsert(p) => AfterInsert(s, p)
    case StartThread(p, t) => s.(posters := s.posters - {p}, threads := s.threads[t := Checking])
    case Expire(fd) => SetPhase(s, fd, Expired)
    case CheckEmpty(t) => if s.tasks == map[] then s.(threads := s.threads - {t}) else SetThread(s, t, Polling)
    case PollReturns(t, events) => SetThread(s, t, Serving(events))
    case Read(t) => AfterRead(s, t)
    case ReadResumes(t) =>
      SetThread(SetPhase(s, s.threads[t].fd, Consumed), t, Running(s.threads[t].fd, s.threads[t].rest))
    case CallTask(t) => AfterCall(s, t)
    case EraseTask(t) =>
      SetThread(s.(tasks := Erased(s.tasks, s.threads[t].fd)), t, Closing(s.threads[t].fd, s.threads[t].rest))
    case Close(t) => SetThread(s.(open := s.open - {s.threads[t].fd}), t, Serving(s.threads[t].rest))
    case ServedAll(t) => SetThread(s, t, Checking)
  }

  ghost predicate IsRun(states: seq<State>, steps: seq<Step>) {
    && |states| == |steps| + 1
    && Init(states[0])
    && forall i :: 0 <= i < |steps| ==> Enabled(states[i], steps[i]) && states[i + 1] == Apply(states[i], steps[i])
  }

  // ---- some thread is there ----

  ghost predicate StartUnderway(s: State) {
    exists p :: p in s.posters && s.posters[p].StartingThread?
  }

  /** A service thread runs or is about to be started. */
  ghost predicate Attended(s: State) {
    StartUnderway(s) || exists t :: t in s.threads
  }

  lemma StepKeepsAttended(s: State, a: Step)
    requires Enabled(s, a) && (s.tasks != map[] ==> Attended(s))
    ensures Apply(s, a).tasks != map[] ==> Attended(Apply(s, a))
  {
    var s' := Apply(s, a);
    if s.tasks != map[] {
      if StartUnderway(s) {
        var p :| p in s.posters && s.posters[p].StartingThread?;
        assert (p in s'.posters && s'.posters[p].StartingThread?) || (a.StartThread? && a.t in s'.threads);
      } else {
        var t :| t in s.threads;
        assert t in s'.threads;
      }
    } else if a.FirstInsert? {
      assert a.p in s'.posters && s'.posters[a.p].StartingThread?;
    }
  }

  /** Under any interleaving, while a task is stored a service thread runs or is about to be started. */
  lemma {:induction false} NeverUnattended(states: seq<State>, steps: seq<Step>, n: nat)
    requires IsRun(states, steps) && n < |states|
    ensures states[n].tasks != map[] ==> Attended(states[n])
  {
    if n > 0 {
      NeverUnattended(states, steps, n - 1);
      StepKeepsAttended(states[n - 1], steps[n - 1]);
    }
  }

  // ---- the invariant: who has each timer ----

  predicate Busy(x: Thread) {
    x.Running? || x.Ran? || x.Closing?
  }

  predicate Handles(x: Thread, fd: Fd) {
    Busy(x) && x.fd == fd
  }

  ghost predicate InHands(s: State, fd: Fd) {
    exists t :: t in s.threads && Handles(s.threads[t], fd)
  }

  /** Some thread has erased the entry of a timer and is about to close it. */
  ghost predicate BeingClosed(s: State, fd: Fd) {
    exists t :: t in s.threads && s.threads[t].Closing? && s.threads[t].fd == fd
  }

  /** Some poster has created a timer and not stored its task yet. */
  ghost predicate BeingStored(s: State, fd: Fd) {
    exists p :: p in s.posters && s.posters[p].Storing? && s.posters[p].fd == fd
  }

  /** An open timer that has been read is in the hands of a thread. */
  ghost predicate ReadInHands(s: State, fd: Fd) {
    fd in s.open && s.open[fd].phase == Consumed ==> InHands(s, fd)
  }

  /** An open timer has its task stored, or its poster is about to, or a thread is about to close it;
      a stored task has an open timer. */
  ghost predicate Accounted(s: State, fd: Fd) {
    && (fd in s.open ==> fd in s.tasks || BeingStored(s, fd) || BeingClosed(s, fd))
    && (fd in s.tasks ==> fd in s.open)
  }

  ghost predicate PosterInv(s: State, p: Tid) {
    p in s.posters && s.posters[p].Storing? ==>
      var fd := s.posters[p].fd;
      && fd in s.open && fd !in s.tasks
      && forall q :: q in s.posters && s.posters[q].Storing? && s.posters[q].fd == fd ==> q == p
  }

  ghost predicate ThreadInv(s: State, t: Tid) {
    t in s.threads && Busy(s.threads[t]) ==>
      var fd := s.threads[t].fd;
      && fd in s.open && s.open[fd].phase == Consumed
      && (s.threads[t].Ran? ==> fd in s.tasks)
      && (s.threads[t].Closing? ==> fd !in s.tasks && !BeingStored(s, fd))
      && forall w :: w in s.threads && Handles(s.threads[w], fd) ==> w == t
  }

  ghost predicate Inv(s: State) {
    && (forall fd :: ReadInHands(s, fd))
    && (forall fd :: Accounted(s, fd))
    && (forall p :: PosterInv(s, p))
    && (forall t :: ThreadInv(s, t))
  }

  lemma StepKeepsReadInHands(s: State, a: Step, fd: Fd)
    requires Enabled(s, a) && ReadInHands(s, fd)
    ensures ReadInHands(Apply(s, a), fd)
  {
    var s' := Apply(s, a);
    if fd in s.open && s.open[fd].phase == Consumed {
      var t :| t in s.threads && Handles(s.threads[t], fd);
      assert fd in s'.open ==> t in s'.threads && Handles(s'.threads[t], fd);
    } else if fd in s'.open && s'.open[fd].phase == Consumed {
      assert (a.Read? || a.ReadResumes?) && Handles(s'.threads[a.t], fd);
    }
  }

  /** The timer a thread is about to close has no stored task, and no other thread has it. */
  ghost predicate Disjoint(s: State, a: Step) {
    && (a.Close? && a.t in s.threads ==> ThreadInv(s, a.t))
    && (a.EraseTask? && a.t in s.threads ==> ThreadInv(s, a.t))
    && (a.FirstInsert? ==> PosterInv(s, a.p))
  }

  lemma StepKeepsAccounted(s: State, a: Step, fd: Fd)
    requires Enabled(s, a) && Accounted(s, fd) && Disjoint(s, a)
    ensures Accounted(Apply(s, a), fd)
  {
    var s' := Apply(s, a);
    if BeingStored(s, fd) {
      var p :| p in s.posters && s.posters[p].Storing? && s.posters[p].fd == fd;
      assert fd in s'.tasks || (p in s'.posters && s'.posters[p].Storing? && s'.posters[p].fd == fd);
    }
    if BeingClosed(s, fd) {
      var t :| t in s.threads && s.threads[t].Closing? && s.threads[t].fd == fd;
      assert fd !in s'.open || (t in s'.threads && s'.threads[t].Closing? && s'.threads[t].fd == fd);
    }
    match a
    case CreateTimer(p, x, _, _) => assert x == fd ==> s'.posters[p].Storing? && s'.posters[p].fd == fd;
    case EraseTask(t) => assert s.threads[t].fd == fd ==> s'.threads[t].Closing? && s'.threads[t].fd == fd;
    case _ =>
  }

  lemma StepKeepsPosters(s: State, a: Step, p: Tid)
    requires Enabled(s, a) && Inv(s)
    ensures PosterInv(Apply(s, a), p)
  {
    var s' := Apply(s, a);
    assert PosterInv(s, p);
    if p in s'.posters && s'.posters[p].Storing? {
      var fd := s'.posters[p].fd;
      assert Accounted(s, fd);
      if a.Close? { assert ThreadInv(s, a.t); }
      if a.FirstInsert? { assert PosterInv(s, a.p); }
      forall q | q in s'.posters && s'.posters[q].Storing? && s'.posters[q].fd == fd ensures q == p {
        assert PosterInv(s, q);
      }
    }
  }

  /** A thread gets busy with a timer that nobody has read before. */
  lemma WhereBusyComesFrom(s: State, a: Step, t: Tid)
    requires Enabled(s, a) && t in Apply(s, a).threads && Busy(Apply(s, a).threads[t])
    ensures var fd := Apply(s, a).threads[t].fd;
            || (t in s.threads && Handles(s.threads[t], fd))
            || ((a.Read? || a.ReadResumes?) && a.t == t && Readable(s, fd))
  {
  }

  /** A thread has its timer to itself. */
  lemma StepKeepsHands(s: State, a: Step, t: Tid, w: Tid)
    requires Enabled(s, a) && Inv(s) && t in Apply(s, a).threads && w in Apply(s, a).threads
    requires Busy(Apply(s, a).threads[t]) && Handles(Apply(s, a).threads[w], Apply(s, a).threads[t].fd)
    ensures w == t
  {
    assert ThreadInv(s, t) && ThreadInv(s, w);
    hide Inv, Apply, Enabled;
    WhereBusyComesFrom(s, a, t);
    WhereBusyComesFrom(s, a, w);
  }

  /** A timer that has been read stays so until the thread that has it closes it. */
  lemma ReadStaysRead(s: State, a: Step, fd: Fd)
    requires Enabled(s, a) && fd in s.open && (s.open[fd].phase == Consumed || a.Read? || a.ReadResumes?)
    requires a.Read? || a.ReadResumes? ==>
               s.open[fd].phase == Consumed || (Busy(Apply(s, a).threads[a.t]) && Apply(s, a).threads[a.t].fd == fd)
    requires a.Close? ==> s.threads[a.t].fd != fd
    ensures fd in Apply(s, a).open && Apply(s, a).open[fd].phase == Consumed
  {
  }

  /** A task stays stored until the thread that has called it erases it. */
  lemma StoredStaysStored(s: State, a: Step, t: Tid)
    requires Enabled(s, a) && t in Apply(s, a).threads && Apply(s, a).threads[t].Ran?
    requires t in s.threads && s.threads[t].Ran? ==> s.threads[t].fd in s.tasks
    requires a.EraseTask? ==> a.t == t || s.threads[a.t].fd != Apply(s, a).threads[t].fd
    ensures Apply(s, a).threads[t].fd in Apply(s, a).tasks
  {
  }

  lemma ActorsAreBusy(s: State, a: Step)
    requires Enabled(s, a) && (a.Close? || a.EraseTask?)
    ensures a.t in s.threads && Busy(s.threads[a.t])
    ensures var threads := Apply(s, a).threads;
            a.t in threads && !threads[a.t].Ran? && (a.Close? ==> !Busy(threads[a.t]))
  {
  }

  /** A busy thread's timer is open and has been read. */
  lemma StepKeepsBusyOpen(s: State, a: Step, t: Tid)
    requires Enabled(s, a) && Inv(s) && t in Apply(s, a).threads && Busy(Apply(s, a).threads[t])
    ensures var s' := Apply(s, a);
            var fd := s'.threads[t].fd;
            && fd in s'.open && s'.open[fd].phase == Consumed
            && (s'.threads[t].Ran? ==> fd in s'.tasks)
  {
    var s' := Apply(s, a);
    assert ThreadInv(s, t);
    assert a.Close? || a.EraseTask? ==> ThreadInv(s, a.t);
    hide Inv, Apply, Enabled;
    if a.Close? || a.EraseTask? {
      ActorsAreBusy(s, a);
    }
    WhereBusyComesFrom(s, a, t);
    ReadStaysRead(s, a, s'.threads[t].fd);
    if s'.threads[t].Ran? {
      StoredStaysStored(s, a, t);
    }
  }

  lemma StepKeepsClosing(s: State, a: Step, t: Tid)
    requires Enabled(s, a) && Inv(s) && t in Apply(s, a).threads && Apply(s, a).threads[t].Closing?
    ensures Apply(s, a).threads[t].fd !in Apply(s, a).tasks && !BeingStored(Apply(s, a), Apply(s, a).threads[t].fd)
  {
    var s' := Apply(s, a);
    var fd := s'.threads[t].fd;
    assert ThreadInv(s, t);
    forall p | p in s'.posters && s'.posters[p].Storing? ensures s'.posters[p].fd != fd {
      assert PosterInv(s, p);
    }
    hide Inv;
  }

  lemma StepKeepsThreads(s: State, a: Step, t: Tid)
    requires Enabled(s, a) && Inv(s)
    ensures ThreadInv(Apply(s, a), t)
  {
    hide Inv, Apply, Enabled, BeingStored;
    var s' := Apply(s, a);
    if t in s'.threads && Busy(s'.threads[t]) {
      StepKeepsBusyOpen(s, a, t);
      if s'.threads[t].Closing? {
        StepKeepsClosing(s, a, t);
      }
      forall w | w in s'.threads && Handles(s'.threads[w], s'.threads[t].fd) ensures w == t {
        StepKeepsHands(s, a, t, w);
      }
    }
  }

  lemma StepKeepsInv(s: State, a: Step)
    requires Inv(s) && Enabled(s, a)
    ensures Inv(Apply(s, a))
  {
    hide Apply, Enabled, ReadInHands, Accounted, PosterInv, ThreadInv;
    var s' := Apply(s, a);
    forall fd ensures ReadInHands(s', fd) { StepKeepsReadInHands(s, a, fd); }
    forall fd ensures Accounted(s', fd) { StepKeepsAccounted(s, a, fd); }
    forall p ensures PosterInv(s', p) { StepKeepsPosters(s, a, p); }
    forall t ensures ThreadInv(s', t) { StepKeepsThreads(s, a, t); }
  }

  lemma {:induction false} RunKeepsInv(states: seq<State>, steps: seq<Step>, n: nat)
    requires IsRun(states, steps) && n < |states|
    ensures Inv(states[n])
  {
    if n > 0 {
      RunKeepsInv(states, steps, n - 1);
      hide Inv, Apply, Enabled;
      StepKeepsInv(states[n - 1], steps[n - 1]);
    }
  }

  // ---- no stored timer is lost ----

  /** Some thread has read a timer and is about to call its task, or has called it and not erased it. */
  ghost predicate BeingServed(s: State, fd: Fd) {
    exists t :: t in s.threads && (s.threads[t].Running? || s.threads[t].Ran?) && s.threads[t].fd == fd
  }

  /** In every run a stored task has its open timer, which has not been read, or a thread that has read
      it is serving it: no stored task is left without anybody who can find it. */
  lemma StoredTasksHaveTheirTimers(states: seq<State>, steps: seq<Step>, n: nat, fd: Fd)
    requires IsRun(states, steps) && n < |states| && fd in states[n].tasks
    ensures var s := states[n];
            fd in s.open && (s.open[fd].phase == Consumed ==> BeingServed(s, fd))
  {
    RunKeepsInv(states, steps, n);
    var s := states[n];
    assert Accounted(s, fd) && ReadInHands(s, fd);
    if s.open[fd].phase == Consumed {
      var t :| t in s.threads && Handles(s.threads[t], fd);
      assert ThreadInv(s, t);
    }
  }

  /** A thread in a read whose timer has been closed, or where somebody else has taken what there was. */
  predicate Overtaken(s: State, x: Thread) {
    x.Blocked? && !(x.fd in s.open && s.open[x.fd].id == x.id && s.open[x.fd].phase != Consumed)
  }

  /** A thread in the read of a timer that was posted with delay 0. */
  predicate ReadsDisarmed(s: State, x: Thread) {
    x.Blocked? && x.fd in s.open && s.open[x.fd].id == x.id && s.open[x.fd].phase == Disarmed
  }

  /** A thread in a read that can never return. */
  predicate StuckForGood(s: State, x: Thread) {
    Overtaken(s, x) || ReadsDisarmed(s, x)
  }

  /** A service thread that can go on, now or when the timer it reads expires, or one about to be started. */
  ghost predicate Served(s: State) {
    StartUnderway(s) || exists t :: t in s.threads && !StuckForGood(s, s.threads[t])
  }

  ghost predicate SomeReadsDisarmed(s: State) {
    exists t :: t in s.threads && ReadsDisarmed(s, s.threads[t])
  }

  /** A service thread that has not been overtaken, or one about to be started. */
  ghost predicate NotAllOvertaken(s: State) {
    StartUnderway(s) || exists t :: t in s.threads && !Overtaken(s, s.threads[t])
  }

  /** A thread that is overtaken in its own read is so while another one has the timer. */
  lemma StuckReadHasAWitness(s: State, t: Tid) returns (w: Tid)
    requires Inv(s) && Enabled(s, Read(t)) && Overtaken(Apply(s, Read(t)), Apply(s, Read(t)).threads[t])
    ensures w != t && w in s.threads && Handles(s.threads[w], s.threads[t].events[0])
    ensures Apply(s, Read(t)).threads[w] == s.threads[w]
  {
    var fd := s.threads[t].events[0];
    assert ReadInHands(s, fd);
    w :| w in s.threads && Handles(s.threads[w], fd);
  }

  lemma StepKeepsServed(s: State, a: Step)
    requires Inv(s) && Enabled(s, a) && (s.tasks != map[] ==> NotAllOvertaken(s))
    ensures Apply(s, a).tasks != map[] ==> NotAllOvertaken(Apply(s, a))
  {
    var s' := Apply(s, a);
    if s.tasks == map[] {
      if a.FirstInsert? {
        assert a.p in s'.posters && s'.posters[a.p].StartingThread?;
      }
    } else if StartUnderway(s) {
      var p :| p in s.posters && s.posters[p].StartingThread?;
      assert (p in s'.posters && s'.posters[p].StartingThread?) || (a.StartThread? && s'.threads[a.t].Checking?);
    } else if a.Read? && Overtaken(s', s'.threads[a.t]) {
      var w := StuckReadHasAWitness(s, a.t);
      assert !Overtaken(s', s'.threads[w]);
    } else {
      StepLeavesOne(s, a);
    }
  }

  /** Whoever takes or closes a timer is not overtaken itself. */
  lemma StepLeavesOne(s: State, a: Step)
    requires Enabled(s, a) && (exists t :: t in s.threads && !Overtaken(s, s.threads[t]))
    requires a.Read? ==> !Overtaken(Apply(s, a), Apply(s, a).threads[a.t])
    requires s.tasks != map[]
    ensures NotAllOvertaken(Apply(s, a))
  {
    var s' := Apply(s, a);
    var t :| t in s.threads && !Overtaken(s, s.threads[t]);
    if a.Read? || a.ReadResumes? || a.Close? {
      assert !Overtaken(s', s'.threads[a.t]);
    } else {
      assert t in s'.threads && !Overtaken(s', s'.threads[t]);
    }
  }

  lemma {:induction false} NeverAllOvertaken(states: seq<State>, steps: seq<Step>, n: nat)
    requires IsRun(states, steps) && n < |states|
    ensures states[n].tasks != map[] ==> NotAllOvertaken(states[n])
  {
    if n > 0 {
      NeverAllOvertaken(states, steps, n - 1);
      RunKeepsInv(states, steps, n - 1);
      hide Inv, Apply, Enabled, NotAllOvertaken;
      StepKeepsServed(states[n - 1], steps[n - 1]);
    }
  }

  /** Under any interleaving, descriptor numbers reused or not, while a task is stored all service
      threads are stuck for good only if one of them reads a timer that was posted with delay 0. */
  lemma NeverAllStuckForGood(states: seq<State>, steps: seq<Step>, n: nat)
    requires IsRun(states, steps) && n < |states|
    ensures states[n].tasks != map[] ==> Served(states[n]) || SomeReadsDisarmed(states[n])
  {
    NeverAllOvertaken(states, steps, n);
    var s := states[n];
    if s.tasks != map[] && !StartUnderway(s) {
      var t :| t in s.threads && !Overtaken(s, s.threads[t]);
      assert !StuckForGood(s, s.threads[t]) || ReadsDisarmed(s, s.threads[t]);
    }
  }

  ghost predicate PositiveDelays(steps: seq<Step>, n: nat) {
    forall i :: 0 <= i < n <= |steps| && steps[i].CreateTimer? ==> steps[i].delay > 0
  }

  lemma {:induction false} NothingDisarmed(states: seq<State>, steps: seq<Step>, n: nat, fd: Fd)
    requires IsRun(states, steps) && n < |states| && PositiveDelays(steps, n)
    ensures fd in states[n].open ==> states[n].open[fd].phase != Disarmed
  {
    if n > 0 {
      NothingDisarmed(states, steps, n - 1, fd);
    }
  }

  /** If every timer so far was posted with a positive delay, some thread can go on while a task is
      stored. */
  lemma PositiveDelaysAreServed(states: seq<State>, steps: seq<Step>, n: nat)
    requires IsRun(states, steps) && n < |states| && PositiveDelays(steps, n)
    ensures states[n].tasks != map[] ==> Served(states[n])
  {
    NeverAllStuckForGood(states, steps, n);
    var s := states[n];
    if SomeReadsDisarmed(s) {
      var t :| t in s.threads && ReadsDisarmed(s, s.threads[t]);
      NothingDisarmed(states, steps, n, s.threads[t].fd);
    }
  }

  // ---- when a read waits for a timer that has yet to expire ----

  /** The descriptors a thread has still to read. */
  function ToRead(x: Thread): seq<Fd> {
    match x
    case Checking => []
    case Polling => []
    case Serving(events) => events
    case Blocked(_, _, rest) => rest
    case Running(_, rest) => rest
    case Ran(_, rest) => rest
    case Closing(_, rest) => rest
  }

  /** What a thread has still to read and has not expired is a timer created at or after `since`. */
  ghost predicate ReadsNewer(s: State, t: Tid, since: nat) {
    && since <= s.next
    && (t in s.threads ==>
          forall i :: 0 <= i < |ToRead(s.threads[t])| ==> ExpiredOrNewer(s, ToRead(s.threads[t])[i], since))
  }

  predicate Unexpired(phase: Phase) {
    phase == Armed || phase == Disarmed
  }

  predicate ExpiredOrNewer(s: State, fd: Fd, since: nat) {
    fd in s.open && Unexpired(s.open[fd].phase) ==> s.open[fd].id >= since
  }

  lemma StepKeepsNewer(s: State, a: Step, fd: Fd, since: nat)
    requires Enabled(s, a) && since <= s.next && ExpiredOrNewer(s, fd, since)
    ensures since <= Apply(s, a).next && ExpiredOrNewer(Apply(s, a), fd, since)
  {
  }

  /** Only a poll gives a thread something more to read. */
  lemma ToReadShrinks(s: State, a: Step, t: Tid)
    requires Enabled(s, a) && t in Apply(s, a).threads && !(a.PollReturns? && a.t == t)
    ensures var rest := ToRead(Apply(s, a).threads[t]);
            var all := if t in s.threads then ToRead(s.threads[t]) else [];
            rest == [] || rest == all || (all != [] && rest == all[1..])
  {
  }

  lemma StepKeepsReadsNewer(s: State, a: Step, t: Tid, since: nat)
    requires Enabled(s, a) && ReadsNewer(s, t, since) && !(a.PollReturns? && a.t == t)
    ensures ReadsNewer(Apply(s, a), t, since)
  {
    hide Apply, Enabled, ToRead, ExpiredOrNewer;
    var s' := Apply(s, a);
    StepKeepsNextId(s, a);
    if t in s'.threads {
      ToReadShrinks(s, a, t);
      forall i | 0 <= i < |ToRead(s'.threads[t])| ensures ExpiredOrNewer(s', ToRead(s'.threads[t])[i], since) {
        StepKeepsNewer(s, a, ToRead(s'.threads[t])[i], since);
      }
    }
  }

  lemma StepKeepsNextId(s: State, a: Step)
    requires Enabled(s, a)
    ensures s.next <= Apply(s, a).next
  {
  }

  /** Descriptor numbers of a poll have expired, so what the thread has yet to read is not armed. */
  lemma PollReadsExpired(s: State, t: Tid, events: seq<Fd>)
    requires Enabled(s, PollReturns(t, events))
    ensures ReadsNewer(Apply(s, PollReturns(t, events)), t, s.next)
  {
  }

  /** Step `l` is the last poll of a thread before step `n`. */
  ghost predicate LastPoll(steps: seq<Step>, l: nat, n: nat, t: Tid) {
    && l < n <= |steps| && steps[l].PollReturns? && steps[l].t == t
    && forall i :: l < i < n ==> !(steps[i].PollReturns? && steps[i].t == t)
  }

  lemma {:induction false} RunReadsNewer(states: seq<State>, steps: seq<Step>, l: nat, n: nat, t: Tid)
    requires IsRun(states, steps) && LastPoll(steps, l, n, t)
    ensures ReadsNewer(states[n], t, states[l].next)
  {
    if n == l + 1 {
      PollReadsExpired(states[l], t, steps[l].events);
    } else {
      RunReadsNewer(states, steps, l, n - 1, t);
      hide Apply, Enabled, ReadsNewer;
      StepKeepsReadsNewer(states[n - 1], steps[n - 1], t, states[l].next);
    }
  }

  lemma OnlyPollsServe(s: State, a: Step, t: Tid)
    requires Enabled(s, a) && t in Apply(s, a).threads && !(a.PollReturns? && a.t == t)
    requires !Apply(s, a).threads[t].Checking? && !Apply(s, a).threads[t].Polling?
    ensures t in s.threads && !s.threads[t].Checking? && !s.threads[t].Polling?
  {
  }

  /** A thread that serves has polled. */
  lemma {:induction false} ServingFollowsAPoll(states: seq<State>, steps: seq<Step>, n: nat, t: Tid) returns (l: nat)
    requires IsRun(states, steps) && n < |states| && t in states[n].threads
    requires !states[n].threads[t].Checking? && !states[n].threads[t].Polling?
    ensures LastPoll(steps, l, n, t)
  {
    if steps[n - 1].PollReturns? && steps[n - 1].t == t {
      l := n - 1;
    } else {
      OnlyPollsServe(states[n - 1], steps[n - 1], t);
      l := ServingFollowsAPoll(states, steps, n - 1, t);
    }
  }

  /**
   A read makes a thread wait for a timer that has not expired exactly when the number it read was
   given, after the poll that returned it, to a new timer that has not expired.
   */
  lemma WaitsIffReused(states: seq<State>, steps: seq<Step>, n: nat, t: Tid) returns (l: nat)
    requires IsRun(states, steps) && n < |steps| && steps[n] == Read(t)
    ensures LastPoll(steps, l, n, t)
    ensures t in states[n].threads && states[n].threads[t].Serving? && states[n].threads[t].events != []
    ensures t in states[n + 1].threads
    ensures var s, s', fd := states[n], states[n + 1], states[n].threads[t].events[0];
            s'.threads[t].Blocked? && !Overtaken(s', s'.threads[t]) <==>
            fd in s.open && s.open[fd].id >= states[l].next && Unexpired(s.open[fd].phase)
  {
    assert Enabled(states[n], steps[n]) && states[n + 1] == Apply(states[n], steps[n]);
    l := ServingFollowsAPoll(states, steps, n, t);
    RunReadsNewer(states, steps, l, n, t);
    assert ToRead(states[n].threads[t])[0] == states[n].threads[t].events[0];
  }

  // ---- the call of an empty function ----

  /** A thread about to call the task of a timer that its poster has not stored yet. */
  ghost predicate TooEarly(s: State, a: Step) {
    a.CallTask? && a.t in s.threads && s.threads[a.t].Running? && BeingStored(s, s.threads[a.t].fd)
  }

  /** A call fails exactly when the poster has armed the timer and not stored its task. */
  lemma CallFailsIffTooEarly(s: State, a: Step)
    requires Inv(s) && Enabled(s, a)
    ensures Apply(s, a).failed <==> TooEarly(s, a)
  {
    if a.CallTask? {
      var fd := s.threads[a.t].fd;
      assert ThreadInv(s, a.t) && Accounted(s, fd);
      if BeingStored(s, fd) {
        var p :| p in s.posters && s.posters[p].Storing? && s.posters[p].fd == fd;
        assert PosterInv(s, p);
      }
    }
  }

  /** The process goes on and every stored task has its timer or is being served. */
  ghost predicate Dependable(s: State) {
    && !s.failed
    && (s.tasks != map[] ==> Served(s) || SomeReadsDisarmed(s))
    && forall fd :: fd in s.tasks ==> fd in s.open && (s.open[fd].phase == Consumed ==> BeingServed(s, fd))
  }

  /** The service is dependable exactly as long as no task has been called before its poster stored it. */
  lemma {:induction false} DependableIff(states: seq<State>, steps: seq<Step>, n: nat)
    requires IsRun(states, steps) && n < |states|
    ensures Dependable(states[n]) <==> forall i :: 0 <= i < n ==> !TooEarly(states[i], steps[i])
  {
    NeverAllStuckForGood(states, steps, n);
    forall fd | fd in states[n].tasks
      ensures fd in states[n].open && (states[n].open[fd].phase == Consumed ==> BeingServed(states[n], fd))
    {
      StoredTasksHaveTheirTimers(states, steps, n, fd);
    }
    FailedIff(states, steps, n);
  }

  lemma {:induction false} FailedIff(states: seq<State>, steps: seq<Step>, n: nat)
    requires IsRun(states, steps) && n < |states|
    ensures !states[n].failed <==> forall i :: 0 <= i < n ==> !TooEarly(states[i], steps[i])
  {
    if n > 0 {
      FailedIff(states, steps, n - 1);
      RunKeepsInv(states, steps, n - 1);
      CallFailsIffTooEarly(states[n - 1], steps[n - 1]);
      assert !states[n - 1].failed;
      hide Inv, Apply, TooEarly;
    }
  }
}
