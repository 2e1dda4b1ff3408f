/**
 What becomes of the posted tasks of the timer service: in every run each of them waits with its timer
 or has been called, once, and what is called is what was posted. Then the steps that serve one timer.
 */
module TimerCalls {
  import opened TimerService

  /** The tasks posted so far, in the order of their timers. */
  function Posts(steps: seq<Step>): seq<Task> {
    if steps == [] then []
    else
      var a := steps[|steps| - 1];
      Posts(steps[..|steps| - 1]) + if a.CreateTimer? then [a.task] else []
  }

  // ---- the invariant ----

  /** An open timer has a number of its own, and its stored task is the one posted with it. */
  ghost predicate OpenOk(s: State, posts: seq<Task>, fd: Fd) {
    fd in s.open ==>
      && s.open[fd].id < |posts|
      && (fd in s.tasks ==> s.tasks[fd] == posts[s.open[fd].id])
      && forall g :: g in s.open && s.open[g].id == s.open[fd].id ==> g == fd
  }

  ghost predicate PosterOk(s: State, posts: seq<Task>, p: Tid) {
    p in s.posters && s.posters[p].Storing? && s.posters[p].fd in s.open ==>
      s.open[s.posters[p].fd].id < |posts| && s.posters[p].task == posts[s.open[s.posters[p].fd].id]
  }

  ghost predicate WasCalled(s: State, x: nat) {
    exists i :: 0 <= i < |s.called| && s.called[i].0 == x
  }

  /** A thread that has called a task has it on record. */
  ghost predicate CallRecorded(s: State, t: Tid) {
    t in s.threads && (s.threads[t].Ran? || s.threads[t].Closing?) && s.threads[t].fd in s.open ==>
      WasCalled(s, s.open[s.threads[t].fd].id)
  }

  /** A thread has called the task of a timer and not closed it yet. */
  ghost predicate CalledBySome(s: State, fd: Fd) {
    exists t :: t in s.threads && (s.threads[t].Ran? || s.threads[t].Closing?) && s.threads[t].fd == fd
  }

  /** A timer whose task was called is in the hands of the thread that did, as long as it is open. */
  ghost predicate CalledInHands(s: State, fd: Fd) {
    fd in s.open && WasCalled(s, s.open[fd].id) ==> CalledBySome(s, fd)
  }

  /** What was called is what was posted, and no timer's task was called twice. */
  ghost predicate RecordOk(s: State, posts: seq<Task>) {
    && (forall i :: 0 <= i < |s.called| ==> s.called[i].0 < |posts| && s.called[i].1 == posts[s.called[i].0])
    && (forall i, j :: 0 <= i < j < |s.called| ==> s.called[i].0 != s.called[j].0)
  }

  /** A timer with this id is open, and its task is stored or about to be. */
  ghost predicate Waits(s: State, x: nat) {
    exists fd :: fd in s.open && s.open[fd].id == x && (fd in s.tasks || BeingStored(s, fd))
  }

  ghost predicate CallInv(s: State, posts: seq<Task>) {
    && Inv(s) && s.next == |posts|
    && (forall fd :: OpenOk(s, posts, fd))
    && (forall p :: PosterOk(s, posts, p))
    && (forall t :: CallRecorded(s, t))
    && (forall fd :: CalledInHands(s, fd))
    && RecordOk(s, posts)
    && (forall x: nat :: x < |posts| ==> Waits(s, x) || WasCalled(s, x))
  }

  function PostsAfter(posts: seq<Task>, a: Step): seq<Task> {
    posts + if a.CreateTimer? then [a.task] else []
  }

  // ---- one step ----

  /** How a step changes one open timer. */
  lemma TimerStep(s: State, a: Step, fd: Fd)
    requires Enabled(s, a) && fd in Apply(s, a).open
    ensures var s' := Apply(s, a);
            if fd in s.open then s'.open[fd].id == s.open[fd].id
            else a.CreateTimer? && a.fd == fd && s'.open[fd].id == s.next
  {
  }

  lemma NextStep(s: State, a: Step)
    requires Enabled(s, a)
    ensures Apply(s, a).next == s.next + if a.CreateTimer? then 1 else 0
  {
  }

  /** How a step changes the stored task of one timer. */
  lemma TaskStep(s: State, a: Step, fd: Fd)
    requires Enabled(s, a)
    ensures var s' := Apply(s, a);
            && (a.FirstInsert? && s.posters[a.p].fd == fd ==> fd in s'.tasks && s'.tasks[fd] == s.posters[a.p].task)
            && (a.EraseTask? && s.threads[a.t].fd == fd ==> fd !in s'.tasks)
            && (!(a.FirstInsert? && s.posters[a.p].fd == fd) && !(a.EraseTask? && s.threads[a.t].fd == fd) ==>
                  (fd in s'.tasks <==> fd in s.tasks) && (fd in s.tasks ==> s'.tasks[fd] == s.tasks[fd]))
  {
  }

  /** Only the call of a stored task is recorded. */
  lemma CalledStep(s: State, a: Step)
    requires Enabled(s, a)
    ensures var s' := Apply(s, a);
            if a.CallTask? && s.threads[a.t].fd in s.tasks
            then s'.called == s.called + [(IdOf(s, s.threads[a.t].fd), s.tasks[s.threads[a.t].fd])]
            else s'.called == s.called
  {
  }

  lemma CalledStays(s: State, a: Step, x: nat)
    requires Enabled(s, a) && WasCalled(s, x)
    ensures WasCalled(Apply(s, a), x)
  {
    CalledStep(s, a);
    hide Apply, Enabled;
    var i :| 0 <= i < |s.called| && s.called[i].0 == x;
    assert Apply(s, a).called[i] == s.called[i];
  }

  lemma PosterStep(s: State, a: Step, p: Tid)
    requires Enabled(s, a) && p in Apply(s, a).posters && Apply(s, a).posters[p].Storing?
    ensures if p in s.posters && s.posters[p].Storing? then Apply(s, a).posters[p] == s.posters[p]
            else a.CreateTimer? && a.p == p && Apply(s, a).posters[p] == Storing(a.fd, a.task)
  {
  }

  lemma StepKeepsOpenOk(s: State, a: Step, posts: seq<Task>, fd: Fd)
    requires CallInv(s, posts) && Enabled(s, a)
    ensures OpenOk(Apply(s, a), PostsAfter(posts, a), fd)
  {
    var s' := Apply(s, a);
    if fd in s'.open {
      TimerStep(s, a, fd);
      TaskStep(s, a, fd);
      assert OpenOk(s, posts, fd) && Accounted(s, fd);
      if a.FirstInsert? {
        assert PosterOk(s, posts, a.p) && PosterInv(s, a.p);
      }
      forall g | g in s'.open && s'.open[g].id == s'.open[fd].id ensures g == fd {
        TimerStep(s, a, g);
        assert OpenOk(s, posts, g);
      }
    }
    hide CallInv, Apply, Enabled;
  }

  lemma StepKeepsPosterOk(s: State, a: Step, posts: seq<Task>, p: Tid)
    requires CallInv(s, posts) && Enabled(s, a)
    ensures PosterOk(Apply(s, a), PostsAfter(posts, a), p)
  {
    var s' := Apply(s, a);
    if p in s'.posters && s'.posters[p].Storing? && s'.posters[p].fd in s'.open {
      PosterStep(s, a, p);
      TimerStep(s, a, s'.posters[p].fd);
      assert PosterOk(s, posts, p) && PosterInv(s, p);
    }
    hide CallInv, Apply, Enabled;
  }

  /** A thread has called its task before, or does so with this step. */
  lemma ThreadStep(s: State, a: Step, t: Tid)
    requires Enabled(s, a) && t in Apply(s, a).threads
    requires Apply(s, a).threads[t].Ran? || Apply(s, a).threads[t].Closing?
    ensures var fd := Apply(s, a).threads[t].fd;
            && t in s.threads
            && (|| ((s.threads[t].Ran? || s.threads[t].Closing?) && s.threads[t].fd == fd)
                || (a == CallTask(t) && s.threads[t].Running? && s.threads[t].fd == fd && fd in s.tasks))
  {
  }

  /** A thread that has called the task of a timer has it until it closes it. */
  lemma HandsStep(s: State, a: Step, t: Tid)
    requires Enabled(s, a) && t in s.threads && (s.threads[t].Ran? || s.threads[t].Closing?)
    ensures var s' := Apply(s, a);
            || (a == Close(t) && s.threads[t].fd !in s'.open)
            || (&& t in s'.threads && (s'.threads[t].Ran? || s'.threads[t].Closing?)
                && s'.threads[t].fd == s.threads[t].fd)
  {
  }

  lemma StepKeepsRecorded(s: State, a: Step, posts: seq<Task>, t: Tid)
    requires CallInv(s, posts) && Enabled(s, a)
    ensures CallRecorded(Apply(s, a), t)
  {
    assert CallRecorded(s, t) && ThreadInv(s, t);
    hide CallInv;
    var s' := Apply(s, a);
    if t in s'.threads && (s'.threads[t].Ran? || s'.threads[t].Closing?) && s'.threads[t].fd in s'.open {
      var fd := s'.threads[t].fd;
      ThreadStep(s, a, t);
      TimerStep(s, a, fd);
      CalledStep(s, a);
      if WasCalled(s, s.open[fd].id) {
        CalledStays(s, a, s.open[fd].id);
      }
      hide Apply, Enabled;
      if !WasCalled(s, s.open[fd].id) {
        assert s'.called[|s.called|].0 == s.open[fd].id;
      }
    }
  }

  /** The only new entry of the record is that of the call. */
  lemma CalledNow(s: State, a: Step, x: nat)
    requires Enabled(s, a) && WasCalled(Apply(s, a), x) && !WasCalled(s, x)
    ensures a.CallTask? && s.threads[a.t].fd in s.tasks && IdOf(s, s.threads[a.t].fd) == x
  {
    CalledStep(s, a);
    hide Apply, Enabled;
    var s' := Apply(s, a);
    var i :| 0 <= i < |s'.called| && s'.called[i].0 == x;
    assert i < |s.called| ==> s.called[i] == s'.called[i];
  }

  lemma StepKeepsCalledInHands(s: State, a: Step, posts: seq<Task>, fd: Fd)
    requires CallInv(s, posts) && Enabled(s, a)
    ensures CalledInHands(Apply(s, a), fd)
  {
    var s' := Apply(s, a);
    if fd in s'.open && WasCalled(s', s'.open[fd].id) {
      TimerStep(s, a, fd);
      var x := s'.open[fd].id;
      if WasCalled(s, x) {
        CalledIsOld(s, posts, x);
        assert fd in s.open && CalledInHands(s, fd);
        var t :| t in s.threads && (s.threads[t].Ran? || s.threads[t].Closing?) && s.threads[t].fd == fd;
        HandsStep(s, a, t);
      } else {
        CalledNow(s, a, x);
        CallerHasIt(s, a.t, posts, fd, x);
      }
    }
    hide CallInv, Apply, Enabled;
  }

  lemma CalledIsOld(s: State, posts: seq<Task>, x: nat)
    requires CallInv(s, posts) && WasCalled(s, x)
    ensures x < s.next
  {
  }

  /** The thread that calls a task ends up with the timer in its hands, and it is no other timer. */
  lemma CallerHasIt(s: State, t: Tid, posts: seq<Task>, fd: Fd, x: nat)
    requires CallInv(s, posts) && Enabled(s, CallTask(t)) && s.threads[t].fd in s.tasks
    requires IdOf(s, s.threads[t].fd) == x && fd in Apply(s, CallTask(t)).open
    requires Apply(s, CallTask(t)).open[fd].id == x
    ensures CalledBySome(Apply(s, CallTask(t)), fd)
  {
    assert ThreadInv(s, t) && OpenOk(s, posts, fd) && OpenOk(s, posts, s.threads[t].fd);
    hide CallInv;
    assert s.threads[t].fd == fd;
    assert Apply(s, CallTask(t)).threads[t].Ran?;
  }

  lemma StepKeepsRecord(s: State, a: Step, posts: seq<Task>)
    requires CallInv(s, posts) && Enabled(s, a)
    ensures RecordOk(Apply(s, a), PostsAfter(posts, a))
  {
    CalledStep(s, a);
    if a.CallTask? && s.threads[a.t].fd in s.tasks {
      var fd := s.threads[a.t].fd;
      assert ThreadInv(s, a.t) && OpenOk(s, posts, fd) && CalledInHands(s, fd);
      forall w | w in s.threads && (s.threads[w].Ran? || s.threads[w].Closing?) ensures s.threads[w].fd != fd {
        assert Handles(s.threads[w], fd) <==> s.threads[w].fd == fd;
      }
      assert !CalledBySome(s, fd);
      assert !WasCalled(s, s.open[fd].id);
    }
    assert RecordOk(s, posts);
    hide CallInv, Apply, Enabled;
  }

  lemma WaitingStep(s: State, a: Step, posts: seq<Task>, fd: Fd)
    requires CallInv(s, posts) && Enabled(s, a) && fd in s.open && (fd in s.tasks || BeingStored(s, fd))
    requires !(a.EraseTask? && s.threads[a.t].fd == fd)
    ensures var s' := Apply(s, a);
            fd in s'.open && s'.open[fd].id == s.open[fd].id && (fd in s'.tasks || BeingStored(s', fd))
  {
    if a.Close? {
      assert ThreadInv(s, a.t);
    }
    hide CallInv;
    var s' := Apply(s, a);
    if BeingStored(s, fd) {
      var p :| p in s.posters && s.posters[p].Storing? && s.posters[p].fd == fd;
      assert fd in s'.tasks || (p in s'.posters && s'.posters[p].Storing? && s'.posters[p].fd == fd);
    }
  }

  lemma StepLosesNothing(s: State, a: Step, posts: seq<Task>, x: nat)
    requires CallInv(s, posts) && Enabled(s, a) && x < |PostsAfter(posts, a)|
    ensures Waits(Apply(s, a), x) || WasCalled(Apply(s, a), x)
  {
    var s' := Apply(s, a);
    if x == |posts| {
      assert s'.open[a.fd].id == x && s'.posters[a.p] == Storing(a.fd, a.task);
      assert BeingStored(s', a.fd);
    } else if WasCalled(s, x) {
      CalledStays(s, a, x);
    } else {
      assert Waits(s, x);
      assert a.EraseTask? ==> CallRecorded(s, a.t);
      var fd :| fd in s.open && s.open[fd].id == x && (fd in s.tasks || BeingStored(s, fd));
      if !(a.EraseTask? && s.threads[a.t].fd == fd) {
        WaitingStep(s, a, posts, fd);
      }
    }
    hide CallInv, Apply, Enabled;
  }

  lemma StepKeepsCallInv(s: State, a: Step, posts: seq<Task>)
    requires CallInv(s, posts) && Enabled(s, a)
    ensures CallInv(Apply(s, a), PostsAfter(posts, a))
  {
    hide Inv, Apply, Enabled, OpenOk, PosterOk, CallRecorded, CalledInHands, RecordOk, Waits, WasCalled;
    var s', posts' := Apply(s, a), PostsAfter(posts, a);
    StepKeepsInv(s, a);
    NextStep(s, a);
    StepKeepsRecord(s, a, posts);
    forall fd ensures OpenOk(s', posts', fd) { StepKeepsOpenOk(s, a, posts, fd); }
    forall p ensures PosterOk(s', posts', p) { StepKeepsPosterOk(s, a, posts, p); }
    forall t ensures CallRecorded(s', t) { StepKeepsRecorded(s, a, posts, t); }
    forall fd ensures CalledInHands(s', fd) { StepKeepsCalledInHands(s, a, posts, fd); }
    forall x: nat | x < |posts'| ensures Waits(s', x) || WasCalled(s', x) { StepLosesNothing(s, a, posts, x); }
  }

  lemma {:induction false} RunKeepsCallInv(states: seq<State>, steps: seq<Step>, n: nat)
    requires IsRun(states, steps) && n < |states|
    ensures CallInv(states[n], Posts(steps[..n]))
  {
    if n == 0 {
      assert Inv(states[0]);
    } else {
      RunKeepsCallInv(states, steps, n - 1);
      assert steps[..n][..n - 1] == steps[..n - 1];
      hide CallInv, Apply, Enabled;
      StepKeepsCallInv(states[n - 1], steps[n - 1], Posts(steps[..n - 1]));
    }
  }

  // ---- results ----

  /** What is called is what was posted with that timer, and no timer's task is called twice. */
  lemma CalledOnceAsPosted(states: seq<State>, steps: seq<Step>, n: nat, i: nat, j: nat)
    requires IsRun(states, steps) && n < |states| && i < |states[n].called| && j < |states[n].called|
    ensures var called, posts := states[n].called, Posts(steps[..n]);
            && called[i].0 < |posts| && called[i].1 == posts[called[i].0]
            && (called[i].0 == called[j].0 ==> i == j)
  {
    RunKeepsCallInv(states, steps, n);
    assert RecordOk(states[n], Posts(steps[..n]));
    hide CallInv;
    var called := states[n].called;
    assert forall a, b :: 0 <= a < b < |called| ==> called[a].0 != called[b].0;
  }

  /** No posted task is lost: until its task has been called its timer is open, with the task stored or
      its poster about to store it. */
  lemma NoPostIsLost(states: seq<State>, steps: seq<Step>, n: nat, x: nat)
    requires IsRun(states, steps) && n < |states| && x < |Posts(steps[..n])|
    ensures Waits(states[n], x) || WasCalled(states[n], x)
    ensures states[n].next == |Posts(steps[..n])|
  {
    RunKeepsCallInv(states, steps, n);
  }

  // ---- serving one timer ----

  /** Posting in one go: the timer is armed and its task stored, and when the map was empty a service
      thread can be started. */
  lemma PostInOneGo(s: State, p: Tid, fd: Fd, task: Task, delay: nat, t: Tid)
    requires !s.failed && p !in s.posters && fd !in s.open && t !in s.threads && delay > 0
    ensures Enabled(s, CreateTimer(p, fd, task, delay))
    ensures var s1 := Apply(s, CreateTimer(p, fd, task, delay));
            && fd in s1.open && s1.open[fd] == Timer(s.next, Armed) && s1.tasks == s.tasks
            && Enabled(s1, FirstInsert(p)) && Enabled(s1, Expire(fd))
            && var s2 := Apply(s1, FirstInsert(p));
               && s2.tasks == s.tasks[fd := task] && s2.threads == s.threads && s2.open == s1.open
               && (if s.tasks == map[]
                   then && Enabled(s2, StartThread(p, t))
                        && Apply(s2, StartThread(p, t)).threads == s.threads[t := Checking]
                        && p !in Apply(s2, StartThread(p, t)).posters
                   else p !in s2.posters)
  {
  }

  /** A thread checks whether a task is stored, and polls or ends; a poll may return any expired timers,
      and after serving them the thread checks again. */
  lemma ThreadGoesRound(s: State, t: Tid, events: seq<Fd>)
    requires !s.failed && t in s.threads
    ensures s.threads[t].Checking? ==>
              && Enabled(s, CheckEmpty(t))
              && (if s.tasks == map[] then t !in Apply(s, CheckEmpty(t)).threads
                  else Apply(s, CheckEmpty(t)).threads == s.threads[t := Polling])
    ensures s.threads[t].Polling? && (forall i :: 0 <= i < |events| ==> Readable(s, events[i])) ==>
              && Enabled(s, PollReturns(t, events))
              && Apply(s, PollReturns(t, events)).threads == s.threads[t := Serving(events)]
    ensures s.threads[t] == Serving([]) ==>
              Enabled(s, ServedAll(t)) && Apply(s, ServedAll(t)).threads == s.threads[t := Checking]
  {
  }

  /** An armed timer expires, and then the thread that reads it first takes it. */
  lemma ReadTakesExpired(s: State, t: Tid)
    requires !s.failed && t in s.threads && s.threads[t].Serving? && s.threads[t].events != []
    ensures Enabled(s, Read(t))
    ensures var s', fd, rest := Apply(s, Read(t)), s.threads[t].events[0], s.threads[t].events[1..];
            && t in s'.threads && s'.tasks == s.tasks && s'.called == s.called
            && (Readable(s, fd) ==> && s'.threads == s.threads[t := Running(fd, rest)]
                                    && s'.open == s.open[fd := Timer(s.open[fd].id, Consumed)])
            && (fd !in s.open ==> s'.threads == s.threads[t := Serving(rest)] && s'.open == s.open)
  {
  }

  /** A thread that has read a timer calls its stored task, erases it and closes the timer. */
  lemma ServeInOneGo(s: State, t: Tid)
    requires !s.failed && t in s.threads && s.threads[t].Running?
    requires s.threads[t].fd in s.tasks && s.threads[t].fd in s.open
    ensures Enabled(s, CallTask(t))
    ensures var s1, fd := Apply(s, CallTask(t)), s.threads[t].fd;
            && s1.called == s.called + [(s.open[fd].id, s.tasks[fd])] && Enabled(s1, EraseTask(t))
            && var s2 := Apply(s1, EraseTask(t));
               && s2.tasks == s.tasks - {fd} && Enabled(s2, Close(t))
               && var s3 := Apply(s2, Close(t));
                  && s3.tasks == s.tasks - {fd} && s3.open == s.open - {fd} && s3.called == s1.called && !s3.failed
                  && t in s3.threads && s3.threads[t] == Serving(s.threads[t].rest)
  {
  }
}
