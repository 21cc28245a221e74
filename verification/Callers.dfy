/** The critical sections of a run on the heap: each step of Runs as a caller makes it,
    with the operations of the scheduler and the stores of the state bits. */
module Callers {
  import opened Tasks
  import opened SchedulerSpec
  import opened SchedulerCore
  import opened Runs
  import WellFormedness

  /** What consistency says about the records themselves: the guards of the operations are
      right about every task, and no task of the timed queue is ready. */
  lemma Guards(s: Scheduler)
    requires s.Linked() && Consistent(s.Abs())
    ensures PrioritiesBounded(s.Abs()) && s.linux in s.tasks && s.linux.policy >= 0
    ensures RealTasks(s.Abs()) == s.tasks - {s.linux} && s.Abs().tcb.Keys == s.tasks
    ensures forall t :: t in s.tasks && t != s.linux ==>
              && (t in s.ready <==> t.state == RT_SCHED_READY)
              && (t in s.timed <==> Delayed(t.state))
              && t.resumeTime <= s.linux.resumeTime
    ensures forall t :: t in s.timed ==> t !in s.ready
  {
    hide WellFormed, Delayed, s.Linked;
    s.Members();
    s.TcbAt(s.linux);
    DelayedNotReady(s.Abs());
    forall t | t in s.tasks && t != s.linux
      ensures t in s.ready <==> t.state == RT_SCHED_READY
      ensures t in s.timed <==> Delayed(t.state)
      ensures t.resumeTime <= s.linux.resumeTime
    {
      s.TcbAt(t);
      assert t in RealTasks(s.Abs());
    }
  }

  method SuspendTask(s: Scheduler, t: Task)
    requires s.Linked() && Consistent(s.Abs()) && Legal(s.Abs(), Suspend(t))
    modifies s`ready, s.tasks`rnext, s.tasks`rprev, s.tasks`state
    ensures s.Linked() && s.Abs() == Apply(old(s.Abs()), Suspend(t))
  {
    hide WellFormed, Consistent, Delayed, WithBits;
    Guards(s);
    s.TcbAt(t);
    s.RemReadyTask(t);
    s.TcbAt(t);
    s.StoreState(t, WithBits(t.state, RT_SCHED_SUSPENDED));
  }

  /** The stores and the insertion with which a wait gets a time limit. */
  method TimeoutTask(s: Scheduler, t: Task, time: int)
    requires s.Linked() && t in s.tasks && t != s.linux && t !in s.timed && time <= s.linux.resumeTime
    modifies s`timed, s.tasks`tnext, s.tasks`tprev, s.tasks`state, s.tasks`resumeTime
    ensures s.Linked() && s.Abs() == Timeout(old(s.Abs()), t, time)
  {
    hide WithBits, s.Linked, EnqTimed;
    s.TcbAt(t);
    s.StoreState(t, WithBits(t.state, RT_SCHED_DELAYED));
    s.StoreResumeTime(t, time);
    s.EnqTimedTask(t);
  }

  method JoinTask(s: Scheduler, t: Task, h: Queue, qtype: int, bits: bv32)
    requires s.Linked() && t in s.ready && t in s.tasks && t != s.linux && t.blockedOn == null && h in s.waiting
    modifies s`ready, s`waiting, s.tasks`rnext, s.tasks`rprev, s.tasks`state, s.tasks`blockedOn
    modifies s.nodes`next, s.nodes`prev
    ensures s.Linked() && s.Abs() == Join(old(s.Abs()), t, h, qtype, bits)
  {
    hide WithBits, EnqueueBlocked, RemReady, s.Linked;
    s.RemReadyCurrent(t);
    s.TcbAt(t);
    s.StoreState(t, WithBits(t.state, bits));
    s.EnqueueBlockedTask(t, h, qtype);
  }

  method BlockTask(s: Scheduler, t: Task, h: Queue, qtype: int, bits: bv32, timeout: Option<int>)
    requires s.Linked() && Consistent(s.Abs()) && Legal(s.Abs(), Block(t, h, qtype, bits, timeout))
    modifies s`ready, s`timed, s`waiting, s.tasks, s.nodes`next, s.nodes`prev
    ensures s.Linked() && s.Abs() == Apply(old(s.Abs()), Block(t, h, qtype, bits, timeout))
  {
    hide WellFormed, Consistent, Delayed, WithBits, Timeout, Join, s.Linked;
    Guards(s);
    NotDelayed(s.Abs(), t);
    s.TcbAt(t);
    JoinTask(s, t, h, qtype, bits);
    if timeout.Some? {
      TimeoutTask(s, t, timeout.value);
    }
  }

  /** A ready task is on no timed queue. */
  lemma NotDelayed(st: State, t: Task)
    requires Consistent(st) && t in st.ready
    ensures t !in st.timed && t in RealTasks(st)
  {
    DelayedNotReady(st);
    ReadyIsReal(st, t);
  }

  method SleepTask(s: Scheduler, t: Task, time: int)
    requires s.Linked() && Consistent(s.Abs()) && Legal(s.Abs(), Sleep(t, time))
    modifies s`ready, s`timed, s.tasks
    ensures s.Linked() && s.Abs() == Apply(old(s.Abs()), Sleep(t, time))
  {
    hide WellFormed, Consistent, Delayed, WithBits, Timeout, s.Linked;
    Guards(s);
    NotDelayed(s.Abs(), t);
    s.TcbAt(s.linux);
    s.RemReadyCurrent(t);
    s.TcbAt(t);
    TimeoutTask(s, t, time);
  }

  /** The reasons in bits, and any timeout, are over. */
  method EndWaitOf(s: Scheduler, t: Task, bits: bv32, byDeadline: bool)
    requires s.Linked() && PrioritiesBounded(s.Abs()) && s.linux.policy >= 0
    requires t in s.tasks && t != s.linux
    requires t in s.ready <==> t.state == RT_SCHED_READY
    requires t in s.timed <==> Delayed(t.state)
    modifies s`ready, s`timed, s.tasks
    ensures s.Linked() && s.Abs() == WakeTask(old(s.Abs()), t, bits, byDeadline)
  {
    hide Delayed, WithoutBits, PrioritiesBounded, s.Linked, EnqReadyEdf, EnqReady;
    s.TcbAt(t);
    s.RemTimedTask(t);
    s.TcbAt(t);
    if t.state != RT_SCHED_READY {
      s.StoreState(t, WithoutBits(t.state, bits));
      s.TcbAt(t);
      WellFormedness.SamePrioritiesBounded(old(s.Abs()), s.Abs());
      if t.state == RT_SCHED_READY {
        if byDeadline {
          s.EnqReadyEdfTask(t);
        } else {
          s.EnqReadyTask(t);
        }
      }
    }
  }

  method ReleaseTask(s: Scheduler, t: Task, bits: bv32, byDeadline: bool)
    requires s.Linked() && Consistent(s.Abs()) && Legal(s.Abs(), Release(t, bits, byDeadline))
    modifies s`ready, s`timed, s`waiting, s.tasks, s.nodes`next, s.nodes`prev
    ensures s.Linked() && s.Abs() == Apply(old(s.Abs()), Release(t, bits, byDeadline))
  {
    hide WellFormed, Consistent, Delayed, PrioritiesBounded, WakeTask, s.Linked;
    Guards(s);
    s.TcbAt(t);
    s.DequeueBlockedTask(t);
    s.TcbAt(t);
    WellFormedness.SamePrioritiesBounded(old(s.Abs()), s.Abs());
    EndWaitOf(s, t, bits, byDeadline);
  }

  /** One step, on the heap; at a tick the clock says now. */
  method Perform(s: Scheduler, step: Step)
    requires s.Linked() && Consistent(s.Abs()) && Legal(s.Abs(), step)
    modifies s, s.tasks, s.nodes`next, s.nodes`prev
    ensures s.Linked() && s.Abs() == Apply(old(s.Abs()), step) && Consistent(s.Abs())
  {
    hide WellFormed, Consistent, Delayed, PrioritiesBounded, WakeTask, RenqReady, WakeUp, PassPrio, Timeout, Join,
         LeaveReady, s.Linked;
    StepConsistent(s.Abs(), step);
    Guards(s);
    match step
    case Block(t, h, qtype, bits, timeout) => BlockTask(s, t, h, qtype, bits, timeout);
    case Sleep(t, time) => SleepTask(s, t, time);
    case Suspend(t) => SuspendTask(s, t);
    case Wake(t, bits, byDeadline) => EndWaitOf(s, t, bits, byDeadline);
    case Release(t, bits, byDeadline) => ReleaseTask(s, t, bits, byDeadline);
    case Tick(now) =>
      s.TcbAt(s.linux);
      s.timeH := now;
      s.WakeUpTimedTasks();
    case Reprioritise(t, p) =>
      var changed := s.RenqReadyTask(t, p);
    case Inherit(to, from) =>
      var schedmap := s.PassPrioTo(to, from);
  }

  /** A whole run on the heap is the run of its values: every operation's precondition
      holds wherever the run calls it, and the rings stay linked throughout. */
  method PerformRun(s: Scheduler, run: seq<Step>)
    requires s.Linked() && Consistent(s.Abs()) && LegalRun(s.Abs(), run)
    modifies s, s.tasks, s.nodes`next, s.nodes`prev
    ensures s.Linked() && Consistent(s.Abs()) && s.Abs() == Run(old(s.Abs()), run)
  {
    hide Consistent, Legal, Apply, s.Linked;
    var i := 0;
    while i < |run|
      invariant 0 <= i <= |run| && s.Linked() && Consistent(s.Abs()) && LegalRun(s.Abs(), run[i..])
      invariant Run(s.Abs(), run[i..]) == Run(old(s.Abs()), run)
    {
      StepConsistent(s.Abs(), run[i]);
      assert run[i..][0] == run[i] && run[i..][1..] == run[i + 1..];
      Perform(s, run[i]);
      i := i + 1;
    }
  }
}
