/** Every run of blocking, waking, ticking and inheriting keeps the queues and the task
    states in step. Each step is one critical section of a caller of the queue operations. */
module Runs {
  import opened Sequences
  import opened Tasks
  import opened SchedulerSpec
  import opened WellFormedness
  import opened ReadyQueue
  import opened TimedQueue
  import PassPrioQueues
  import Inheritance

  datatype Option<T> = None | Some(value: T)

  datatype Step =
    | Block(t: Task, h: Queue, qtype: int, bits: bv32, timeout: Option<int>)  // the running task waits on h
    | Sleep(t: Task, time: int)                // the running task waits for a time
    | Suspend(t: Task)
    | Wake(t: Task, bits: bv32, byDeadline: bool)     // the reasons in bits, and any timeout, are over
    | Release(t: Task, bits: bv32, byDeadline: bool)  // the same, for a task that is on a wait queue
    | Tick(now: int)
    | Reprioritise(t: Task, priority: int)
    | Inherit(to: Task?, from: Task)

  /** Structure, numbers and the order of time, without the task states. */
  ghost predicate Base(st: State) {
    WellFormed(st) && Bounded(st) && TimedOrdered(st)
  }

  ghost predicate Consistent(st: State) {
    Base(st) && ReadyMatchesState(st) && TimedMatchesState(st)
  }

  /** What the callers see to before a step. */
  ghost predicate Legal(st: State, s: Step)
    requires WellFormed(st)
  {
    match s
    case Block(t, h, qtype, bits, timeout) =>
      && t in st.ready && h in st.waiting && st.tcb[t].blockedOn == null
      && bits != 0 && bits & (RT_SCHED_READY | RT_SCHED_DELAYED) == 0
      && (timeout.Some? ==> timeout.value <= st.tcb[st.linux].resumeTime)
    case Sleep(t, time) => t in st.ready && time <= st.tcb[st.linux].resumeTime
    case Suspend(t) => t in RealTasks(st)
    case Wake(t, bits, byDeadline) => t in RealTasks(st)
    case Release(t, bits, byDeadline) => t in RealTasks(st) && st.tcb[t].blockedOn != null
    case Tick(now) => now < st.tcb[st.linux].resumeTime
    case Reprioritise(t, p) => t in RealTasks(st) && st.tcb[t].policy >= 0 && 0 <= p < RT_SCHED_LINUX_PRIORITY
    case Inherit(to, from) => from in RealTasks(st) && (to != null ==> to in RealTasks(st))
  }

  /** rem_ready_task and rem_timed_task, with their guards. */
  function LeaveReady(st: State, t: Task): (r: State)
    requires t in st.tcb
  {
    if st.tcb[t].state == RT_SCHED_READY then RemReady(st, t) else st
  }

  function LeaveTimed(st: State, t: Task): (r: State)
    requires t in st.tcb
  {
    if Delayed(st.tcb[t].state) then RemTimed(st, t) else st
  }

  function AddBits(st: State, t: Task, bits: bv32): (r: State)
    requires t in st.tcb
  {
    SetState(st, t, WithBits(st.tcb[t].state, bits))
  }

  /** The running task leaves the ready queue and joins h. */
  function Join(st: State, t: Task, h: Queue, qtype: int, bits: bv32): (r: State)
    requires t in st.tcb
  {
    EnqueueBlocked(AddBits(RemReady(st, t), t, bits), t, h, qtype)
  }

  function Timeout(st: State, t: Task, time: int): (r: State)
    requires t in st.tcb
  {
    EnqTimed(SetResumeTime(AddBits(st, t, RT_SCHED_DELAYED), t, time), t)
  }

  /** The wait is over, for the reasons in bits. */
  function EndWait(st: State, t: Task, bits: bv32): (r: State)
    requires t in st.tcb
  {
    SetState(LeaveTimed(st, t), t, WithoutBits(st.tcb[t].state, bits))
  }

  /** The waker chooses the insertion; only the timer is known to look at the policy. */
  function WakeTask(st: State, t: Task, bits: bv32, byDeadline: bool): (r: State)
    requires t in st.tcb
  {
    if st.tcb[t].state == RT_SCHED_READY then LeaveTimed(st, t)
    else
      var st1 := EndWait(st, t, bits);
      if st1.tcb[t].state == RT_SCHED_READY then EnqReadyBy(st1, t, byDeadline) else st1
  }

  function Apply(st: State, s: Step): (r: State)
    requires WellFormed(st) && Legal(st, s)
  {
    match s
    case Block(t, h, qtype, bits, timeout) =>
      var st1 := Join(st, t, h, qtype, bits);
      if timeout.Some? then Timeout(st1, t, timeout.value) else st1
    case Sleep(t, time) => Timeout(RemReady(st, t), t, time)
    case Suspend(t) => AddBits(LeaveReady(st, t), t, RT_SCHED_SUSPENDED)
    case Wake(t, bits, byDeadline) => WakeTask(st, t, bits, byDeadline)
    case Release(t, bits, byDeadline) => WakeTask(DequeueBlocked(st, t), t, bits, byDeadline)
    case Tick(now) => WakeUp(st, now)
    case Reprioritise(t, p) => RenqReady(st, t, p)
    case Inherit(to, from) => PassPrio(st, to, from)
  }

  // The primitive operations keep Base, and change one task at most.

  /** r is sound again and differs from st at t only; t is, or is not, in the two queues. */
  ghost predicate Moved(st: State, r: State, t: Task, inReady: bool, inTimed: bool) {
    && Base(r) && r.linux == st.linux && r.tcb.Keys == st.tcb.Keys && t in r.tcb
    && (t in r.ready <==> inReady)
    && (t in r.timed <==> inTimed)
    && r.tcb == st.tcb[t := r.tcb[t]]
    && forall u :: u in RealTasks(st) && u != t ==>
                     && (u in r.ready <==> u in st.ready)
                     && (u in r.timed <==> u in st.timed)
  }

  lemma MovedTwice(st: State, st1: State, st2: State, t: Task, a: bool, b: bool, c: bool, d: bool)
    requires t in RealTasks(st) && Moved(st, st1, t, a, b) && Moved(st1, st2, t, c, d)
    ensures Moved(st, st2, t, c, d)
  {
    hide Base;
    assert RealTasks(st1) == RealTasks(st);
    assert st2.tcb == st.tcb[t := st2.tcb[t]];
  }

  lemma MovedFacts(st: State, r: State, t: Task, a: bool, b: bool)
    requires Base(st) && t in RealTasks(st) && Moved(st, r, t, a, b)
    ensures Base(r) && RealTasks(r) == RealTasks(st) && r.linux == st.linux
    ensures r.linux in r.tcb && st.linux in st.tcb && r.tcb[r.linux] == st.tcb[st.linux]
    ensures t in r.tcb && (t in r.ready <==> a) && (t in r.timed <==> b)
  {
    hide TimedOrdered;
  }

  /** An attribute change that no queue order sees. */
  lemma Retouched(st: State, t: Task, c: Tcb)
    requires Base(st) && t in RealTasks(st)
    requires c.blockedOn == st.tcb[t].blockedOn
    requires c.passedTo == st.tcb[t].passedTo || c.passedTo == null
    requires c.priority == st.tcb[t].priority && c.policy == st.tcb[t].policy
    requires c.resumeTime == st.tcb[t].resumeTime || t !in st.timed
    requires c.resumeTime <= st.tcb[st.linux].resumeTime
    ensures Moved(st, st.(tcb := st.tcb[t := c]), t, t in st.ready, t in st.timed)
  {
    var r := st.(tcb := st.tcb[t := c]);
    SameLinksWellFormed(st, t, c);
    assert RealTasks(r) == RealTasks(st);
    hide WellFormed;
    RetouchedTimes(st, r);
  }

  lemma RetouchedTimes(st: State, r: State)
    requires TimedOrdered(st) && r.timed == st.timed
    requires forall u :: u in st.tcb ==> u in r.tcb && (r.tcb[u].resumeTime == st.tcb[u].resumeTime || u !in st.timed)
    ensures TimedOrdered(r)
  {
  }

  lemma StateStep(st: State, t: Task, bits: bv32)
    requires Base(st) && t in RealTasks(st)
    ensures Moved(st, SetState(st, t, bits), t, t in st.ready, t in st.timed)
  {
    Retouched(st, t, st.tcb[t].(state := bits));
  }

  lemma RemReadyStep(st: State, t: Task)
    requires Base(st) && t in RealTasks(st)
    ensures Moved(st, RemReady(st, t), t, false, t in st.timed)
  {
    RemReadyWellFormed(st, t);
    WithoutMembers(st.ready, t) by { ReadyIsQueue(st); }
    hide WellFormed;
    assert st.tcb == st.tcb[t := st.tcb[t]];
  }

  lemma ReadyIsQueue(st: State)
    requires WellFormed(st)
    ensures QueueOf(st, st.ready)
  {
  }

  lemma RemTimedStep(st: State, t: Task)
    requires Base(st) && t in RealTasks(st)
    ensures Moved(st, RemTimed(st, t), t, t in st.ready, false)
  {
    RemTimedWellFormed(st, t);
    RemTimedOrders(st, t);
    WithoutMembers(st.timed, t) by { TimedIsQueue(st); }
    hide WellFormed, TimedOrdered;
    assert st.tcb == st.tcb[t := st.tcb[t]];
  }

  lemma EnqTimedStep(st: State, t: Task)
    requires Base(st) && t in RealTasks(st) && t !in st.timed
    ensures Moved(st, EnqTimed(st, t), t, t in st.ready, true)
  {
    EnqTimedWellFormed(st, t);
    EnqTimedOrders(st, t);
    InsertMembers(st.timed, StopAt(st.timed, st.tcb, Earlier(st.tcb[t].resumeTime)), t);
    hide WellFormed, TimedOrdered, StopAt;
    assert st.tcb == st.tcb[t := st.tcb[t]];
  }

  lemma EnqReadyStep(st: State, t: Task, byDeadline: bool)
    requires Base(st) && t in RealTasks(st) && t !in st.ready
    ensures Moved(st, EnqReadyBy(st, t, byDeadline), t, true, t in st.timed)
  {
    EnqReadyMembers(st, t, byDeadline);
    hide WellFormed, EnqReadyBy;
    assert st.tcb == st.tcb[t := st.tcb[t]];
  }

  lemma EnqReadyMembers(st: State, t: Task, byDeadline: bool)
    requires WellFormed(st) && t in RealTasks(st) && t !in st.ready
    ensures var r := EnqReadyBy(st, t, byDeadline);
            && WellFormed(r) && r == st.(ready := r.ready) && t in r.ready
            && (forall u :: u in st.ready ==> u in r.ready)
            && (forall u :: u in r.ready ==> u == t || u in st.ready)
  {
    if byDeadline {
      EnqReadyEdfWellFormed(st, t);
      InsertMembers(st.ready, StopAt(st.ready, st.tcb, Deadline(st.tcb[t].period)), t);
    } else {
      EnqReadyWellFormed(st, t);
      InsertMembers(st.ready, StopAt(st.ready, st.tcb, UpTo(st.tcb[t].priority)), t);
    }
  }

  /** Joining or leaving a wait queue touches neither the ready nor the timed queue. */
  lemma WaitersStep(st: State, r: State, t: Task)
    requires Base(st) && t in RealTasks(st) && WellFormed(r)
    requires r == st.(tcb := r.tcb, waiting := r.waiting) && t in r.tcb
    requires r.tcb == st.tcb[t := st.tcb[t].(passedTo := r.tcb[t].passedTo, blockedOn := r.tcb[t].blockedOn)]
    ensures Moved(st, r, t, t in st.ready, t in st.timed)
  {
    hide WellFormed;
    assert RealTasks(r) == RealTasks(st);
    RetouchedTimes(st, r);
  }

  lemma EnqueueBlockedStep(st: State, t: Task, h: Queue, qtype: int)
    requires Base(st) && t in RealTasks(st) && h in st.waiting && st.tcb[t].blockedOn == null
    ensures var r := EnqueueBlocked(st, t, h, qtype);
            Moved(st, r, t, t in st.ready, t in st.timed) && r.tcb[t].state == st.tcb[t].state
  {
    EnqueueBlockedWellFormed(st, t, h, qtype);
    hide WellFormed, Base, StopAt, InsertAt;
    WaitersStep(st, EnqueueBlocked(st, t, h, qtype), t);
  }

  lemma DequeueBlockedStep(st: State, t: Task)
    requires Base(st) && t in RealTasks(st) && st.tcb[t].blockedOn != null
    ensures var r := DequeueBlocked(st, t);
            Moved(st, r, t, t in st.ready, t in st.timed) && r.tcb[t].state == st.tcb[t].state
  {
    DequeueBlockedWellFormed(st, t);
    hide WellFormed, Base, Without;
    WaitersStep(st, DequeueBlocked(st, t), t);
  }

  /** One task changed, and its new state says which queues it is in. */
  lemma Settled(st: State, r: State, t: Task)
    requires Consistent(st) && t in RealTasks(st) && t in r.tcb
    requires Moved(st, r, t, r.tcb[t].state == RT_SCHED_READY, Delayed(r.tcb[t].state))
    ensures Consistent(r)
  {
    hide Base, Delayed;
    assert RealTasks(r) == RealTasks(st);
  }

  // What the bit operations do to the two guards.

  lemma Blocking(bits: bv32)
    requires bits != 0 && bits & (RT_SCHED_READY | RT_SCHED_DELAYED) == 0
    ensures var s := WithBits(RT_SCHED_READY, bits);
            && s != RT_SCHED_READY && !Delayed(s)
            && WithBits(s, RT_SCHED_DELAYED) != RT_SCHED_READY && Delayed(WithBits(s, RT_SCHED_DELAYED))
  {
  }

  lemma Suspending(state: bv32)
    ensures WithBits(state, RT_SCHED_SUSPENDED) != RT_SCHED_READY
    ensures Delayed(WithBits(state, RT_SCHED_SUSPENDED)) <==> Delayed(state)
  {
  }

  lemma Clearing(state: bv32, bits: bv32)
    ensures !Delayed(WithoutBits(state, bits)) && !Delayed(Woken(state)) && !Delayed(RT_SCHED_READY)
    ensures Delayed(WithBits(RT_SCHED_READY, RT_SCHED_DELAYED))
    ensures WithBits(RT_SCHED_READY, RT_SCHED_DELAYED) != RT_SCHED_READY
  {
  }

  // Each step.

  /** A task that is on no timed queue starts to wait for a time. */
  lemma TimeoutStep(st: State, t: Task, time: int)
    requires Base(st) && t in RealTasks(st) && t !in st.timed && time <= st.tcb[st.linux].resumeTime
    ensures var r := Timeout(st, t, time);
            && Moved(st, r, t, t in st.ready, true)
            && r.tcb[t].state == WithBits(st.tcb[t].state, RT_SCHED_DELAYED)
  {
    hide Base, WithBits;
    var c := st.tcb[t].(state := WithBits(st.tcb[t].state, RT_SCHED_DELAYED), resumeTime := time);
    Retouched(st, t, c);
    var st1 := st.(tcb := st.tcb[t := c]);
    assert SetResumeTime(AddBits(st, t, RT_SCHED_DELAYED), t, time) == st1;
    MovedFacts(st, st1, t, t in st.ready, t in st.timed);
    EnqTimedStep(st1, t);
    hide Moved, EnqTimed;
    MovedTwice(st, st1, EnqTimed(st1, t), t, t in st.ready, t in st.timed, t in st.ready, true);
    EnqTimedKeepsTcb(st1, t);
  }

  lemma EnqTimedKeepsTcb(st: State, t: Task)
    requires t in st.tcb
    ensures EnqTimed(st, t).tcb == st.tcb
  {
  }

  /** A task leaves the ready queue and gains bits that say why. */
  lemma UnreadyStep(st: State, t: Task, bits: bv32)
    requires Base(st) && t in RealTasks(st)
    ensures var r := AddBits(RemReady(st, t), t, bits);
            && Moved(st, r, t, false, t in st.timed)
            && r.tcb[t] == st.tcb[t].(state := WithBits(st.tcb[t].state, bits)) && r.waiting == st.waiting
  {
    RemReadyStep(st, t);
    hide Base, Moved, WithBits;
    var st1 := RemReady(st, t);
    MovedFacts(st, st1, t, false, t in st.timed);
    StateStep(st1, t, WithBits(st.tcb[t].state, bits));
    MovedTwice(st, st1, AddBits(st1, t, bits), t, false, t in st.timed, false, t in st.timed);
  }

  lemma JoinStep(st: State, t: Task, h: Queue, qtype: int, bits: bv32)
    requires Base(st) && t in RealTasks(st) && h in st.waiting && st.tcb[t].blockedOn == null
    ensures var r := Join(st, t, h, qtype, bits);
            && Moved(st, r, t, false, t in st.timed)
            && r.tcb[t].state == WithBits(st.tcb[t].state, bits)
  {
    hide Base, Moved, WellFormed, WithBits, EnqueueBlocked;
    UnreadyStep(st, t, bits);
    var st1 := AddBits(RemReady(st, t), t, bits);
    MovedFacts(st, st1, t, false, t in st.timed);
    EnqueueBlockedStep(st1, t, h, qtype);
    var st2 := EnqueueBlocked(st1, t, h, qtype);
    MovedTwice(st, st1, st2, t, false, t in st.timed, false, t in st.timed);
    MovedFacts(st, st2, t, false, t in st.timed);
  }

  lemma BlockStep(st: State, t: Task, h: Queue, qtype: int, bits: bv32, timeout: Option<int>)
    requires Consistent(st) && Legal(st, Block(t, h, qtype, bits, timeout))
    ensures Consistent(Apply(st, Block(t, h, qtype, bits, timeout)))
  {
    ReadyIsReal(st, t);
    Blocking(bits);
    Clearing(0, 0);
    assert st.tcb[t].state == RT_SCHED_READY && t !in st.timed;
    hide Base, Moved, WellFormed, Delayed, WithBits, Join, Timeout;
    JoinStep(st, t, h, qtype, bits);
    var st1 := Join(st, t, h, qtype, bits);
    MovedFacts(st, st1, t, false, false);
    if timeout.Some? {
      TimeoutStep(st1, t, timeout.value);
      MovedTwice(st, st1, Timeout(st1, t, timeout.value), t, false, false, false, true);
      Settled(st, Timeout(st1, t, timeout.value), t);
    } else {
      Settled(st, st1, t);
    }
  }

  lemma ReadyIsReal(st: State, t: Task)
    requires WellFormed(st) && t in st.ready
    ensures t in RealTasks(st)
  {
  }

  lemma SleepStep(st: State, t: Task, time: int)
    requires Consistent(st) && Legal(st, Sleep(t, time))
    ensures Consistent(Apply(st, Sleep(t, time)))
  {
    ReadyIsReal(st, t);
    Clearing(0, 0);
    assert st.tcb[t].state == RT_SCHED_READY && t !in st.timed;
    RemReadyStep(st, t);
    hide Base, Moved, WellFormed, Delayed, WithBits, Timeout;
    var st1 := RemReady(st, t);
    MovedFacts(st, st1, t, false, false);
    TimeoutStep(st1, t, time);
    MovedTwice(st, st1, Timeout(st1, t, time), t, false, false, false, true);
    MovedFacts(st, Timeout(st1, t, time), t, false, true);
    Settled(st, Timeout(st1, t, time), t);
  }

  lemma SuspendStep(st: State, t: Task)
    requires Consistent(st) && Legal(st, Suspend(t))
    ensures Consistent(Apply(st, Suspend(t)))
  {
    var s, d := WithBits(st.tcb[t].state, RT_SCHED_SUSPENDED), t in st.timed;
    Suspending(st.tcb[t].state);
    if st.tcb[t].state == RT_SCHED_READY {
      UnreadyStep(st, t, RT_SCHED_SUSPENDED);
    } else {
      StateStep(st, t, s);
    }
    hide Base, Moved, WellFormed, Delayed, WithBits;
    var r := AddBits(LeaveReady(st, t), t, RT_SCHED_SUSPENDED);
    assert Moved(st, r, t, false, d);
    MovedFacts(st, r, t, false, d);
    Settled(st, r, t);
  }

  lemma LeaveTimedStep(st: State, t: Task)
    requires Base(st) && t in RealTasks(st) && (t in st.timed <==> Delayed(st.tcb[t].state))
    ensures Moved(st, LeaveTimed(st, t), t, t in st.ready, false) && LeaveTimed(st, t).tcb == st.tcb
  {
    if Delayed(st.tcb[t].state) {
      RemTimedStep(st, t);
    } else {
      StateStep(st, t, st.tcb[t].state);
      assert SetState(st, t, st.tcb[t].state) == st;
    }
  }

  lemma EndWaitStep(st: State, t: Task, bits: bv32)
    requires Base(st) && t in RealTasks(st) && (t in st.timed <==> Delayed(st.tcb[t].state))
    ensures var r := EndWait(st, t, bits);
            Moved(st, r, t, t in st.ready, false)
            && r.tcb == st.tcb[t := st.tcb[t].(state := WithoutBits(st.tcb[t].state, bits))]
  {
    LeaveTimedStep(st, t);
    hide Base, Moved, Delayed, LeaveTimed, WithoutBits;
    var st1, s := LeaveTimed(st, t), WithoutBits(st.tcb[t].state, bits);
    MovedFacts(st, st1, t, t in st.ready, false);
    StateStep(st1, t, s);
    MovedTwice(st, st1, SetState(st1, t, s), t, t in st.ready, false, t in st.ready, false);
  }

  /** From any sound state whose guards hold for t. */
  lemma WakeTaskStep(st: State, t: Task, bits: bv32, byDeadline: bool)
    requires Base(st) && t in RealTasks(st)
    requires t in st.ready <==> st.tcb[t].state == RT_SCHED_READY
    requires t in st.timed <==> Delayed(st.tcb[t].state)
    ensures var r := WakeTask(st, t, bits, byDeadline);
            t in r.tcb && Moved(st, r, t, r.tcb[t].state == RT_SCHED_READY, Delayed(r.tcb[t].state))
  {
    Clearing(st.tcb[t].state, bits);
    hide Base, Moved, WellFormed, Delayed, WithoutBits, EnqReadyBy, LeaveTimed, EndWait;
    if st.tcb[t].state == RT_SCHED_READY {
      LeaveTimedStep(st, t);
    } else {
      EndWaitStep(st, t, bits);
      var st1 := EndWait(st, t, bits);
      MovedFacts(st, st1, t, false, false);
      if st1.tcb[t].state == RT_SCHED_READY {
        EnqReadyStep(st1, t, byDeadline);
        MovedTwice(st, st1, EnqReadyBy(st1, t, byDeadline), t, false, false, true, false);
        EnqReadyMembers(st1, t, byDeadline) by { BaseIsWellFormed(st1); }
      }
    }
  }

  lemma BaseIsWellFormed(st: State)
    requires Base(st)
    ensures WellFormed(st) && Bounded(st) && TimedOrdered(st)
  {
  }

  lemma ReleaseStep(st: State, t: Task, bits: bv32, byDeadline: bool)
    requires Consistent(st) && Legal(st, Release(t, bits, byDeadline))
    ensures Consistent(Apply(st, Release(t, bits, byDeadline)))
  {
    var a, b := t in st.ready, t in st.timed;
    DequeueBlockedStep(st, t);
    hide Base, Moved, WellFormed, Delayed, WakeTask, DequeueBlocked;
    var st1 := DequeueBlocked(st, t);
    MovedFacts(st, st1, t, a, b);
    WakeTaskStep(st1, t, bits, byDeadline);
    var r := WakeTask(st1, t, bits, byDeadline);
    MovedTwice(st, st1, r, t, a, b, r.tcb[t].state == RT_SCHED_READY, Delayed(r.tcb[t].state));
    Settled(st, r, t);
  }

  lemma TickStep(st: State, now: int)
    requires Consistent(st)
    ensures Consistent(WakeUp(st, now))
  {
    DelayedNotReady(st);
    TickBase(st, now);
    hide Base, WakeUp, Delayed;
    var r := WakeUp(st, now);
    forall t | t in RealTasks(st)
      ensures t in r.ready <==> r.tcb[t].state == RT_SCHED_READY
      ensures t in r.timed <==> Delayed(r.tcb[t].state)
    {
      TickGuards(st, now, t);
    }
  }

  lemma TickBase(st: State, now: int)
    requires Base(st) && forall t :: t in st.timed ==> t !in st.ready
    ensures var r := WakeUp(st, now);
            Base(r) && RealTasks(r) == RealTasks(st)
  {
    hide WellFormed, ReadyOrdered, TimedOrdered, WakeUp, Woken, Later, Bounded;
    WakeUpSplits(st, now);
    TickBounded(st, WakeUp(st, now));
  }

  lemma TickGuards(st: State, now: int, t: Task)
    requires Consistent(st) && t in RealTasks(st) && forall u :: u in st.timed ==> u !in st.ready
    ensures var r := WakeUp(st, now);
            && t in r.tcb
            && (t in r.ready <==> r.tcb[t].state == RT_SCHED_READY)
            && (t in r.timed <==> Delayed(r.tcb[t].state))
  {
    hide WellFormed, ReadyOrdered, TimedOrdered, WakeUp, Woken, Later, Delayed, Bounded;
    WakeUpSplits(st, now);
    WokenGuards(st, WakeUp(st, now), now, t);
  }

  lemma WokenGuards(st: State, r: State, now: int, t: Task)
    requires t in st.tcb && t in r.tcb
    requires t in st.ready <==> st.tcb[t].state == RT_SCHED_READY
    requires t in st.timed <==> Delayed(st.tcb[t].state)
    requires r.timed == Later(st.timed, st.tcb, now)
    requires var due := t in st.timed && st.tcb[t].resumeTime <= now;
             && r.tcb[t].state == (if due then Woken(st.tcb[t].state) else st.tcb[t].state)
             && (t in r.ready <==> t in st.ready || (due && Woken(st.tcb[t].state) == RT_SCHED_READY))
    ensures t in r.ready <==> r.tcb[t].state == RT_SCHED_READY
    ensures t in r.timed <==> Delayed(r.tcb[t].state)
  {
    Clearing(st.tcb[t].state, 0);
    LaterMembers(st.timed, st.tcb, now, t);
    hide Woken, Delayed, Later;
  }

  lemma DelayedNotReady(st: State)
    requires Consistent(st)
    ensures forall t :: t in st.timed ==> t !in st.ready
    ensures st.linux !in st.timed
  {
    forall t | t in st.timed
      ensures t !in st.ready
    {
      Clearing(0, 0);
      assert t in RealTasks(st);
    }
  }

  lemma TickBounded(st: State, r: State)
    requires Bounded(st) && r.linux == st.linux && r.tcb.Keys == st.tcb.Keys
    requires forall t :: t in st.tcb ==> r.tcb[t] == st.tcb[t].(state := r.tcb[t].state)
    ensures Bounded(r)
  {
    assert RealTasks(r) == RealTasks(st);
  }

  lemma {:induction false} LaterMembers(s: seq<Task>, tcb: map<Task, Tcb>, now: int, t: Task)
    requires t in tcb
    ensures t in Later(s, tcb, now) <==> t in s && tcb[t].resumeTime > now
  {
    if s != [] {
      LaterMembers(s[1..], tcb, now, t);
    }
  }

  lemma ReprioritiseStep(st: State, t: Task, p: int)
    requires Consistent(st) && Legal(st, Reprioritise(t, p))
    ensures Consistent(Apply(st, Reprioritise(t, p)))
  {
    hide WellFormed, TimedOrdered, RenqReady, Delayed;
    RenqReadyMembers(st, t, p);
    var r := RenqReady(st, t, p);
    assert RealTasks(r) == RealTasks(st);
    assert st.timed == st.timed[0..];
    RestOrdered(st, 0, r);
  }

  lemma RenqReadyMembers(st: State, t: Task, p: int)
    requires WellFormed(st) && t in RealTasks(st)
    requires t in st.ready <==> st.tcb[t].state == RT_SCHED_READY
    ensures var r := RenqReady(st, t, p);
            && WellFormed(r) && r == st.(tcb := r.tcb, ready := r.ready)
            && r.tcb == st.tcb[t := st.tcb[t].(priority := p)]
            && (forall u :: u in st.ready ==> u in r.ready)
            && (forall u :: u in r.ready ==> u in st.ready)
  {
    if st.tcb[t].priority == p {
      assert st.tcb == st.tcb[t := st.tcb[t]];
    } else {
      SameLinksWellFormed(st, t, st.tcb[t].(priority := p));
      var st1 := SetPriority(st, t, p);
      if st.tcb[t].state == RT_SCHED_READY {
        RemReadyWellFormed(st1, t);
        EnqReadyWellFormed(RemReady(st1, t), t);
        RaiseReadyMembers(st, t, p);
      }
    }
  }

  lemma InheritStep(st: State, to: Task?, from: Task)
    requires Consistent(st) && Legal(st, Inherit(to, from))
    ensures Consistent(Apply(st, Inherit(to, from)))
  {
    hide PassPrio, WellFormed, Bounded, ReadyOrdered, TimedOrdered, Delayed;
    PassPrioQueues.PassPrioKeepsQueues(st, to, from);
    PassPrioKeepsTimes(st, to, from);
    var r := PassPrio(st, to, from);
    assert RealTasks(r) == RealTasks(st);
    assert st.timed == st.timed[0..];
    RestOrdered(st, 0, r);
  }

  lemma PassPrioKeepsTimes(st: State, to: Task?, from: Task)
    requires from in st.tcb
    ensures var r := PassPrio(st, to, from);
            && r.linux == st.linux && r.tcb.Keys == st.tcb.Keys
            && forall t :: t in st.tcb ==>
                             r.tcb[t].state == st.tcb[t].state && r.tcb[t].resumeTime == st.tcb[t].resumeTime
  {
    hide PassAlong, Inheritance.Chain;
    Inheritance.PassAlongRaisesChain(SetPassedTo(st, from, to), to, st.tcb[from].priority);
  }

  /** Every step keeps the queues in step with the task states, and the timed queue sorted. */
  lemma StepConsistent(st: State, s: Step)
    requires Consistent(st) && Legal(st, s)
    ensures Consistent(Apply(st, s))
  {
    match s
    case Block(t, h, qtype, bits, timeout) => BlockStep(st, t, h, qtype, bits, timeout);
    case Sleep(t, time) => SleepStep(st, t, time);
    case Suspend(t) => SuspendStep(st, t);
    case Wake(t, bits, byDeadline) =>
      WakeTaskStep(st, t, bits, byDeadline);
      Settled(st, WakeTask(st, t, bits, byDeadline), t);
    case Release(t, bits, byDeadline) => ReleaseStep(st, t, bits, byDeadline);
    case Tick(now) => TickStep(st, now);
    case Reprioritise(t, p) => ReprioritiseStep(st, t, p);
    case Inherit(to, from) => InheritStep(st, to, from);
  }

  /** Every step of the run is legal when it is taken. */
  ghost predicate LegalRun(st: State, run: seq<Step>)
    requires Consistent(st)
    decreases |run|
  {
    run == [] || (Legal(st, run[0]) && (StepConsistent(st, run[0]); LegalRun(Apply(st, run[0]), run[1..])))
  }

  ghost function Run(st: State, run: seq<Step>): (r: State)
    requires Consistent(st) && LegalRun(st, run)
    decreases |run|
  {
    if run == [] then st
    else
      StepConsistent(st, run[0]);
      Run(Apply(st, run[0]), run[1..])
  }

  /** Over every run: a task is ready-linked exactly when its state is READY (1) and
      time-linked exactly when it is DELAYED (4), so that neither guard ever unlinks an
      unlinked task or misses a linked one; no task is linked twice; a wait queue holds
      exactly the tasks that name it; and no task of the timed queue is due before the first. */
  lemma {:induction false} RunConsistent(st: State, run: seq<Step>)
    requires Consistent(st) && LegalRun(st, run)
    ensures var r := Run(st, run);
            && Consistent(r)
            && Distinct(r.ready) && Distinct(r.timed) && BlockedOnNamesQueue(r)
            && (forall t :: t in RealTasks(r) ==>
                              && (t in r.ready <==> r.tcb[t].state == 1)
                              && (t in r.timed <==> r.tcb[t].state & 4 != 0))
            && (forall t :: t in r.timed ==>
                              r.timed[0] in r.tcb && t in r.tcb && r.tcb[r.timed[0]].resumeTime <= r.tcb[t].resumeTime)
    decreases |run|
  {
    if run == [] {
      hide Base, Delayed;
      FirstIsNext(st);
      forall t | t in RealTasks(st)
        ensures (t in st.ready <==> st.tcb[t].state == 1) && (t in st.timed <==> st.tcb[t].state & 4 != 0)
      {
        DelayedBit(st.tcb[t].state);
      }
    } else {
      StepConsistent(st, run[0]);
      hide Consistent, Legal, Apply, Delayed;
      RunConsistent(Apply(st, run[0]), run[1..]);
    }
  }

  lemma DelayedBit(state: bv32)
    ensures Delayed(state) <==> state & 4 != 0
  {
  }

  lemma FirstIsNext(st: State)
    requires Base(st)
    ensures Distinct(st.ready) && Distinct(st.timed) && BlockedOnNamesQueue(st)
    ensures forall t :: t in st.timed ==>
              st.timed[0] in st.tcb && t in st.tcb && st.tcb[st.timed[0]].resumeTime <= st.tcb[t].resumeTime
  {
    forall t | t in st.timed
      ensures st.timed[0] in st.tcb && t in st.tcb && st.tcb[st.timed[0]].resumeTime <= st.tcb[t].resumeTime
    {
      var i :| 0 <= i < |st.timed| && st.timed[i] == t;
      assert st.timed[0] in st.timed;
    }
  }

  /** A tick makes a task whose time is out ready, but leaves it on its wait queue: this is
      how a waiter becomes stale in a run. */
  lemma TimedOutStaysQueued(st: State, t: Task, h: Queue, now: int)
    requires Consistent(st) && h in st.waiting && t in st.waiting[h]
    requires t in st.timed && st.tcb[t].resumeTime <= now && Woken(st.tcb[t].state) == RT_SCHED_READY
    ensures var r := WakeUp(st, now);
            && Consistent(r) && t in r.ready && t in r.tcb && r.tcb[t].state == RT_SCHED_READY
            && h in r.waiting && t in r.waiting[h] && r.tcb[t].blockedOn == h
  {
    TickStep(st, now);
    DelayedNotReady(st);
    PassPrioQueues.WaitersBlocked(st, h);
    WakeUpSplits(st, now);
    hide WellFormed, WakeUp, Woken, Later, Bounded, ReadyOrdered, TimedOrdered, Delayed;
  }
}
