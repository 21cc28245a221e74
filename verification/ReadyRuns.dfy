/** The order of the ready queue over whole runs: only a waker that chooses the wrong
    insertion can lose it. */
module ReadyRuns {
  import opened Sequences
  import opened Tasks
  import opened SchedulerSpec
  import opened Orders
  import opened ReadyQueue
  import opened Runs
  import PassPrioQueues
  import TimedQueue

  /** r has the priorities, policies and periods of st, and no link that st has not. */
  ghost predicate SameRanks(st: State, r: State) {
    && r.tcb.Keys == st.tcb.Keys
    && forall t :: t in st.tcb ==>
                     && r.tcb[t].priority == st.tcb[t].priority && r.tcb[t].policy == st.tcb[t].policy
                     && r.tcb[t].period == st.tcb[t].period
                     && (r.tcb[t].passedTo == st.tcb[t].passedTo || r.tcb[t].passedTo == null)
  }

  lemma SameRanksTwice(st: State, st1: State, st2: State)
    requires SameRanks(st, st1) && SameRanks(st1, st2)
    ensures SameRanks(st, st2)
  {
  }

  /** The order of a sequence depends on the ranks only. */
  lemma SortedByRanks(s: seq<Task>, st: State, r: State)
    requires SameRanks(st, r)
    ensures Sorted(ByUrgency, s, st.tcb) <==> Sorted(ByUrgency, s, r.tcb)
  {
  }

  lemma BlockRanks(st: State, t: Task, h: Queue, qtype: int, bits: bv32, timeout: Option<int>)
    requires WellFormed(st) && Legal(st, Block(t, h, qtype, bits, timeout))
    ensures var r := Apply(st, Block(t, h, qtype, bits, timeout));
            SameRanks(st, r) && r.ready == Without(st.ready, t)
  {
    ReadyIsReal(st, t);
    hide WellFormed, StopAt, InsertAt, Without, WithBits;
  }

  lemma SleepRanks(st: State, t: Task, time: int)
    requires WellFormed(st) && Legal(st, Sleep(t, time))
    ensures var r := Apply(st, Sleep(t, time));
            SameRanks(st, r) && r.ready == Without(st.ready, t)
  {
    ReadyIsReal(st, t);
    hide WellFormed, StopAt, InsertAt, Without, WithBits;
  }

  lemma SuspendRanks(st: State, t: Task)
    requires WellFormed(st) && Legal(st, Suspend(t))
    ensures var r := Apply(st, Suspend(t));
            SameRanks(st, r) && (r.ready == Without(st.ready, t) || r.ready == st.ready)
  {
    hide WellFormed, Without, WithBits;
  }

  lemma EndWaitRanks(st: State, t: Task, bits: bv32)
    requires t in st.tcb
    ensures SameRanks(st, EndWait(st, t, bits)) && EndWait(st, t, bits).ready == st.ready
    ensures SameRanks(st, LeaveTimed(st, t)) && LeaveTimed(st, t).ready == st.ready
  {
    hide Delayed, Without, WithoutBits;
  }

  lemma EnqReadyKeepsTcb(st: State, t: Task, byDeadline: bool)
    requires t in st.tcb
    ensures EnqReadyBy(st, t, byDeadline).tcb == st.tcb
  {
  }

  lemma WakeTaskRanks(st: State, t: Task, bits: bv32, byDeadline: bool)
    requires t in st.tcb
    ensures SameRanks(st, WakeTask(st, t, bits, byDeadline))
  {
    EndWaitRanks(st, t, bits);
    hide EndWait, LeaveTimed, EnqReadyBy;
    EnqReadyKeepsTcb(EndWait(st, t, bits), t, byDeadline);
  }

  lemma DequeueRanks(st: State, t: Task)
    requires t in st.tcb && st.tcb[t].blockedOn != null
    ensures var r := DequeueBlocked(st, t);
            SameRanks(st, r) && r.ready == st.ready && r.tcb[t].state == st.tcb[t].state
  {
    hide Without;
  }

  lemma ReleaseRanks(st: State, t: Task, bits: bv32, byDeadline: bool)
    requires t in st.tcb && st.tcb[t].blockedOn != null
    ensures SameRanks(st, WakeTask(DequeueBlocked(st, t), t, bits, byDeadline))
  {
    hide WakeTask, DequeueBlocked;
    DequeueRanks(st, t);
    WakeTaskRanks(DequeueBlocked(st, t), t, bits, byDeadline);
    SameRanksTwice(st, DequeueBlocked(st, t), WakeTask(DequeueBlocked(st, t), t, bits, byDeadline));
  }

  lemma TickRanks(st: State, now: int)
    requires Consistent(st)
    ensures SameRanks(st, WakeUp(st, now))
    ensures ReadyOrdered(st) ==> ReadyOrdered(WakeUp(st, now))
  {
    DelayedNotReady(st);
    hide WellFormed, WakeUp, Woken, ReadyOrdered;
    TimedQueue.WakeUpSplits(st, now);
  }

  /** The task becomes ready by the waker's insertion, and this one is wrong for it. */
  ghost predicate Misplaces(st: State, t: Task, bits: bv32, byDeadline: bool)
    requires t in st.tcb && forall u :: u in st.ready ==> u in st.tcb
  {
    && st.tcb[t].state != RT_SCHED_READY
    && WithoutBits(st.tcb[t].state, bits) == RT_SCHED_READY
    && !Suits(st, t, byDeadline)
  }

  lemma WakeTaskOrders(st: State, t: Task, bits: bv32, byDeadline: bool)
    requires Base(st) && ReadyOrdered(st) && t in RealTasks(st)
    requires t in st.ready <==> st.tcb[t].state == RT_SCHED_READY
    requires t in st.timed <==> Delayed(st.tcb[t].state)
    ensures ReadyOrdered(WakeTask(st, t, bits, byDeadline)) <==> !Misplaces(st, t, bits, byDeadline)
  {
    EndWaitStep(st, t, bits);
    EndWaitRanks(st, t, bits);
    hide Base, Moved, Delayed, WithoutBits, EndWait, LeaveTimed, EnqReadyBy, SameRanks, Suits, Sorted;
    if st.tcb[t].state == RT_SCHED_READY {
      SortedByRanks(st.ready, st, LeaveTimed(st, t));
    } else {
      var st1 := EndWait(st, t, bits);
      MovedFacts(st, st1, t, false, false);
      SortedByRanks(st.ready, st, st1);
      if st1.tcb[t].state == RT_SCHED_READY {
        BaseIsWellFormed(st1);
        EnqReadyByOrders(st1, t, byDeadline);
        SameSuits(st, st1, t, byDeadline);
      }
    }
  }

  lemma SameSuits(st: State, r: State, t: Task, byDeadline: bool)
    requires SameRanks(st, r) && r.ready == st.ready && t in st.tcb && forall u :: u in st.ready ==> u in st.tcb
    ensures Suits(st, t, byDeadline) <==> Suits(r, t, byDeadline)
  {
  }

  /** Every step but a misplacing waker's keeps the ready queue in order. */
  ghost predicate KeepsReadyOrder(st: State, s: Step)
    requires WellFormed(st) && Legal(st, s)
  {
    match s
    case Wake(t, bits, byDeadline) => !Misplaces(st, t, bits, byDeadline)
    case Release(t, bits, byDeadline) => !Misplaces(st, t, bits, byDeadline)
    case _ => true
  }

  lemma RemovedOrders(st: State, r: State, t: Task)
    requires WellFormed(st) && ReadyOrdered(st) && SameRanks(st, r)
    requires r.ready == Without(st.ready, t) || r.ready == st.ready
    ensures ReadyOrdered(r)
  {
    RemReadyOrders(st, t);
    hide WellFormed, Without, SameRanks, Sorted;
    SortedByRanks(r.ready, st, r);
  }

  lemma ReleaseOrders(st: State, t: Task, bits: bv32, byDeadline: bool)
    requires Consistent(st) && ReadyOrdered(st) && Legal(st, Release(t, bits, byDeadline))
    ensures ReadyOrdered(Apply(st, Release(t, bits, byDeadline))) <==> !Misplaces(st, t, bits, byDeadline)
  {
    DequeueBlockedStep(st, t);
    DequeueRanks(st, t);
    var st1 := DequeueBlocked(st, t);
    hide Base, Moved, WellFormed, Delayed, WithoutBits, WakeTask, DequeueBlocked, SameRanks, Suits, Sorted;
    MovedFacts(st, st1, t, t in st.ready, t in st.timed);
    SortedByRanks(st.ready, st, st1);
    WakeTaskOrders(st1, t, bits, byDeadline);
    SameSuits(st, st1, t, byDeadline);
  }

  /** Step by step, exactly. */
  lemma StepOrdered(st: State, s: Step)
    requires Consistent(st) && ReadyOrdered(st) && Legal(st, s)
    ensures ReadyOrdered(Apply(st, s)) <==> KeepsReadyOrder(st, s)
  {
    hide WellFormed, ReadyOrdered, Misplaces, Delayed, WithoutBits, WakeTask, SameRanks, Without;
    match s
    case Block(t, h, qtype, bits, timeout) =>
      BlockRanks(st, t, h, qtype, bits, timeout);
      RemovedOrders(st, Apply(st, s), t);
    case Sleep(t, time) =>
      SleepRanks(st, t, time);
      RemovedOrders(st, Apply(st, s), t);
    case Suspend(t) =>
      SuspendRanks(st, t);
      RemovedOrders(st, Apply(st, s), t);
    case Wake(t, bits, byDeadline) => WakeTaskOrders(st, t, bits, byDeadline);
    case Release(t, bits, byDeadline) => ReleaseOrders(st, t, bits, byDeadline);
    case Tick(now) => TickRanks(st, now);
    case Reprioritise(t, p) => RenqReadyOrders(st, t, p);
    case Inherit(to, from) => PassPrioQueues.PassPrioKeepsQueues(st, to, from);
  }

  /** No waker of the run misplaces a task. */
  ghost predicate OrderlyRun(st: State, run: seq<Step>)
    requires Consistent(st) && LegalRun(st, run)
    decreases |run|
  {
    run == [] ||
    (KeepsReadyOrder(st, run[0]) && (StepConsistent(st, run[0]); OrderlyRun(Apply(st, run[0]), run[1..])))
  }

  /** Over every such run the ready queue is ordered, and its first task is a best one. */
  lemma {:induction false} RunOrdered(st: State, run: seq<Step>)
    requires Consistent(st) && ReadyOrdered(st) && LegalRun(st, run) && OrderlyRun(st, run)
    ensures var r := Run(st, run);
            && ReadyOrdered(r)
            && forall t :: t in r.ready ==>
                             && r.ready[0] in r.tcb && t in r.tcb
                             && (Leq(ByUrgency, r.tcb[r.ready[0]], r.tcb[t]) || t == r.ready[0])
    decreases |run|
  {
    if run == [] {
      FirstLeads(st);
      hide Base, Leq;
    } else {
      StepConsistent(st, run[0]);
      StepOrdered(st, run[0]);
      hide Consistent, Legal, Apply, ReadyOrdered, KeepsReadyOrder, Leq;
      RunOrdered(Apply(st, run[0]), run[1..]);
    }
  }

  lemma FirstLeads(st: State)
    requires ReadyOrdered(st)
    ensures forall t :: t in st.ready ==>
              && st.ready[0] in st.tcb && t in st.tcb
              && (Leq(ByUrgency, st.tcb[st.ready[0]], st.tcb[t]) || t == st.ready[0])
  {
    forall t | t in st.ready
      ensures st.ready[0] in st.tcb && t in st.tcb
      ensures Leq(ByUrgency, st.tcb[st.ready[0]], st.tcb[t]) || t == st.ready[0]
    {
      var i :| 0 <= i < |st.ready| && st.ready[i] == t;
    }
  }

  /** d, with the deadline 7, is suspended; a has priority 0 and no deadline. */
  ghost function SuspendedDeadline(linux: Task, a: Task, d: Task): (r: State) {
    State(linux,
          map[linux := Tcb(RT_SCHED_LINUX_PRIORITY, 0, 0, 100, RT_SCHED_READY, null, null),
              a := Tcb(0, 0, 0, 0, RT_SCHED_READY, null, null),
              d := Tcb(0, -1, 7, 0, RT_SCHED_READY | RT_SCHED_SUSPENDED, null, null)],
          [a], [], map[])
  }

  /** So a waker that takes enq_ready_task for a deadline task can lose the order, in a
      consistent state: d ends up behind a. By deadline, it would not. */
  lemma DeadlineTaskMisplaced(linux: Task, a: Task, d: Task)
    requires linux != a && linux != d && a != d
    ensures var st := SuspendedDeadline(linux, a, d);
            && Consistent(st) && ReadyOrdered(st)
            && Legal(st, Wake(d, RT_SCHED_SUSPENDED, false)) && Legal(st, Wake(d, RT_SCHED_SUSPENDED, true))
            && !ReadyOrdered(Apply(st, Wake(d, RT_SCHED_SUSPENDED, false)))
            && ReadyOrdered(Apply(st, Wake(d, RT_SCHED_SUSPENDED, true)))
  {
    var st := SuspendedDeadline(linux, a, d);
    assert RealTasks(st) == {a, d};
    assert a in st.ready;
    assert Consistent(st);
    assert Misplaces(st, d, RT_SCHED_SUSPENDED, false);
    assert !Misplaces(st, d, RT_SCHED_SUSPENDED, true);
    hide Consistent, ReadyOrdered, Misplaces;
    StepOrdered(st, Wake(d, RT_SCHED_SUSPENDED, false));
    StepOrdered(st, Wake(d, RT_SCHED_SUSPENDED, true));
  }
}
