/** The order of the timed queue over whole runs: two tasks that wait for one time are woken
    in the reverse of the order in which they began to wait. */
module TimedRuns {
  import opened Sequences
  import opened Tasks
  import opened SchedulerSpec
  import opened Orders
  import opened ReadyQueue
  import opened TimedQueue
  import opened Runs
  import opened WaitRuns
  import PassPrioQueues
  import ReadyRuns

  /** The step neither touches the wait of a nor ends it. */
  ghost predicate LeavesWaiting(st: State, s: Step, a: Task)
    requires a in st.tcb
  {
    match s
    case Block(t, _, _, _, _) => t != a
    case Sleep(t, _) => t != a
    case Suspend(t) => t != a
    case Wake(t, _, _) => t != a
    case Release(t, _, _) => t != a
    case Tick(now) => now < st.tcb[a].resumeTime
    case Reprioritise(_, _) => true
    case Inherit(_, _) => true
  }

  /** One task enters the timed queue or leaves it, if that. */
  ghost predicate OneMoved(s: seq<Task>, r: seq<Task>, t: Task) {
    r == s || r == Without(s, t) || exists k: nat :: k <= |s| && r == InsertAt(s, k, t)
  }

  lemma OneMovedPair(s: seq<Task>, r: seq<Task>, t: Task, a: Task, b: Task)
    requires Distinct(s) && OneMoved(s, r, t) && a != t && b != t
    ensures Before(r, b, a) <==> Before(s, b, a)
  {
    hide Before, Distinct, Without, InsertAt;
    if r == Without(s, t) {
      BeforeWithout(s, t, b, a);
    } else if r != s {
      var k: nat :| k <= |s| && r == InsertAt(s, k, t);
      BeforeInserted(s, k, t, b, a);
    }
  }

  lemma TimeoutMoves(st: State, t: Task, time: int)
    requires t in st.tcb
    ensures OneMoved(st.timed, Timeout(st, t, time).timed, t)
  {
    hide StopAt, WithBits, InsertAt;
  }

  lemma BlockMoves(st: State, t: Task, h: Queue, qtype: int, bits: bv32, timeout: Option<int>)
    requires WellFormed(st) && Legal(st, Block(t, h, qtype, bits, timeout))
    ensures OneMoved(st.timed, Apply(st, Block(t, h, qtype, bits, timeout)).timed, t)
  {
    ReadyIsReal(st, t);
    hide WellFormed, StopAt, InsertAt, Without, WithBits, Timeout, OneMoved;
    if timeout.Some? {
      TimeoutMoves(Join(st, t, h, qtype, bits), t, timeout.value);
    } else {
      NoneMoved(st.timed, t);
    }
  }

  lemma NoneMoved(s: seq<Task>, t: Task)
    ensures OneMoved(s, s, t) && OneMoved(s, Without(s, t), t)
  {
  }

  lemma SleepMoves(st: State, t: Task, time: int)
    requires WellFormed(st) && Legal(st, Sleep(t, time))
    ensures OneMoved(st.timed, Apply(st, Sleep(t, time)).timed, t)
  {
    ReadyIsReal(st, t);
    hide WellFormed, Without, Timeout, OneMoved;
    TimeoutMoves(RemReady(st, t), t, time);
  }

  lemma WakeTaskMoves(st: State, t: Task, bits: bv32, byDeadline: bool)
    requires t in st.tcb
    ensures OneMoved(st.timed, WakeTask(st, t, bits, byDeadline).timed, t)
  {
    NoneMoved(st.timed, t);
    hide StopAt, Queued, Without, WithoutBits, Delayed, OneMoved;
  }

  lemma TickPair(st: State, now: int, a: Task, b: Task)
    requires Consistent(st) && a in st.tcb && b in st.tcb
    requires now < st.tcb[a].resumeTime && now < st.tcb[b].resumeTime
    ensures Before(WakeUp(st, now).timed, b, a) <==> Before(st.timed, b, a)
  {
    var k := StopAt(st.timed, st.tcb, Due(now));
    DueIsPrefix(st.timed, st.tcb, now);
    hide StopAt, WakeAll, Before, WellFormed;
    BeforeDropped(st.timed, k, b, a);
  }

  /** Such a step keeps the two waits and their order. */
  lemma StepPair(st: State, s: Step, a: Task, b: Task)
    requires Consistent(st) && Legal(st, s) && a in st.timed && b in st.timed && a in st.tcb && b in st.tcb
    requires LeavesWaiting(st, s, a) && LeavesWaiting(st, s, b)
    ensures Before(Apply(st, s).timed, b, a) <==> Before(st.timed, b, a)
  {
    TimedIsQueue(st);
    hide WellFormed, Bounded, Distinct, Before, OneMoved, WakeUp, WakeTask, PassPrio, RenqReady, Without, WithBits,
         WithoutBits;
    match s
    case Block(t, h, qtype, bits, timeout) =>
      BlockMoves(st, t, h, qtype, bits, timeout);
      OneMovedPair(st.timed, Apply(st, s).timed, t, a, b);
    case Sleep(t, time) =>
      SleepMoves(st, t, time);
      OneMovedPair(st.timed, Apply(st, s).timed, t, a, b);
    case Suspend(t) =>
    case Wake(t, bits, byDeadline) =>
      WakeTaskMoves(st, t, bits, byDeadline);
      OneMovedPair(st.timed, Apply(st, s).timed, t, a, b);
    case Release(t, bits, byDeadline) =>
      WakeTaskMoves(DequeueBlocked(st, t), t, bits, byDeadline);
      OneMovedPair(st.timed, Apply(st, s).timed, t, a, b);
    case Tick(now) => TickPair(st, now, a, b);
    case Reprioritise(t, p) => RenqReadyMembers(st, t, p);
    case Inherit(to, from) => PassPrioQueues.PassPrioKeepsQueues(st, to, from);
  }

  lemma StepWaiting(st: State, s: Step, a: Task)
    requires Consistent(st) && Legal(st, s) && a in st.timed && a in st.tcb && LeavesWaiting(st, s, a)
    ensures var r := Apply(st, s);
            && a in r.timed && a in r.tcb
            && r.tcb[a].resumeTime == st.tcb[a].resumeTime && r.tcb[a].state == st.tcb[a].state
  {
    StepConsistent(st, s);
    WaitsOn(st, s, a);
    hide Legal, Apply, WellFormed, Bounded, Delayed;
    TimedIsQueue(st);
    var r := Apply(st, s);
    assert a in RealTasks(r);
  }

  lemma WaitsOn(st: State, s: Step, a: Task)
    requires Consistent(st) && Legal(st, s) && a in st.timed && a in st.tcb && LeavesWaiting(st, s, a)
    ensures var r := Apply(st, s);
            && a in r.tcb && r.linux == st.linux
            && r.tcb[a].resumeTime == st.tcb[a].resumeTime && r.tcb[a].state == st.tcb[a].state
  {
    hide WellFormed, Bounded, TimedOrdered, WakeUp, WakeTask, PassPrio, RenqReady, Without, WithBits, WithoutBits;
    match s
    case Block(t, h, qtype, bits, timeout) => BlockWaits(st, t, h, qtype, bits, timeout);
    case Sleep(t, time) => SleepWaits(st, t, time);
    case Suspend(t) => SuspendWaits(st, t);
    case Wake(t, bits, byDeadline) => WakeTaskWaits(st, t, bits, byDeadline);
    case Release(t, bits, byDeadline) => ReleaseWaits(st, t, bits, byDeadline);
    case Tick(now) =>
      DelayedNotReady(st);
      WakeUpSplits(st, now);
    case Reprioritise(t, p) => RenqReadyMembers(st, t, p);
    case Inherit(to, from) => PassPrioKeepsTimes(st, to, from);
  }

  ghost predicate RunLeavesWaiting(st: State, run: seq<Step>, a: Task, b: Task)
    requires Consistent(st) && LegalRun(st, run)
    decreases |run|
  {
    run == [] ||
    (a in st.tcb && b in st.tcb && LeavesWaiting(st, run[0], a) && LeavesWaiting(st, run[0], b)
     && (StepConsistent(st, run[0]); RunLeavesWaiting(Apply(st, run[0]), run[1..], a, b)))
  }

  /** Over any run that leaves the two waits alone, whatever it does with other tasks. */
  lemma {:induction false} RunPair(st: State, run: seq<Step>, a: Task, b: Task)
    requires Consistent(st) && LegalRun(st, run) && a in st.timed && b in st.timed && a in st.tcb && b in st.tcb
    requires RunLeavesWaiting(st, run, a, b)
    ensures var r := Run(st, run);
            && a in r.timed && b in r.timed && a in r.tcb && b in r.tcb
            && r.tcb[a].resumeTime == st.tcb[a].resumeTime && r.tcb[a].state == st.tcb[a].state
            && r.tcb[b].resumeTime == st.tcb[b].resumeTime && r.tcb[b].state == st.tcb[b].state
            && (Before(r.timed, b, a) <==> Before(st.timed, b, a))
    decreases |run|
  {
    if run != [] {
      StepConsistent(st, run[0]);
      StepPair(st, run[0], a, b);
      StepWaiting(st, run[0], a);
      StepWaiting(st, run[0], b);
      hide Consistent, Legal, Apply, Before, LeavesWaiting;
      RunPair(Apply(st, run[0]), run[1..], a, b);
    }
  }

  /** b begins to wait for the time that a waits for: it comes to stand ahead of a. */
  lemma TimeoutNewer(st: State, a: Task, b: Task, time: int)
    requires Base(st) && b in RealTasks(st) && b !in st.timed && time <= st.tcb[st.linux].resumeTime
    requires a in st.timed && a in st.tcb && st.tcb[a].resumeTime == time
    ensures Before(Timeout(st, b, time).timed, b, a)
  {
    hide Base, Moved, WithBits, Before;
    var c := st.tcb[b].(state := WithBits(st.tcb[b].state, RT_SCHED_DELAYED), resumeTime := time);
    Retouched(st, b, c);
    var st1 := st.(tcb := st.tcb[b := c]);
    assert SetResumeTime(AddBits(st, b, RT_SCHED_DELAYED), b, time) == st1;
    MovedFacts(st, st1, b, b in st.ready, b in st.timed);
    BaseIsWellFormed(st1);
    NewerFirst(st1, a, b);
  }

  /** Step s makes b wait for time. */
  predicate WaitsFor(s: Step, b: Task, time: int) {
    match s
    case Sleep(t, until) => t == b && until == time
    case Block(t, _, _, _, timeout) => t == b && timeout == Some(time)
    case _ => false
  }

  lemma StartNewer(st: State, s: Step, a: Task, b: Task)
    requires Consistent(st) && Legal(st, s) && a in st.timed && a in st.tcb && WaitsFor(s, b, st.tcb[a].resumeTime)
    ensures a != b && LeavesWaiting(st, s, a) && b in Apply(st, s).timed && b in Apply(st, s).tcb
    ensures Apply(st, s).tcb[b].resumeTime == st.tcb[a].resumeTime
    ensures Before(Apply(st, s).timed, b, a)
  {
    ReadyIsReal(st, b);
    DelayedNotReady(st);
    var time := st.tcb[a].resumeTime;
    hide Base, Moved, WellFormed, Delayed, WithBits, Timeout, Join, Before;
    if s.Sleep? {
      RemReadyStep(st, b);
      StartedNewer(st, RemReady(st, b), a, b, time);
    } else {
      JoinStep(st, b, s.h, s.qtype, s.bits);
      StartedNewer(st, Join(st, b, s.h, s.qtype, s.bits), a, b, time);
    }
  }

  lemma StartedNewer(st: State, st1: State, a: Task, b: Task, time: int)
    requires Base(st) && b in RealTasks(st) && Moved(st, st1, b, false, false) && b in st1.tcb
    requires st.linux in st.tcb && time <= st.tcb[st.linux].resumeTime && a in RealTasks(st)
    requires a in st.timed && a != b && st.tcb[a].resumeTime == time
    ensures var r := Timeout(st1, b, time);
            b in r.timed && b in r.tcb && r.tcb[b].resumeTime == time && Before(r.timed, b, a)
  {
    MovedFacts(st, st1, b, false, false);
    hide Base, WithBits, Before, Timeout;
    TimeoutNewer(st1, a, b, time);
    TimeoutStep(st1, b, time);
    TimeoutTime(st1, b, time);
  }

  lemma TimeoutTime(st: State, b: Task, time: int)
    requires b in st.tcb
    ensures b in Timeout(st, b, time).tcb && Timeout(st, b, time).tcb[b].resumeTime == time
  {
    hide WithBits, Queued;
  }

  /** b begins to wait for the time that a waits for already; whatever happens to other
      tasks in between, the tick that ends both waits makes b ready ahead of a, unless a
      is the more urgent then. */
  lemma WokenInReverse(st: State, s: Step, st1: State, run: seq<Step>, a: Task, b: Task, now: int)
    requires Consistent(st) && Legal(st, s) && a in st.timed && a in st.tcb && WaitsFor(s, b, st.tcb[a].resumeTime)
    requires st1 == Apply(st, s) && Consistent(st1) && LegalRun(st1, run) && RunLeavesWaiting(st1, run, a, b)
    requires var st2 := Run(st1, run);
             && ReadyOrdered(st2) && st.tcb[a].resumeTime <= now
             && a in st2.tcb && b in st2.tcb
             && var x, y := st2.tcb[a], st2.tcb[b];
                && Leq(ByUrgency, y, x)
                && Woken(x.state) == RT_SCHED_READY && Woken(y.state) == RT_SCHED_READY
    ensures Before(WakeUp(Run(st1, run), now).ready, b, a)
  {
    hide Legal, Apply, Before, Woken, LeavesWaiting, WaitsFor, WellFormed, Bounded, TimedOrdered, ReadyOrdered, Delayed,
         Leq;
    StartNewer(st, s, a, b);
    StepWaiting(st, s, a);
    RunPair(st1, run, a, b);
    var st2 := Run(st1, run);
    RunConsistent(st1, run);
    DelayedNotReady(st2);
    WakeUpPair(st2, b, a, now);
  }

  /** a sleeps until 7; b, of the same priority, is running. */
  ghost function Sleeper(linux: Task, a: Task, b: Task): (r: State) {
    State(linux,
          map[linux := Tcb(RT_SCHED_LINUX_PRIORITY, 0, 0, 100, RT_SCHED_READY, null, null),
              a := Tcb(5, 0, 0, 7, RT_SCHED_READY | RT_SCHED_DELAYED, null, null),
              b := Tcb(5, 0, 0, 0, RT_SCHED_READY, null, null)],
          [b], [a], map[])
  }

  /** b goes to sleep until 7 too, and the tick at 7 makes it ready ahead of a. */
  lemma SleepersExample(linux: Task, a: Task, b: Task)
    requires linux != a && linux != b && a != b
    ensures var st := Sleeper(linux, a, b);
            && Consistent(st) && Legal(st, Sleep(b, 7))
            && var r := WakeUp(Apply(st, Sleep(b, 7)), 7); Before(r.ready, b, a)
  {
    var st := Sleeper(linux, a, b);
    assert RealTasks(st) == {a, b};
    assert a in st.timed && b in st.ready;
    SleeperBits();
    assert Consistent(st) by {
      hide Delayed;
    }
    var st1 := Apply(st, Sleep(b, 7));
    hide Base, Delayed, Woken, WakeUp, Before, ReadyOrdered, WithBits;
    StepConsistent(st, Sleep(b, 7));
    SleepWaits(st, b, 7);
    ReadyRuns.StepOrdered(st, Sleep(b, 7));
    ReadyRuns.SleepRanks(st, b, 7);
    SleepState(st, b, 7);
    WokenInReverse(st, Sleep(b, 7), st1, [], a, b, 7);
  }

  lemma SleepState(st: State, t: Task, time: int)
    requires WellFormed(st) && Legal(st, Sleep(t, time))
    ensures var r := Apply(st, Sleep(t, time));
            t in r.tcb && r.tcb[t].state == WithBits(st.tcb[t].state, RT_SCHED_DELAYED)
  {
    ReadyIsReal(st, t);
    hide WellFormed, StopAt, Queued, Without, WithBits;
  }

  lemma SleeperBits()
    ensures Delayed(RT_SCHED_READY | RT_SCHED_DELAYED) && !Delayed(RT_SCHED_READY)
    ensures RT_SCHED_READY | RT_SCHED_DELAYED != RT_SCHED_READY
    ensures WithBits(RT_SCHED_READY, RT_SCHED_DELAYED) == RT_SCHED_READY | RT_SCHED_DELAYED
    ensures Woken(RT_SCHED_READY | RT_SCHED_DELAYED) == RT_SCHED_READY
  {
  }
}
