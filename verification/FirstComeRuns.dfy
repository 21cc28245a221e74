/** First come, first served in the ready queue over whole runs: a step that leaves two ready
    tasks alone keeps their order, and a step that gives a task its place puts it behind
    exactly the others that are at least as urgent. */
module FirstComeRuns {
  import opened Sequences
  import opened Tasks
  import opened SchedulerSpec
  import opened Orders
  import opened ReadyQueue
  import opened Runs
  import opened ReadyRuns
  import Inheritance
  import PassPrioQueues
  import PassPrioReady
  import TimedQueue
  import WellFormedness

  /** The step does not give the ready task u another place. */
  ghost predicate LeavesReady(st: State, s: Step, u: Task)
    requires WellFormed(st) && Legal(st, s)
  {
    match s
    case Block(t, _, _, _, _) => t != u
    case Sleep(t, _) => t != u
    case Suspend(t) => t != u
    case Reprioritise(t, p) => t != u || p == st.tcb[t].priority
    case Inherit(to, from) =>
      u !in Inheritance.Improved(st.tcb[from := st.tcb[from].(passedTo := to)], to, st.tcb[from].priority)
    case _ => true
  }

  /** Two members stay members, in their order. */
  ghost predicate KeepsPair(s: seq<Task>, r: seq<Task>, u: Task, v: Task) {
    u in r && v in r && (Before(r, u, v) <==> Before(s, u, v))
  }

  lemma WithoutKeepsPair(s: seq<Task>, t: Task, u: Task, v: Task)
    requires Distinct(s) && u in s && v in s && u != t && v != t
    ensures KeepsPair(s, Without(s, t), u, v)
  {
    hide Before, Distinct, Without;
    WithoutMembers(s, t);
    BeforeWithout(s, t, u, v);
  }

  lemma InsertKeepsPair(s: seq<Task>, k: nat, t: Task, u: Task, v: Task)
    requires k <= |s| && u in s && v in s && u != t && v != t
    ensures KeepsPair(s, InsertAt(s, k, t), u, v)
  {
    hide Before, InsertAt;
    InsertMembers(s, k, t);
    BeforeInserted(s, k, t, u, v);
  }

  lemma WakeKeepsPair(st: State, t: Task, bits: bv32, byDeadline: bool, u: Task, v: Task)
    requires t in st.tcb && u in st.ready && v in st.ready && u in st.tcb && v in st.tcb
    requires st.tcb[u].state == RT_SCHED_READY && st.tcb[v].state == RT_SCHED_READY
    ensures KeepsPair(st.ready, WakeTask(st, t, bits, byDeadline).ready, u, v)
  {
    hide StopAt, InsertAt, Without, WithoutBits, Delayed, KeepsPair, EndWait, LeaveTimed;
    EndWaitRanks(st, t, bits);
    SameKeepsPair(st.ready, u, v);
    if st.tcb[t].state != RT_SCHED_READY {
      var st1 := EndWait(st, t, bits);
      InsertKeepsPair(st.ready, StopAt(st.ready, st1.tcb, UpTo(st1.tcb[t].priority)), t, u, v);
      InsertKeepsPair(st.ready, StopAt(st.ready, st1.tcb, Deadline(st1.tcb[t].period)), t, u, v);
    }
  }

  lemma SameKeepsPair(s: seq<Task>, u: Task, v: Task)
    requires u in s && v in s
    ensures KeepsPair(s, s, u, v)
  {
  }

  lemma TickKeepsPair(st: State, now: int, u: Task, v: Task)
    requires Consistent(st) && u in st.ready && v in st.ready
    ensures KeepsPair(st.ready, WakeUp(st, now).ready, u, v)
  {
    DelayedNotReady(st);
    var k := StopAt(st.timed, st.tcb, Due(now));
    TimedQueue.PrefixWakeable(st, k);
    ReadyIsReal(st, u);
    ReadyIsReal(st, v);
    hide StopAt, WakeAll, Before, Bounded, TimedQueue.Wakeable, Woken;
    TimedQueue.WakeAllKeepsOrder(st, st.timed[..k], u, v);
    TimedQueue.WakeAllReady(st, st.timed[..k], u);
    TimedQueue.WakeAllReady(st, st.timed[..k], v);
  }

  lemma RenqKeepsPair(st: State, t: Task, p: int, u: Task, v: Task)
    requires WellFormed(st) && t in RealTasks(st) && u in st.ready && v in st.ready
    requires t in st.ready <==> st.tcb[t].state == RT_SCHED_READY
    requires p == st.tcb[t].priority || (u != t && v != t)
    ensures KeepsPair(st.ready, RenqReady(st, t, p).ready, u, v)
  {
    RenqReadyMembers(st, t, p);
    ReadyKnown(st);
    hide WellFormed, Before, Distinct, EnqReady, RemReady;
    if st.tcb[t].priority != p && st.tcb[t].state == RT_SCHED_READY {
      MovedInOrder(st, t, p);
    }
  }

  lemma InheritKeepsPair(st: State, to: Task?, from: Task, u: Task, v: Task)
    requires Consistent(st) && Legal(st, Inherit(to, from)) && u in st.ready && v in st.ready
    requires LeavesReady(st, Inherit(to, from), u) && LeavesReady(st, Inherit(to, from), v)
    ensures KeepsPair(st.ready, PassPrio(st, to, from).ready, u, v)
  {
    ReadyIsReal(st, u);
    ReadyIsReal(st, v);
    hide WellFormed, Bounded, TimedQueue.TimedOrdered, Before, PassPrio, Inheritance.Improved;
    PassPrioQueues.PassPrioKeepsQueues(st, to, from);
    PassPrioReady.PassPrioReadyPair(st, to, from, u, v);
  }

  /** A step that leaves two ready tasks alone leaves them ready and in their order. */
  lemma StepReadyPair(st: State, s: Step, u: Task, v: Task)
    requires Consistent(st) && Legal(st, s) && u in st.ready && v in st.ready
    requires LeavesReady(st, s, u) && LeavesReady(st, s, v)
    ensures KeepsPair(st.ready, Apply(st, s).ready, u, v)
  {
    ReadyKnown(st);
    ReadyIsReal(st, u);
    ReadyIsReal(st, v);
    hide WellFormed, Bounded, TimedQueue.TimedOrdered, KeepsPair, Distinct, WakeUp, WakeTask, PassPrio, RenqReady,
         Without, WithBits, WithoutBits, DequeueBlocked, Inheritance.Improved;
    match s
    case Block(t, h, qtype, bits, timeout) =>
      BlockRanks(st, t, h, qtype, bits, timeout);
      WithoutKeepsPair(st.ready, t, u, v);
    case Sleep(t, time) =>
      SleepRanks(st, t, time);
      WithoutKeepsPair(st.ready, t, u, v);
    case Suspend(t) =>
      SuspendRanks(st, t);
      WithoutKeepsPair(st.ready, t, u, v);
      SameKeepsPair(st.ready, u, v);
    case Wake(t, bits, byDeadline) => WakeKeepsPair(st, t, bits, byDeadline, u, v);
    case Release(t, bits, byDeadline) => ReleaseKeepsPair(st, t, bits, byDeadline, u, v);
    case Tick(now) => TickKeepsPair(st, now, u, v);
    case Reprioritise(t, p) => RenqKeepsPair(st, t, p, u, v);
    case Inherit(to, from) => InheritKeepsPair(st, to, from, u, v);
  }

  lemma ReleaseKeepsPair(st: State, t: Task, bits: bv32, byDeadline: bool, u: Task, v: Task)
    requires t in st.tcb && st.tcb[t].blockedOn != null
    requires u in st.ready && v in st.ready && u in st.tcb && v in st.tcb
    requires st.tcb[u].state == RT_SCHED_READY && st.tcb[v].state == RT_SCHED_READY
    ensures KeepsPair(st.ready, WakeTask(DequeueBlocked(st, t), t, bits, byDeadline).ready, u, v)
  {
    var st1 := DequeueBlocked(st, t);
    assert st1.ready == st.ready && u in st1.tcb && v in st1.tcb && t in st1.tcb;
    assert st1.tcb[u].state == RT_SCHED_READY && st1.tcb[v].state == RT_SCHED_READY;
    hide DequeueBlocked, WakeTask, KeepsPair;
    WakeKeepsPair(st1, t, bits, byDeadline, u, v);
  }

  ghost predicate RunLeavesReady(st: State, run: seq<Step>, u: Task, v: Task)
    requires Consistent(st) && LegalRun(st, run)
    decreases |run|
  {
    run == [] ||
    (LeavesReady(st, run[0], u) && LeavesReady(st, run[0], v)
     && (StepConsistent(st, run[0]); RunLeavesReady(Apply(st, run[0]), run[1..], u, v)))
  }

  /** And so does every run of such steps, whatever it does with other tasks. */
  lemma {:induction false} RunReadyPair(st: State, run: seq<Step>, u: Task, v: Task)
    requires Consistent(st) && LegalRun(st, run) && RunLeavesReady(st, run, u, v) && u in st.ready && v in st.ready
    ensures var r := Run(st, run);
            u in r.ready && v in r.ready && (Before(r.ready, u, v) <==> Before(st.ready, u, v))
    decreases |run|
  {
    if run != [] {
      hide Consistent, Legal, Apply, Before, LeavesReady;
      StepConsistent(st, run[0]);
      StepReadyPair(st, run[0], u, v);
      RunReadyPair(Apply(st, run[0]), run[1..], u, v);
    }
  }

  // The place that a step gives.

  /** The step makes v ready, or takes it out of the ready queue and puts it in again. */
  ghost predicate Places(st: State, s: Step, v: Task)
    requires WellFormed(st) && Legal(st, s) && v in st.tcb
  {
    match s
    case Wake(t, bits, _) =>
      t == v && st.tcb[v].state != RT_SCHED_READY && WithoutBits(st.tcb[v].state, bits) == RT_SCHED_READY
    case Release(t, bits, _) =>
      t == v && st.tcb[v].state != RT_SCHED_READY && WithoutBits(st.tcb[v].state, bits) == RT_SCHED_READY
    case Tick(now) => v in st.timed && st.tcb[v].resumeTime <= now && Woken(st.tcb[v].state) == RT_SCHED_READY
    case Reprioritise(t, p) => t == v && v in st.ready && p != st.tcb[v].priority
    case Inherit(to, from) =>
      v in st.ready
      && v in Inheritance.Improved(st.tcb[from := st.tcb[from].(passedTo := to)], to, st.tcb[from].priority)
    case _ => false
  }

  predicate ByDeadline(s: Step) {
    (s.Wake? || s.Release?) && s.byDeadline
  }

  /** v comes behind exactly those that are at least as urgent; but a waker that inserts it
      by deadline puts it ahead of all tasks without a deadline. */
  ghost predicate Placed(r: State, u: Task, v: Task, byDeadline: bool) {
    && u in r.tcb && v in r.tcb && u in r.ready && v in r.ready
    && (Before(r.ready, u, v) <==>
        Leq(ByUrgency, r.tcb[u], r.tcb[v]) && (byDeadline ==> r.tcb[u].policy < 0))
  }

  lemma WakePlaces(st: State, t: Task, bits: bv32, byDeadline: bool, u: Task)
    requires Base(st) && ReadyOrdered(st) && t in RealTasks(st) && u in st.ready
    requires forall w :: w in st.ready ==> w in st.tcb
    requires t !in st.ready && st.tcb[t].state != RT_SCHED_READY
    requires t in st.timed <==> Delayed(st.tcb[t].state)
    requires WithoutBits(st.tcb[t].state, bits) == RT_SCHED_READY && Suits(st, t, byDeadline)
    ensures Placed(WakeTask(st, t, bits, byDeadline), u, t, byDeadline)
  {
    hide Base, Moved, Delayed, WithoutBits, EndWait, LeaveTimed, EnqReadyBy, SameRanks, Suits, Sorted, Before, Leq;
    EndWaitStep(st, t, bits);
    EndWaitRanks(st, t, bits);
    var st1 := EndWait(st, t, bits);
    MovedFacts(st, st1, t, false, false);
    SortedByRanks(st.ready, st, st1);
    BaseIsWellFormed(st1);
    SameSuits(st, st1, t, byDeadline);
    EnqReadyByPlace(st1, t, byDeadline, u);
    EnqReadyMembers(st1, t, byDeadline);
    EnqReadyKeepsTcb(st1, t, byDeadline);
  }

  lemma ReleasePlaces(st: State, t: Task, bits: bv32, byDeadline: bool, u: Task)
    requires Consistent(st) && ReadyOrdered(st) && Legal(st, Release(t, bits, byDeadline)) && u in st.ready
    requires Places(st, Release(t, bits, byDeadline), t) && KeepsReadyOrder(st, Release(t, bits, byDeadline))
    ensures Placed(Apply(st, Release(t, bits, byDeadline)), u, t, byDeadline)
  {
    ReadyKnown(st);
    DequeueBlockedStep(st, t);
    DequeueRanks(st, t);
    var st1 := DequeueBlocked(st, t);
    hide Base, Moved, WellFormed, Delayed, WithoutBits, WakeTask, DequeueBlocked, SameRanks, Suits, Sorted, Placed;
    MovedFacts(st, st1, t, t in st.ready, t in st.timed);
    SortedByRanks(st.ready, st, st1);
    SameSuits(st, st1, t, byDeadline);
    ReadyAttributes(st, st1);
    WakePlaces(st1, t, bits, byDeadline, u);
  }

  lemma ReadyAttributes(st: State, r: State)
    requires SameRanks(st, r) && forall w :: w in st.ready ==> w in st.tcb
    ensures forall w :: w in st.ready ==> w in r.tcb
  {
  }

  lemma TickPlaces(st: State, now: int, u: Task, v: Task)
    requires Consistent(st) && ReadyOrdered(st) && u in st.ready && v in st.timed && v in st.tcb
    requires st.tcb[v].resumeTime <= now && Woken(st.tcb[v].state) == RT_SCHED_READY
    ensures Placed(WakeUp(st, now), u, v, false)
  {
    DelayedNotReady(st);
    ReadyIsReal(st, u);
    var k := StopAt(st.timed, st.tcb, Due(now));
    var due := st.timed[..k];
    var j :| 0 <= j < |st.timed| && st.timed[j] == v;
    TimedQueue.DueIsPrefix(st.timed, st.tcb, now);
    assert due[j] == v;
    TimedQueue.PrefixWakeable(st, k);
    TimedIsReal(st, v);
    hide StopAt, WakeAll, Before, Bounded, WellFormed, TimedQueue.Wakeable, Woken, Leq, ReadyOrdered, TimedQueue.Later;
    TimedQueue.WakeAllBehind(st, due, j, u);
    TimedQueue.WakeUpSplits(st, now);
    StatesNoMatter(st.tcb[u], st.tcb[v], WakeUp(st, now).tcb[u].state, WakeUp(st, now).tcb[v].state);
  }

  lemma TimedIsReal(st: State, v: Task)
    requires WellFormed(st) && v in st.timed
    ensures v in RealTasks(st)
  {
  }

  lemma StatesNoMatter(a: Tcb, b: Tcb, x: bv32, y: bv32)
    ensures Leq(ByUrgency, a.(state := x), b.(state := y)) <==> Leq(ByUrgency, a, b)
  {
  }

  lemma RenqPlaces(st: State, t: Task, p: int, u: Task)
    requires Consistent(st) && ReadyOrdered(st) && Legal(st, Reprioritise(t, p)) && u in st.ready
    requires t in st.ready && u != t && p != st.tcb[t].priority
    ensures Placed(RenqReady(st, t, p), u, t, false)
  {
    hide WellFormed, Bounded, TimedQueue.TimedOrdered, ReadyOrdered, RenqReady, Before, Leq, OthersInOrder;
    RenqReadyOrders(st, t, p);
    RenqReadyMembers(st, t, p);
  }

  lemma InheritPlaces(st: State, to: Task?, from: Task, u: Task, v: Task)
    requires Consistent(st) && ReadyOrdered(st) && Legal(st, Inherit(to, from)) && u in st.ready && v in st.tcb
    requires LeavesReady(st, Inherit(to, from), u) && Places(st, Inherit(to, from), v)
    ensures Placed(PassPrio(st, to, from), u, v, false)
  {
    ReadyIsReal(st, u);
    ReadyIsReal(st, v);
    var linked, p := st.tcb[from := st.tcb[from].(passedTo := to)], st.tcb[from].priority;
    hide WellFormed, Bounded, TimedQueue.TimedOrdered, ReadyOrdered, PassAlong, Before, Leq, Inheritance.Improved;
    PassPrioReady.PassPrioReadyPair(st, to, from, u, v);
    PassPrioQueues.PassPrioKeepsQueues(st, to, from);
    Inheritance.PassAlongRaisesImproved(SetPassedTo(st, from, to), to, p);
    PassPrioReady.LinksNoMatter(st.tcb[u], st.tcb[v].(priority := p), linked[u].passedTo, linked[v].passedTo);
  }

  /** Every step that gives v a place gives it this place, seen from a ready task u that it
      leaves alone. */
  lemma StepPlaces(st: State, s: Step, u: Task, v: Task)
    requires Consistent(st) && ReadyOrdered(st) && Legal(st, s) && KeepsReadyOrder(st, s)
    requires u in st.ready && LeavesReady(st, s, u) && v in st.tcb && u != v && Places(st, s, v)
    ensures Placed(Apply(st, s), u, v, ByDeadline(s))
  {
    ReadyKnown(st);
    ReadyIsReal(st, u);
    assert forall w :: w in st.ready ==> w in st.tcb;
    hide WellFormed, Bounded, TimedQueue.TimedOrdered, ReadyOrdered, Placed, WakeUp, WakeTask, PassPrio, RenqReady,
         WithoutBits, DequeueBlocked, Inheritance.Improved, Suits, Delayed, Woken;
    match s
    case Wake(t, bits, byDeadline) => WakePlaces(st, t, bits, byDeadline, u);
    case Release(t, bits, byDeadline) => ReleasePlaces(st, t, bits, byDeadline, u);
    case Tick(now) => TickPlaces(st, now, u, v);
    case Reprioritise(t, p) => RenqPlaces(st, t, p, u);
    case Inherit(to, from) => InheritPlaces(st, to, from, u, v);
  }

  /** First come, first served: once a step has given v its place, u stands ahead of it if
      and only if it was at least as urgent then, over every run that leaves both alone. Of
      equals, the one that came first stands first, unless v was inserted by deadline and
      has none. */
  lemma FirstComeFirst(st: State, s: Step, st1: State, run: seq<Step>, u: Task, v: Task)
    requires Consistent(st) && ReadyOrdered(st) && Legal(st, s) && KeepsReadyOrder(st, s)
    requires u in st.ready && LeavesReady(st, s, u) && v in st.tcb && u != v && Places(st, s, v)
    requires st1 == Apply(st, s) && Consistent(st1) && LegalRun(st1, run) && RunLeavesReady(st1, run, u, v)
    ensures u in st1.tcb && v in st1.tcb
    ensures var r := Run(st1, run);
            && u in r.ready && v in r.ready
            && (Before(r.ready, u, v) <==>
                Leq(ByUrgency, st1.tcb[u], st1.tcb[v]) && (ByDeadline(s) ==> st1.tcb[u].policy < 0))
  {
    hide Consistent, ReadyOrdered, Legal, Apply, KeepsReadyOrder, LeavesReady, Places, Before, Leq;
    StepPlaces(st, s, u, v);
    RunReadyPair(st1, run, u, v);
  }

  /** a is ready; b, of the same priority, is suspended; neither has a deadline. */
  ghost function SuspendedEqual(linux: Task, a: Task, b: Task): (r: State) {
    State(linux,
          map[linux := Tcb(RT_SCHED_LINUX_PRIORITY, 0, 0, 100, RT_SCHED_READY, null, null),
              a := Tcb(5, 0, 0, 0, RT_SCHED_READY, null, null),
              b := Tcb(5, 0, 0, 0, RT_SCHED_READY | RT_SCHED_SUSPENDED, null, null)],
          [a], [], map[])
  }

  /** Both insertions keep the queue in order, but only one serves a, which came first, first. */
  lemma EqualInsertedByDeadline(linux: Task, a: Task, b: Task)
    requires linux != a && linux != b && a != b
    ensures var st := SuspendedEqual(linux, a, b);
            && Consistent(st) && ReadyOrdered(st)
            && (forall e :: Legal(st, Wake(b, RT_SCHED_SUSPENDED, e)))
            && (forall e :: ReadyOrdered(Apply(st, Wake(b, RT_SCHED_SUSPENDED, e))))
            && Before(Apply(st, Wake(b, RT_SCHED_SUSPENDED, false)).ready, a, b)
            && !Before(Apply(st, Wake(b, RT_SCHED_SUSPENDED, true)).ready, a, b)
  {
    var st := SuspendedEqual(linux, a, b);
    assert RealTasks(st) == {a, b};
    assert a in st.ready;
    assert Consistent(st);
    forall e: bool
      ensures Legal(st, Wake(b, RT_SCHED_SUSPENDED, e))
      ensures ReadyOrdered(Apply(st, Wake(b, RT_SCHED_SUSPENDED, e)))
      ensures Before(Apply(st, Wake(b, RT_SCHED_SUSPENDED, e)).ready, a, b) <==> !e
    {
      EqualWoken(st, a, b, e);
    }
  }

  lemma EqualWoken(st: State, a: Task, b: Task, byDeadline: bool)
    requires Consistent(st) && ReadyOrdered(st) && a in RealTasks(st) && b in RealTasks(st) && st.ready == [a]
    requires st.tcb[a].priority == st.tcb[b].priority && st.tcb[a].policy >= 0 && st.tcb[b].policy >= 0
    requires st.tcb[b].state == RT_SCHED_READY | RT_SCHED_SUSPENDED
    ensures var s := Wake(b, RT_SCHED_SUSPENDED, byDeadline);
            && Legal(st, s) && ReadyOrdered(Apply(st, s))
            && (Before(Apply(st, s).ready, a, b) <==> !byDeadline)
  {
    var s := Wake(b, RT_SCHED_SUSPENDED, byDeadline);
    assert a in st.ready && a != b;
    assert KeepsReadyOrder(st, s);
    assert Places(st, s, b) && LeavesReady(st, s, a);
    var r := Apply(st, s);
    WakeTaskRanks(st, b, RT_SCHED_SUSPENDED, byDeadline);
    hide Base, Before, ReadyOrdered, KeepsReadyOrder, Places, LeavesReady, WakeTask, Delayed;
    StepPlaces(st, s, a, b);
    StepOrdered(st, s);
  }
}
