/** The order of arrival in one wait queue over whole runs: for each step, exactly when it
    keeps it, and which callers always do. */
module ArrivalRuns {
  import opened Sequences
  import opened Tasks
  import opened SchedulerSpec
  import opened PassPrioQueues
  import opened PassPrioPlaces
  import opened Runs
  import opened WaitRuns
  import WellFormedness
  import ReadyRuns
  import Inheritance

  /** The queue h after the step, if newcomers go to the end and nobody changes places. */
  function Expected(st: State, s: Step, h: Queue, arrived: seq<Task>): (r: seq<Task>) {
    match s
    case Block(t, g, _, _, _) => if g == h then arrived + [t] else arrived
    case Release(t, _, _) => if t in st.tcb && st.tcb[t].blockedOn == h then Without(arrived, t) else arrived
    case _ => arrived
  }

  /** Nobody behind whom the newcomer belongs is less urgent, and whoever pass_prio puts
      back in h is in place there. */
  ghost predicate KeepsArrivals(st: State, s: Step, h: Queue)
    requires WellFormed(st) && Legal(st, s) && h in st.waiting && forall t :: t in st.waiting[h] ==> t in st.tcb
  {
    match s
    case Block(t, g, qtype, _, _) =>
      g == h && qtype == 0 ==> forall u :: u in st.waiting[h] ==> st.tcb[u].priority <= st.tcb[t].priority
    case Inherit(to, from) =>
      AllInPlace(st.waiting[h], h, st.tcb[from := st.tcb[from].(passedTo := to)], to, st.tcb[from].priority)
    case _ => true
  }

  /** Put at the end, exactly when everyone passes. */
  lemma AtTheEnd(w: seq<Task>, tcb: map<Task, Tcb>, p: int, t: Task)
    requires (forall u :: u in w ==> u in tcb) && t !in w
    ensures Queued(w, tcb, UpTo(p), t) == w + [t] <==> forall u :: u in w ==> tcb[u].priority <= p
  {
    var k := StopAt(w, tcb, UpTo(p));
    var r := InsertAt(w, k, t);
    assert r[k] == t;
    if r == w + [t] {
      assert k == |w|;
    } else if k < |w| {
      assert w[k] in w;
    }
  }

  lemma BlockArrives(st: State, t: Task, h: Queue, qtype: int, bits: bv32, timeout: Option<int>)
    requires WellFormed(st) && Legal(st, Block(t, h, qtype, bits, timeout))
    ensures var r := Apply(st, Block(t, h, qtype, bits, timeout));
            && h in r.waiting
            && (forall u :: u in st.waiting[h] ==> u in st.tcb)
            && (r.waiting[h] == st.waiting[h] + [t] <==>
                (qtype == 0 ==> forall u :: u in st.waiting[h] ==> st.tcb[u].priority <= st.tcb[t].priority))
  {
    BlockWaits(st, t, h, qtype, bits, timeout);
    WaitersBlocked(st, h);
    ReadyIsReal(st, t);
    var w := st.waiting[h];
    var tcb := st.tcb[t := st.tcb[t].(state := WithBits(st.tcb[t].state, bits), blockedOn := h)];
    assert t !in w;
    hide WellFormed, Apply, Legal, StopAt, WithBits;
    assert forall u :: u in w ==> u in tcb && tcb[u].priority == st.tcb[u].priority;
    if qtype == 0 {
      AtTheEnd(w, tcb, st.tcb[t].priority, t);
    } else {
      assert InsertAt(w, |w|, t) == w + [t];
    }
  }

  /** Step by step, for queues of either type: exactly when h is what the arrivals make it. */
  lemma StepArrivals(st: State, s: Step, h: Queue)
    requires Consistent(st) && Legal(st, s) && h in st.waiting
    requires forall t :: t in st.waiting[h] ==> t in st.tcb
    ensures var r := Apply(st, s);
            h in r.waiting && (r.waiting[h] == Expected(st, s, h, st.waiting[h]) <==> KeepsArrivals(st, s, h))
  {
    hide WellFormed, Without, WakeUp, PassPrio, AllInPlace, StopAt, InsertAt, WithBits, WithoutBits, Delayed;
    match s
    case Block(t, g, qtype, bits, timeout) =>
      BlockWaits(st, t, g, qtype, bits, timeout);
      BlockArrives(st, t, g, qtype, bits, timeout);
    case Release(t, bits, byDeadline) => ReleaseWaits(st, t, bits, byDeadline);
    case Tick(now) => TickWaits(st, now);
    case Reprioritise(t, p) => RenqReadyMembers(st, t, p);
    case Inherit(to, from) => PassPrioInPlace(st, to, from, h);
    case Sleep(t, time) => SleepWaits(st, t, time);
    case Suspend(t) => SuspendWaits(st, t);
    case Wake(t, bits, byDeadline) => WakeTaskWaits(st, t, bits, byDeadline);
  }

  /** The queue that the run's arrivals and departures make of arrived. */
  ghost function ExpectedAfter(st: State, run: seq<Step>, h: Queue, arrived: seq<Task>): (r: seq<Task>)
    requires Consistent(st) && LegalRun(st, run)
    decreases |run|
  {
    if run == [] then arrived
    else
      StepConsistent(st, run[0]);
      ExpectedAfter(Apply(st, run[0]), run[1..], h, Expected(st, run[0], h, arrived))
  }

  // When the callers keep to arrival order: whoever waits on h is ready again, or is
  // marked as waiting for a semaphore.

  ghost predicate Marked(st: State, h: Queue)
    requires h in st.waiting && forall t :: t in st.waiting[h] ==> t in st.tcb
  {
    forall t :: t in st.waiting[h] ==> !Unmarked(st.tcb[t])
  }

  /** Newcomers join h at its end, with the mark; a waiter loses the mark only to become
      ready, and is not suspended or put to sleep once it is ready. */
  ghost predicate Tidy(st: State, s: Step, h: Queue)
    requires WellFormed(st) && Legal(st, s)
  {
    match s
    case Block(t, g, qtype, bits, _) => g == h ==> qtype != 0 && bits & RT_SCHED_SEMAPHORE != 0
    case Sleep(t, _) => t in st.tcb ==> st.tcb[t].blockedOn != h
    case Suspend(t) => st.tcb[t].blockedOn == h ==> st.tcb[t].state != RT_SCHED_READY
    case Wake(t, bits, _) =>
      st.tcb[t].blockedOn == h && bits & RT_SCHED_SEMAPHORE != 0 && st.tcb[t].state != RT_SCHED_READY ==>
        WithoutBits(st.tcb[t].state, bits) == RT_SCHED_READY
    case Tick(now) =>
      forall t :: t in st.timed && t in st.tcb && st.tcb[t].blockedOn == h && st.tcb[t].resumeTime <= now ==>
                    Woken(st.tcb[t].state) == RT_SCHED_READY
    case _ => true
  }

  lemma Marking(state: bv32, bits: bv32)
    ensures state & RT_SCHED_SEMAPHORE != 0 || bits & RT_SCHED_SEMAPHORE != 0 ==>
              WithBits(state, bits) & RT_SCHED_SEMAPHORE != 0
    ensures bits & RT_SCHED_SEMAPHORE == 0 && state & RT_SCHED_SEMAPHORE != 0 ==>
              WithoutBits(state, bits) & RT_SCHED_SEMAPHORE != 0
  {
  }

  lemma TidyBlock(st: State, t: Task, g: Queue, qtype: int, bits: bv32, timeout: Option<int>, h: Queue)
    requires WellFormed(st) && Legal(st, Block(t, g, qtype, bits, timeout)) && h in st.waiting
    requires (forall u :: u in st.waiting[h] ==> u in st.tcb) && Marked(st, h)
    requires Tidy(st, Block(t, g, qtype, bits, timeout), h)
    ensures var r := Apply(st, Block(t, g, qtype, bits, timeout));
            h in r.waiting && (forall u :: u in r.waiting[h] ==> u in r.tcb) && Marked(r, h)
  {
    BlockWaits(st, t, g, qtype, bits, timeout);
    WaitersBlocked(st, h);
    var r := Apply(st, Block(t, g, qtype, bits, timeout));
    if g == h {
      BlockArrives(st, t, h, qtype, bits, timeout);
      Marking(st.tcb[t].state, bits);
      Marking(WithBits(st.tcb[t].state, bits), RT_SCHED_DELAYED);
      hide WellFormed, Apply, Legal, StopAt, InsertAt, WithBits;
      assert r.waiting[h] == st.waiting[h] + [t];
    } else {
      assert t !in st.waiting[h];
    }
  }

  lemma TidyOne(st: State, r: State, t: Task, h: Queue)
    requires h in st.waiting && h in r.waiting && OthersSame(st, r, t)
    requires (forall u :: u in st.waiting[h] ==> u in st.tcb) && Marked(st, h)
    requires forall u :: u in r.waiting[h] ==> u in st.waiting[h]
    requires t in r.waiting[h] ==> !Unmarked(r.tcb[t])
    ensures (forall u :: u in r.waiting[h] ==> u in r.tcb) && Marked(r, h)
  {
    hide Unmarked;
  }

  lemma TidySleep(st: State, t: Task, time: int, h: Queue)
    requires WellFormed(st) && Legal(st, Sleep(t, time)) && h in st.waiting
    requires (forall u :: u in st.waiting[h] ==> u in st.tcb) && Marked(st, h) && Tidy(st, Sleep(t, time), h)
    ensures var r := Apply(st, Sleep(t, time));
            h in r.waiting && (forall u :: u in r.waiting[h] ==> u in r.tcb) && Marked(r, h)
  {
    WaitersBlocked(st, h);
    SleepWaits(st, t, time);
    hide WellFormed, Marked, Apply, Legal;
    TidyOne(st, Apply(st, Sleep(t, time)), t, h);
  }

  lemma TidySuspend(st: State, t: Task, h: Queue)
    requires WellFormed(st) && Legal(st, Suspend(t)) && h in st.waiting
    requires (forall u :: u in st.waiting[h] ==> u in st.tcb) && Marked(st, h) && Tidy(st, Suspend(t), h)
    ensures var r := Apply(st, Suspend(t));
            h in r.waiting && (forall u :: u in r.waiting[h] ==> u in r.tcb) && Marked(r, h)
  {
    WaitersBlocked(st, h);
    SuspendWaits(st, t);
    var r := Apply(st, Suspend(t));
    hide WellFormed, Marked, Unmarked, Apply, Legal, WithBits;
    if t in st.waiting[h] {
      StillMarked(st, t, h, RT_SCHED_SUSPENDED, r.tcb[t]);
    }
    TidyOne(st, r, t, h);
  }

  lemma TidyWake(st: State, t: Task, bits: bv32, byDeadline: bool, h: Queue)
    requires WellFormed(st) && Legal(st, Wake(t, bits, byDeadline)) && h in st.waiting
    requires (forall u :: u in st.waiting[h] ==> u in st.tcb) && Marked(st, h) && Tidy(st, Wake(t, bits, byDeadline), h)
    ensures var r := Apply(st, Wake(t, bits, byDeadline));
            h in r.waiting && (forall u :: u in r.waiting[h] ==> u in r.tcb) && Marked(r, h)
  {
    WaitersBlocked(st, h);
    WakeTaskWaits(st, t, bits, byDeadline);
    var r := Apply(st, Wake(t, bits, byDeadline));
    hide WellFormed, Marked, Unmarked, WakeTask, WithoutBits;
    if t in st.waiting[h] {
      StillMarked(st, t, h, bits, r.tcb[t]);
    }
    TidyOne(st, r, t, h);
  }

  lemma TidyRelease(st: State, t: Task, bits: bv32, byDeadline: bool, h: Queue)
    requires WellFormed(st) && Legal(st, Release(t, bits, byDeadline)) && h in st.waiting
    requires (forall u :: u in st.waiting[h] ==> u in st.tcb) && Marked(st, h)
    requires Tidy(st, Release(t, bits, byDeadline), h)
    ensures var r := Apply(st, Release(t, bits, byDeadline));
            h in r.waiting && (forall u :: u in r.waiting[h] ==> u in r.tcb) && Marked(r, h)
  {
    WaitersBlocked(st, h);
    ReleaseWaits(st, t, bits, byDeadline);
    hide WellFormed, Marked, WakeTask, Without, Apply, Legal;
    WithoutMembers(st.waiting[h], t);
    TidyOne(st, Apply(st, Release(t, bits, byDeadline)), t, h);
  }

  lemma TidyTick(st: State, now: int, h: Queue)
    requires Consistent(st) && h in st.waiting
    requires (forall u :: u in st.waiting[h] ==> u in st.tcb) && Marked(st, h)
    requires now < st.tcb[st.linux].resumeTime && Tidy(st, Tick(now), h)
    ensures var r := WakeUp(st, now);
            h in r.waiting && (forall u :: u in r.waiting[h] ==> u in r.tcb) && Marked(r, h)
  {
    TickWaits(st, now);
    WaitersBlocked(st, h);
    hide Consistent, WakeUp, Woken;
  }

  lemma TidyInherit(st: State, to: Task?, from: Task, h: Queue)
    requires WellFormed(st) && Legal(st, Inherit(to, from)) && h in st.waiting && h.qtype != 0
    requires (forall u :: u in st.waiting[h] ==> u in st.tcb) && Marked(st, h)
    ensures KeepsArrivals(st, Inherit(to, from), h)
    ensures var r := PassPrio(st, to, from);
            h in r.waiting && (forall u :: u in r.waiting[h] ==> u in r.tcb) && Marked(r, h)
  {
    hide WellFormed, PassPrio, AllInPlace, Inheritance.Improves, Inheritance.GetsTo, Unmarked;
    PassPrioInPlace(st, to, from, h);
    PassPrioKeepsFifo(st, to, from, h);
    PassPrioKeepsStates(st, to, from);
    var r := PassPrio(st, to, from);
    assert r.waiting[h] == st.waiting[h];
    forall u | u in st.waiting[h]
      ensures Unmarked(r.tcb[u]) <==> Unmarked(st.tcb[u])
    {
      SameMark(r.tcb[u], st.tcb[u]);
    }
  }

  lemma SameMark(c: Tcb, d: Tcb)
    requires c.state == d.state
    ensures Unmarked(c) <==> Unmarked(d)
  {
  }

  lemma StepTidy(st: State, s: Step, h: Queue)
    requires Consistent(st) && Legal(st, s) && h in st.waiting && h.qtype != 0
    requires (forall u :: u in st.waiting[h] ==> u in st.tcb) && Marked(st, h) && Tidy(st, s, h)
    ensures KeepsArrivals(st, s, h)
    ensures var r := Apply(st, s);
            h in r.waiting && (forall u :: u in r.waiting[h] ==> u in r.tcb) && Marked(r, h)
  {
    hide WellFormed, Bounded, Marked, Unmarked, WakeUp, WakeTask, PassPrio, RenqReady, AllInPlace, Without, WithBits,
         WithoutBits;
    match s
    case Block(t, g, qtype, bits, timeout) => TidyBlock(st, t, g, qtype, bits, timeout, h);
    case Sleep(t, time) => TidySleep(st, t, time, h);
    case Suspend(t) => TidySuspend(st, t, h);
    case Wake(t, bits, byDeadline) => TidyWake(st, t, bits, byDeadline, h);
    case Release(t, bits, byDeadline) => TidyRelease(st, t, bits, byDeadline, h);
    case Tick(now) => TidyTick(st, now, h);
    case Reprioritise(t, p) =>
      RenqReadyMembers(st, t, p);
      SameMarks(st, Apply(st, s), h);
    case Inherit(to, from) => TidyInherit(st, to, from, h);
  }

  lemma SameMarks(st: State, r: State, h: Queue)
    requires h in st.waiting && h in r.waiting && r.waiting[h] == st.waiting[h]
    requires (forall u :: u in st.waiting[h] ==> u in st.tcb && u in r.tcb && r.tcb[u].state == st.tcb[u].state)
    requires Marked(st, h)
    ensures Marked(r, h)
  {
  }

  lemma StillMarked(st: State, t: Task, h: Queue, bits: bv32, c: Tcb)
    requires h in st.waiting && t in st.waiting[h] && (forall u :: u in st.waiting[h] ==> u in st.tcb)
    requires Marked(st, h)
    requires st.tcb[t].state != RT_SCHED_READY || c.state == RT_SCHED_READY
    requires || c.state == RT_SCHED_READY
             || c.state == WithBits(st.tcb[t].state, bits)
             || (c.state == WithoutBits(st.tcb[t].state, bits) && bits & RT_SCHED_SEMAPHORE == 0)
    ensures !Unmarked(c)
  {
    Marking(st.tcb[t].state, bits);
    hide WithBits, WithoutBits;
  }

  ghost predicate TidyRun(st: State, run: seq<Step>, h: Queue)
    requires Consistent(st) && LegalRun(st, run)
    decreases |run|
  {
    run == [] || (Tidy(st, run[0], h) && (StepConsistent(st, run[0]); TidyRun(Apply(st, run[0]), run[1..], h)))
  }

  /** Over every run whose callers keep to arrival order, an arrival-order queue is exactly
      its arrivals without its departures, in the order of arrival, and pass_prio, which
      moves waiters by priority, never moves one of them. */
  lemma {:induction false} RunArrivals(st: State, run: seq<Step>, h: Queue)
    requires Consistent(st) && LegalRun(st, run) && TidyRun(st, run, h) && h in st.waiting && h.qtype != 0
    requires (forall u :: u in st.waiting[h] ==> u in st.tcb) && Marked(st, h)
    ensures var r := Run(st, run);
            h in r.waiting && r.waiting[h] == ExpectedAfter(st, run, h, st.waiting[h])
    decreases |run|
  {
    if run != [] {
      StepConsistent(st, run[0]);
      StepTidy(st, run[0], h);
      StepArrivals(st, run[0], h);
      hide Consistent, Legal, Apply, Marked, Tidy, KeepsArrivals, Expected;
      RunArrivals(Apply(st, run[0]), run[1..], h);
    }
  }

  /** But a waiter that timed out and is then suspended has lost its mark: when it is passed
      a priority, it overtakes every less urgent one that came before it, except those that
      this priority improves too. */
  lemma SuspendedWaiterOvertakes(st: State, a: Task, b: Task, c: Task, h: Queue)
    requires Consistent(st) && h in st.waiting && Before(st.waiting[h], a, b) && a != b
    requires a in RealTasks(st) && b in RealTasks(st) && c in RealTasks(st)
    requires st.tcb[b].state == RT_SCHED_READY
    requires st.tcb[c].priority < st.tcb[a].priority && st.tcb[c].priority < st.tcb[b].priority
    requires a !in Inheritance.Improved(st.tcb[c := st.tcb[c].(passedTo := b)], b, st.tcb[c].priority)
    ensures var st1 := Apply(st, Suspend(b));
            && Consistent(st1) && h in st1.waiting && st1.waiting[h] == st.waiting[h]
            && Legal(st1, Inherit(b, c))
            && var r := Apply(st1, Inherit(b, c)); h in r.waiting && Before(r.waiting[h], b, a)
  {
    var st1, p := Apply(st, Suspend(b)), st.tcb[c].priority;
    StepConsistent(st, Suspend(b));
    SuspendWaits(st, b);
    ReadyRuns.SuspendRanks(st, b);
    WaitersBlocked(st, h);
    assert a in st.waiting[h] && b in st.waiting[h];
    Unmarking(st.tcb[b].state);
    hide WellFormed, Apply, Legal, WithBits, Before, Inheritance.Improved;
    assert RealTasks(st1) == RealTasks(st);
    SameRanksImproved(st, st1, b, c);
    Overtakes(st1, a, b, c, h);
  }

  lemma Unmarking(state: bv32)
    requires state == RT_SCHED_READY
    ensures WithBits(state, RT_SCHED_SUSPENDED) != RT_SCHED_READY
    ensures WithBits(state, RT_SCHED_SUSPENDED) & RT_SCHED_SEMAPHORE == 0
  {
  }

  /** States play no part in whom a passed priority improves. */
  lemma SameRanksImproved(st: State, r: State, b: Task, c: Task)
    requires ReadyRuns.SameRanks(st, r) && c in st.tcb && b in st.tcb
    requires forall t :: t in st.tcb ==> r.tcb[t].passedTo == st.tcb[t].passedTo
    ensures Inheritance.Improved(r.tcb[c := r.tcb[c].(passedTo := b)], b, r.tcb[c].priority)
            == Inheritance.Improved(st.tcb[c := st.tcb[c].(passedTo := b)], b, st.tcb[c].priority)
  {
    var x, y := r.tcb[c := r.tcb[c].(passedTo := b)], st.tcb[c := st.tcb[c].(passedTo := b)];
    var p := st.tcb[c].priority;
    forall k: nat
      ensures Inheritance.Hop(x, b, k) == Inheritance.Hop(y, b, k)
    {
      Inheritance.HopSame(y, x, b, k);
    }
    hide Inheritance.Hop;
    forall k: nat
      ensures Inheritance.GetsTo(x, b, p, k) <==> Inheritance.GetsTo(y, b, p, k)
    {
    }
  }

  lemma Overtakes(st: State, a: Task, b: Task, c: Task, h: Queue)
    requires WellFormed(st) && h in st.waiting && a in st.waiting[h] && b in st.waiting[h] && a != b
    requires a in st.tcb && b in RealTasks(st) && c in RealTasks(st) && Moves(st.tcb[b])
    requires st.tcb[c].priority < st.tcb[a].priority && st.tcb[c].priority < st.tcb[b].priority
    requires a !in Inheritance.Improved(st.tcb[c := st.tcb[c].(passedTo := b)], b, st.tcb[c].priority)
    ensures var r := PassPrio(st, b, c); h in r.waiting && Before(r.waiting[h], b, a)
  {
    var p, st1 := st.tcb[c].priority, SetPassedTo(st, c, b);
    hide WellFormed, PassAlong, Before, Inheritance.Improved, Inheritance.Improves, Inheritance.Chain;
    WellFormedness.SameLinksWellFormed(st, c, st.tcb[c].(passedTo := b));
    Inheritance.ChainSet(st1.tcb, b, p);
    FirstOfChain(st1.tcb, b, p);
    PassAlongPair(st1, b, p, h, a, b);
    PassPrioPlaces.PassPrioMembers(st, b, c, h);
    BeforeTotal(PassPrio(st, b, c).waiting[h], a, b);
  }

  lemma FirstOfChain(tcb: map<Task, Tcb>, b: Task, p: int)
    requires b in tcb && tcb[b].priority > p
    ensures b in Inheritance.Chain(tcb, b, p)
  {
  }

  /** b, which timed out, is suspended; then c passes its priority to b. */
  lemma SuspendedWaiterExample(linux: Task, a: Task, b: Task, c: Task, h: Queue)
    requires linux != a && linux != b && linux != c && a != b && a != c && b != c && h.qtype != 0
    ensures var st := TimedOutWaiter(linux, a, b, c, h);
            && Consistent(st) && Legal(st, Suspend(b)) && h in st.waiting
            && var st1 := Apply(st, Suspend(b));
               && Consistent(st1) && Legal(st1, Inherit(b, c))
               && var r := Apply(st1, Inherit(b, c));
                  h in r.waiting && st.waiting[h] == [a, b] && r.waiting[h] == [b, a]
  {
    var st := TimedOutWaiter(linux, a, b, c, h);
    TimedOutWaiterConsistent(linux, a, b, c, h);
    NotImproved(st.tcb[c := st.tcb[c].(passedTo := b)], a, b, 1);
    hide Consistent, Apply, Legal, Inheritance.Improved;
    TwoWaitersSwap(st, a, b, c, h);
  }

  lemma TwoWaitersSwap(st: State, a: Task, b: Task, c: Task, h: Queue)
    requires Consistent(st) && h in st.waiting && st.waiting[h] == [a, b] && a != b
    requires a in RealTasks(st) && b in RealTasks(st) && c in RealTasks(st)
    requires st.tcb[b].state == RT_SCHED_READY
    requires st.tcb[c].priority < st.tcb[a].priority && st.tcb[c].priority < st.tcb[b].priority
    requires a !in Inheritance.Improved(st.tcb[c := st.tcb[c].(passedTo := b)], b, st.tcb[c].priority)
    ensures Legal(st, Suspend(b))
    ensures var st1 := Apply(st, Suspend(b));
            && Consistent(st1) && Legal(st1, Inherit(b, c))
            && var r := Apply(st1, Inherit(b, c)); h in r.waiting && r.waiting[h] == [b, a]
  {
    assert [a, b][0] == a && [a, b][1] == b;
    assert Before([a, b], a, b);
    assert Legal(st, Suspend(b));
    hide Consistent, Before, Inheritance.Improved, PassPrio, LeaveReady, AddBits;
    SuspendedWaiterOvertakes(st, a, b, c, h);
    var st1 := Apply(st, Suspend(b));
    PassPrioPlaces.PassPrioMembers(st1, b, c, h) by { IsWellFormed(st1); }
    TwoSwapped(PassPrio(st1, b, c).waiting[h], a, b);
  }

  lemma NotImproved(tcb: map<Task, Tcb>, a: Task, b: Task, p: int)
    requires b in tcb && tcb[b].passedTo == null && a != b
    ensures a !in Inheritance.Improved(tcb, b, p)
  {
    Inheritance.ChainSet(tcb, b, p);
  }

  lemma IsWellFormed(st: State)
    requires Consistent(st)
    ensures WellFormed(st)
  {
  }

  lemma TwoSwapped(w: seq<Task>, a: Task, b: Task)
    requires Before(w, b, a) && Distinct(w) && forall t :: t in w ==> t == a || t == b
    ensures w == [b, a]
  {
    var i, j :| 0 <= i < j < |w| && w[i] == b && w[j] == a;
    OneOfTwo(w, a, b, i, j, 0);
    OneOfTwo(w, a, b, i, j, 1);
    OneOfTwo(w, a, b, i, j, |w| - 1);
  }

  lemma OneOfTwo(w: seq<Task>, a: Task, b: Task, i: nat, j: nat, k: nat)
    requires Distinct(w) && (forall t :: t in w ==> t == a || t == b)
    requires i < |w| && j < |w| && k < |w| && w[i] == b && w[j] == a
    ensures k == i || k == j
  {
    assert w[k] in w;
  }
}
