/** A priority wait queue over whole runs: while no priority of a waiter changes, it is the
    stable sort of its arrivals. */
module StableRuns {
  import opened Sequences
  import opened Tasks
  import opened SchedulerSpec
  import opened WaitQueues
  import opened Runs
  import opened ReadyRuns
  import opened WaitRuns
  import opened ArrivalRuns
  import Inheritance
  import PassPrioPlaces
  import PassPrioQueues
  import PriorityRuns
  import WellFormedness

  /** Newcomers join h by priority, and the priority of no waiter changes. */
  ghost predicate KeepsStable(st: State, s: Step, h: Queue)
    requires WellFormed(st) && Legal(st, s) && h in st.waiting && forall t :: t in st.waiting[h] ==> t in st.tcb
  {
    match s
    case Block(_, g, qtype, _, _) => g == h ==> qtype == 0
    case Reprioritise(t, p) => t in st.waiting[h] ==> p == st.tcb[t].priority
    case Inherit(to, from) =>
      var linked, p := st.tcb[from := st.tcb[from].(passedTo := to)], st.tcb[from].priority;
      forall x :: x in st.waiting[h] ==> x !in Inheritance.Improved(linked, to, p)
    case _ => true
  }

  lemma Sorts(w: seq<Task>, a: seq<Task>, tcb: map<Task, Tcb>)
    requires StableSort(w, a, tcb)
    ensures Distinct(w) && forall t :: t in w ==> t in tcb
  {
  }

  /** Ranks decide. */
  lemma StableByRanks(w: seq<Task>, a: seq<Task>, st: State, r: State)
    requires StableSort(w, a, st.tcb) && SameRanks(st, r)
    ensures StableSort(w, a, r.tcb)
  {
    Sorts(w, a, st.tcb);
    hide StableSort;
    StableElsewhere(w, a, st.tcb, r.tcb);
  }

  lemma BlockStable(st: State, t: Task, h: Queue, bits: bv32, timeout: Option<int>, arrived: seq<Task>)
    requires WellFormed(st) && Legal(st, Block(t, h, 0, bits, timeout))
    requires StableSort(st.waiting[h], arrived, st.tcb)
    ensures var r := Apply(st, Block(t, h, 0, bits, timeout));
            h in r.waiting && StableSort(r.waiting[h], arrived + [t], r.tcb)
  {
    ReadyIsReal(st, t);
    BlockWaits(st, t, h, 0, bits, timeout);
    BlockRanks(st, t, h, 0, bits, timeout);
    PassPrioQueues.WaitersBlocked(st, h);
    var r, state := Apply(st, Block(t, h, 0, bits, timeout)), WithBits(st.tcb[t].state, bits);
    assert t !in st.waiting[h];
    hide WellFormed, Apply, Legal, WithBits, StopAt, InsertAt, StableSort, SameRanks;
    RelabelledAndRanked(st, r, t, state, h);
    var st1 := PriorityRuns.Relabelled(st, t, state, h);
    StableByRanks(st.waiting[h], arrived, st, st1);
    ArriveByPriority(st.waiting[h], arrived, st1.tcb, t);
    StableByRanks(r.waiting[h], arrived + [t], st1, r);
  }

  lemma RelabelledAndRanked(st: State, r: State, t: Task, state: bv32, h: Queue)
    requires t in st.tcb && SameRanks(st, r)
    ensures var st1 := PriorityRuns.Relabelled(st, t, state, h);
            SameRanks(st, st1) && SameRanks(st1, r) && t in st1.tcb
            && st1.tcb == st.tcb[t := st.tcb[t].(state := state, blockedOn := h)]
  {
    PriorityRuns.RelabelledRanks(st, r, t, state, h);
    hide SameRanks;
  }

  lemma ReleaseStable(st: State, t: Task, bits: bv32, byDeadline: bool, h: Queue, arrived: seq<Task>)
    requires WellFormed(st) && Legal(st, Release(t, bits, byDeadline)) && h in st.waiting
    requires StableSort(st.waiting[h], arrived, st.tcb)
    ensures var s := Release(t, bits, byDeadline);
            var r := Apply(st, s);
            h in r.waiting && StableSort(r.waiting[h], Expected(st, s, h, arrived), r.tcb)
  {
    ReleaseWaits(st, t, bits, byDeadline);
    ReleaseRanks(st, t, bits, byDeadline);
    var r := Apply(st, Release(t, bits, byDeadline));
    hide WellFormed, Without, WakeTask, StableSort, SameRanks;
    DepartStable(st.waiting[h], arrived, st.tcb, t);
    StableByRanks(Without(st.waiting[h], t), Without(arrived, t), st, r);
    StableByRanks(st.waiting[h], arrived, st, r);
  }

  lemma RenqStable(st: State, t: Task, p: int, h: Queue, arrived: seq<Task>)
    requires Consistent(st) && Legal(st, Reprioritise(t, p)) && h in st.waiting
    requires StableSort(st.waiting[h], arrived, st.tcb)
    requires t in st.waiting[h] ==> p == st.tcb[t].priority
    ensures var r := RenqReady(st, t, p);
            h in r.waiting && StableSort(r.waiting[h], arrived, r.tcb)
  {
    Sorts(st.waiting[h], arrived, st.tcb);
    hide StableSort, WellFormed, Bounded, RenqReady;
    RenqReadyMembers(st, t, p);
    StableElsewhere(st.waiting[h], arrived, st.tcb, RenqReady(st, t, p).tcb);
  }

  lemma InheritStable(st: State, to: Task?, from: Task, h: Queue, arrived: seq<Task>)
    requires WellFormed(st) && Legal(st, Inherit(to, from)) && h in st.waiting
    requires StableSort(st.waiting[h], arrived, st.tcb) && forall t :: t in st.waiting[h] ==> t in st.tcb
    requires KeepsStable(st, Inherit(to, from), h)
    ensures var r := PassPrio(st, to, from);
            h in r.waiting && r.waiting[h] == st.waiting[h] && StableSort(r.waiting[h], arrived, r.tcb)
  {
    var w, p := st.waiting[h], st.tcb[from].priority;
    var linked := st.tcb[from := st.tcb[from].(passedTo := to)];
    PassPrioPlaces.BlockedWait(st, h);
    Inheritance.PassAlongRaisesImproved(SetPassedTo(st, from, to), to, p);
    var r := PassPrio(st, to, from).tcb;
    assert forall t :: t in w ==> t in r && r[t].priority == st.tcb[t].priority;
    hide WellFormed, StableSort, PassPrio, Moves;
    forall k: nat | Inheritance.GetsTo(linked, to, p, k)
      ensures var x := Inheritance.Hop(linked, to, k);
              x != null && x in linked && linked[x].blockedOn != h
    {
      Untouched(st, to, from, h, k);
    }
    PassPrioPlaces.PassPrioInPlace(st, to, from, h);
    StableElsewhere(w, arrived, st.tcb, r);
  }

  /** Links lead to real tasks only. */
  lemma {:induction false} HopReal(st: State, to: Task?, k: nat)
    requires WellFormed(st) && (to != null ==> to in RealTasks(st))
    ensures var u := Inheritance.Hop(st.tcb, to, k); u != null ==> u in RealTasks(st)
    decreases k
  {
    if k > 0 && to != null {
      PassPrioQueues.LinkIsReal(st, to);
      HopReal(st, st.tcb[to].passedTo, k - 1);
    }
  }

  /** No task that the passed priority gets to waits on h. */
  lemma Untouched(st: State, to: Task?, from: Task, h: Queue, k: nat)
    requires WellFormed(st) && from in RealTasks(st) && (to != null ==> to in RealTasks(st)) && h in st.waiting
    requires var linked, p := st.tcb[from := st.tcb[from].(passedTo := to)], st.tcb[from].priority;
             && Inheritance.GetsTo(linked, to, p, k)
             && forall x :: x in st.waiting[h] ==> x !in Inheritance.Improved(linked, to, p)
    ensures var linked := st.tcb[from := st.tcb[from].(passedTo := to)];
            var x := Inheritance.Hop(linked, to, k);
            x != null && x in linked && linked[x].blockedOn != h
  {
    var linked, p := st.tcb[from := st.tcb[from].(passedTo := to)], st.tcb[from].priority;
    var x := Inheritance.Hop(linked, to, k);
    assert x != null && x in linked;
    assert Inheritance.Improves(linked, to, p, x);
    WellFormedness.SameLinksWellFormed(st, from, st.tcb[from].(passedTo := to));
    HopReal(SetPassedTo(st, from, to), to, k);
    PassPrioPlaces.BlockedWait(st, h);
  }

  /** Each such step makes of the stable sort of the arrivals the stable sort of the arrivals
      as the step changes them. */
  lemma StepStable(st: State, s: Step, h: Queue, arrived: seq<Task>)
    requires Consistent(st) && Legal(st, s) && h in st.waiting
    requires StableSort(st.waiting[h], arrived, st.tcb) && forall t :: t in st.waiting[h] ==> t in st.tcb
    requires KeepsStable(st, s, h)
    ensures var r := Apply(st, s);
            h in r.waiting && StableSort(r.waiting[h], Expected(st, s, h, arrived), r.tcb)
  {
    var w, r := st.waiting[h], Apply(st, s);
    hide WellFormed, Bounded, StableSort, SameRanks, WakeUp, WakeTask, PassPrio, RenqReady, Without, WithBits,
         WithoutBits, Inheritance.Improved;
    match s
    case Block(t, g, qtype, bits, timeout) =>
      BlockWaits(st, t, g, qtype, bits, timeout);
      if g == h {
        BlockStable(st, t, g, bits, timeout, arrived);
      } else {
        BlockRanks(st, t, g, qtype, bits, timeout);
        StableByRanks(w, arrived, st, r);
      }
    case Sleep(t, time) =>
      SleepWaits(st, t, time);
      SleepRanks(st, t, time);
      StableByRanks(w, arrived, st, r);
    case Suspend(t) =>
      SuspendWaits(st, t);
      SuspendRanks(st, t);
      StableByRanks(w, arrived, st, r);
    case Wake(t, bits, byDeadline) =>
      WakeTaskWaits(st, t, bits, byDeadline);
      WakeTaskRanks(st, t, bits, byDeadline);
      StableByRanks(w, arrived, st, r);
    case Release(t, bits, byDeadline) => ReleaseStable(st, t, bits, byDeadline, h, arrived);
    case Tick(now) =>
      TickWaits(st, now);
      TickRanks(st, now);
      StableByRanks(w, arrived, st, r);
    case Reprioritise(t, p) => RenqStable(st, t, p, h, arrived);
    case Inherit(to, from) => InheritStable(st, to, from, h, arrived);
  }

  ghost predicate StableRun(st: State, run: seq<Step>, h: Queue)
    requires Consistent(st) && LegalRun(st, run)
    decreases |run|
  {
    run == [] ||
    (h in st.waiting && (forall t :: t in st.waiting[h] ==> t in st.tcb) && KeepsStable(st, run[0], h)
     && (StepConsistent(st, run[0]); StableRun(Apply(st, run[0]), run[1..], h)))
  }

  /** Over every such run the queue is the stable sort, by priority, of its arrivals without
      its departures: the more urgent first, and equals in the order of arrival. */
  lemma {:induction false} RunStable(st: State, run: seq<Step>, h: Queue, arrived: seq<Task>)
    requires Consistent(st) && LegalRun(st, run) && StableRun(st, run, h) && h in st.waiting
    requires StableSort(st.waiting[h], arrived, st.tcb)
    ensures var r := Run(st, run);
            h in r.waiting && StableSort(r.waiting[h], ExpectedAfter(st, run, h, arrived), r.tcb)
    decreases |run|
  {
    if run != [] {
      Sorts(st.waiting[h], arrived, st.tcb);
      hide Consistent, Legal, Apply, StableSort, KeepsStable, Expected;
      StepConsistent(st, run[0]);
      StepStable(st, run[0], h, arrived);
      RunStable(Apply(st, run[0]), run[1..], h, Expected(st, run[0], h, arrived));
    }
  }
}
