/** The order of priority in one wait queue over whole runs: for each step, exactly when it
    keeps it. */
module PriorityRuns {
  import opened Sequences
  import opened Tasks
  import opened SchedulerSpec
  import opened Orders
  import opened PassPrioQueues
  import opened Runs
  import opened ReadyRuns
  import opened WaitRuns
  import Inheritance

  /** p lies between the priorities of t's neighbours in w. */
  ghost predicate Between(w: seq<Task>, tcb: map<Task, Tcb>, t: Task, p: int)
    requires forall u :: u in w ==> u in tcb
  {
    forall i :: 0 <= i < |w| && w[i] == t ==>
                  && (i > 0 ==> tcb[w[i - 1]].priority <= p)
                  && (i + 1 < |w| ==> p <= tcb[w[i + 1]].priority)
  }

  /** A new priority keeps a sorted queue sorted exactly when it fits between its neighbours. */
  lemma Repriced(w: seq<Task>, tcb: map<Task, Tcb>, t: Task, p: int)
    requires Sorted(ByPriority, w, tcb) && Distinct(w) && t in tcb
    ensures Sorted(ByPriority, w, tcb[t := tcb[t].(priority := p)]) <==> Between(w, tcb, t, p)
  {
    var r := tcb[t := tcb[t].(priority := p)];
    assert forall i :: 0 <= i < |w| ==> w[i] in w;
    if Between(w, tcb, t, p) {
      forall i, j | 0 <= i < j < |w|
        ensures r[w[i]].priority <= r[w[j]].priority
      {
        assert tcb[w[i]].priority <= tcb[w[j]].priority;
        if w[i] == t {
          assert tcb[w[i + 1]].priority <= tcb[w[j]].priority;
        }
        if w[j] == t {
          assert tcb[w[i]].priority <= tcb[w[j - 1]].priority;
        }
      }
    }
    if Sorted(ByPriority, w, r) {
      forall i | 0 <= i < |w| && w[i] == t
        ensures i > 0 ==> tcb[w[i - 1]].priority <= p
        ensures i + 1 < |w| ==> p <= tcb[w[i + 1]].priority
      {
        assert i > 0 ==> r[w[i - 1]].priority <= r[w[i]].priority;
        assert i + 1 < |w| ==> r[w[i]].priority <= r[w[i + 1]].priority;
      }
    }
  }

  /** Nobody joins h at the end ahead of whom it belongs, a new priority of a waiter fits
      between its neighbours, and pass_prio improves no stale waiter. */
  ghost predicate KeepsPriorities(st: State, s: Step, h: Queue)
    requires WellFormed(st) && Legal(st, s) && h in st.waiting && forall t :: t in st.waiting[h] ==> t in st.tcb
  {
    match s
    case Block(t, g, qtype, _, _) =>
      g == h && qtype != 0 ==> forall u :: u in st.waiting[h] ==> st.tcb[u].priority <= st.tcb[t].priority
    case Reprioritise(t, p) => Between(st.waiting[h], st.tcb, t, p)
    case Inherit(to, from) =>
      var linked, p := st.tcb[from := st.tcb[from].(passedTo := to)], st.tcb[from].priority;
      !StaleWaiter(st.waiting[h], linked, Inheritance.Improved(linked, to, p), p)
    case _ => true
  }

  lemma PrioritiesByRanks(s: seq<Task>, st: State, r: State)
    requires SameRanks(st, r)
    ensures Sorted(ByPriority, s, st.tcb) <==> Sorted(ByPriority, s, r.tcb)
  {
  }

  lemma AppendedPriorities(w: seq<Task>, tcb: map<Task, Tcb>, t: Task)
    requires Sorted(ByPriority, w, tcb) && t in tcb
    ensures Sorted(ByPriority, w + [t], tcb) <==> forall u :: u in w ==> tcb[u].priority <= tcb[t].priority
  {
    var r := w + [t];
    assert forall i :: 0 <= i < |w| ==> w[i] in w && r[i] == w[i];
    if Sorted(ByPriority, r, tcb) {
      forall u | u in w
        ensures tcb[u].priority <= tcb[t].priority
      {
        var i :| 0 <= i < |w| && w[i] == u;
        assert r[i] == u && r[|w|] == t;
      }
    }
  }

  lemma JoinedPriorities(w: seq<Task>, tcb: map<Task, Tcb>, t: Task)
    requires Sorted(ByPriority, w, tcb) && t in tcb
    ensures Sorted(ByPriority, Queued(w, tcb, UpTo(tcb[t].priority), t), tcb)
  {
    var k := StopAt(w, tcb, UpTo(tcb[t].priority));
    hide StopAt;
    assert k < |w| ==> w[k] in w;
    SortedInsert(ByPriority, w, tcb, k, t);
  }

  lemma BlockPriorities(st: State, t: Task, h: Queue, qtype: int, bits: bv32, timeout: Option<int>)
    requires WellFormed(st) && Legal(st, Block(t, h, qtype, bits, timeout))
    requires Sorted(ByPriority, st.waiting[h], st.tcb)
    ensures var r := Apply(st, Block(t, h, qtype, bits, timeout));
            && h in r.waiting
            && (Sorted(ByPriority, r.waiting[h], r.tcb) <==>
                (qtype != 0 ==> forall u :: u in st.waiting[h] ==> st.tcb[u].priority <= st.tcb[t].priority))
  {
    ReadyIsReal(st, t);
    BlockWaits(st, t, h, qtype, bits, timeout);
    BlockRanks(st, t, h, qtype, bits, timeout);
    var w, r := st.waiting[h], Apply(st, Block(t, h, qtype, bits, timeout));
    hide WellFormed, Apply, Legal, WithBits, StopAt, InsertAt, Sorted, SameRanks;
    RelabelledRanks(st, r, t, WithBits(st.tcb[t].state, bits), h);
    JoinedByRanks(st, Relabelled(st, t, WithBits(st.tcb[t].state, bits), h), r, t, h, qtype);
  }

  function Relabelled(st: State, t: Task, state: bv32, h: Queue): (r: State)
    requires t in st.tcb
  {
    st.(tcb := st.tcb[t := st.tcb[t].(state := state, blockedOn := h)])
  }

  lemma RelabelledRanks(st: State, r: State, t: Task, state: bv32, h: Queue)
    requires t in st.tcb && SameRanks(st, r)
    ensures SameRanks(st, Relabelled(st, t, state, h)) && SameRanks(Relabelled(st, t, state, h), r)
  {
  }

  /** t, whose ranks no other attribute touches, joins h. */
  lemma JoinedByRanks(st: State, st1: State, r: State, t: Task, h: Queue, qtype: int)
    requires h in st.waiting && h in r.waiting && Sorted(ByPriority, st.waiting[h], st.tcb)
    requires SameRanks(st, st1) && SameRanks(st1, r) && t in st.tcb
    requires var w := st.waiting[h];
             var k := if qtype == 0 then StopAt(w, st1.tcb, UpTo(st.tcb[t].priority)) else |w|;
             r.waiting[h] == InsertAt(w, k, t)
    ensures forall u :: u in st.waiting[h] ==> u in st.tcb
    ensures Sorted(ByPriority, r.waiting[h], r.tcb) <==>
            (qtype != 0 ==> forall u :: u in st.waiting[h] ==> st.tcb[u].priority <= st.tcb[t].priority)
  {
    var w := st.waiting[h];
    MembersKnown(w, st.tcb);
    hide StopAt, InsertAt, Sorted;
    PrioritiesByRanks(w, st, st1);
    PrioritiesByRanks(r.waiting[h], st1, r);
    if qtype == 0 {
      JoinedPriorities(w, st1.tcb, t);
    } else {
      AppendedPriorities(w, st1.tcb, t);
      EndInserted(w, t);
    }
  }

  lemma EndInserted(w: seq<Task>, t: Task)
    ensures InsertAt(w, |w|, t) == w + [t]
  {
  }

  lemma MembersKnown(w: seq<Task>, tcb: map<Task, Tcb>)
    requires Sorted(ByPriority, w, tcb)
    ensures forall u :: u in w ==> u in tcb
  {
  }

  /** Step by step: exactly when a priority queue stays sorted. */
  lemma StepPriorities(st: State, s: Step, h: Queue)
    requires Consistent(st) && Legal(st, s) && h in st.waiting && h.qtype == 0
    requires Sorted(ByPriority, st.waiting[h], st.tcb) && forall t :: t in st.waiting[h] ==> t in st.tcb
    ensures var r := Apply(st, s);
            h in r.waiting && (Sorted(ByPriority, r.waiting[h], r.tcb) <==> KeepsPriorities(st, s, h))
  {
    var w, r := st.waiting[h], Apply(st, s);
    WaitersBlocked(st, h);
    hide WellFormed, Bounded, Sorted, Distinct, SameRanks, StaleWaiter, Between,
         WakeUp, WakeTask, PassPrio, RenqReady, Without, WithBits, WithoutBits;
    match s
    case Block(t, g, qtype, bits, timeout) =>
      BlockWaits(st, t, g, qtype, bits, timeout);
      if g == h {
        BlockPriorities(st, t, g, qtype, bits, timeout);
      } else {
        BlockRanks(st, t, g, qtype, bits, timeout);
        PrioritiesByRanks(w, st, r);
      }
    case Sleep(t, time) =>
      SleepWaits(st, t, time);
      SleepRanks(st, t, time);
      PrioritiesByRanks(w, st, r);
    case Suspend(t) =>
      SuspendWaits(st, t);
      SuspendRanks(st, t);
      PrioritiesByRanks(w, st, r);
    case Wake(t, bits, byDeadline) =>
      WakeTaskWaits(st, t, bits, byDeadline);
      WakeTaskRanks(st, t, bits, byDeadline);
      PrioritiesByRanks(w, st, r);
    case Release(t, bits, byDeadline) =>
      ReleaseWaits(st, t, bits, byDeadline);
      ReleaseRanks(st, t, bits, byDeadline);
      SortedWithout(ByPriority, w, st.tcb, t);
      PrioritiesByRanks(r.waiting[h], st, r);
    case Tick(now) =>
      TickWaits(st, now);
      TickRanks(st, now);
      PrioritiesByRanks(w, st, r);
    case Reprioritise(t, p) =>
      RenqReadyMembers(st, t, p);
      Repriced(w, st.tcb, t, p);
    case Inherit(to, from) => PassPrioWaitOrder(st, to, from, h);
  }

  ghost predicate PriorityRun(st: State, run: seq<Step>, h: Queue)
    requires Consistent(st) && LegalRun(st, run) && h in st.waiting && h.qtype == 0
    requires Sorted(ByPriority, st.waiting[h], st.tcb)
    decreases |run|
  {
    MembersKnown(st.waiting[h], st.tcb);
    run == [] ||
    (KeepsPriorities(st, run[0], h)
     && (StepConsistent(st, run[0]); StepPriorities(st, run[0], h); PriorityRun(Apply(st, run[0]), run[1..], h)))
  }

  /** Over every such run, the first waiter of a priority queue is a most urgent one. */
  lemma {:induction false} RunPriorities(st: State, run: seq<Step>, h: Queue)
    requires Consistent(st) && LegalRun(st, run) && h in st.waiting && h.qtype == 0
    requires Sorted(ByPriority, st.waiting[h], st.tcb) && PriorityRun(st, run, h)
    ensures var r := Run(st, run);
            && h in r.waiting && Sorted(ByPriority, r.waiting[h], r.tcb)
            && forall t :: t in r.waiting[h] ==>
                             && t in r.tcb && r.waiting[h][0] in r.tcb
                             && r.tcb[r.waiting[h][0]].priority <= r.tcb[t].priority
    decreases |run|
  {
    MembersKnown(st.waiting[h], st.tcb);
    if run == [] {
      FirstWaiter(st.waiting[h], st.tcb);
    } else {
      StepConsistent(st, run[0]);
      StepPriorities(st, run[0], h);
      hide Consistent, Legal, Apply, Sorted, KeepsPriorities;
      RunPriorities(Apply(st, run[0]), run[1..], h);
    }
  }

  lemma FirstWaiter(w: seq<Task>, tcb: map<Task, Tcb>)
    requires Sorted(ByPriority, w, tcb)
    ensures forall t :: t in w ==> t in tcb && w[0] in tcb && tcb[w[0]].priority <= tcb[t].priority
  {
    forall t | t in w
      ensures t in tcb && w[0] in tcb && tcb[w[0]].priority <= tcb[t].priority
    {
      var i :| 0 <= i < |w| && w[i] == t;
      assert w[0] in w;
    }
  }

  /** a, the first waiter, becomes less urgent than the second but keeps its place. */
  lemma RepricedWaiterExample(linux: Task, a: Task, b: Task, c: Task, h: Queue)
    requires linux != a && linux != b && linux != c && a != b && a != c && b != c && h.qtype == 0
    ensures var st := TimedOutWaiter(linux, a, b, c, h);
            && Consistent(st) && Sorted(ByPriority, st.waiting[h], st.tcb) && Legal(st, Reprioritise(a, 20))
            && var r := Apply(st, Reprioritise(a, 20));
               h in r.waiting && !Sorted(ByPriority, r.waiting[h], r.tcb)
  {
    TimedOutWaiterConsistent(linux, a, b, c, h);
    var st := TimedOutWaiter(linux, a, b, c, h);
    MembersKnown([a, b], st.tcb);
    assert [a, b][0] == a && [a, b][1] == b;
    assert !Between([a, b], st.tcb, a, 20);
    hide Consistent, Apply, Sorted, Between;
    StepPriorities(st, Reprioritise(a, 20), h);
  }
}
