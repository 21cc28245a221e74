/** What each step of a run does to the wait queues. */
module WaitRuns {
  import opened Sequences
  import opened Tasks
  import opened SchedulerSpec
  import opened Orders
  import opened Runs
  import TimedQueue
  import PassPrioQueues

  /** Only t has other attributes. */
  ghost predicate OthersSame(st: State, r: State, t: Task) {
    && r.linux == st.linux && r.tcb.Keys == st.tcb.Keys && t in r.tcb
    && forall u :: u in st.tcb && u != t ==> r.tcb[u] == st.tcb[u]
  }

  lemma TimeoutWaits(st: State, t: Task, time: int)
    requires t in st.tcb
    ensures var r := Timeout(st, t, time);
            && r.waiting == st.waiting && OthersSame(st, r, t)
            && r.tcb[t].state == WithBits(st.tcb[t].state, RT_SCHED_DELAYED)
  {
    hide WithBits, Queued;
  }

  lemma JoinWaits(st: State, t: Task, g: Queue, qtype: int, bits: bv32)
    requires t in st.tcb && g in st.waiting
    ensures var r := Join(st, t, g, qtype, bits);
            var tcb := st.tcb[t := st.tcb[t].(state := WithBits(st.tcb[t].state, bits), blockedOn := g)];
            var w := st.waiting[g];
            var k := if qtype == 0 then StopAt(w, tcb, UpTo(st.tcb[t].priority)) else |w|;
            r.waiting == st.waiting[g := InsertAt(w, k, t)] && r.tcb == tcb && r.linux == st.linux
  {
    hide StopAt, InsertAt, Without, WithBits;
    var tcb := st.tcb[t := st.tcb[t].(state := WithBits(st.tcb[t].state, bits), blockedOn := g)];
    assert Join(st, t, g, qtype, bits).tcb == tcb;
  }

  lemma BlockWaits(st: State, t: Task, g: Queue, qtype: int, bits: bv32, timeout: Option<int>)
    requires WellFormed(st) && Legal(st, Block(t, g, qtype, bits, timeout))
    ensures var r := Apply(st, Block(t, g, qtype, bits, timeout));
            var tcb := st.tcb[t := st.tcb[t].(state := WithBits(st.tcb[t].state, bits), blockedOn := g)];
            var w := st.waiting[g];
            var k := if qtype == 0 then StopAt(w, tcb, UpTo(st.tcb[t].priority)) else |w|;
            && r.waiting == st.waiting[g := InsertAt(w, k, t)]
            && OthersSame(st, r, t)
            && (r.tcb[t].state == tcb[t].state || r.tcb[t].state == WithBits(tcb[t].state, RT_SCHED_DELAYED))
  {
    ReadyIsReal(st, t);
    hide WellFormed, StopAt, InsertAt, WithBits, Timeout, Join;
    JoinWaits(st, t, g, qtype, bits);
    if timeout.Some? {
      TimeoutWaits(Join(st, t, g, qtype, bits), t, timeout.value);
    }
  }

  lemma SleepWaits(st: State, t: Task, time: int)
    requires WellFormed(st) && Legal(st, Sleep(t, time))
    ensures var r := Apply(st, Sleep(t, time)); r.waiting == st.waiting && OthersSame(st, r, t)
  {
    ReadyIsReal(st, t);
    hide WellFormed, StopAt, Queued, Without, WithBits;
  }

  lemma SuspendWaits(st: State, t: Task)
    requires WellFormed(st) && Legal(st, Suspend(t))
    ensures var r := Apply(st, Suspend(t));
            && r.waiting == st.waiting && OthersSame(st, r, t)
            && r.tcb[t].state == WithBits(st.tcb[t].state, RT_SCHED_SUSPENDED)
  {
    hide WellFormed, Without, WithBits;
  }

  lemma WakeTaskWaits(st: State, t: Task, bits: bv32, byDeadline: bool)
    requires t in st.tcb
    ensures var r := WakeTask(st, t, bits, byDeadline);
            && r.waiting == st.waiting && OthersSame(st, r, t)
            && r.tcb[t].state == (if st.tcb[t].state == RT_SCHED_READY then RT_SCHED_READY
                                  else WithoutBits(st.tcb[t].state, bits))
  {
    hide StopAt, Queued, Without, WithoutBits, Delayed;
  }

  lemma ReleaseWaits(st: State, t: Task, bits: bv32, byDeadline: bool)
    requires WellFormed(st) && Legal(st, Release(t, bits, byDeadline))
    ensures var r := Apply(st, Release(t, bits, byDeadline));
            var g := st.tcb[t].blockedOn;
            && g in st.waiting && r.waiting == st.waiting[g := Without(st.waiting[g], t)] && OthersSame(st, r, t)
  {
    assert st.tcb[t].blockedOn in st.waiting;
    hide WellFormed, WakeTask, Without;
    WakeTaskWaits(DequeueBlocked(st, t), t, bits, byDeadline);
  }

  lemma TickWaits(st: State, now: int)
    requires Consistent(st)
    ensures var r := WakeUp(st, now);
            && r.waiting == st.waiting && r.tcb.Keys == st.tcb.Keys
            && forall t :: t in st.tcb ==>
                             var due := t in st.timed && st.tcb[t].resumeTime <= now;
                             r.tcb[t].state == if due then Woken(st.tcb[t].state) else st.tcb[t].state
  {
    DelayedNotReady(st);
    hide WellFormed, WakeUp, Woken;
    TimedQueue.WakeUpSplits(st, now);
  }

  /** The example state of pass_prio is one that runs may be in. */
  lemma TimedOutWaiterConsistent(linux: Task, a: Task, b: Task, c: Task, h: Queue)
    requires linux != a && linux != b && linux != c && a != b && a != c && b != c
    ensures var st := PassPrioQueues.TimedOutWaiter(linux, a, b, c, h);
            && Consistent(st) && RealTasks(st) == {a, b, c} && st.waiting[h] == [a, b]
            && Sorted(ByPriority, [a, b], st.tcb)
  {
    PassPrioQueues.TimedOutWaiterSound(linux, a, b, c, h);
    hide WellFormed, Bounded;
    var st := PassPrioQueues.TimedOutWaiter(linux, a, b, c, h);
    assert st.timed == [];
  }
}
