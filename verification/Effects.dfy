/** The whole effect of the operations that the runs are made of, attribute by attribute and
    bit by bit, and that nothing else changes. */
module Effects {
  import opened Sequences
  import opened Tasks
  import opened SchedulerSpec
  import opened Orders
  import opened Runs
  import PassPrioQueues
  import TimedQueue

  /** Blocking: blockedOn names h, the task joins h, and nothing else is touched. In arrival
      order it is the last; by priority it comes behind exactly those up to its own. */
  lemma EnqueueBlockedExact(st: State, t: Task, h: Queue, qtype: int)
    requires WellFormed(st) && t in RealTasks(st) && h in st.waiting && st.tcb[t].blockedOn == null
    ensures var w, r := st.waiting[h], EnqueueBlocked(st, t, h, qtype);
            && h in r.waiting
            && r == st.(tcb := st.tcb[t := st.tcb[t].(blockedOn := h)], waiting := st.waiting[h := r.waiting[h]])
            && (forall u :: u in w ==> u in r.waiting[h] && u in st.tcb && u != t)
            && (forall u :: u in r.waiting[h] ==> u == t || u in w)
            && t in r.waiting[h] && OthersInOrder(w, r.waiting[h], t)
            && (qtype != 0 ==> r.waiting[h] == w + [t])
            && (qtype == 0 && Sorted(ByPriority, w, st.tcb) ==>
                  forall u :: u in w ==>
                    (Before(r.waiting[h], u, t) <==> st.tcb[u].priority <= st.tcb[t].priority))
  {
    var w, tcb := st.waiting[h], st.tcb[t := st.tcb[t].(blockedOn := h)];
    PassPrioQueues.WaitersBlocked(st, h);
    assert t !in w;
    var k := if qtype == 0 then StopAt(w, tcb, UpTo(tcb[t].priority)) else |w|;
    hide WellFormed, StopAt, InsertAt, Before, Sorted;
    InsertMembers(w, k, t);
    InsertInOrder(w, k, t);
    if qtype != 0 {
      EndOf(w, t);
    } else if Sorted(ByPriority, w, st.tcb) {
      forall u | u in w
        ensures Before(InsertAt(w, k, t), u, t) <==> st.tcb[u].priority <= st.tcb[t].priority
      {
        JoinedBehind(w, st.tcb, tcb, t, k, u);
      }
    }
  }

  lemma EndOf(w: seq<Task>, t: Task)
    ensures InsertAt(w, |w|, t) == w + [t]
  {
  }

  lemma InsertInOrder(w: seq<Task>, k: nat, t: Task)
    requires k <= |w|
    ensures OthersInOrder(w, InsertAt(w, k, t), t)
  {
    hide Before, InsertAt;
    forall a, b | a in w && b in w && a != t && b != t
      ensures Before(InsertAt(w, k, t), a, b) <==> Before(w, a, b)
    {
      BeforeInserted(w, k, t, a, b);
    }
  }

  lemma JoinedBehind(w: seq<Task>, was: map<Task, Tcb>, tcb: map<Task, Tcb>, t: Task, k: nat, u: Task)
    requires Sorted(ByPriority, w, was) && Distinct(w) && t !in w && u in w && t in was
    requires t in tcb && tcb == was[t := was[t].(blockedOn := tcb[t].blockedOn)]
    requires k == StopAt(w, tcb, UpTo(tcb[t].priority))
    ensures Before(InsertAt(w, k, t), u, t) <==> was[u].priority <= was[t].priority
  {
    var i :| 0 <= i < |w| && w[i] == u;
    hide StopAt, InsertAt, Before;
    assert k < |w| ==> w[k] in w;
    assert i < k ==> w[i] in tcb && Passes(UpTo(tcb[t].priority), tcb[w[i]]);
    InsertedBefore(w, k, t, i);
  }

  /** Unblocking: the task leaves the queue that blockedOn names, both links are cut, and
      nothing else is touched. */
  lemma DequeueBlockedExact(st: State, t: Task)
    requires WellFormed(st) && t in RealTasks(st) && st.tcb[t].blockedOn != null
    ensures var h, r := st.tcb[t].blockedOn, DequeueBlocked(st, t);
            && h in st.waiting && h in r.waiting
            && r == st.(tcb := st.tcb[t := st.tcb[t].(blockedOn := null, passedTo := null)],
                        waiting := st.waiting[h := r.waiting[h]])
            && t !in r.waiting[h] && OthersInOrder(st.waiting[h], r.waiting[h], t)
            && (forall u :: u in st.waiting[h] && u != t ==> u in r.waiting[h])
            && (forall u :: u in r.waiting[h] ==> u in st.waiting[h])
  {
    var h := st.tcb[t].blockedOn;
    assert h in st.waiting;
    PassPrioQueues.WaitersBlocked(st, h);
    hide WellFormed, Without, Before;
    WithoutMembers(st.waiting[h], t);
    WithoutInOrder(st.waiting[h], t);
  }

  // The steps of a run.

  /** t has left; the others are there, in their order. */
  ghost predicate Left(s: seq<Task>, r: seq<Task>, t: Task) {
    && t !in r && OthersInOrder(s, r, t)
    && (forall u :: u in r ==> u in s) && (forall u :: u in s && u != t ==> u in r)
  }

  /** t has come; the others are there, in their order. */
  ghost predicate Entered(s: seq<Task>, r: seq<Task>, t: Task) {
    && t in r && OthersInOrder(s, r, t)
    && (forall u :: u in r ==> u == t || u in s) && (forall u :: u in s ==> u in r)
  }

  lemma WithoutLeft(s: seq<Task>, t: Task)
    requires Distinct(s)
    ensures Left(s, Without(s, t), t)
  {
    hide Distinct, Without, Before;
    WithoutMembers(s, t);
    WithoutInOrder(s, t);
  }

  lemma InsertEntered(s: seq<Task>, k: nat, t: Task)
    requires k <= |s|
    ensures Entered(s, InsertAt(s, k, t), t)
  {
    hide InsertAt, Before;
    InsertMembers(s, k, t);
    InsertInOrder(s, k, t);
  }

  lemma AbsentLeft(s: seq<Task>, t: Task)
    requires t !in s
    ensures Left(s, s, t)
  {
    hide Before;
  }

  lemma TimeoutExact(st: State, t: Task, time: int)
    requires t in st.tcb
    ensures var r := Timeout(st, t, time);
            && r == st.(tcb := st.tcb[t := st.tcb[t].(state := WithBits(st.tcb[t].state, RT_SCHED_DELAYED),
                                                      resumeTime := time)],
                        timed := r.timed)
            && Entered(st.timed, r.timed, t)
  {
    hide WithBits, StopAt, InsertAt, Entered;
    var tcb := st.tcb[t := st.tcb[t].(state := WithBits(st.tcb[t].state, RT_SCHED_DELAYED), resumeTime := time)];
    assert SetResumeTime(AddBits(st, t, RT_SCHED_DELAYED), t, time).tcb == tcb;
    InsertEntered(st.timed, StopAt(st.timed, tcb, Earlier(time)), t);
  }

  lemma QueuesDistinct(st: State)
    requires WellFormed(st)
    ensures Distinct(st.ready) && Distinct(st.timed)
  {
  }

  /** Going to sleep: READY (1) becomes READY and DELAYED (5), until the time asked for. */
  lemma SleepExact(st: State, t: Task, time: int)
    requires Consistent(st) && Legal(st, Sleep(t, time))
    ensures var r := Apply(st, Sleep(t, time));
            && t in st.tcb && st.tcb[t].state == 1
            && r == st.(tcb := st.tcb[t := st.tcb[t].(state := 5, resumeTime := time)],
                        ready := r.ready, timed := r.timed)
            && Left(st.ready, r.ready, t) && Entered(st.timed, r.timed, t)
  {
    ReadyIsReal(st, t);
    QueuesDistinct(st);
    assert st.tcb[t].state == RT_SCHED_READY;
    Or(RT_SCHED_READY, RT_SCHED_DELAYED);
    hide WellFormed, Bounded, TimedQueue.TimedOrdered, Delayed, WithBits, Without, Timeout, Left, Entered, Distinct;
    WithoutLeft(st.ready, t);
    TimeoutExact(RemReady(st, t), t, time);
  }

  lemma Or(a: bv32, b: bv32)
    ensures WithBits(a, b) == a | b
  {
  }

  /** Suspension: SUSPENDED (2) is set, no other bit changes, and a ready task leaves the queue. */
  lemma SuspendExact(st: State, t: Task)
    requires Consistent(st) && Legal(st, Suspend(t))
    ensures var r := Apply(st, Suspend(t));
            && r == st.(tcb := st.tcb[t := st.tcb[t].(state := st.tcb[t].state | 2)], ready := r.ready)
            && if t in st.ready then Left(st.ready, r.ready, t) else r.ready == st.ready
  {
    QueuesDistinct(st);
    Or(st.tcb[t].state, RT_SCHED_SUSPENDED);
    hide WellFormed, Bounded, TimedQueue.TimedOrdered, Delayed, WithBits, Without, Left, Distinct;
    WithoutLeft(st.ready, t);
  }

  /** r is w with t in it: at the end, or by priority behind exactly those up to t's own. */
  ghost predicate Joined(w: seq<Task>, r: seq<Task>, tcb: map<Task, Tcb>, t: Task, qtype: int) {
    && t in tcb && (forall u :: u in w ==> u in tcb && u != t) && Entered(w, r, t)
    && (qtype != 0 ==> r == w + [t])
    && (qtype == 0 && Sorted(ByPriority, w, tcb) ==>
          forall u :: u in w ==> (Before(r, u, t) <==> tcb[u].priority <= tcb[t].priority))
  }

  lemma JoinedAnyway(w: seq<Task>, r: seq<Task>, a: map<Task, Tcb>, b: map<Task, Tcb>, t: Task, qtype: int)
    requires Joined(w, r, b, t, qtype) && t in a && b == a[t := b[t]] && b[t].priority == a[t].priority
    ensures Joined(w, r, a, t, qtype)
  {
    hide Before, Entered;
  }

  lemma JoinExact(st: State, t: Task, h: Queue, qtype: int, bits: bv32)
    requires Consistent(st) && t in st.ready && h in st.waiting && t in st.tcb && st.tcb[t].blockedOn == null
    ensures var r := Join(st, t, h, qtype, bits);
            && h in r.waiting
            && r == st.(tcb := st.tcb[t := st.tcb[t].(state := WithBits(st.tcb[t].state, bits), blockedOn := h)],
                        ready := r.ready, waiting := st.waiting[h := r.waiting[h]])
            && Left(st.ready, r.ready, t) && Joined(st.waiting[h], r.waiting[h], st.tcb, t, qtype)
  {
    var w, st1 := st.waiting[h], AddBits(RemReady(st, t), t, bits);
    hide Base, Moved, WellFormed, WithBits, Without, Left, Joined, Delayed, Distinct, EnqueueBlocked;
    ConsistentBase(st, t);
    UnreadyStep(st, t, bits);
    MovedFacts(st, st1, t, false, t in st.timed);
    BaseIsWellFormed(st1);
    WithoutLeft(st.ready, t);
    EnqueueBlockedJoins(st1, t, h, qtype);
    JoinedAnyway(w, EnqueueBlocked(st1, t, h, qtype).waiting[h], st.tcb, st1.tcb, t, qtype);
    assert Join(st, t, h, qtype, bits).tcb ==
           st.tcb[t := st.tcb[t].(state := WithBits(st.tcb[t].state, bits), blockedOn := h)];
  }

  lemma ConsistentBase(st: State, t: Task)
    requires Consistent(st) && t in st.ready
    ensures Base(st) && t in RealTasks(st) && Distinct(st.ready)
  {
    ReadyIsReal(st, t);
    QueuesDistinct(st);
  }

  lemma EnqueueBlockedJoins(st: State, t: Task, h: Queue, qtype: int)
    requires WellFormed(st) && t in RealTasks(st) && h in st.waiting && st.tcb[t].blockedOn == null
    ensures var r := EnqueueBlocked(st, t, h, qtype);
            && h in r.waiting && Joined(st.waiting[h], r.waiting[h], st.tcb, t, qtype)
            && r == st.(tcb := st.tcb[t := st.tcb[t].(blockedOn := h)], waiting := st.waiting[h := r.waiting[h]])
  {
    hide WellFormed, EnqueueBlocked, Before, Sorted, OthersInOrder;
    EnqueueBlockedExact(st, t, h, qtype);
  }

  /** Blocking: the task leaves the ready queue and joins h; READY becomes READY and the
      reasons given, and DELAYED with a timeout, and nothing else is touched. */
  lemma BlockExact(st: State, t: Task, h: Queue, qtype: int, bits: bv32, timeout: Option<int>, state: bv32)
    requires Consistent(st) && Legal(st, Block(t, h, qtype, bits, timeout))
    requires state == if timeout.Some? then RT_SCHED_READY | bits | RT_SCHED_DELAYED else RT_SCHED_READY | bits
    ensures var r := Apply(st, Block(t, h, qtype, bits, timeout));
            && h in r.waiting && t in st.tcb && st.tcb[t].state == RT_SCHED_READY
            && r == st.(tcb := st.tcb[t := st.tcb[t].(state := state, blockedOn := h,
                                                      resumeTime := if timeout.Some? then timeout.value
                                                                    else st.tcb[t].resumeTime)],
                        ready := r.ready, timed := r.timed, waiting := st.waiting[h := r.waiting[h]])
            && Left(st.ready, r.ready, t) && Joined(st.waiting[h], r.waiting[h], st.tcb, t, qtype)
            && if timeout.Some? then Entered(st.timed, r.timed, t) else r.timed == st.timed
  {
    hide Base, Delayed, WithBits, Join, Timeout, Left, Entered, Joined;
    Blocked(bits, timeout, state);
    ReadyState(st, t);
    JoinExact(st, t, h, qtype, bits);
    if timeout.Some? {
      TimeoutExact(Join(st, t, h, qtype, bits), t, timeout.value);
    }
  }

  lemma Blocked(bits: bv32, timeout: Option<int>, state: bv32)
    requires state == if timeout.Some? then RT_SCHED_READY | bits | RT_SCHED_DELAYED else RT_SCHED_READY | bits
    ensures timeout.None? ==> state == WithBits(RT_SCHED_READY, bits)
    ensures timeout.Some? ==> state == WithBits(WithBits(RT_SCHED_READY, bits), RT_SCHED_DELAYED)
  {
  }

  lemma ReadyState(st: State, t: Task)
    requires Consistent(st) && t in st.ready
    ensures t in st.tcb && st.tcb[t].state == RT_SCHED_READY
  {
    ReadyIsReal(st, t);
  }

  lemma WakeTaskEffect(st: State, t: Task, bits: bv32, byDeadline: bool, was: bv32, state: bv32)
    requires Distinct(st.timed) && t in st.tcb
    requires t in st.timed <==> Delayed(st.tcb[t].state)
    requires st.tcb[t].state == RT_SCHED_READY ==> t !in st.timed
    requires was == st.tcb[t].state && state == WithoutBits(was, bits)
    ensures var r := WakeTask(st, t, bits, byDeadline);
            if was == RT_SCHED_READY then r == st
            else
              && r == st.(tcb := st.tcb[t := st.tcb[t].(state := state)], ready := r.ready, timed := r.timed)
              && Left(st.timed, r.timed, t)
              && if state == RT_SCHED_READY then Entered(st.ready, r.ready, t) else r.ready == st.ready
  {
    hide WithoutBits, Delayed, StopAt, InsertAt, Without, Left, Entered, Distinct;
    WithoutLeft(st.timed, t);
    if t !in st.timed {
      AbsentLeft(st.timed, t);
    }
    var tcb := EndWait(st, t, bits).tcb;
    assert st.tcb == LeaveTimed(st, t).tcb;
    InsertEntered(st.ready, StopAt(st.ready, tcb, UpTo(tcb[t].priority)), t);
    InsertEntered(st.ready, StopAt(st.ready, tcb, Deadline(tcb[t].period)), t);
  }

  lemma AndNot(was: bv32, bits: bv32, state: bv32)
    requires state == was & !(bits | RT_SCHED_DELAYED)
    ensures state == WithoutBits(was, bits)
  {
  }

  lemma WakeEffect(st: State, t: Task, bits: bv32, byDeadline: bool, was: bv32, state: bv32)
    requires Consistent(st) && Legal(st, Wake(t, bits, byDeadline))
    requires was == st.tcb[t].state && state == WithoutBits(was, bits)
    ensures var r := Apply(st, Wake(t, bits, byDeadline));
            if was == RT_SCHED_READY then r == st
            else
              && r == st.(tcb := st.tcb[t := st.tcb[t].(state := state)], ready := r.ready, timed := r.timed)
              && Left(st.timed, r.timed, t)
              && if state == RT_SCHED_READY then Entered(st.ready, r.ready, t) else r.ready == st.ready
  {
    QueuesDistinct(st);
    DelayedNotReady(st);
    hide WellFormed, Bounded, TimedQueue.TimedOrdered, Delayed, WithoutBits, WakeTask, Left, Entered, Distinct;
    WakeTaskEffect(st, t, bits, byDeadline, was, state);
  }

  /** The end of a wait: nothing for a ready task; otherwise the reasons given and DELAYED are
      cleared, no other bit changes, the task leaves the timed queue, and it enters the ready
      queue when READY alone is left; state is what is left of its bits. */
  lemma WakeExact(st: State, t: Task, bits: bv32, byDeadline: bool, was: bv32, state: bv32)
    requires Consistent(st) && Legal(st, Wake(t, bits, byDeadline))
    requires was == st.tcb[t].state && state == was & !(bits | RT_SCHED_DELAYED)
    ensures var r := Apply(st, Wake(t, bits, byDeadline));
            if was == RT_SCHED_READY then r == st
            else
              && r == st.(tcb := st.tcb[t := st.tcb[t].(state := state)], ready := r.ready, timed := r.timed)
              && Left(st.timed, r.timed, t)
              && if state == RT_SCHED_READY then Entered(st.ready, r.ready, t) else r.ready == st.ready
  {
    hide Consistent, Legal, Apply, WithoutBits, Left, Entered;
    AndNot(was, bits, state);
    WakeEffect(st, t, bits, byDeadline, was, state);
  }

  lemma ReleaseEffect(st: State, t: Task, bits: bv32, byDeadline: bool, was: bv32, state: bv32)
    requires Consistent(st) && Legal(st, Release(t, bits, byDeadline))
    requires was == st.tcb[t].state && state == WithoutBits(was, bits)
    ensures var r := Apply(st, Release(t, bits, byDeadline));
            var h := st.tcb[t].blockedOn;
            && h in st.waiting && h in r.waiting && Left(st.waiting[h], r.waiting[h], t)
            && r == st.(tcb := st.tcb[t := st.tcb[t].(state := if was == RT_SCHED_READY then was else state,
                                                      blockedOn := null, passedTo := null)],
                        ready := r.ready, timed := r.timed, waiting := st.waiting[h := r.waiting[h]])
            && (if was == RT_SCHED_READY then r.timed == st.timed else Left(st.timed, r.timed, t))
            && if was != RT_SCHED_READY && state == RT_SCHED_READY
               then Entered(st.ready, r.ready, t) else r.ready == st.ready
  {
    var st1, r := DequeueBlocked(st, t), Apply(st, Release(t, bits, byDeadline));
    ReleaseFacts(st, t);
    assert r == WakeTask(st1, t, bits, byDeadline);
    hide Consistent, Legal, Apply, Delayed, WakeTask, DequeueBlocked, Left, Entered, Distinct, WithoutBits;
    WakeTaskEffect(st1, t, bits, byDeadline, was, state);
    var c := st.tcb[t].(blockedOn := null, passedTo := null);
    if was != RT_SCHED_READY {
      Twice(st.tcb, t, c, c.(state := state));
    }
  }

  /** The same for a task on a wait queue, which it leaves first, cutting both links; state
      is what is left of its bits. */
  lemma ReleaseExact(st: State, t: Task, bits: bv32, byDeadline: bool, was: bv32, state: bv32)
    requires Consistent(st) && Legal(st, Release(t, bits, byDeadline))
    requires was == st.tcb[t].state && state == was & !(bits | RT_SCHED_DELAYED)
    ensures var r := Apply(st, Release(t, bits, byDeadline));
            var h := st.tcb[t].blockedOn;
            && h in st.waiting && h in r.waiting && Left(st.waiting[h], r.waiting[h], t)
            && r == st.(tcb := st.tcb[t := st.tcb[t].(state := if was == RT_SCHED_READY then was else state,
                                                      blockedOn := null, passedTo := null)],
                        ready := r.ready, timed := r.timed, waiting := st.waiting[h := r.waiting[h]])
            && (if was == RT_SCHED_READY then r.timed == st.timed else Left(st.timed, r.timed, t))
            && if was != RT_SCHED_READY && state == RT_SCHED_READY
               then Entered(st.ready, r.ready, t) else r.ready == st.ready
  {
    hide Consistent, Legal, Apply, WithoutBits, Left, Entered;
    AndNot(was, bits, state);
    ReleaseEffect(st, t, bits, byDeadline, was, state);
  }

  lemma Twice(m: map<Task, Tcb>, t: Task, a: Tcb, b: Tcb)
    ensures m[t := a][t := b] == m[t := b]
  {
  }

  lemma ReleaseFacts(st: State, t: Task)
    requires Consistent(st) && t in RealTasks(st) && st.tcb[t].blockedOn != null
    ensures var h, r := st.tcb[t].blockedOn, DequeueBlocked(st, t);
            && h in st.waiting && h in r.waiting && Left(st.waiting[h], r.waiting[h], t)
            && r == st.(tcb := st.tcb[t := st.tcb[t].(blockedOn := null, passedTo := null)],
                        waiting := st.waiting[h := r.waiting[h]])
    ensures Distinct(st.timed) && (t in st.timed <==> Delayed(st.tcb[t].state))
    ensures st.tcb[t].state == RT_SCHED_READY ==> t !in st.timed
  {
    QueuesDistinct(st);
    DelayedNotReady(st);
    hide WellFormed, Bounded, TimedQueue.TimedOrdered, Delayed, DequeueBlocked, Distinct, OthersInOrder;
    DequeueBlockedExact(st, t);
  }
}
