/** The ready queue: a prefix of deadline tasks by period, then the others by priority. For
    every operation: when it keeps this order, and where a task comes among its equals. */
module ReadyQueue {
  import opened Sequences
  import opened Tasks
  import opened SchedulerSpec
  import opened Orders
  import WellFormedness

  ghost predicate ReadyOrdered(st: State) {
    Sorted(ByUrgency, st.ready, st.tcb)
  }

  /** A deadline task goes behind the deadlines that are not later and ahead of all else. */
  lemma EnqReadyEdfOrders(st: State, t: Task)
    requires WellFormed(st) && ReadyOrdered(st)
    requires t in RealTasks(st) && t !in st.ready && st.tcb[t].policy < 0
    ensures ReadyOrdered(EnqReadyEdf(st, t))
    ensures forall u :: u in st.ready ==>
              (Before(EnqReadyEdf(st, t).ready, u, t) <==> st.tcb[u].policy < 0 && st.tcb[u].period <= st.tcb[t].period)
  {
    var k := StopAt(st.ready, st.tcb, Deadline(st.tcb[t].period));
    SortedInsert(ByUrgency, st.ready, st.tcb, k, t);
    forall u | u in st.ready
      ensures Before(InsertAt(st.ready, k, t), u, t) <==> st.tcb[u].policy < 0 && st.tcb[u].period <= st.tcb[t].period
    {
      var i :| 0 <= i < |st.ready| && st.ready[i] == u;
      InsertedBefore(st.ready, k, t, i);
    }
  }

  /** Any other task goes behind every task that is at least as urgent, and no further. */
  lemma EnqReadyOrders(st: State, t: Task)
    requires WellFormed(st) && Bounded(st) && ReadyOrdered(st)
    requires t in RealTasks(st) && t !in st.ready && st.tcb[t].policy >= 0
    ensures ReadyOrdered(EnqReady(st, t))
    ensures forall u :: u in st.ready ==>
              (Before(EnqReady(st, t).ready, u, t) <==>
               st.tcb[u].policy < 0 || st.tcb[u].priority <= st.tcb[t].priority)
  {
    var k := StopAt(st.ready, st.tcb, UpTo(st.tcb[t].priority));
    BehindPlace(st, st.tcb[t].priority, k);
    assert forall i :: 0 <= i < k ==> st.ready[i] in st.ready;
    SortedInsert(ByUrgency, st.ready, st.tcb, k, t);
    forall u | u in st.ready
      ensures Before(InsertAt(st.ready, k, t), u, t) <==>
              st.tcb[u].policy < 0 || st.tcb[u].priority <= st.tcb[t].priority
    {
      var i :| 0 <= i < |st.ready| && st.ready[i] == u;
      InsertedBefore(st.ready, k, t, i);
    }
  }

  /** Behind the place of priority p every task is less urgent and has no deadline. */
  lemma BehindPlace(st: State, p: int, k: nat)
    requires WellFormed(st) && Bounded(st) && ReadyOrdered(st) && 0 <= p
    requires k == StopAt(st.ready, st.tcb, UpTo(p))
    ensures forall i :: k <= i < |st.ready| ==> st.tcb[st.ready[i]].priority > p
    ensures forall i :: k <= i < |st.ready| ==> st.tcb[st.ready[i]].policy >= 0
  {
    hide StopAt;
    forall i | k <= i < |st.ready|
      ensures st.tcb[st.ready[i]].priority > p && st.tcb[st.ready[i]].policy >= 0
    {
      assert st.ready[k] in st.ready && st.ready[i] in st.ready;
    }
  }

  lemma EnqByPolicyOrders(st: State, t: Task)
    requires WellFormed(st) && Bounded(st) && ReadyOrdered(st)
    requires t in RealTasks(st) && t !in st.ready
    ensures ReadyOrdered(EnqByPolicy(st, t))
  {
    if st.tcb[t].policy < 0 {
      EnqReadyEdfOrders(st, t);
    } else {
      EnqReadyOrders(st, t);
    }
  }

  /** Inserting a deadline task by priority, as callers outside the timer do, keeps the
      order exactly when every ready task of priority 0 is a deadline task that is not
      later than it. */
  lemma EnqReadyOfEdfTask(st: State, t: Task)
    requires WellFormed(st) && Bounded(st) && ReadyOrdered(st)
    requires t in RealTasks(st) && t !in st.ready && st.tcb[t].policy < 0
    ensures ReadyOrdered(EnqReady(st, t)) <==>
            forall u :: u in st.ready && st.tcb[u].priority == 0 ==>
                          st.tcb[u].policy < 0 && st.tcb[u].period <= st.tcb[t].period
  {
    var k := StopAt(st.ready, st.tcb, UpTo(0));
    BehindPlace(st, 0, k);
    assert t in RealTasks(st) && st.tcb[t].priority == 0;
    assert EnqReady(st, t).ready == InsertAt(st.ready, k, t);
    if ReadyOrdered(EnqReady(st, t)) {
      EdfTaskBehind(st, t, k);
    } else {
      EdfTaskFits(st, t, k);
    }
  }

  lemma EdfTaskFits(st: State, t: Task, k: nat)
    requires t in st.tcb && st.tcb[t].policy < 0 && ReadyOrdered(st) && k <= |st.ready|
    requires forall i :: k <= i < |st.ready| ==> st.tcb[st.ready[i]].policy >= 0
    requires forall i :: 0 <= i < k ==> st.tcb[st.ready[i]].priority <= 0
    requires forall u :: u in st.ready ==> 0 <= st.tcb[u].priority
    ensures (forall u :: u in st.ready && st.tcb[u].priority == 0 ==>
               st.tcb[u].policy < 0 && st.tcb[u].period <= st.tcb[t].period)
            ==> Sorted(ByUrgency, InsertAt(st.ready, k, t), st.tcb)
  {
    if forall u :: u in st.ready && st.tcb[u].priority == 0 ==>
                     st.tcb[u].policy < 0 && st.tcb[u].period <= st.tcb[t].period {
      assert forall i :: 0 <= i < k ==> st.ready[i] in st.ready;
      SortedInsert(ByUrgency, st.ready, st.tcb, k, t);
    }
  }

  lemma EdfTaskBehind(st: State, t: Task, k: nat)
    requires ReadyOrdered(st) && t in st.tcb && st.tcb[t].policy < 0 && k <= |st.ready|
    requires Sorted(ByUrgency, InsertAt(st.ready, k, t), st.tcb)
    requires forall i :: k <= i < |st.ready| ==> st.tcb[st.ready[i]].priority > 0
    ensures forall u :: u in st.ready && st.tcb[u].priority == 0 ==>
              st.tcb[u].policy < 0 && st.tcb[u].period <= st.tcb[t].period
  {
    var r := InsertAt(st.ready, k, t);
    assert r[k] == t;
    forall u | u in st.ready && st.tcb[u].priority == 0
      ensures st.tcb[u].policy < 0 && st.tcb[u].period <= st.tcb[t].period
    {
      var i :| 0 <= i < |st.ready| && st.ready[i] == u;
      assert i < k;
      assert r[i] == u;
    }
  }

  /** Inserting a task without a deadline by deadline keeps the order exactly when no ready
      deadline is later than its period, and no ready task without one is more urgent. */
  lemma EnqReadyEdfOfPlainTask(st: State, t: Task)
    requires WellFormed(st) && ReadyOrdered(st)
    requires t in RealTasks(st) && t !in st.ready && st.tcb[t].policy >= 0
    ensures ReadyOrdered(EnqReadyEdf(st, t)) <==>
            forall u :: u in st.ready ==>
                          if st.tcb[u].policy < 0 then st.tcb[u].period <= st.tcb[t].period
                          else st.tcb[t].priority <= st.tcb[u].priority
  {
    var k := StopAt(st.ready, st.tcb, Deadline(st.tcb[t].period));
    assert forall i :: 0 <= i < |st.ready| ==> st.ready[i] in st.ready;
    hide StopAt, WellFormed, InsertAt;
    if ReadyOrdered(EnqReadyEdf(st, t)) {
      PlainTaskAhead(st, t, k);
    } else {
      PlainTaskFits(st, t, k);
    }
  }

  lemma PlainTaskFits(st: State, t: Task, k: nat)
    requires ReadyOrdered(st) && t in st.tcb && st.tcb[t].policy >= 0 && k <= |st.ready|
    requires forall i :: 0 <= i < k ==> st.tcb[st.ready[i]].policy < 0
    requires k < |st.ready| ==> st.tcb[st.ready[k]].policy >= 0 || st.tcb[st.ready[k]].period > st.tcb[t].period
    ensures (forall u :: u in st.ready ==>
               if st.tcb[u].policy < 0 then st.tcb[u].period <= st.tcb[t].period
               else st.tcb[t].priority <= st.tcb[u].priority)
            ==> Sorted(ByUrgency, InsertAt(st.ready, k, t), st.tcb)
  {
    if forall u :: u in st.ready ==>
                     if st.tcb[u].policy < 0 then st.tcb[u].period <= st.tcb[t].period
                     else st.tcb[t].priority <= st.tcb[u].priority {
      assert forall i :: 0 <= i < |st.ready| ==> st.ready[i] in st.ready;
      SortedInsert(ByUrgency, st.ready, st.tcb, k, t);
    }
  }

  lemma PlainTaskAhead(st: State, t: Task, k: nat)
    requires ReadyOrdered(st) && t in st.tcb && st.tcb[t].policy >= 0 && k <= |st.ready|
    requires Sorted(ByUrgency, InsertAt(st.ready, k, t), st.tcb)
    requires forall i :: 0 <= i < k ==>
                           st.tcb[st.ready[i]].policy < 0 && st.tcb[st.ready[i]].period <= st.tcb[t].period
    ensures forall u :: u in st.ready ==>
              if st.tcb[u].policy < 0 then st.tcb[u].period <= st.tcb[t].period
              else st.tcb[t].priority <= st.tcb[u].priority
  {
    var r := InsertAt(st.ready, k, t);
    assert r[k] == t;
    forall u | u in st.ready
      ensures if st.tcb[u].policy < 0 then st.tcb[u].period <= st.tcb[t].period
              else st.tcb[t].priority <= st.tcb[u].priority
    {
      var i :| 0 <= i < |st.ready| && st.ready[i] == u;
      if i >= k {
        assert r[i + 1] == u;
      }
    }
  }

  /** The caller of the two insertions chooses between them. */
  function EnqReadyBy(st: State, t: Task, byDeadline: bool): (r: State)
    requires t in st.tcb
  {
    if byDeadline then EnqReadyEdf(st, t) else EnqReady(st, t)
  }

  /** The choice that the timer makes is right for every task; the other one is right when
      the ready tasks happen to allow it. */
  ghost predicate Suits(st: State, t: Task, byDeadline: bool)
    requires t in st.tcb && forall u :: u in st.ready ==> u in st.tcb
  {
    if byDeadline then
      st.tcb[t].policy < 0 ||
      forall u :: u in st.ready ==>
                    if st.tcb[u].policy < 0 then st.tcb[u].period <= st.tcb[t].period
                    else st.tcb[t].priority <= st.tcb[u].priority
    else
      st.tcb[t].policy >= 0 ||
      forall u :: u in st.ready && st.tcb[u].priority == 0 ==>
                    st.tcb[u].policy < 0 && st.tcb[u].period <= st.tcb[t].period
  }

  lemma EnqReadyByOrders(st: State, t: Task, byDeadline: bool)
    requires WellFormed(st) && Bounded(st) && ReadyOrdered(st)
    requires t in RealTasks(st) && t !in st.ready
    ensures ReadyOrdered(EnqReadyBy(st, t, byDeadline)) <==> Suits(st, t, byDeadline)
  {
    hide ReadyOrdered;
    if byDeadline {
      if st.tcb[t].policy < 0 {
        EnqReadyEdfOrders(st, t);
      } else {
        EnqReadyEdfOfPlainTask(st, t);
      }
    } else if st.tcb[t].policy < 0 {
      EnqReadyOfEdfTask(st, t);
    } else {
      EnqReadyOrders(st, t);
    }
  }

  /** The place of the newcomer, when the queue stays ordered: behind all that are at least
      as urgent, its equals included; but by deadline, ahead of all tasks without one. */
  lemma EnqReadyByPlace(st: State, t: Task, byDeadline: bool, u: Task)
    requires WellFormed(st) && Bounded(st) && ReadyOrdered(st)
    requires t in RealTasks(st) && t !in st.ready && u in st.ready && Suits(st, t, byDeadline)
    ensures Before(EnqReadyBy(st, t, byDeadline).ready, u, t) <==>
            Leq(ByUrgency, st.tcb[u], st.tcb[t]) && (byDeadline ==> st.tcb[u].policy < 0)
  {
    var g := if byDeadline then Deadline(st.tcb[t].period) else UpTo(st.tcb[t].priority);
    var k := StopAt(st.ready, st.tcb, g);
    var i :| 0 <= i < |st.ready| && st.ready[i] == u;
    ReadyKnown(st);
    InsertedBefore(st.ready, k, t, i);
    if byDeadline {
      hide StopAt, WellFormed, InsertAt, Before;
      BehindDeadlines(st, st.tcb[t].period, k, i);
    } else {
      BehindPlace(st, st.tcb[t].priority, k);
    }
  }

  lemma ReadyKnown(st: State)
    requires WellFormed(st)
    ensures Distinct(st.ready) && forall i :: 0 <= i < |st.ready| ==> st.ready[i] in st.tcb
  {
    assert forall i :: 0 <= i < |st.ready| ==> st.ready[i] in st.ready;
  }

  /** Ahead of the place of a deadline stand exactly the deadlines that are not later. */
  lemma BehindDeadlines(st: State, d: int, k: nat, i: nat)
    requires ReadyOrdered(st) && i < |st.ready| && k == StopAt(st.ready, st.tcb, Deadline(d))
    ensures i < k <==> st.tcb[st.ready[i]].policy < 0 && st.tcb[st.ready[i]].period <= d
  {
    hide StopAt;
    if i > k {
      assert Leq(ByUrgency, st.tcb[st.ready[k]], st.tcb[st.ready[i]]);
    }
  }

  lemma RemReadyOrders(st: State, t: Task)
    requires WellFormed(st) && ReadyOrdered(st)
    ensures ReadyOrdered(RemReady(st, t)) && OthersInOrder(st.ready, RemReady(st, t).ready, t)
  {
    SortedWithout(ByUrgency, st.ready, st.tcb, t);
    WithoutInOrder(st.ready, t);
  }

  /** Out, a new priority, and in again: what renq_ready_task, renq_current and each
      round of pass_prio do to a ready task. */
  function Move(st: State, t: Task, p: int): (r: State)
    requires t in st.tcb
  {
    EnqReady(RemReady(SetPriority(st, t, p), t), t)
  }

  /** t has the priority p, and nothing but that and the ready queue is changed; t comes
      behind exactly the deadline tasks and the tasks up to p. */
  ghost predicate MovedTo(st: State, r: State, t: Task, p: int)
    requires t in st.tcb
  {
    && r == st.(tcb := st.tcb[t := st.tcb[t].(priority := p)], ready := r.ready)
    && (forall u :: u in r.ready ==> u == t || u in st.ready)
    && (forall u :: u in st.ready ==> u in r.ready)
    && forall u :: u in st.ready && u != t ==>
                     && u in st.tcb
                     && (Before(r.ready, u, t) <==> st.tcb[u].policy < 0 || st.tcb[u].priority <= p)
  }

  /** t comes behind exactly the others that are at least as urgent as it is now, its
      equals included, and the others keep their order. */
  ghost predicate Replaced(st: State, r: State, t: Task) {
    && t in r.tcb && (forall u :: u in st.ready ==> u in r.tcb)
    && (forall u :: u in st.ready && u != t ==>
                      (Before(r.ready, u, t) <==> Leq(ByUrgency, r.tcb[u], r.tcb[t])))
    && OthersInOrder(st.ready, r.ready, t)
  }

  lemma MoveOrders(st: State, t: Task, p: int)
    requires WellFormed(st) && Bounded(st) && ReadyOrdered(st)
    requires t in RealTasks(st) && st.tcb[t].policy >= 0 && 0 <= p < RT_SCHED_LINUX_PRIORITY
    ensures var r := Move(st, t, p);
            ReadyOrdered(r) && WellFormed(r) && MovedTo(st, r, t, p) && Replaced(st, r, t)
  {
    hide WellFormed, Bounded, ReadyOrdered, MovedTo, Replaced, Move;
    MovePlaces(st, t, p);
    ReadyKnown(st);
    MovedInOrder(st, t, p);
    MovedReplaces(st, Move(st, t, p), t, p);
  }

  lemma MovePlaces(st: State, t: Task, p: int)
    requires WellFormed(st) && Bounded(st) && ReadyOrdered(st)
    requires t in RealTasks(st) && st.tcb[t].policy >= 0 && 0 <= p < RT_SCHED_LINUX_PRIORITY
    ensures var r := Move(st, t, p);
            ReadyOrdered(r) && WellFormed(r) && MovedTo(st, r, t, p)
  {
    var st2 := RemReady(SetPriority(st, t, p), t);
    hide WellFormed, Bounded, ReadyOrdered, Before, EnqReady, RemReady;
    TakenOut(st, t, p);
    WellFormedness.EnqReadyWellFormed(st2, t);
    EnqReadyOrders(st2, t);
    EnqReadyFrame(st2, t);
  }

  lemma MovedReplaces(st: State, r: State, t: Task, p: int)
    requires t in st.tcb && st.tcb[t].policy >= 0 && MovedTo(st, r, t, p)
    requires OthersInOrder(st.ready, r.ready, t) && forall i :: 0 <= i < |st.ready| ==> st.ready[i] in st.tcb
    ensures Replaced(st, r, t)
  {
    hide Before, OthersInOrder;
  }

  /** The task with its new priority, out of the queue. */
  lemma TakenOut(st: State, t: Task, p: int)
    requires WellFormed(st) && Bounded(st) && ReadyOrdered(st)
    requires t in RealTasks(st) && st.tcb[t].policy >= 0 && 0 <= p < RT_SCHED_LINUX_PRIORITY
    ensures Distinct(st.ready) && forall u :: u in st.ready ==> u in st.tcb
    ensures var r := RemReady(SetPriority(st, t, p), t);
            && WellFormed(r) && Bounded(r) && ReadyOrdered(r) && RealTasks(r) == RealTasks(st)
            && r == st.(tcb := st.tcb[t := st.tcb[t].(priority := p)], ready := r.ready)
            && t !in r.ready
            && (forall u :: u in r.ready ==> u in st.ready)
            && (forall u :: u in st.ready && u != t ==> u in r.ready)
  {
    var st1 := SetPriority(st, t, p);
    var st2 := RemReady(st1, t);
    ReadyKnown(st);
    WellFormedness.SameLinksWellFormed(st, t, st.tcb[t].(priority := p));
    WellFormedness.RemReadyWellFormed(st1, t);
    WithoutMembers(st.ready, t);
    SortedWithout(ByUrgency, st.ready, st.tcb, t);
    SortedElsewhere(ByUrgency, st2.ready, st.tcb, st2.tcb);
    hide WellFormed, Sorted, Without;
    assert RealTasks(st2) == RealTasks(st);
  }

  lemma EnqReadyFrame(st: State, t: Task)
    requires t in st.tcb
    ensures var r := EnqReady(st, t);
            && r == st.(ready := r.ready) && t in r.ready
            && (forall u :: u in r.ready ==> u == t || u in st.ready)
            && (forall u :: u in st.ready ==> u in r.ready)
  {
    InsertMembers(st.ready, StopAt(st.ready, st.tcb, UpTo(st.tcb[t].priority)), t);
  }

  lemma MovedInOrder(st: State, t: Task, p: int)
    requires Distinct(st.ready) && t in st.tcb
    ensures OthersInOrder(st.ready, Move(st, t, p).ready, t)
  {
    var w := Without(st.ready, t);
    var tcb := SetPriority(st, t, p).tcb;
    hide StopAt, Without, InsertAt, Distinct;
    forall a, b | a in st.ready && b in st.ready && a != t && b != t
      ensures Before(Move(st, t, p).ready, a, b) <==> Before(st.ready, a, b)
    {
      BeforeWithout(st.ready, t, a, b);
      BeforeInserted(w, StopAt(w, tcb, UpTo(p)), t, a, b);
    }
  }

  /** A new priority: the queue stays as it was when the task is not ready or has the
      priority already; otherwise the task is the last among its new equals. */
  lemma RenqReadyOrders(st: State, t: Task, p: int)
    requires WellFormed(st) && Bounded(st) && ReadyOrdered(st)
    requires t in RealTasks(st) && st.tcb[t].policy >= 0 && 0 <= p < RT_SCHED_LINUX_PRIORITY
    requires t in st.ready ==> st.tcb[t].state == RT_SCHED_READY
    ensures var r := RenqReady(st, t, p);
            && ReadyOrdered(r)
            && r == st.(tcb := st.tcb[t := st.tcb[t].(priority := p)], ready := r.ready)
            && if st.tcb[t].priority == p || st.tcb[t].state != RT_SCHED_READY then r.ready == st.ready
               else Replaced(st, r, t) && MovedTo(st, r, t, p)
  {
    if st.tcb[t].priority != p {
      if st.tcb[t].state == RT_SCHED_READY {
        hide Replaced, ReadyOrdered, WellFormed, Before;
        MoveOrders(st, t, p);
      } else {
        SortedElsewhere(ByUrgency, st.ready, st.tcb, SetPriority(st, t, p).tcb);
      }
    }
  }

  lemma RenqCurrentOrders(st: State, t: Task, p: int)
    requires WellFormed(st) && Bounded(st) && ReadyOrdered(st) && t in st.ready
    requires st.tcb[t].policy >= 0 && 0 <= p < RT_SCHED_LINUX_PRIORITY
    ensures var r := RenqCurrent(st, t, p);
            && ReadyOrdered(r)
            && if st.tcb[t].priority == p then r == st else Replaced(st, r, t) && MovedTo(st, r, t, p)
  {
    if st.tcb[t].priority != p {
      assert t in RealTasks(st);
      hide Replaced, ReadyOrdered, WellFormed, Before;
      MoveOrders(st, t, p);
    }
  }

  /** The task behind the sentinel: no ready task has an earlier deadline, or, when no
      deadline task is ready, a smaller priority number. */
  lemma FirstIsBest(st: State, u: Task)
    requires WellFormed(st) && ReadyOrdered(st) && u in st.ready
    ensures var best := st.tcb[st.ready[0]];
            if exists e :: e in st.ready && st.tcb[e].policy < 0
            then best.policy < 0 && (st.tcb[u].policy < 0 ==> best.period <= st.tcb[u].period)
            else best.priority <= st.tcb[u].priority
  {
    forall e | e in st.ready
      ensures e == st.ready[0] || Leq(ByUrgency, st.tcb[st.ready[0]], st.tcb[e])
    {
      var i :| 0 <= i < |st.ready| && st.ready[i] == e;
    }
    if !exists e :: e in st.ready && st.tcb[e].policy < 0 {
      assert st.ready[0] in st.ready;
    }
  }
}
