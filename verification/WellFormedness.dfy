/** Every operation keeps the queues well formed: no duplicates, only real tasks,
    and blockedOn naming exactly the queue that holds the task. */
module WellFormedness {
  import opened Sequences
  import opened Tasks
  import opened SchedulerSpec

  lemma EmptyWellFormed(st: State)
    requires st.linux in st.tcb && st.ready == [] && st.timed == []
    requires forall h :: h in st.waiting ==> st.waiting[h] == []
    requires forall t :: t in RealTasks(st) ==> st.tcb[t].blockedOn == null && st.tcb[t].passedTo == null
    ensures WellFormed(st)
  {
  }

  lemma EnqReadyEdfWellFormed(st: State, t: Task)
    requires WellFormed(st) && t in RealTasks(st) && t !in st.ready
    ensures WellFormed(EnqReadyEdf(st, t))
  {
    InsertMembers(st.ready, StopAt(st.ready, st.tcb, Deadline(st.tcb[t].period)), t);
  }

  lemma EnqReadyWellFormed(st: State, t: Task)
    requires WellFormed(st) && t in RealTasks(st) && t !in st.ready
    ensures WellFormed(EnqReady(st, t))
  {
    InsertMembers(st.ready, StopAt(st.ready, st.tcb, UpTo(st.tcb[t].priority)), t);
  }

  lemma RemReadyWellFormed(st: State, t: Task)
    requires WellFormed(st)
    ensures WellFormed(RemReady(st, t)) && t !in RemReady(st, t).ready
  {
    WithoutMembers(st.ready, t);
  }

  lemma EnqTimedWellFormed(st: State, t: Task)
    requires WellFormed(st) && t in RealTasks(st) && t !in st.timed
    ensures WellFormed(EnqTimed(st, t))
  {
    InsertMembers(st.timed, StopAt(st.timed, st.tcb, Earlier(st.tcb[t].resumeTime)), t);
  }

  lemma RemTimedWellFormed(st: State, t: Task)
    requires WellFormed(st)
    ensures WellFormed(RemTimed(st, t)) && t !in RemTimed(st, t).timed
  {
    WithoutMembers(st.timed, t);
  }

  /** Attributes other than blockedOn and passedTo play no part. */
  lemma SameLinksWellFormed(st: State, t: Task, c: Tcb)
    requires WellFormed(st) && t in RealTasks(st)
    requires c.blockedOn == st.tcb[t].blockedOn
    requires c.passedTo == st.tcb[t].passedTo || c.passedTo == null || c.passedTo in RealTasks(st)
    ensures WellFormed(st.(tcb := st.tcb[t := c]))
    ensures RealTasks(st.(tcb := st.tcb[t := c])) == RealTasks(st)
  {
  }

  lemma SamePrioritiesBounded(st: State, r: State)
    requires PrioritiesBounded(st) && r.linux == st.linux && r.tcb.Keys == st.tcb.Keys
    requires forall t :: t in st.tcb ==> r.tcb[t].priority == st.tcb[t].priority
    ensures PrioritiesBounded(r)
  {
  }

  lemma WakeOneWellFormed(st: State, t: Task)
    requires WellFormed(st) && t in RealTasks(st) && t !in st.ready
    ensures var r := WakeOne(st, t);
            && WellFormed(r) && RealTasks(r) == RealTasks(st)
            && (PrioritiesBounded(st) ==> PrioritiesBounded(r))
            && r == st.(tcb := r.tcb, ready := r.ready)
            && r.tcb == st.tcb[t := st.tcb[t].(state := Woken(st.tcb[t].state))]
            && (forall u :: u in r.ready ==> u == t || u in st.ready)
            && (forall u :: u in st.ready ==> u in r.ready)
            && (t in r.ready <==> Woken(st.tcb[t].state) == RT_SCHED_READY)
  {
    hide Woken, WellFormed, StopAt;
    var c := st.tcb[t].(state := Woken(st.tcb[t].state));
    SameLinksWellFormed(st, t, c);
    var st1 := SetState(st, t, c.state);
    if PrioritiesBounded(st) {
      SamePrioritiesBounded(st, WakeOne(st, t));
    }
    hide PrioritiesBounded;
    if c.state == RT_SCHED_READY {
      if c.policy < 0 {
        EnqReadyEdfWellFormed(st1, t);
        InsertMembers(st1.ready, StopAt(st1.ready, st1.tcb, Deadline(c.period)), t);
      } else {
        EnqReadyWellFormed(st1, t);
        InsertMembers(st1.ready, StopAt(st1.ready, st1.tcb, UpTo(c.priority)), t);
      }
    }
  }

  lemma DropTimedWellFormed(st: State, k: nat)
    requires WellFormed(st) && k <= |st.timed|
    ensures WellFormed(st.(timed := st.timed[k..]))
  {
    assert QueueOf(st, st.timed[k..]);
  }

  lemma WakeAllNone(st: State)
    ensures WakeAll(st, []) == st
  {
  }

  /** A tick that woke due wakes one more. */
  lemma {:induction false} WakeAllSnoc(st: State, due: seq<Task>, t: Task)
    requires t in st.tcb && forall u :: u in due ==> u in st.tcb
    ensures WakeAll(st, due).tcb.Keys == st.tcb.Keys
    ensures WakeAll(st, due + [t]) == WakeOne(WakeAll(st, due), t)
    decreases |due|
  {
    hide Woken, StopAt, InsertAt;
    if due == [] {
      assert due + [t] == [t] && [t][1..] == [];
    } else {
      WakeAllSnoc(WakeOne(st, due[0]), due[1..], t);
      assert (due + [t])[0] == due[0] && (due + [t])[1..] == due[1..] + [t];
    }
  }

  /** t moves into, within or out of the wait queue h, and blockedOn says so. */
  lemma WaitersChanged(st: State, t: Task, c: Tcb, h: Queue, w: seq<Task>)
    requires WellFormed(st) && t in RealTasks(st) && h in st.waiting
    requires st.tcb[t].blockedOn == null || st.tcb[t].blockedOn == h
    requires c.blockedOn == (if t in w then h else null)
    requires c.passedTo == st.tcb[t].passedTo || c.passedTo == null
    requires QueueOf(st, w)
    requires forall u :: u in w ==> u == t || u in st.waiting[h]
    requires forall u :: u in st.waiting[h] && u != t ==> u in w
    ensures WellFormed(st.(tcb := st.tcb[t := c], waiting := st.waiting[h := w]))
  {
  }

  lemma EnqueueBlockedWellFormed(st: State, t: Task, h: Queue, qtype: int)
    requires WellFormed(st) && t in RealTasks(st) && h in st.waiting && st.tcb[t].blockedOn == null
    ensures WellFormed(EnqueueBlocked(st, t, h, qtype))
    ensures forall g :: g in st.waiting ==> t !in st.waiting[g]
  {
    assert forall g :: g in st.waiting ==> t !in st.waiting[g];
    var w, c := st.waiting[h], st.tcb[t].(blockedOn := h);
    var k := if qtype == 0 then StopAt(w, st.tcb[t := c], UpTo(c.priority)) else |w|;
    assert QueueOf(st, w);
    hide WellFormed, StopAt;
    InsertMembers(w, k, t);
    WaitersChanged(st, t, c, h, InsertAt(w, k, t));
  }

  lemma DequeueBlockedWellFormed(st: State, t: Task)
    requires WellFormed(st) && t in RealTasks(st) && st.tcb[t].blockedOn != null
    ensures WellFormed(DequeueBlocked(st, t))
    ensures st.tcb[t].blockedOn in st.waiting && t in st.waiting[st.tcb[t].blockedOn]
  {
    var h := st.tcb[t].blockedOn;
    var w := st.waiting[h];
    assert QueueOf(st, w);
    assert t in w;
    hide WellFormed;
    WithoutMembers(w, t);
    WaitersChanged(st, t, st.tcb[t].(passedTo := null, blockedOn := null), h, Without(w, t));
  }

  lemma DequeueInSteps(st: State, t: Task)
    requires t in st.tcb && st.tcb[t].blockedOn != null
    ensures DequeueBlocked(SetPassedTo(st, t, null), t) == DequeueBlocked(st, t)
  {
    assert DequeueBlocked(SetPassedTo(st, t, null), t).tcb == DequeueBlocked(st, t).tcb;
  }

  lemma RequeueBlockedWellFormed(st: State, t: Task)
    requires WellFormed(st) && t in RealTasks(st) && st.tcb[t].blockedOn != null
    ensures WellFormed(RequeueBlocked(st, t))
    ensures st.tcb[t].blockedOn in st.waiting && t in st.waiting[st.tcb[t].blockedOn]
    ensures var h := st.tcb[t].blockedOn;
            forall g :: g in st.waiting ==> t !in st.waiting[h := Without(st.waiting[h], t)][g]
  {
    var h := st.tcb[t].blockedOn;
    var w := st.waiting[h];
    assert QueueOf(st, w);
    assert t in w;
    assert forall g :: g in st.waiting && g != h ==> t !in st.waiting[g];
    hide WellFormed, StopAt;
    WithoutMembers(w, t);
    var v := Without(w, t);
    var k := StopAt(v, st.tcb, UpTo(st.tcb[t].priority));
    InsertMembers(v, k, t);
    WaitersChanged(st, t, st.tcb[t], h, InsertAt(v, k, t));
    assert st.tcb[t := st.tcb[t]] == st.tcb;
  }

  lemma RaiseWellFormed(st: State, t: Task, p: int)
    requires WellFormed(st) && t in RealTasks(st)
    ensures WellFormed(Raise(st, t, p)) && RealTasks(Raise(st, t, p)) == RealTasks(st)
  {
    hide WellFormed, StopAt, InsertAt;
    SameLinksWellFormed(st, t, st.tcb[t].(priority := p));
    var st1 := SetPriority(st, t, p);
    if st1.tcb[t].state == RT_SCHED_READY {
      RemReadyWellFormed(st1, t);
      EnqReadyWellFormed(RemReady(st1, t), t);
    } else if Moves(st1.tcb[t]) {
      RequeueBlockedWellFormed(st1, t);
    }
  }

  lemma SetPriorityBounded(st: State, t: Task, p: int)
    requires PrioritiesBounded(st) && t in RealTasks(st) && 0 <= p < RT_SCHED_LINUX_PRIORITY
    ensures PrioritiesBounded(SetPriority(st, t, p))
  {
  }

  lemma RaiseBounded(st: State, t: Task, p: int)
    requires PrioritiesBounded(st) && t in RealTasks(st) && 0 <= p < RT_SCHED_LINUX_PRIORITY
    ensures PrioritiesBounded(Raise(st, t, p))
  {
  }

  /** Raising a ready task moves it inside the ready queue. */
  lemma RaiseReadyMembers(st: State, t: Task, p: int)
    requires WellFormed(st) && t in RealTasks(st)
    requires st.tcb[t].state == RT_SCHED_READY ==> t in st.ready
    ensures forall u :: u in st.ready ==> u in Raise(st, t, p).ready
    ensures forall u :: u in Raise(st, t, p).ready ==> u in st.ready
  {
    if st.tcb[t].state == RT_SCHED_READY {
      var st1 := SetPriority(st, t, p);
      assert Distinct(st1.ready);
      hide WellFormed, StopAt;
      WithoutMembers(st1.ready, t);
      var w := Without(st1.ready, t);
      InsertMembers(w, StopAt(w, st1.tcb, UpTo(p)), t);
    }
  }

  /** One round: p moves on to the next task, and fewer tasks are less urgent than p. */
  lemma PassStep(st: State, to: Task, p: int)
    requires to in st.tcb && st.tcb[to].priority > p
    ensures PassAlong(st, to, p) == PassAlong(Raise(st, to, p), st.tcb[to].passedTo, p)
    ensures LessUrgent(Raise(st, to, p).tcb, p) < LessUrgent(st.tcb, p)
  {
    hide StopAt, Raise;
    var st1 := Raise(st, to, p);
    assert st1.tcb[to].passedTo == st.tcb[to].passedTo;
    assert to in LessUrgent(st.tcb, p) && to !in LessUrgent(st1.tcb, p);
  }

  lemma PassEnd(st: State, to: Task?, p: int)
    requires to == null || to !in st.tcb || st.tcb[to].priority <= p
    ensures PassAlong(st, to, p) == st
  {
  }

  // What one operation undoes.

  lemma RemReadyUndoesEnqReady(st: State, t: Task)
    requires WellFormed(st) && t in RealTasks(st) && t !in st.ready
    ensures RemReady(EnqReady(st, t), t) == st && RemReady(EnqReadyEdf(st, t), t) == st
  {
    WithoutInserted(st.ready, StopAt(st.ready, st.tcb, UpTo(st.tcb[t].priority)), t);
    WithoutInserted(st.ready, StopAt(st.ready, st.tcb, Deadline(st.tcb[t].period)), t);
  }

  lemma RemTimedUndoesEnqTimed(st: State, t: Task)
    requires WellFormed(st) && t in RealTasks(st) && t !in st.timed
    ensures RemTimed(EnqTimed(st, t), t) == st
  {
    WithoutInserted(st.timed, StopAt(st.timed, st.tcb, Earlier(st.tcb[t].resumeTime)), t);
  }

  /** But for the link of inheritance, which dequeuing always cuts. */
  lemma DequeueUndoesEnqueue(st: State, t: Task, h: Queue, qtype: int)
    requires WellFormed(st) && t in RealTasks(st) && h in st.waiting && st.tcb[t].blockedOn == null
    ensures DequeueBlocked(EnqueueBlocked(st, t, h, qtype), t) == SetPassedTo(st, t, null)
  {
    EnqueueBlockedWellFormed(st, t, h, qtype);
    assert QueueOf(st, st.waiting[h]);
    hide WellFormed, EnqueueBlocked, DequeueBlocked;
    JoinAndLeave(st, t, h, qtype);
  }

  lemma JoinAndLeave(st: State, t: Task, h: Queue, qtype: int)
    requires t in st.tcb && h in st.waiting && st.tcb[t].blockedOn == null
    requires Distinct(st.waiting[h]) && t !in st.waiting[h]
    ensures DequeueBlocked(EnqueueBlocked(st, t, h, qtype), t) == SetPassedTo(st, t, null)
  {
    var w, tcb := st.waiting[h], st.tcb[t := st.tcb[t].(blockedOn := h)];
    hide StopAt, InsertAt, Without, Distinct;
    WithoutInserted(w, if qtype == 0 then StopAt(w, tcb, UpTo(tcb[t].priority)) else |w|, t);
    var r := DequeueBlocked(EnqueueBlocked(st, t, h, qtype), t);
    assert r.waiting == st.waiting;
    assert r.tcb == SetPassedTo(st, t, null).tcb;
  }
}
