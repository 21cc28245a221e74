/** The timed queue, and what a timer tick does with it. */
module TimedQueue {
  import opened Sequences
  import opened Tasks
  import opened SchedulerSpec
  import opened WellFormedness
  import opened Orders
  import opened ReadyQueue

  ghost predicate TimedOrdered(st: State) {
    Sorted(ByTime, st.timed, st.tcb)
  }

  /** A task goes behind the strictly earlier ones and ahead of equals. */
  lemma EnqTimedOrders(st: State, t: Task)
    requires WellFormed(st) && TimedOrdered(st) && t in RealTasks(st) && t !in st.timed
    ensures TimedOrdered(EnqTimed(st, t))
    ensures forall u :: u in st.timed ==>
              (Before(EnqTimed(st, t).timed, u, t) <==> st.tcb[u].resumeTime < st.tcb[t].resumeTime)
  {
    var k := StopAt(st.timed, st.tcb, Earlier(st.tcb[t].resumeTime));
    SortedInsert(ByTime, st.timed, st.tcb, k, t);
    forall u | u in st.timed
      ensures Before(InsertAt(st.timed, k, t), u, t) <==> st.tcb[u].resumeTime < st.tcb[t].resumeTime
    {
      var i :| 0 <= i < |st.timed| && st.timed[i] == u;
      InsertedBefore(st.timed, k, t, i);
    }
  }

  lemma RemTimedOrders(st: State, t: Task)
    requires WellFormed(st) && TimedOrdered(st)
    ensures TimedOrdered(RemTimed(st, t))
  {
    SortedWithout(ByTime, st.timed, st.tcb, t);
  }

  /** The tasks of s whose time is after now, in their order. */
  function Later(s: seq<Task>, tcb: map<Task, Tcb>, now: int): (r: seq<Task>) {
    if s == [] then []
    else if s[0] in tcb && tcb[s[0]].resumeTime > now then [s[0]] + Later(s[1..], tcb, now)
    else Later(s[1..], tcb, now)
  }

  /** In a sorted queue the due tasks are a prefix. */
  lemma {:induction false} DueIsPrefix(s: seq<Task>, tcb: map<Task, Tcb>, now: int)
    requires Sorted(ByTime, s, tcb)
    ensures s[StopAt(s, tcb, Due(now))..] == Later(s, tcb, now)
    ensures forall i :: 0 <= i < |s| ==> (i < StopAt(s, tcb, Due(now)) <==> tcb[s[i]].resumeTime <= now)
  {
    var k := StopAt(s, tcb, Due(now));
    if s != [] {
      assert Sorted(ByTime, s[1..], tcb) by {
        assert forall i :: 0 <= i < |s| - 1 ==> s[1..][i] == s[i + 1];
      }
      DueIsPrefix(s[1..], tcb, now);
      if k == 0 {
        assert StopAt(s[1..], tcb, Due(now)) == 0 by {
          assert |s| > 1 ==> tcb[s[0]].resumeTime <= tcb[s[1]].resumeTime;
        }
        assert s[1..][0..] == s[1..] && s[0..] == [s[0]] + s[1..];
      } else {
        assert s[k..] == s[1..][k - 1..];
      }
    }
  }

  /** What waking relies on, and keeps. */
  ghost predicate Wakeable(st: State, due: seq<Task>) {
    && WellFormed(st) && Bounded(st) && QueueOf(st, due)
    && forall t :: t in due ==> t !in st.ready
  }

  lemma WakeOneWakeable(st: State, due: seq<Task>)
    requires Wakeable(st, due) && due != []
    ensures Wakeable(WakeOne(st, due[0]), due[1..])
    ensures WakeOne(st, due[0]).linux == st.linux
    ensures forall t :: t in st.ready ==> t in WakeOne(st, due[0]).ready
    ensures ReadyOrdered(st) ==> ReadyOrdered(WakeOne(st, due[0]))
  {
    var t := due[0];
    var r := WakeOne(st, t);
    WakeOneWellFormed(st, t);
    if ReadyOrdered(st) {
      WakeOneOrders(st, t);
    }
    hide WakeOne, WellFormed, ReadyOrdered, StopAt, Woken;
    assert forall u :: u in due[1..] ==> u in due && u != t;
    assert RealTasks(r) == RealTasks(st);
  }

  lemma WakeOneOrders(st: State, t: Task)
    requires WellFormed(st) && Bounded(st) && ReadyOrdered(st) && t in RealTasks(st) && t !in st.ready
    ensures ReadyOrdered(WakeOne(st, t))
  {
    var c := st.tcb[t].(state := Woken(st.tcb[t].state));
    var st1 := SetState(st, t, c.state);
    SameLinksWellFormed(st, t, c);
    SortedElsewhere(ByUrgency, st.ready, st.tcb, st1.tcb);
    if c.state == RT_SCHED_READY {
      assert Bounded(st1) by {
        assert RealTasks(st1) == RealTasks(st);
      }
      EnqByPolicyOrders(st1, t);
    }
  }

  /** The attributes after the tasks of due were woken. */
  function WokenTcbs(tcb: map<Task, Tcb>, due: seq<Task>): (r: map<Task, Tcb>) {
    map t | t in tcb :: if t in due then tcb[t].(state := Woken(tcb[t].state)) else tcb[t]
  }

  /** Every due task has its reasons for waiting cleared; the rest is as it was, and sorted. */
  lemma {:induction false} WakeAllExact(st: State, due: seq<Task>)
    requires Wakeable(st, due)
    ensures var r := WakeAll(st, due);
            && WellFormed(r) && (ReadyOrdered(st) ==> ReadyOrdered(r))
            && r == st.(tcb := r.tcb, ready := r.ready) && r.tcb == WokenTcbs(st.tcb, due)
    decreases |due|
  {
    if due == [] {
      assert WokenTcbs(st.tcb, due) == st.tcb;
    } else {
      WakeOneWakeable(st, due);
      FirstNotLater(st, due);
      WakeOneWellFormed(st, due[0]);
      WokenTcbsStep(st.tcb, due);
      hide WakeOne, Wakeable, WellFormed, ReadyOrdered, StopAt, Woken, WokenTcbs;
      WakeAllExact(WakeOne(st, due[0]), due[1..]);
    }
  }

  lemma WakeOneReady(st: State, d: Task, t: Task)
    requires WellFormed(st) && d in RealTasks(st) && d !in st.ready && t in RealTasks(st)
    ensures var r := WakeOne(st, d);
            && t in RealTasks(r) && (t != d ==> r.tcb[t] == st.tcb[t])
            && (t in r.ready <==> t in st.ready || (t == d && Woken(st.tcb[t].state) == RT_SCHED_READY))
  {
    WakeOneWellFormed(st, d);
    hide WakeOne, WellFormed, PrioritiesBounded, Woken;
  }

  /** And the due tasks that nothing else holds back become ready, no others. */
  lemma {:induction false} WakeAllReady(st: State, due: seq<Task>, t: Task)
    requires Wakeable(st, due) && t in RealTasks(st)
    ensures t in WakeAll(st, due).ready <==>
            t in st.ready || (t in due && Woken(st.tcb[t].state) == RT_SCHED_READY)
    decreases |due|
  {
    if due != [] {
      var d := due[0];
      FirstNotLater(st, due);
      assert t in due <==> t == d || t in due[1..];
      hide WakeOne, Wakeable, WellFormed, ReadyOrdered, RealTasks, Woken;
      WakeOneWakeable(st, due);
      WakeOneReady(st, d, t);
      WakeAllReady(WakeOne(st, d), due[1..], t);
    }
  }

  lemma WokenTcbsStep(tcb: map<Task, Tcb>, due: seq<Task>)
    requires due != [] && due[0] in tcb && due[0] !in due[1..]
    ensures var t := due[0];
            WokenTcbs(tcb[t := tcb[t].(state := Woken(tcb[t].state))], due[1..]) == WokenTcbs(tcb, due)
  {
    hide Woken;
    assert due == [due[0]] + due[1..];
  }

  lemma FirstNotLater(st: State, due: seq<Task>)
    requires Wakeable(st, due) && due != []
    ensures due[0] !in due[1..] && due[0] in RealTasks(st) && due[0] !in st.ready && WellFormed(st)
  {
  }

  /** Waking reorders nothing that was ready before. */
  lemma {:induction false} WakeAllKeepsOrder(st: State, due: seq<Task>, u: Task, v: Task)
    requires Wakeable(st, due) && u in st.ready && v in st.ready
    ensures Before(WakeAll(st, due).ready, u, v) <==> Before(st.ready, u, v)
    decreases |due|
  {
    if due != [] {
      var t := due[0];
      WakeOneWakeable(st, due);
      WakeOneKeepsOrder(st, t, u, v);
      hide WakeOne, Wakeable, Before, Woken;
      WakeAllKeepsOrder(WakeOne(st, t), due[1..], u, v);
    }
  }

  lemma WakeOneKeepsOrder(st: State, t: Task, u: Task, v: Task)
    requires t in st.tcb && u != t && v != t
    ensures Before(WakeOne(st, t).ready, u, v) <==> Before(st.ready, u, v)
  {
    hide StopAt, Woken;
    var tcb := SetState(st, t, Woken(st.tcb[t].state)).tcb;
    BeforeInserted(st.ready, StopAt(st.ready, tcb, UpTo(st.tcb[t].priority)), t, u, v);
    BeforeInserted(st.ready, StopAt(st.ready, tcb, Deadline(st.tcb[t].period)), t, u, v);
  }

  /** The task ends up behind exactly the ready tasks that are at least as urgent. */
  lemma WokenBehind(st: State, b: Task, a: Task)
    requires WellFormed(st) && Bounded(st) && ReadyOrdered(st)
    requires b in RealTasks(st) && b !in st.ready && a in st.ready
    requires Woken(st.tcb[b].state) == RT_SCHED_READY
    ensures Before(WakeOne(st, b).ready, a, b) <==> Leq(ByUrgency, st.tcb[a], st.tcb[b])
  {
    var c := st.tcb[b].(state := Woken(st.tcb[b].state));
    var st1 := SetState(st, b, c.state);
    SameLinksWellFormed(st, b, c);
    SortedElsewhere(ByUrgency, st.ready, st.tcb, st1.tcb);
    assert Bounded(st1) by {
      assert RealTasks(st1) == RealTasks(st);
    }
    if c.policy < 0 {
      EnqReadyEdfOrders(st1, b);
    } else {
      EnqReadyOrders(st1, b);
    }
  }

  /** Of two tasks woken by the same tick, the first one in the timed queue becomes ready
      first exactly when it is at least as urgent as the other. */
  lemma {:induction false} WakeAllPair(st: State, due: seq<Task>, i: nat, j: nat)
    requires Wakeable(st, due) && ReadyOrdered(st) && i < j < |due|
    requires var a, b := st.tcb[due[i]], st.tcb[due[j]];
             Woken(a.state) == RT_SCHED_READY && Woken(b.state) == RT_SCHED_READY
    ensures Before(WakeAll(st, due).ready, due[i], due[j]) <==> Leq(ByUrgency, st.tcb[due[i]], st.tcb[due[j]])
    decreases |due|
  {
    if i > 0 {
      hide WakeOne, Wakeable, Before, Woken, WellFormed, ReadyOrdered, StopAt, Leq;
      FirstNotLater(st, due);
      WakeOneWakeable(st, due);
      WakeOneWellFormed(st, due[0]);
      assert due[1..][j - 1] == due[j] && due[j] in due[1..];
      assert due[1..][i - 1] == due[i] && due[i] in due[1..];
      WakeAllPair(WakeOne(st, due[0]), due[1..], i - 1, j - 1);
    } else {
      WakeFirstPair(st, due, j);
    }
  }

  lemma WakeFirstPair(st: State, due: seq<Task>, j: nat)
    requires Wakeable(st, due) && ReadyOrdered(st) && 0 < j < |due|
    requires Woken(st.tcb[due[0]].state) == RT_SCHED_READY && Woken(st.tcb[due[j]].state) == RT_SCHED_READY
    ensures Before(WakeAll(st, due).ready, due[0], due[j]) <==> Leq(ByUrgency, st.tcb[due[0]], st.tcb[due[j]])
  {
    var a, b := st.tcb[due[0]], st.tcb[due[j]];
    hide WakeAll, WakeOne, Wakeable, Before, Woken, WellFormed, ReadyOrdered, StopAt, Leq;
    FirstNotLater(st, due);
    WakeOneWakeable(st, due);
    WakeOneWellFormed(st, due[0]);
    FirstThenRest(st, due);
    assert due[1..][j - 1] == due[j] && due[j] in due[1..];
    WakeAllBehind(WakeOne(st, due[0]), due[1..], j - 1, due[0]);
    StateNoMatter(a, b, Woken(a.state));
  }

  lemma FirstThenRest(st: State, due: seq<Task>)
    requires due != [] && forall t :: t in due ==> t in st.tcb
    ensures due[0] in st.tcb && (forall t :: t in due[1..] ==> t in WakeOne(st, due[0]).tcb)
    ensures WakeAll(st, due) == WakeAll(WakeOne(st, due[0]), due[1..])
  {
    hide Woken, StopAt, InsertAt;
    assert due[0] in due;
  }

  lemma StateNoMatter(a: Tcb, b: Tcb, bits: bv32)
    ensures Leq(ByUrgency, a.(state := bits), b) <==> Leq(ByUrgency, a, b)
  {
  }

  lemma {:induction false} WakeAllBehind(st: State, due: seq<Task>, j: nat, a: Task)
    requires Wakeable(st, due) && ReadyOrdered(st) && j < |due| && a in st.ready
    requires var b := st.tcb[due[j]];
             Woken(b.state) == RT_SCHED_READY
    ensures a in st.tcb && (Before(WakeAll(st, due).ready, a, due[j]) <==> Leq(ByUrgency, st.tcb[a], st.tcb[due[j]]))
    decreases |due|
  {
    var st1 := WakeOne(st, due[0]);
    WakeOneWakeable(st, due);
    WakeOneWellFormed(st, due[0]);
    if j == 0 {
      WokenBehind(st, due[0], a);
      hide WakeOne, Wakeable, Before, Woken, WellFormed, ReadyOrdered, StopAt, Leq;
      WakeAllKeepsOrder(st1, due[1..], a, due[0]);
    } else {
      assert due[0] !in due[1..] && due[1..][j - 1] == due[j] && due[j] in due[1..];
      hide WakeOne, Wakeable, Before, Woken, WellFormed, ReadyOrdered, StopAt, Leq;
      WakeAllBehind(st1, due[1..], j - 1, a);
    }
  }

  /** A tick takes exactly the due tasks out of the timed queue, leaves the rest in order,
      and moves into the ready queue exactly those that nothing else holds back. */
  lemma WakeUpSplits(st: State, now: int)
    requires WellFormed(st) && Bounded(st) && TimedOrdered(st)
    requires forall t :: t in st.timed ==> t !in st.ready
    ensures var r := WakeUp(st, now);
            && WellFormed(r) && (ReadyOrdered(st) ==> ReadyOrdered(r)) && TimedOrdered(r)
            && r.timed == Later(st.timed, st.tcb, now)
            && r == st.(tcb := r.tcb, ready := r.ready, timed := r.timed) && r.tcb.Keys == st.tcb.Keys
            && (forall t :: t in st.tcb ==>
                              var due := t in st.timed && st.tcb[t].resumeTime <= now;
                              r.tcb[t] == st.tcb[t].(state := if due then Woken(st.tcb[t].state) else st.tcb[t].state))
            && (forall t :: t in RealTasks(st) ==>
                              var due := t in st.timed && st.tcb[t].resumeTime <= now;
                              t in r.ready <==> t in st.ready || (due && Woken(st.tcb[t].state) == RT_SCHED_READY))
  {
    var k := StopAt(st.timed, st.tcb, Due(now));
    var due := st.timed[..k];
    DueIsPrefix(st.timed, st.tcb, now);
    PrefixWakeable(st, k);
    hide WakeAll, Wakeable, ReadyOrdered, WellFormed, StopAt, Sorted;
    WakeAllExact(st, due);
    DropTimedWellFormed(WakeAll(st, due), k);
    if ReadyOrdered(st) {
      SameReady(WakeAll(st, due), WakeUp(st, now));
    }
    RestOrdered(st, k, WakeUp(st, now));
    DueMembers(st.timed, st.tcb, now, k);
    hide Woken, Later, Bounded;
    forall t | t in RealTasks(st)
      ensures var r := WakeUp(st, now);
              t in r.ready <==> t in st.ready || (t in due && Woken(st.tcb[t].state) == RT_SCHED_READY)
    {
      WakeAllReady(st, due, t);
    }
  }

  lemma DueWoken(st: State, now: int, t: Task)
    requires WellFormed(st) && Bounded(st) && TimedOrdered(st)
    requires (forall u :: u in st.timed ==> u !in st.ready) && t in RealTasks(st)
    requires t in st.timed && st.tcb[t].resumeTime <= now
    ensures t in WakeUp(st, now).tcb && WakeUp(st, now).tcb[t].state == Woken(st.tcb[t].state)
  {
    hide WellFormed, Bounded, TimedOrdered, ReadyOrdered, WakeUp, Woken, Later;
    WakeUpSplits(st, now);
  }

  /** Which bits a tick clears: of a due task, the eight reasons for waiting, which are bits 1
      to 8, and no other bit; of any other task, none. */
  lemma WakeUpBits(st: State, now: int, t: Task, was: bv32, state: bv32)
    requires WellFormed(st) && Bounded(st) && TimedOrdered(st)
    requires (forall u :: u in st.timed ==> u !in st.ready) && t in RealTasks(st)
    requires t in WakeUp(st, now).tcb && was == st.tcb[t].state && state == WakeUp(st, now).tcb[t].state
    ensures t in st.timed && st.tcb[t].resumeTime <= now ==>
              && state & RT_SCHED_DELAYED == 0 && state & RT_SCHED_SUSPENDED == 0 && state & RT_SCHED_SEMAPHORE == 0
              && state & RT_SCHED_RECEIVE == 0 && state & RT_SCHED_SEND == 0 && state & RT_SCHED_RPC == 0
              && state & RT_SCHED_RETURN == 0 && state & RT_SCHED_MBXSUSP == 0
              && state == was & 0xFFFF_FE01
    ensures t !in st.timed || st.tcb[t].resumeTime > now ==>
              WakeUp(st, now).tcb[t] == st.tcb[t] && (t in WakeUp(st, now).ready <==> t in st.ready)
  {
    hide WellFormed, Bounded, TimedOrdered, ReadyOrdered, WakeUp, Woken, Later;
    if t in st.timed && st.tcb[t].resumeTime <= now {
      DueWoken(st, now, t);
      WokenClears(was);
      WokenKeeps(was, state);
    } else {
      WakeUpSpares(st, now, t);
    }
  }

  lemma WakeUpSpares(st: State, now: int, t: Task)
    requires WellFormed(st) && Bounded(st) && TimedOrdered(st)
    requires (forall u :: u in st.timed ==> u !in st.ready) && t in RealTasks(st)
    requires t !in st.timed || st.tcb[t].resumeTime > now
    ensures var r := WakeUp(st, now);
            t in r.tcb && r.tcb[t] == st.tcb[t] && (t in r.ready <==> t in st.ready)
  {
    hide WellFormed, Bounded, TimedOrdered, ReadyOrdered, WakeUp, Woken, Later;
    WakeUpSplits(st, now);
  }

  /** A due task enters the ready queue exactly when READY is set and no bit but READY and
      these eight. */
  lemma WakeUpEnters(st: State, now: int, t: Task)
    requires WellFormed(st) && Bounded(st) && TimedOrdered(st)
    requires (forall u :: u in st.timed ==> u !in st.ready) && t in RealTasks(st)
    requires t in st.timed && st.tcb[t].resumeTime <= now
    ensures t in WakeUp(st, now).ready <==> st.tcb[t].state & 0xFFFF_FE01 == 1
  {
    hide WellFormed, Bounded, TimedOrdered, ReadyOrdered, WakeUp, Woken, Later;
    WakeUpSplits(st, now);
    WokenReady(st.tcb[t].state);
  }

  lemma RestOrdered(st: State, k: nat, r: State)
    requires TimedOrdered(st) && k <= |st.timed| && r.timed == st.timed[k..]
    requires r.tcb.Keys == st.tcb.Keys && forall t :: t in st.tcb ==> r.tcb[t].resumeTime == st.tcb[t].resumeTime
    ensures TimedOrdered(r)
  {
  }

  lemma SameReady(st: State, r: State)
    requires ReadyOrdered(st) && r.ready == st.ready && r.tcb == st.tcb
    ensures ReadyOrdered(r)
  {
  }

  lemma DueMembers(s: seq<Task>, tcb: map<Task, Tcb>, now: int, k: nat)
    requires Sorted(ByTime, s, tcb) && k <= |s|
    requires forall i :: 0 <= i < |s| ==> (i < k <==> tcb[s[i]].resumeTime <= now)
    ensures forall t :: t in s[..k] ==> t in s && tcb[t].resumeTime <= now
    ensures forall t :: t in s && tcb[t].resumeTime <= now ==> t in s[..k]
  {
    forall t | t in s && tcb[t].resumeTime <= now
      ensures t in s[..k]
    {
      var i :| 0 <= i < |s| && s[i] == t;
      assert s[..k][i] == t;
    }
  }

  /** Of two due tasks, the first in the timed queue becomes ready first exactly when it is at
      least as urgent as the other. */
  lemma WakeUpPair(st: State, u: Task, v: Task, now: int)
    requires WellFormed(st) && Bounded(st) && ReadyOrdered(st) && TimedOrdered(st)
    requires forall t :: t in st.timed ==> t !in st.ready
    requires Before(st.timed, u, v)
    requires var x, y := st.tcb[u], st.tcb[v];
             && x.resumeTime <= now && y.resumeTime <= now
             && Woken(x.state) == RT_SCHED_READY && Woken(y.state) == RT_SCHED_READY
    ensures Before(WakeUp(st, now).ready, u, v) <==> Leq(ByUrgency, st.tcb[u], st.tcb[v])
  {
    hide WakeAll, WellFormed, Woken, StopAt, ReadyOrdered;
    var i, j :| 0 <= i < j < |st.timed| && st.timed[i] == u && st.timed[j] == v;
    var k := StopAt(st.timed, st.tcb, Due(now));
    DueIsPrefix(st.timed, st.tcb, now);
    var due := st.timed[..k];
    assert due[i] == u && due[j] == v;
    PrefixWakeable(st, k);
    hide Wakeable, Before;
    WakeAllPair(st, due, i, j);
  }

  lemma PrefixWakeable(st: State, k: nat)
    requires WellFormed(st) && Bounded(st) && k <= |st.timed|
    requires forall t :: t in st.timed ==> t !in st.ready
    ensures Wakeable(st, st.timed[..k])
  {
  }

  /** Of two tasks with one resume time, the one queued last stands first. */
  lemma NewerFirst(st: State, a: Task, b: Task)
    requires WellFormed(st) && TimedOrdered(st) && a in st.timed
    requires b in RealTasks(st) && b !in st.timed && st.tcb[a].resumeTime == st.tcb[b].resumeTime
    ensures Before(EnqTimed(st, b).timed, b, a)
  {
    EnqTimedOrders(st, b);
    EnqTimedWellFormed(st, b);
    InsertMembers(st.timed, StopAt(st.timed, st.tcb, Earlier(st.tcb[b].resumeTime)), b);
    TimedIsQueue(EnqTimed(st, b));
    hide WellFormed, EnqTimed;
    BeforeTotal(EnqTimed(st, b).timed, b, a);
  }

  lemma TimedIsQueue(st: State)
    requires WellFormed(st)
    ensures QueueOf(st, st.timed)
  {
  }
}
