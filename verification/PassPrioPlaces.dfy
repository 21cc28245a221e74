/** When pass_prio leaves a wait queue exactly as it was: an if and only if on the state
    before the call, over every graph of links and for queues of either type. */
module PassPrioPlaces {
  import opened Sequences
  import opened Tasks
  import opened SchedulerSpec
  import opened WellFormedness
  import opened Inheritance
  import opened PassPrioQueues

  /** The tasks with the urgency p or better when p gets to the task k links away. */
  ghost function UrgentBy(tcb: map<Task, Tcb>, to: Task?, p: int, k: nat): (r: set<Task>) {
    set u | u in tcb && (tcb[u].priority <= p || exists i: nat :: i < k && Hop(tcb, to, i) == u)
  }

  /** Only urgent tasks stand ahead of x, and none right behind it. */
  ghost predicate InPlace(w: seq<Task>, x: Task, urgent: set<Task>) {
    forall i :: 0 <= i < |w| && w[i] == x ==>
                  (forall j :: 0 <= j < i ==> w[j] in urgent) && (i + 1 < |w| ==> w[i + 1] !in urgent)
  }

  /** Each task of the chain that pass_prio takes out of h stands where it is put back. */
  ghost predicate AllInPlace(w: seq<Task>, h: Queue, tcb: map<Task, Tcb>, to: Task?, p: int) {
    forall k: nat :: GetsTo(tcb, to, p, k) ==>
                       var x := Hop(tcb, to, k);
                       Moves(tcb[x]) && tcb[x].blockedOn == h ==> InPlace(w, x, UrgentBy(tcb, to, p, k))
  }

  /** v is w without its member k: the search stops at k exactly when w[k] is in place. */
  lemma StopsInPlace(w: seq<Task>, k: nat, v: seq<Task>, tcb: map<Task, Tcb>, p: int, urgent: set<Task>)
    requires Distinct(w) && k < |w| && |v| == |w| - 1
    requires forall i :: 0 <= i < k ==> v[i] == w[i] && w[i] in tcb && (w[i] in urgent <==> tcb[w[i]].priority <= p)
    requires forall i :: k < i < |w| ==>
                           v[i - 1] == w[i] && w[i] in tcb && (w[i] in urgent <==> tcb[w[i]].priority <= p)
    ensures StopAt(v, tcb, UpTo(p)) == k <==> InPlace(w, w[k], urgent)
  {
    hide StopAt, Distinct;
    assert forall i :: 0 <= i < |w| && w[i] == w[k] ==> i == k by {
      SamePlace(w, k);
    }
    var n := StopAt(v, tcb, UpTo(p));
    if InPlace(w, w[k], urgent) {
      if k < |v| {
        assert v[k] == w[k + 1];
      }
      StopAtUnique(v, tcb, UpTo(p), k);
    }
  }

  lemma SamePlace(w: seq<Task>, k: nat)
    requires Distinct(w) && k < |w|
    ensures forall i :: 0 <= i < |w| && w[i] == w[k] ==> i == k
  {
  }

  /** Out of the queue and in again: the place is the old one, or everything up to and
      including the new one is urgent now. */
  lemma PutBack(w: seq<Task>, tcb: map<Task, Tcb>, p: int, x: Task, urgent: set<Task>) returns (n: nat)
    requires Distinct(w) && x in w && forall u :: u in w ==> u in tcb
    requires tcb[x].priority == p
    requires forall u :: u in w && u != x ==> (u in urgent <==> tcb[u].priority <= p)
    ensures var r := Queued(Without(w, x), tcb, UpTo(p), x);
            && |r| == |w| && n < |w|
            && (r == w <==> InPlace(w, x, urgent))
            && (r != w ==> r[n] != w[n] && forall i :: 0 <= i <= n ==> r[i] in tcb && tcb[r[i]].priority <= p)
  {
    var k :| 0 <= k < |w| && w[k] == x;
    SamePlace(w, k);
    WithoutPlaces(w, k);
    InsertedBack(w, k);
    var v := Without(w, x);
    n := StopAt(v, tcb, UpTo(p));
    assert forall i :: 0 <= i < |w| ==> w[i] in w;
    hide StopAt, Distinct, InPlace, Without, InsertAt;
    StopsInPlace(w, k, v, tcb, p, urgent);
    HeadInserted(v, tcb, p, x, n);
    if n == k {
      assert InsertAt(v, n, x) == w;
    } else {
      assert InsertAt(v, n, x)[n] != w[n];
    }
  }

  lemma HeadInserted(v: seq<Task>, tcb: map<Task, Tcb>, p: int, x: Task, n: nat)
    requires n <= |v| && x in tcb && tcb[x].priority == p
    requires forall i :: 0 <= i < n ==> v[i] in tcb && Passes(UpTo(p), tcb[v[i]])
    ensures var r := InsertAt(v, n, x);
            && |r| == |v| + 1 && r[n] == x
            && forall i :: 0 <= i <= n ==> r[i] in tcb && tcb[r[i]].priority <= p
  {
  }

  /** One round leaves h as it was exactly when its task is not moved in h, or is in place. */
  lemma RaiseInPlace(st: State, x: Task, p: int, h: Queue) returns (n: nat)
    requires WellFormed(st) && x in RealTasks(st) && p < st.tcb[x].priority && h in st.waiting
    ensures var w, r := st.waiting[h], Raise(st, x, p);
            && h in r.waiting && |r.waiting[h]| == |w|
            && (r.waiting[h] == w <==>
                (Moves(st.tcb[x]) && st.tcb[x].blockedOn == h ==> InPlace(w, x, UrgentBy(st.tcb, x, p, 0))))
            && (r.waiting[h] != w ==>
                && n < |w| && r.waiting[h][n] != w[n]
                && forall i :: 0 <= i <= n ==>
                                 r.waiting[h][i] in r.tcb && r.tcb[r.waiting[h][i]].priority <= p)
  {
    var w, tcb := st.waiting[h], Raise(st, x, p).tcb;
    n := 0;
    RaiseWaiting(st, x, p, h);
    if Moves(st.tcb[x]) && st.tcb[x].blockedOn == h {
      WaitersBlocked(st, h);
      assert x in w;
      hide WellFormed, Raise, InPlace;
      n := PutBack(w, tcb, p, x, UrgentBy(st.tcb, x, p, 0));
    }
  }

  /** What is urgent at the head of a queue stays there. */
  lemma RaiseKeepsHead(st: State, x: Task, p: int, h: Queue, n: nat)
    requires WellFormed(st) && x in RealTasks(st) && p < st.tcb[x].priority && h in st.waiting
    requires n <= |st.waiting[h]|
    requires forall i :: 0 <= i < n ==> st.waiting[h][i] in st.tcb && st.tcb[st.waiting[h][i]].priority <= p
    ensures var w, r := st.waiting[h], Raise(st, x, p);
            && h in r.waiting && n <= |r.waiting[h]|
            && forall i :: 0 <= i < n ==>
                             && r.waiting[h][i] == w[i] && w[i] in r.tcb && r.tcb[w[i]].priority <= p
  {
    var w, tcb := st.waiting[h], Raise(st, x, p).tcb;
    RaiseWaiting(st, x, p, h);
    if Moves(st.tcb[x]) && st.tcb[x].blockedOn == h {
      WaitersBlocked(st, h);
      assert x in w;
      hide WellFormed, Raise, StopAt, Without;
      var k :| 0 <= k < |w| && w[k] == x;
      WithoutPlaces(w, k);
      assert n <= k;
      HeadStays(Without(w, x), tcb, p, x, n);
    }
  }

  lemma HeadStays(v: seq<Task>, tcb: map<Task, Tcb>, p: int, x: Task, n: nat)
    requires n <= |v| && forall i :: 0 <= i < n ==> v[i] in tcb && tcb[v[i]].priority <= p
    ensures var r := Queued(v, tcb, UpTo(p), x);
            n <= |r| && forall i :: 0 <= i < n ==> r[i] == v[i]
  {
    hide StopAt;
    assert n <= StopAt(v, tcb, UpTo(p));
  }

  lemma {:induction false} PassAlongKeepsHead(st: State, to: Task?, p: int, h: Queue, n: nat)
    requires WellFormed(st) && (to != null ==> to in RealTasks(st)) && h in st.waiting
    requires n <= |st.waiting[h]|
    requires forall i :: 0 <= i < n ==> st.waiting[h][i] in st.tcb && st.tcb[st.waiting[h][i]].priority <= p
    ensures var w, r := st.waiting[h], PassAlong(st, to, p);
            h in r.waiting && n <= |r.waiting[h]| && forall i :: 0 <= i < n ==> r.waiting[h][i] == w[i]
    decreases LessUrgent(st.tcb, p)
  {
    hide PassAlong, WellFormed, Raise;
    if to == null || st.tcb[to].priority <= p {
      PassEnd(st, to, p);
    } else {
      PassStep(st, to, p);
      RaiseWellFormed(st, to, p);
      RaiseKeepsHead(st, to, p, h, n);
      LinkIsReal(st, to);
      PassAlongKeepsHead(Raise(st, to, p), st.tcb[to].passedTo, p, h, n);
    }
  }

  /** One link further: what was first is settled, the rest is the same question. */
  lemma AllInPlaceFurther(w: seq<Task>, h: Queue, tcb: map<Task, Tcb>, to: Task, p: int)
    requires to in tcb && tcb[to].priority > p
    ensures AllInPlace(w, h, tcb, to, p) <==>
            && (Moves(tcb[to]) && tcb[to].blockedOn == h ==> InPlace(w, to, UrgentBy(tcb, to, p, 0)))
            && AllInPlace(w, h, tcb[to := tcb[to].(priority := p)], tcb[to].passedTo, p)
  {
    var tcb1, next := tcb[to := tcb[to].(priority := p)], tcb[to].passedTo;
    assert GetsTo(tcb, to, p, 0) && Hop(tcb, to, 0) == to;
    forall k: nat
      ensures Hop(tcb1, next, k) == Hop(tcb, to, k + 1)
      ensures GetsTo(tcb1, next, p, k) <==> GetsTo(tcb, to, p, k + 1)
      ensures UrgentBy(tcb1, next, p, k) == UrgentBy(tcb, to, p, k + 1)
    {
      GetsFurther(tcb, to, p, k);
      UrgentFurther(tcb, to, p, k);
    }
    hide InPlace, UrgentBy, Hop;
    if AllInPlace(w, h, tcb1, next, p)
       && (Moves(tcb[to]) && tcb[to].blockedOn == h ==> InPlace(w, to, UrgentBy(tcb, to, p, 0))) {
      forall k: nat | GetsTo(tcb, to, p, k)
        ensures var x := Hop(tcb, to, k);
                Moves(tcb[x]) && tcb[x].blockedOn == h ==> InPlace(w, x, UrgentBy(tcb, to, p, k))
      {
        if k > 0 {
          assert GetsTo(tcb1, next, p, k - 1);
        }
      }
    }
  }

  lemma UrgentFurther(tcb: map<Task, Tcb>, to: Task, p: int, k: nat)
    requires to in tcb
    ensures UrgentBy(tcb[to := tcb[to].(priority := p)], tcb[to].passedTo, p, k) == UrgentBy(tcb, to, p, k + 1)
  {
    var tcb1, next := tcb[to := tcb[to].(priority := p)], tcb[to].passedTo;
    forall i: nat
      ensures Hop(tcb1, next, i) == Hop(tcb, to, i + 1)
    {
      HopSame(tcb, tcb1, next, i);
    }
    HopNone(tcb, to);
    hide Hop;
    forall u | u in tcb
      ensures u in UrgentBy(tcb1, next, p, k) <==> u in UrgentBy(tcb, to, p, k + 1)
    {
      if i: nat :| i < k && Hop(tcb1, next, i) == u {
        assert Hop(tcb, to, i + 1) == u;
      }
      if i: nat :| i < k + 1 && Hop(tcb, to, i) == u {
        if i > 0 {
          assert Hop(tcb1, next, i - 1) == u;
        }
      }
    }
  }

  /** Along the whole chain, no later round can undo what an earlier one disturbed. */
  lemma {:induction false} PassAlongInPlace(st: State, to: Task?, p: int, h: Queue)
    requires WellFormed(st) && (to != null ==> to in RealTasks(st)) && h in st.waiting
    ensures var w, r := st.waiting[h], PassAlong(st, to, p);
            h in r.waiting && (r.waiting[h] == w <==> AllInPlace(w, h, st.tcb, to, p))
    decreases LessUrgent(st.tcb, p)
  {
    hide PassAlong, WellFormed, Raise, AllInPlace, InPlace, UrgentBy, Moves;
    if to == null || st.tcb[to].priority <= p {
      PassEnd(st, to, p);
      NoneToPlace(st.waiting[h], h, st.tcb, to, p);
    } else {
      PassStep(st, to, p);
      RaiseWellFormed(st, to, p);
      LinkIsReal(st, to);
      AllInPlaceFurther(st.waiting[h], h, st.tcb, to, p);
      var n := RaiseInPlace(st, to, p, h);
      var st1 := Raise(st, to, p);
      if st1.waiting[h] == st.waiting[h] {
        PassAlongInPlace(st1, st.tcb[to].passedTo, p, h);
      } else {
        PassAlongKeepsHead(st1, st.tcb[to].passedTo, p, h, n + 1);
      }
    }
  }

  lemma NoneToPlace(w: seq<Task>, h: Queue, tcb: map<Task, Tcb>, to: Task?, p: int)
    requires to == null || to !in tcb || tcb[to].priority <= p
    ensures AllInPlace(w, h, tcb, to, p)
  {
    forall k: nat
      ensures !GetsTo(tcb, to, p, k)
    {
      GetsNowhere(tcb, to, p, k);
    }
  }

  /** pass_prio leaves a wait queue exactly as it was if and only if every task that it
      moves in there is in place already. */
  lemma PassPrioInPlace(st: State, to: Task?, from: Task, h: Queue)
    requires WellFormed(st) && from in RealTasks(st) && (to != null ==> to in RealTasks(st)) && h in st.waiting
    ensures var r := PassPrio(st, to, from);
            var linked := st.tcb[from := st.tcb[from].(passedTo := to)];
            && h in r.waiting
            && (r.waiting[h] == st.waiting[h] <==>
                AllInPlace(st.waiting[h], h, linked, to, st.tcb[from].priority))
  {
    SameLinksWellFormed(st, from, st.tcb[from].(passedTo := to));
    hide WellFormed, PassAlong, AllInPlace;
    PassAlongInPlace(SetPassedTo(st, from, to), to, st.tcb[from].priority, h);
  }

  /** Whatever it moves, every wait queue keeps its members. */
  lemma PassPrioMembers(st: State, to: Task?, from: Task, h: Queue)
    requires WellFormed(st) && from in RealTasks(st) && (to != null ==> to in RealTasks(st)) && h in st.waiting
    ensures var r := PassPrio(st, to, from);
            && h in r.waiting && Distinct(r.waiting[h])
            && (forall t :: t in r.waiting[h] ==> t in st.waiting[h])
            && (forall t :: t in st.waiting[h] ==> t in r.waiting[h])
  {
    hide WellFormed, PassAlong;
    WellFormedness.SameLinksWellFormed(st, from, st.tcb[from].(passedTo := to));
    PassAlongWellFormed(SetPassedTo(st, from, to), to, st.tcb[from].priority, h);
    PassPrioKeepsStates(st, to, from);
    var r := PassPrio(st, to, from);
    assert RealTasks(r) == RealTasks(st);
    WaitersBlocked(st, h);
    WaitersBlocked(r, h);
    BlockedWait(st, h);
    BlockedWait(r, h);
  }

  lemma {:induction false} PassAlongWellFormed(st: State, to: Task?, p: int, h: Queue)
    requires WellFormed(st) && (to != null ==> to in RealTasks(st)) && h in st.waiting
    ensures WellFormed(PassAlong(st, to, p)) && h in PassAlong(st, to, p).waiting
    decreases LessUrgent(st.tcb, p)
  {
    hide PassAlong, WellFormed, Raise;
    if to == null || st.tcb[to].priority <= p {
      PassEnd(st, to, p);
    } else {
      PassStep(st, to, p);
      RaiseWellFormed(st, to, p);
      RaiseWaiting(st, to, p, h);
      LinkIsReal(st, to);
      PassAlongWellFormed(Raise(st, to, p), st.tcb[to].passedTo, p, h);
    }
  }

  /** Neither ready nor marked as waiting for a semaphore. */
  predicate Unmarked(c: Tcb) {
    c.state != RT_SCHED_READY && c.state & RT_SCHED_SEMAPHORE == 0
  }

  /** An arrival-order queue keeps its order if and only if every unmarked waiter that the
      passed priority gets to is in place; so it does when no such waiter is unmarked. */
  lemma PassPrioKeepsFifo(st: State, to: Task?, from: Task, h: Queue)
    requires WellFormed(st) && from in RealTasks(st) && (to != null ==> to in RealTasks(st))
    requires h in st.waiting && h.qtype != 0
    ensures var r := PassPrio(st, to, from);
            var w := st.waiting[h];
            var linked := st.tcb[from := st.tcb[from].(passedTo := to)];
            var p := st.tcb[from].priority;
            && h in r.waiting
            && (r.waiting[h] == w <==>
                forall k: nat :: GetsTo(linked, to, p, k) ==>
                                   var x := Hop(linked, to, k);
                                   linked[x].blockedOn == h && Unmarked(linked[x]) ==>
                                     InPlace(w, x, UrgentBy(linked, to, p, k)))
            && ((forall x :: x in w && Unmarked(st.tcb[x]) ==> !Improves(linked, to, p, x)) ==> r.waiting[h] == w)
  {
    PassPrioInPlace(st, to, from, h);
    WaitersBlocked(st, h);
    BlockedWait(st, h);
    hide WellFormed, PassPrio, InPlace, UrgentBy;
    var w, p := st.waiting[h], st.tcb[from].priority;
    var linked := st.tcb[from := st.tcb[from].(passedTo := to)];
    forall k: nat | GetsTo(linked, to, p, k)
      ensures var x := Hop(linked, to, k);
              && x != null && x in linked
              && (linked[x].blockedOn == h ==> (Moves(linked[x]) <==> Unmarked(linked[x])))
              && Improves(linked, to, p, x)
    {
    }
  }

  lemma BlockedWait(st: State, h: Queue)
    requires WellFormed(st) && h in st.waiting
    ensures forall t :: t in RealTasks(st) && st.tcb[t].blockedOn == h ==> t in st.waiting[h]
  {
  }
}
