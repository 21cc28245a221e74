/** What pass_prio does to the queues that its chain visits. */
module PassPrioQueues {
  import opened Sequences
  import opened Tasks
  import opened SchedulerSpec
  import opened WellFormedness
  import opened Orders
  import opened ReadyQueue
  import opened Inheritance

  /** What the loop of pass_prio relies on, beyond well-formedness. */
  ghost predicate Sound(st: State) {
    WellFormed(st) && Bounded(st) && ReadyMatchesState(st)
  }

  lemma RaiseSound(st: State, t: Task, p: int)
    requires Sound(st) && t in RealTasks(st) && 0 <= p < st.tcb[t].priority
    ensures Sound(Raise(st, t, p))
  {
    RaiseWellFormed(st, t, p);
    RaiseReadyMembers(st, t, p);
    RaiseBounded(st, t, p);
    hide WellFormed, StopAt, Raise;
    var r := Raise(st, t, p);
    assert r.linux == st.linux by { RaiseKeeps(st, t, p); }
  }

  lemma RaiseKeeps(st: State, t: Task, p: int)
    requires t in st.tcb
    ensures var r := Raise(st, t, p); r.linux == st.linux && r.timed == st.timed
  {
    hide StopAt, InsertAt, Without;
  }

  lemma RaiseOrders(st: State, t: Task, p: int)
    requires Sound(st) && ReadyOrdered(st) && t in RealTasks(st) && 0 <= p < st.tcb[t].priority
    ensures ReadyOrdered(Raise(st, t, p))
  {
    if st.tcb[t].state == RT_SCHED_READY {
      MoveOrders(st, t, p);
    } else {
      hide WellFormed, StopAt, InsertAt, Without;
      SortedElsewhere(ByUrgency, st.ready, st.tcb, Raise(st, t, p).tcb);
    }
  }

  /** A link of a real task leads to a real task or nowhere. */
  lemma LinkIsReal(st: State, t: Task)
    requires WellFormed(st) && t in RealTasks(st)
    ensures st.tcb[t].passedTo != null ==> st.tcb[t].passedTo in RealTasks(st)
  {
  }

  /** The chain keeps soundness, and an ordered ready queue ordered, whatever it visits. */
  lemma {:induction false} PassAlongReady(st: State, to: Task?, p: int)
    requires Sound(st) && 0 <= p && (to != null ==> to in RealTasks(st))
    ensures var r := PassAlong(st, to, p);
            Sound(r) && (ReadyOrdered(st) ==> ReadyOrdered(r)) && r.timed == st.timed
    decreases LessUrgent(st.tcb, p)
  {
    hide PassAlong, Sound, ReadyOrdered, Raise;
    if to == null || st.tcb[to].priority <= p {
      PassEnd(st, to, p);
    } else {
      PassStep(st, to, p);
      RaiseSound(st, to, p);
      if ReadyOrdered(st) {
        RaiseOrders(st, to, p);
      }
      RaiseKeeps(st, to, p);
      LinkIsReal(st, to) by { SoundIsWellFormed(st); }
      PassAlongReady(Raise(st, to, p), st.tcb[to].passedTo, p);
    }
  }

  lemma SoundIsWellFormed(st: State)
    requires Sound(st)
    ensures WellFormed(st)
  {
  }

  lemma SetPassedToSound(st: State, from: Task, to: Task?)
    requires Sound(st) && from in RealTasks(st) && (to != null ==> to in RealTasks(st))
    ensures Sound(SetPassedTo(st, from, to))
    ensures ReadyOrdered(st) ==> ReadyOrdered(SetPassedTo(st, from, to))
  {
    SameLinksWellFormed(st, from, st.tcb[from].(passedTo := to));
    if ReadyOrdered(st) {
      hide WellFormed;
      assert forall t :: t in st.ready ==> t in st.tcb;
    }
  }

  /** pass_prio keeps every queue's members, and an ordered ready queue ordered. */
  lemma PassPrioKeepsQueues(st: State, to: Task?, from: Task)
    requires Sound(st) && from in RealTasks(st) && (to != null ==> to in RealTasks(st))
    ensures var r := PassPrio(st, to, from);
            && Sound(r) && (ReadyOrdered(st) ==> ReadyOrdered(r)) && r.timed == st.timed
            && (forall t :: t in RealTasks(st) ==> (t in r.ready <==> t in st.ready))
            && (forall h, t :: h in st.waiting && h in r.waiting && t in RealTasks(st) ==>
                                 (t in r.waiting[h] <==> t in st.waiting[h]))
  {
    var st1 := SetPassedTo(st, from, to);
    var p := st.tcb[from].priority;
    SetPassedToSound(st, from, to);
    assert 0 <= p;
    hide PassAlong, ReadyOrdered, Sound;
    PassAlongReady(st1, to, p);
    PassPrioKeepsStates(st, to, from);
    SameMembers(st, PassPrio(st, to, from));
  }

  lemma PassPrioKeepsStates(st: State, to: Task?, from: Task)
    requires from in st.tcb
    ensures var r := PassPrio(st, to, from);
            && r.linux == st.linux && r.tcb.Keys == st.tcb.Keys
            && forall t :: t in st.tcb ==>
                             r.tcb[t].state == st.tcb[t].state && r.tcb[t].blockedOn == st.tcb[t].blockedOn
  {
    hide PassAlong, Chain;
    PassAlongRaisesChain(SetPassedTo(st, from, to), to, st.tcb[from].priority);
  }

  /** Who is in which queue depends on the states and on blockedOn only. */
  lemma SameMembers(st: State, r: State)
    requires Sound(st) && Sound(r) && r.linux == st.linux && r.tcb.Keys == st.tcb.Keys
    requires forall t :: t in st.tcb ==>
                           r.tcb[t].state == st.tcb[t].state && r.tcb[t].blockedOn == st.tcb[t].blockedOn
    ensures forall t :: t in RealTasks(st) ==> (t in r.ready <==> t in st.ready)
    ensures forall h, t :: h in st.waiting && h in r.waiting && t in RealTasks(st) ==>
                             (t in r.waiting[h] <==> t in st.waiting[h])
  {
    assert RealTasks(r) == RealTasks(st);
  }

  // Wait queues. While the chain is being raised to p, a queue may hold p's out of place,
  // but nothing else.

  ghost predicate SortedButFor(s: seq<Task>, tcb: map<Task, Tcb>, p: int) {
    && (forall t :: t in s ==> t in tcb)
    && forall i, j :: 0 <= i < j < |s| ==>
                        tcb[s[i]].priority <= tcb[s[j]].priority || tcb[s[j]].priority == p
  }

  lemma RequeueKeepsRest(s: seq<Task>, tcb: map<Task, Tcb>, p: int, t: Task)
    requires SortedButFor(s, tcb, p) && Distinct(s) && t in s && tcb[t].priority == p
    ensures SortedButFor(Queued(Without(s, t), tcb, UpTo(p), t), tcb, p)
  {
    var k :| 0 <= k < |s| && s[k] == t;
    WithoutAt(s, k);
    var v := s[..k] + s[k + 1..];
    CutKeepsRest(s, tcb, p, k);
    InsertKeepsRest(v, tcb, p, t);
  }

  lemma CutKeepsRest(s: seq<Task>, tcb: map<Task, Tcb>, p: int, k: nat)
    requires SortedButFor(s, tcb, p) && k < |s|
    ensures SortedButFor(s[..k] + s[k + 1..], tcb, p)
  {
    var v := s[..k] + s[k + 1..];
    forall i, j | 0 <= i < j < |v|
      ensures tcb[v[i]].priority <= tcb[v[j]].priority || tcb[v[j]].priority == p
    {
      var i', j' := if i < k then i else i + 1, if j < k then j else j + 1;
      assert v[i] == s[i'] && v[j] == s[j'];
    }
  }

  lemma InsertKeepsRest(v: seq<Task>, tcb: map<Task, Tcb>, p: int, t: Task)
    requires SortedButFor(v, tcb, p) && t in tcb && tcb[t].priority == p
    ensures SortedButFor(Queued(v, tcb, UpTo(p), t), tcb, p)
  {
    var k := StopAt(v, tcb, UpTo(p));
    var r := InsertAt(v, k, t);
    InsertMembers(v, k, t);
    assert k < |v| ==> v[k] in v;
    hide StopAt, InsertAt;
    forall i, j | 0 <= i < j < |r|
      ensures tcb[r[i]].priority <= tcb[r[j]].priority || tcb[r[j]].priority == p
    {
      InsertKeepsPair(v, tcb, p, t, k, i, j);
    }
  }

  lemma InsertKeepsPair(v: seq<Task>, tcb: map<Task, Tcb>, p: int, t: Task, k: nat, i: nat, j: nat)
    requires SortedButFor(v, tcb, p) && t in tcb && tcb[t].priority == p
    requires k <= |v| && (k < |v| ==> tcb[v[k]].priority > p) && i < j < |InsertAt(v, k, t)|
    ensures var r := InsertAt(v, k, t);
            && r[i] in tcb && r[j] in tcb
            && (tcb[r[i]].priority <= tcb[r[j]].priority || tcb[r[j]].priority == p)
  {
    var r := InsertAt(v, k, t);
    if i == k {
      BehindStop(v, tcb, p, k, j - 1);
      assert r[i] == t && r[j] == v[j - 1];
    } else if j == k {
      assert r[i] == v[i] && r[j] == t && v[i] in v;
    } else {
      var i', j' := if i < k then i else i - 1, if j < k then j else j - 1;
      assert r[i] == v[i'] && r[j] == v[j'];
      assert v[i'] in v && v[j'] in v;
    }
  }

  lemma BehindStop(v: seq<Task>, tcb: map<Task, Tcb>, p: int, k: nat, j: nat)
    requires SortedButFor(v, tcb, p) && k <= j < |v| && tcb[v[k]].priority > p
    ensures v[j] in tcb && tcb[v[j]].priority >= p
  {
    assert v[k] in v && v[j] in v;
  }

  /** One raise: h keeps its members and stays sorted but for p. */
  lemma RaiseWaiters(st: State, x: Task, p: int, h: Queue)
    requires WellFormed(st) && x in RealTasks(st) && p < st.tcb[x].priority && h in st.waiting
    requires SortedButFor(st.waiting[h], st.tcb, p)
    ensures var r := Raise(st, x, p);
            h in r.waiting && SortedButFor(r.waiting[h], r.tcb, p)
  {
    var w, tcb := st.waiting[h], Raise(st, x, p).tcb;
    assert SortedButFor(w, tcb, p);
    RaiseWaiting(st, x, p, h);
    if Moves(st.tcb[x]) && st.tcb[x].blockedOn == h {
      assert x in w && QueueOf(st, w);
      RequeueKeepsRest(w, tcb, p, x);
    }
  }

  /** The queue after one raise, in one formula. */
  lemma RaiseWaiting(st: State, x: Task, p: int, h: Queue)
    requires WellFormed(st) && x in RealTasks(st) && h in st.waiting
    ensures var r := Raise(st, x, p);
            && h in r.waiting
            && r.waiting[h] == if Moves(st.tcb[x]) && st.tcb[x].blockedOn == h
                               then Queued(Without(st.waiting[h], x), r.tcb, UpTo(p), x)
                               else st.waiting[h]
  {
    hide StopAt, InsertAt, Without;
  }

  /** A waiter that stays less urgent than p keeps its place ahead of another, unless the
      other is the one that is put back in order. */
  lemma RaisePair(st: State, x: Task, p: int, h: Queue, u: Task, t: Task)
    requires WellFormed(st) && x in RealTasks(st) && p < st.tcb[x].priority && h in st.waiting
    requires u in st.waiting[h] && u != x && u != t && st.tcb[u].priority > p
    ensures var r := Raise(st, x, p);
            && h in r.waiting
            && (Before(r.waiting[h], u, t) <==> Before(st.waiting[h], u, t) && !(x == t && Moves(st.tcb[t])))
  {
    RaiseWaiting(st, x, p, h);
    var tcb := Raise(st, x, p).tcb;
    if Moves(st.tcb[x]) && st.tcb[x].blockedOn == h {
      var w := st.waiting[h];
      assert x in w && QueueOf(st, w) && u in tcb;
      hide WellFormed, Raise;
      WithoutMembers(w, x);
      var v := Without(w, x);
      var k := StopAt(v, tcb, UpTo(p));
      if x == t {
        var i :| 0 <= i < |v| && v[i] == u;
        InsertedBefore(v, k, x, i);
      } else {
        BeforeInserted(v, k, x, u, t);
        BeforeWithout(w, x, u, t);
      }
    } else if x == t && Moves(st.tcb[t]) {
      assert t !in st.waiting[h];
    }
  }

  /** Along the whole chain: h stays sorted but for p. */
  lemma {:induction false} PassAlongWaiters(st: State, to: Task?, p: int, h: Queue)
    requires WellFormed(st) && (to != null ==> to in RealTasks(st)) && h in st.waiting
    requires SortedButFor(st.waiting[h], st.tcb, p)
    ensures var r := PassAlong(st, to, p);
            WellFormed(r) && h in r.waiting && SortedButFor(r.waiting[h], r.tcb, p)
    decreases LessUrgent(st.tcb, p)
  {
    hide PassAlong, WellFormed, Raise, SortedButFor;
    if to == null || st.tcb[to].priority <= p {
      PassEnd(st, to, p);
    } else {
      PassStep(st, to, p);
      RaiseWellFormed(st, to, p);
      RaiseWaiters(st, to, p, h);
      LinkIsReal(st, to);
      PassAlongWaiters(Raise(st, to, p), st.tcb[to].passedTo, p, h);
    }
  }

  /** Along the whole chain: a waiter that is not raised stays ahead of exactly those that
      were behind it and are not put back in order. */
  lemma {:induction false} PassAlongPair(st: State, to: Task?, p: int, h: Queue, u: Task, t: Task)
    requires WellFormed(st) && (to != null ==> to in RealTasks(st)) && h in st.waiting
    requires u in st.waiting[h] && u != t && t in st.tcb
    requires st.tcb[u].priority > p && u !in Chain(st.tcb, to, p)
    ensures var r := PassAlong(st, to, p);
            && h in r.waiting
            && (Before(r.waiting[h], u, t) <==>
                Before(st.waiting[h], u, t) && !(t in Chain(st.tcb, to, p) && Moves(st.tcb[t])))
    decreases LessUrgent(st.tcb, p)
  {
    hide PassAlong, WellFormed, Raise, Before;
    if to == null || st.tcb[to].priority <= p {
      PassEnd(st, to, p);
    } else {
      PassStep(st, to, p);
      RaiseWellFormed(st, to, p);
      RaisePair(st, to, p, h, u, t);
      LinkIsReal(st, to);
      var st1 := Raise(st, to, p);
      RaisedStaysWaiting(st, to, p, h, u);
      PassAlongPair(st1, st.tcb[to].passedTo, p, h, u, t);
    }
  }

  lemma RaisedStaysWaiting(st: State, x: Task, p: int, h: Queue, u: Task)
    requires WellFormed(st) && x in RealTasks(st) && h in st.waiting && u in st.waiting[h]
    ensures var r := Raise(st, x, p); h in r.waiting && u in r.waiting[h]
  {
    RaiseWaiting(st, x, p, h);
    RaiseWellFormed(st, x, p);
    hide Raise;
    var r := Raise(st, x, p);
    assert RealTasks(r) == RealTasks(st);
    assert r.tcb[u].blockedOn == h;
  }

  /** Some task of c, which is being raised, is already marked ready but still stands in h, behind
      a less urgent task that is left alone. */
  ghost predicate StaleWaiter(w: seq<Task>, tcb: map<Task, Tcb>, c: set<Task>, p: int)
    requires forall t :: t in w ==> t in tcb
  {
    exists u, t :: u in w && t in w && Before(w, u, t)
                   && t in c && tcb[t].state == RT_SCHED_READY && u !in c && tcb[u].priority > p
  }

  lemma StaleWaiterUnsorted(st: State, to: Task?, p: int, h: Queue)
    requires WellFormed(st) && (to != null ==> to in RealTasks(st)) && h in st.waiting
    requires forall t :: t in st.waiting[h] ==> t in st.tcb
    requires StaleWaiter(st.waiting[h], st.tcb, Chain(st.tcb, to, p), p)
    ensures var r := PassAlong(st, to, p);
            h in r.waiting && !Sorted(ByPriority, r.waiting[h], r.tcb)
  {
    hide PassAlong, WellFormed, Chain;
    var w, c := st.waiting[h], Chain(st.tcb, to, p);
    var u, t :| u in w && t in w && Before(w, u, t)
                && t in c && st.tcb[t].state == RT_SCHED_READY && u !in c && st.tcb[u].priority > p;
    PassAlongPair(st, to, p, h, u, t);
    PassAlongRaisesChain(st, to, p);
  }

  lemma BadPairIsStale(st: State, to: Task?, p: int, h: Queue, u: Task, t: Task)
    requires WellFormed(st) && (to != null ==> to in RealTasks(st)) && h in st.waiting
    requires h.qtype == 0 && Sorted(ByPriority, st.waiting[h], st.tcb)
    requires u in st.waiting[h] && t in st.waiting[h]
    requires var r := PassAlong(st, to, p);
             && h in r.waiting && Before(r.waiting[h], u, t)
             && u in r.tcb && t in r.tcb && r.tcb[t].priority == p < r.tcb[u].priority
    ensures StaleWaiter(st.waiting[h], st.tcb, Chain(st.tcb, to, p), p)
  {
    WaitersBlocked(st, h);
    PassAlongRaisesChain(st, to, p);
    hide PassAlong, WellFormed, Chain, Before, Sorted;
    PassAlongPair(st, to, p, h, u, t);
    SortedBefore(st.waiting[h], st.tcb, u, t);
  }

  lemma SortedBefore(s: seq<Task>, tcb: map<Task, Tcb>, u: Task, t: Task)
    requires Sorted(ByPriority, s, tcb) && Before(s, u, t)
    ensures u in tcb && t in tcb && tcb[u].priority <= tcb[t].priority
  {
  }

  /** The priority queue h stays sorted exactly when no stale waiter exists. */
  lemma PassAlongWaitOrder(st: State, to: Task?, p: int, h: Queue)
    requires WellFormed(st) && (to != null ==> to in RealTasks(st)) && h in st.waiting
    requires h.qtype == 0 && Sorted(ByPriority, st.waiting[h], st.tcb)
    ensures var r := PassAlong(st, to, p);
            && h in r.waiting
            && (Sorted(ByPriority, r.waiting[h], r.tcb) <==>
                !StaleWaiter(st.waiting[h], st.tcb, Chain(st.tcb, to, p), p))
  {
    var w, c := st.waiting[h], Chain(st.tcb, to, p);
    PassAlongWaiters(st, to, p, h);
    hide PassAlong, WellFormed, Chain, StaleWaiter;
    if StaleWaiter(w, st.tcb, c, p) {
      StaleWaiterUnsorted(st, to, p, h);
    } else {
      var r := PassAlong(st, to, p);
      var v := r.waiting[h];
      PassAlongMembers(st, to, p, h);
      forall i, j | 0 <= i < j < |v|
        ensures r.tcb[v[i]].priority <= r.tcb[v[j]].priority
      {
        if r.tcb[v[i]].priority > r.tcb[v[j]].priority {
          assert v[i] in v && v[j] in v && Before(v, v[i], v[j]);
          BadPairIsStale(st, to, p, h, v[i], v[j]);
        }
      }
    }
  }

  lemma PassAlongMembers(st: State, to: Task?, p: int, h: Queue)
    requires WellFormed(st) && WellFormed(PassAlong(st, to, p)) && h in st.waiting
    requires h in PassAlong(st, to, p).waiting
    ensures forall t :: t in PassAlong(st, to, p).waiting[h] ==> t in st.waiting[h]
  {
    var r := PassAlong(st, to, p);
    PassAlongRaisesChain(st, to, p);
    hide PassAlong, Chain;
    assert QueueOf(r, r.waiting[h]);
    forall t | t in r.waiting[h]
      ensures t in st.waiting[h]
    {
      assert t in RealTasks(r) && t in RealTasks(st);
      assert r.tcb[t].blockedOn == h;
    }
  }

  /** After pass_prio: h is sorted exactly when no task that the passed priority improves is
      a stale waiter in it. */
  lemma PassPrioWaitOrder(st: State, to: Task?, from: Task, h: Queue)
    requires WellFormed(st) && from in RealTasks(st) && (to != null ==> to in RealTasks(st))
    requires h in st.waiting && h.qtype == 0 && Sorted(ByPriority, st.waiting[h], st.tcb)
    ensures var r := PassPrio(st, to, from);
            var linked := st.tcb[from := st.tcb[from].(passedTo := to)];
            var p := st.tcb[from].priority;
            && h in r.waiting
            && (Sorted(ByPriority, r.waiting[h], r.tcb) <==>
                !StaleWaiter(st.waiting[h], linked, Improved(linked, to, p), p))
  {
    SameLinksWellFormed(st, from, st.tcb[from].(passedTo := to));
    hide WellFormed, PassAlong, Chain, StaleWaiter, Improved;
    PassAlongWaitOrder(SetPassedTo(st, from, to), to, st.tcb[from].priority, h);
    ChainSet(SetPassedTo(st, from, to).tcb, to, st.tcb[from].priority);
  }

  lemma WaitersBlocked(st: State, h: Queue)
    requires WellFormed(st) && h in st.waiting
    ensures Distinct(st.waiting[h])
    ensures forall t :: t in st.waiting[h] ==> t in RealTasks(st) && st.tcb[t].blockedOn == h
  {
    assert QueueOf(st, st.waiting[h]);
  }

  /** b waits on h behind a; its time has run out, so that it is ready, but it has not left
      h yet. c, more urgent than both, is about to wait for b. */
  ghost function TimedOutWaiter(linux: Task, a: Task, b: Task, c: Task, h: Queue): (r: State) {
    State(linux,
          map[linux := Tcb(RT_SCHED_LINUX_PRIORITY, 0, 0, 100, RT_SCHED_READY, null, null),
              a := Tcb(5, 0, 0, 0, RT_SCHED_READY | RT_SCHED_SEMAPHORE, null, h),
              b := Tcb(10, 0, 0, 0, RT_SCHED_READY, null, h),
              c := Tcb(1, 0, 0, 0, RT_SCHED_READY, null, null)],
          [c, b], [], map[h := [a, b]])
  }

  lemma TimedOutWaiterSound(linux: Task, a: Task, b: Task, c: Task, h: Queue)
    requires linux != a && linux != b && linux != c && a != b && a != c && b != c
    ensures var st := TimedOutWaiter(linux, a, b, c, h);
            RealTasks(st) == {a, b, c} && Sound(st) && ReadyOrdered(st) && Sorted(ByPriority, st.waiting[h], st.tcb)
  {
    var st := TimedOutWaiter(linux, a, b, c, h);
    assert RealTasks(st) == {a, b, c};
    assert WellFormed(st);
  }

  /** So the order of a priority queue can be lost in a sound state. */
  lemma StaleWaiterExample(linux: Task, a: Task, b: Task, c: Task, h: Queue)
    requires linux != a && linux != b && linux != c && a != b && a != c && b != c && h.qtype == 0
    ensures var st := TimedOutWaiter(linux, a, b, c, h);
            && Sound(st) && ReadyOrdered(st) && Sorted(ByPriority, st.waiting[h], st.tcb)
            && var r := PassPrio(st, b, c);
               h in r.waiting && !Sorted(ByPriority, r.waiting[h], r.tcb)
  {
    var st := TimedOutWaiter(linux, a, b, c, h);
    TimedOutWaiterSound(linux, a, b, c, h);
    assert st.waiting[h] == [a, b];
    var linked := st.tcb[c := st.tcb[c].(passedTo := b)];
    assert Chain(linked, b, 1) == {b};
    ChainSet(linked, b, 1);
    hide WellFormed, Sound, PassPrio, Chain, Improved;
    PassPrioWaitOrder(st, b, c, h);
    assert [a, b][0] == a && [a, b][1] == b;
    assert Before([a, b], a, b);
  }
}
