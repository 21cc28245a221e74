/** One wait queue under any sequence of arrivals and departures. */
module WaitQueues {
  import opened Sequences
  import opened Tasks
  import opened SchedulerSpec
  import opened Orders
  import WellFormedness

  /** A task blocks on the queue, or is taken off it. */
  datatype Visit = Arrive(t: Task) | Depart(t: Task)

  ghost predicate LegalVisit(st: State, h: Queue, v: Visit) {
    && h in st.waiting && v.t in RealTasks(st)
    && match v
       case Arrive(t) => st.tcb[t].blockedOn == null
       case Depart(t) => st.tcb[t].blockedOn == h
  }

  function Visited(st: State, h: Queue, qtype: int, v: Visit): (r: State)
    requires LegalVisit(st, h, v)
  {
    match v
    case Arrive(t) => EnqueueBlocked(st, t, h, qtype)
    case Depart(t) => DequeueBlocked(st, t)
  }

  /** Who is still there, in the order of arrival. */
  function Present(arrived: seq<Task>, v: Visit): (r: seq<Task>) {
    match v
    case Arrive(t) => arrived + [t]
    case Depart(t) => Without(arrived, t)
  }

  /** w holds the same tasks as a, the more urgent first and equals in the order of a. */
  ghost predicate StableSort(w: seq<Task>, a: seq<Task>, tcb: map<Task, Tcb>) {
    && Distinct(w) && Distinct(a)
    && (forall t :: t in w ==> t in a && t in tcb)
    && (forall t :: t in a ==> t in w)
    && forall u, v :: u in w && v in w && u != v ==>
                        (Before(w, u, v) <==>
                         tcb[u].priority < tcb[v].priority ||
                         (tcb[u].priority == tcb[v].priority && Before(a, u, v)))
  }

  /** A stable sort is one: the order is determined by the priorities and by a. */
  lemma StableSortSorted(w: seq<Task>, a: seq<Task>, tcb: map<Task, Tcb>)
    requires StableSort(w, a, tcb)
    ensures Sorted(ByPriority, w, tcb)
  {
    forall i, j | 0 <= i < j < |w|
      ensures tcb[w[i]].priority <= tcb[w[j]].priority
    {
      assert w[i] != w[j] && w[i] in w && w[j] in w;
      assert Before(w, w[i], w[j]);
    }
  }

  lemma ArriveByPriority(w: seq<Task>, a: seq<Task>, tcb: map<Task, Tcb>, t: Task)
    requires StableSort(w, a, tcb) && t in tcb && t !in w
    ensures StableSort(Queued(w, tcb, UpTo(tcb[t].priority), t), a + [t], tcb)
  {
    var k := StopAt(w, tcb, UpTo(tcb[t].priority));
    var r := InsertAt(w, k, t);
    StableSortSorted(w, a, tcb);
    InsertMembers(w, k, t);
    InsertMembers(a, |a|, t);
    assert InsertAt(a, |a|, t) == a + [t];
    forall u, v | u in r && v in r && u != v
      ensures Before(r, u, v) <==>
              tcb[u].priority < tcb[v].priority ||
              (tcb[u].priority == tcb[v].priority && Before(a + [t], u, v))
    {
      if u == t {
        ArrivedPair(w, a, tcb, t, k, v);
      } else if v == t {
        ArrivedPair(w, a, tcb, t, k, u);
      } else {
        BeforeInserted(w, k, t, u, v);
        BeforeInserted(a, |a|, t, u, v);
      }
    }
  }

  /** The newcomer and one that was there: both orders. */
  lemma ArrivedPair(w: seq<Task>, a: seq<Task>, tcb: map<Task, Tcb>, t: Task, k: nat, u: Task)
    requires StableSort(w, a, tcb) && Sorted(ByPriority, w, tcb) && t in tcb && t !in w && u in w
    requires k == StopAt(w, tcb, UpTo(tcb[t].priority))
    ensures Before(InsertAt(w, k, t), u, t) <==> tcb[u].priority <= tcb[t].priority
    ensures Before(InsertAt(w, k, t), t, u) <==> tcb[t].priority < tcb[u].priority
    ensures Before(a + [t], u, t) && !Before(a + [t], t, u)
  {
    var i :| 0 <= i < |w| && w[i] == u;
    InsertedBefore(w, k, t, i);
    InsertMembers(w, k, t);
    BeforeTotal(InsertAt(w, k, t), u, t);
    var j :| 0 <= j < |a| && a[j] == u;
    assert (a + [t])[j] == u && (a + [t])[|a|] == t;
    InsertMembers(a, |a|, t);
    assert InsertAt(a, |a|, t) == a + [t];
    BeforeTotal(a + [t], u, t);
    assert k < |w| ==> w[k] in w;
  }

  lemma DepartStable(w: seq<Task>, a: seq<Task>, tcb: map<Task, Tcb>, t: Task)
    requires StableSort(w, a, tcb)
    ensures StableSort(Without(w, t), Without(a, t), tcb)
  {
    hide Before;
    WithoutMembers(w, t);
    WithoutMembers(a, t);
    var r, b := Without(w, t), Without(a, t);
    forall u, v | u in r && v in r && u != v
      ensures Before(r, u, v) <==>
              tcb[u].priority < tcb[v].priority ||
              (tcb[u].priority == tcb[v].priority && Before(b, u, v))
    {
      BeforeWithout(w, t, u, v);
      BeforeWithout(a, t, u, v);
    }
  }

  lemma StableElsewhere(w: seq<Task>, a: seq<Task>, tcb: map<Task, Tcb>, tcb': map<Task, Tcb>)
    requires StableSort(w, a, tcb)
    requires forall t :: t in w ==> t in tcb && t in tcb' && tcb'[t].priority == tcb[t].priority
    ensures StableSort(w, a, tcb')
  {
    hide Before;
  }

  /** The two disciplines: a FIFO queue is the arrivals, a priority queue a stable sort. */
  ghost predicate Disciplined(st: State, h: Queue, qtype: int, arrived: seq<Task>) {
    && WellFormed(st) && h in st.waiting
    && if qtype == 0 then StableSort(st.waiting[h], arrived, st.tcb) else st.waiting[h] == arrived
  }

  lemma VisitDisciplined(st: State, h: Queue, qtype: int, arrived: seq<Task>, v: Visit)
    requires Disciplined(st, h, qtype, arrived) && LegalVisit(st, h, v)
    ensures Disciplined(Visited(st, h, qtype, v), h, qtype, Present(arrived, v))
  {
    var w, t := st.waiting[h], v.t;
    assert QueueOf(st, w);
    if v.Arrive? {
      WellFormedness.EnqueueBlockedWellFormed(st, t, h, qtype);
      hide WellFormed, StableSort, StopAt;
      if qtype == 0 {
        var tcb := st.tcb[t := st.tcb[t].(blockedOn := h)];
        StableElsewhere(w, arrived, st.tcb, tcb);
        ArriveByPriority(w, arrived, tcb, t);
      }
    } else {
      WellFormedness.DequeueBlockedWellFormed(st, t);
      hide WellFormed, StableSort, StopAt;
      if qtype == 0 {
        var tcb := st.tcb[t := st.tcb[t].(passedTo := null, blockedOn := null)];
        StableElsewhere(w, arrived, st.tcb, tcb);
        DepartStable(w, arrived, tcb, t);
      }
    }
  }

  ghost predicate LegalVisits(st: State, h: Queue, qtype: int, visits: seq<Visit>)
    decreases |visits|
  {
    visits == [] ||
    (LegalVisit(st, h, visits[0]) && LegalVisits(Visited(st, h, qtype, visits[0]), h, qtype, visits[1..]))
  }

  ghost function AfterVisits(st: State, h: Queue, qtype: int, visits: seq<Visit>): (r: State)
    requires LegalVisits(st, h, qtype, visits)
    decreases |visits|
  {
    if visits == [] then st else AfterVisits(Visited(st, h, qtype, visits[0]), h, qtype, visits[1..])
  }

  function StillPresent(arrived: seq<Task>, visits: seq<Visit>): (r: seq<Task>)
    decreases |visits|
  {
    if visits == [] then arrived else StillPresent(Present(arrived, visits[0]), visits[1..])
  }

  /** Over any sequence of visits, from the empty queue on, a FIFO queue is exactly the
      order of arrival, a priority queue is its stable sort by priority, and blockedOn
      names the queue exactly for the tasks in it. */
  lemma {:induction false} VisitsDisciplined(st: State, h: Queue, qtype: int, arrived: seq<Task>, visits: seq<Visit>)
    requires Disciplined(st, h, qtype, arrived) && LegalVisits(st, h, qtype, visits)
    ensures var r := AfterVisits(st, h, qtype, visits);
            && Disciplined(r, h, qtype, StillPresent(arrived, visits))
            && forall t :: t in RealTasks(r) ==> (r.tcb[t].blockedOn == h <==> t in r.waiting[h])
    decreases |visits|
  {
    if visits != [] {
      VisitDisciplined(st, h, qtype, arrived, visits[0]);
      hide Disciplined, Visited, Present, LegalVisit;
      VisitsDisciplined(Visited(st, h, qtype, visits[0]), h, qtype, Present(arrived, visits[0]), visits[1..]);
    }
  }
}
