/** Where pass_prio puts the ready tasks of its chain: every one behind its new equals, in
    the order in which the chain gets to them, and all other ready tasks as they were. */
module PassPrioReady {
  import opened Sequences
  import opened Tasks
  import opened SchedulerSpec
  import opened WellFormedness
  import opened Orders
  import opened ReadyQueue
  import opened Inheritance
  import opened PassPrioQueues

  lemma RaiseKeepsPair(st: State, x: Task, p: int, u: Task, v: Task)
    requires WellFormed(st) && x in RealTasks(st) && u in st.ready && v in st.ready && u != x && v != x
    ensures Before(Raise(st, x, p).ready, u, v) <==> Before(st.ready, u, v)
  {
    if st.tcb[x].state == RT_SCHED_READY {
      MovedInOrder(st, x, p);
    }
    hide WellFormed, StopAt, InsertAt, Without, Before;
  }

  lemma RaisedReady(st: State, x: Task, p: int, u: Task)
    requires Sound(st) && x in RealTasks(st) && u in st.ready
    ensures u in Raise(st, x, p).ready && u in st.tcb && u in RealTasks(st) && st.tcb[u].state == RT_SCHED_READY
  {
    RaiseReadyMembers(st, x, p);
    hide Raise;
  }

  /** One round puts its task behind exactly the others that are at least as urgent as p. */
  lemma RaisePlaces(st: State, x: Task, p: int, u: Task)
    requires Sound(st) && ReadyOrdered(st) && x in RealTasks(st) && 0 <= p < st.tcb[x].priority
    requires x in st.ready && u in st.ready && u != x
    ensures u in st.tcb
    ensures Before(Raise(st, x, p).ready, u, x) <==>
            Leq(ByUrgency, st.tcb[u], st.tcb[x].(priority := p))
  {
    MoveOrders(st, x, p);
    assert st.tcb[x].state == RT_SCHED_READY && Raise(st, x, p) == Move(st, x, p);
    hide WellFormed, ReadyOrdered, Before, Leq, OthersInOrder;
  }

  /** Two ready tasks that the chain does not get to keep their order. */
  lemma {:induction false} PassAlongKeepsPair(st: State, to: Task?, p: int, u: Task, v: Task)
    requires Sound(st) && 0 <= p && (to != null ==> to in RealTasks(st)) && u in st.ready && v in st.ready
    requires u !in Chain(st.tcb, to, p) && v !in Chain(st.tcb, to, p)
    ensures Before(PassAlong(st, to, p).ready, u, v) <==> Before(st.ready, u, v)
    decreases LessUrgent(st.tcb, p)
  {
    SoundIsWellFormed(st);
    hide PassAlong, Sound, WellFormed, Raise, Before;
    if to == null || st.tcb[to].priority <= p {
      PassEnd(st, to, p);
    } else {
      PassStep(st, to, p);
      RaiseSound(st, to, p);
      RaiseWellFormed(st, to, p);
      LinkIsReal(st, to);
      RaiseKeepsPair(st, to, p, u, v);
      RaisedReady(st, to, p, u);
      RaisedReady(st, to, p, v);
      PassAlongKeepsPair(Raise(st, to, p), st.tcb[to].passedTo, p, u, v);
    }
  }

  /** A ready task that the chain gets to ends behind exactly those of the others that are
      at least as urgent as it is now. */
  lemma {:induction false} PassAlongPlaces(st: State, to: Task?, p: int, u: Task, v: Task)
    requires Sound(st) && ReadyOrdered(st) && 0 <= p && (to != null ==> to in RealTasks(st))
    requires u in st.ready && v in st.ready && u in st.tcb && v in st.tcb
    requires u !in Chain(st.tcb, to, p) && v in Chain(st.tcb, to, p)
    ensures Before(PassAlong(st, to, p).ready, u, v) <==>
            Leq(ByUrgency, st.tcb[u], st.tcb[v].(priority := p))
    decreases LessUrgent(st.tcb, p)
  {
    SoundIsWellFormed(st);
    hide PassAlong, Sound, WellFormed, ReadyOrdered, Raise, Before, Leq;
    var st1, next := Raise(st, to, p), st.tcb[to].passedTo;
    PassStep(st, to, p);
    RaisedReady(st, to, p, u);
    RaisedReady(st, to, p, v);
    RaiseSound(st, to, p);
    RaiseWellFormed(st, to, p);
    LinkIsReal(st, to);
    if to == v {
      RaisePlaces(st, v, p, u);
      PassAlongKeepsPair(st1, next, p, u, v);
    } else {
      RaiseOrders(st, to, p);
      PassAlongPlaces(st1, next, p, u, v);
    }
  }

  /** Of two ready tasks that the chain gets to, the earlier one ends ahead. */
  lemma {:induction false} PassAlongTurns(st: State, to: Task?, p: int, i: nat, j: nat, u: Task, v: Task)
    requires Sound(st) && ReadyOrdered(st) && 0 <= p && (to != null ==> to in RealTasks(st))
    requires i < j && GetsTo(st.tcb, to, p, j) && Hop(st.tcb, to, i) == u && Hop(st.tcb, to, j) == v
    requires u in st.ready && v in st.ready
    ensures Before(PassAlong(st, to, p).ready, u, v)
    decreases LessUrgent(st.tcb, p)
  {
    hide PassAlong, Sound, ReadyOrdered, Raise, Before, GetsTo, Hop;
    Starts(st.tcb, to, p, j);
    if i == 0 {
      FirstTurn(st, to, p, j, v);
    } else {
      PassStep(st, to, p);
      OneTurn(st, to, p, u, v);
      FurtherOn(st, to, p, j, v);
      HopFurther(st, to, p, i, u);
      PassAlongTurns(Raise(st, to, p), st.tcb[to].passedTo, p, i - 1, j - 1, u, v);
    }
  }

  /** The chain that is left after one round. */
  lemma FurtherOn(st: State, to: Task, p: int, j: nat, v: Task)
    requires to in st.tcb && st.tcb[to].priority > p && j > 0
    requires Hop(st.tcb, to, j) == v && GetsTo(st.tcb, to, p, j)
    ensures var r, next := Raise(st, to, p).tcb, st.tcb[to].passedTo;
            GetsTo(r, next, p, j - 1) && Hop(r, next, j - 1) == v
  {
    hide GetsTo, Hop, Raise;
    GetsFurther(st.tcb, to, p, j - 1);
  }

  lemma HopFurther(st: State, to: Task, p: int, i: nat, u: Task)
    requires to in st.tcb && st.tcb[to].priority > p && i > 0 && Hop(st.tcb, to, i) == u
    ensures Hop(Raise(st, to, p).tcb, st.tcb[to].passedTo, i - 1) == u
  {
    hide GetsTo, Hop, Raise;
    GetsFurther(st.tcb, to, p, i - 1);
  }

  /** What one round leaves for the next ones to rely on. */
  lemma OneTurn(st: State, to: Task, p: int, u: Task, v: Task)
    requires Sound(st) && ReadyOrdered(st) && to in RealTasks(st) && 0 <= p < st.tcb[to].priority
    requires u in st.ready && v in st.ready
    ensures var r := Raise(st, to, p);
            && PassAlong(st, to, p) == PassAlong(r, st.tcb[to].passedTo, p)
            && Sound(r) && ReadyOrdered(r) && u in r.ready && v in r.ready
            && (st.tcb[to].passedTo != null ==> st.tcb[to].passedTo in RealTasks(r))
    ensures u in RealTasks(st) && v in RealTasks(st)
  {
    SoundIsWellFormed(st);
    RaiseWellFormed(st, to, p);
    hide PassAlong, Sound, WellFormed, ReadyOrdered, Raise;
    PassStep(st, to, p);
    RaisedReady(st, to, p, u);
    RaisedReady(st, to, p, v);
    RaiseSound(st, to, p);
    RaiseOrders(st, to, p);
    LinkIsReal(st, to);
  }

  /** The first task of the chain stays ahead of every later one. */
  lemma FirstTurn(st: State, u: Task, p: int, j: nat, v: Task)
    requires Sound(st) && ReadyOrdered(st) && u in RealTasks(st) && 0 <= p < st.tcb[u].priority
    requires 0 < j && GetsTo(st.tcb, u, p, j) && Hop(st.tcb, u, j) == v && u in st.ready && v in st.ready
    ensures Before(PassAlong(st, u, p).ready, u, v)
  {
    hide PassAlong, Sound, ReadyOrdered, Raise, Before, Leq, GetsTo, Hop;
    Starts(st.tcb, u, p, j);
    OneTurn(st, u, p, u, v);
    FurtherOn(st, u, p, j, v);
    NowEquals(st, u, v, p);
    NextPlaces(st, Raise(st, u, p), st.tcb[u].passedTo, p, j - 1, u, v);
  }

  lemma NextPlaces(st: State, st1: State, next: Task?, p: int, k: nat, u: Task, v: Task)
    requires Sound(st1) && ReadyOrdered(st1) && 0 <= p && (next != null ==> next in RealTasks(st1))
    requires u in st.tcb && v in st.tcb && u != v && st1.tcb == st.tcb[u := st.tcb[u].(priority := p)]
    requires GetsTo(st1.tcb, next, p, k) && Hop(st1.tcb, next, k) == v && u in st1.ready && v in st1.ready
    requires Leq(ByUrgency, st.tcb[u].(priority := p), st.tcb[v].(priority := p))
    ensures Before(PassAlong(st1, next, p).ready, u, v)
  {
    hide PassAlong, Sound, ReadyOrdered, Before, Leq, GetsTo, Hop, Chain, RealTasks;
    ReachedNow(st1.tcb, next, p, k, v, u);
    PassAlongPlaces(st1, next, p, u, v);
  }

  /** The chain begins at to, and what it gets to later is another task. */
  lemma Starts(tcb: map<Task, Tcb>, to: Task?, p: int, j: nat)
    requires GetsTo(tcb, to, p, j)
    ensures to != null && to in tcb && tcb[to].priority > p && Hop(tcb, to, 0) == to
    ensures Hop(tcb, to, j) != null && Hop(tcb, to, j) in tcb && tcb[Hop(tcb, to, j)].priority > p
    ensures j > 0 ==> Hop(tcb, to, j) != to
  {
    HopNone(tcb, to);
  }

  /** u has p already, so that the chain does not get to it; it gets to v at k. */
  lemma ReachedNow(tcb: map<Task, Tcb>, to: Task?, p: int, k: nat, v: Task, u: Task)
    requires GetsTo(tcb, to, p, k) && Hop(tcb, to, k) == v && u in tcb && tcb[u].priority <= p
    ensures u !in Chain(tcb, to, p) && v in Chain(tcb, to, p)
  {
    assert Improves(tcb, to, p, v);
    hide GetsTo, Hop, Improves;
    ChainIsImproved(tcb, to, p, v);
  }

  /** Two tasks of the chain have no deadline, and are equals once both have p. */
  lemma NowEquals(st: State, u: Task, v: Task, p: int)
    requires Sound(st) && u in RealTasks(st) && v in RealTasks(st) && 0 <= p
    requires st.tcb[u].priority > p && st.tcb[v].priority > p
    ensures Leq(ByUrgency, st.tcb[u].(priority := p), st.tcb[v].(priority := p))
  {
  }

  /** pass_prio, two ready tasks: both left alone, or one of them improved. */
  lemma PassPrioReadyPair(st: State, to: Task?, from: Task, u: Task, v: Task)
    requires Sound(st) && from in RealTasks(st) && (to != null ==> to in RealTasks(st))
    requires u in st.ready && v in st.ready && u in st.tcb && v in st.tcb
    ensures var r := PassPrio(st, to, from);
            var linked, p := st.tcb[from := st.tcb[from].(passedTo := to)], st.tcb[from].priority;
            && (u !in Improved(linked, to, p) && v !in Improved(linked, to, p) ==>
                  (Before(r.ready, u, v) <==> Before(st.ready, u, v)))
            && (ReadyOrdered(st) && u !in Improved(linked, to, p) && v in Improved(linked, to, p) ==>
                  (Before(r.ready, u, v) <==> Leq(ByUrgency, st.tcb[u], st.tcb[v].(priority := p))))
  {
    var st1, p := SetPassedTo(st, from, to), st.tcb[from].priority;
    assert 0 <= p;
    hide PassAlong, Sound, ReadyOrdered, Before, Leq, Chain, Improved;
    SetPassedToSound(st, from, to);
    ChainSet(st1.tcb, to, p);
    if u !in Chain(st1.tcb, to, p) && v !in Chain(st1.tcb, to, p) {
      PassAlongKeepsPair(st1, to, p, u, v);
    } else if ReadyOrdered(st) && u !in Chain(st1.tcb, to, p) && v in Chain(st1.tcb, to, p) {
      PassAlongPlaces(st1, to, p, u, v);
      LinksNoMatter(st.tcb[u], st.tcb[v].(priority := p), st1.tcb[u].passedTo, st1.tcb[v].passedTo);
    }
  }

  lemma LinksNoMatter(a: Tcb, b: Tcb, x: Task?, y: Task?)
    ensures Leq(ByUrgency, a.(passedTo := x), b.(passedTo := y)) <==> Leq(ByUrgency, a, b)
  {
  }

  /** Two ready tasks that are both improved end in the order in which the links reach them. */
  lemma PassPrioTurns(st: State, to: Task?, from: Task, i: nat, j: nat, u: Task, v: Task)
    requires Sound(st) && ReadyOrdered(st) && from in RealTasks(st) && (to != null ==> to in RealTasks(st))
    requires u in st.ready && v in st.ready
    requires var linked, p := st.tcb[from := st.tcb[from].(passedTo := to)], st.tcb[from].priority;
             i < j && GetsTo(linked, to, p, j) && Hop(linked, to, i) == u && Hop(linked, to, j) == v
    ensures Before(PassPrio(st, to, from).ready, u, v)
  {
    assert 0 <= st.tcb[from].priority;
    hide PassAlong, Sound, ReadyOrdered, Before, GetsTo, Hop;
    SetPassedToSound(st, from, to);
    PassAlongTurns(SetPassedTo(st, from, to), to, st.tcb[from].priority, i, j, u, v);
  }
}
