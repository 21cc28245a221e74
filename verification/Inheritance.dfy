/** Priority inheritance: exactly which tasks pass_prio makes more urgent, over every
    graph of prioPassedTo links, cycles included. */
module Inheritance {
  import opened Sequences
  import opened Tasks
  import opened SchedulerSpec
  import WellFormedness

  /** The task k links away from to. */
  ghost function Hop(tcb: map<Task, Tcb>, to: Task?, k: nat): (r: Task?) {
    if k == 0 || to == null || to !in tcb then to else Hop(tcb, tcb[to].passedTo, k - 1)
  }

  ghost predicate Reaches(tcb: map<Task, Tcb>, to: Task?, t: Task) {
    exists k: nat :: Hop(tcb, to, k) == t
  }

  /** A task that waits, directly or not, on t never is more urgent than t; except says
      whose own link is not looked at. */
  ghost predicate Inherits(tcb: map<Task, Tcb>, except: set<Task>) {
    forall t :: t in tcb && t !in except && tcb[t].passedTo != null && tcb[t].passedTo in tcb ==>
                  tcb[tcb[t].passedTo].priority <= tcb[t].priority
  }

  /** The tasks that priority p reaches along the chain from to. */
  ghost function Chain(tcb: map<Task, Tcb>, to: Task?, p: int): (r: set<Task>)
    ensures forall t :: t in r ==> t in tcb && tcb[t].priority > p
    decreases LessUrgent(tcb, p)
  {
    if to == null || to !in tcb || tcb[to].priority <= p then {}
    else
      var tcb1 := tcb[to := tcb[to].(priority := p)];
      assert to in LessUrgent(tcb, p) && to !in LessUrgent(tcb1, p);
      {to} + Chain(tcb1, tcb[to].passedTo, p)
  }

  /** Priority p for the tasks of c, everything else as it was. */
  function Raised(tcb: map<Task, Tcb>, c: set<Task>, p: int): (r: map<Task, Tcb>) {
    map t | t in tcb :: if t in c then tcb[t].(priority := p) else tcb[t]
  }

  lemma {:induction false} PassAlongRaisesChain(st: State, to: Task?, p: int)
    ensures PassAlong(st, to, p).tcb == Raised(st.tcb, Chain(st.tcb, to, p), p)
    ensures PassAlong(st, to, p).linux == st.linux && PassAlong(st, to, p).timed == st.timed
    decreases LessUrgent(st.tcb, p)
  {
    if !(to == null || to !in st.tcb || st.tcb[to].priority <= p) {
      WellFormedness.PassStep(st, to, p);
      hide PassAlong, StopAt, InsertAt, Without;
      PassAlongRaisesChain(Raise(st, to, p), st.tcb[to].passedTo, p);
    }
  }

  /** Changing priorities does not change who reaches whom. */
  lemma {:induction false} HopSame(tcb: map<Task, Tcb>, tcb': map<Task, Tcb>, to: Task?, k: nat)
    requires tcb'.Keys == tcb.Keys && forall t :: t in tcb ==> tcb'[t].passedTo == tcb[t].passedTo
    ensures Hop(tcb', to, k) == Hop(tcb, to, k)
    decreases k
  {
    if !(k == 0 || to == null || to !in tcb) {
      HopSame(tcb, tcb', tcb[to].passedTo, k - 1);
    }
  }

  /** Whatever the chain raises is reachable. */
  lemma {:induction false} ChainReached(tcb: map<Task, Tcb>, to: Task?, p: int, t: Task) returns (k: nat)
    requires t in Chain(tcb, to, p)
    ensures Hop(tcb, to, k) == t
    decreases LessUrgent(tcb, p)
  {
    if t == to {
      k := 0;
    } else {
      var tcb1 := tcb[to := tcb[to].(priority := p)];
      assert to in LessUrgent(tcb, p) && to !in LessUrgent(tcb1, p);
      var j := ChainReached(tcb1, tcb[to].passedTo, p, t);
      HopSame(tcb, tcb1, tcb[to].passedTo, j);
      k := j + 1;
    }
  }

  /** The chain stops only at a task that is urgent enough already. */
  lemma {:induction false} ChainContinues(tcb: map<Task, Tcb>, to: Task?, p: int, t: Task)
    requires t in Chain(tcb, to, p) && tcb[t].passedTo != null && tcb[t].passedTo in tcb
    ensures tcb[t].passedTo in Chain(tcb, to, p) || tcb[tcb[t].passedTo].priority <= p
    decreases LessUrgent(tcb, p)
  {
    var tcb1 := tcb[to := tcb[to].(priority := p)];
    assert to in LessUrgent(tcb, p) && to !in LessUrgent(tcb1, p);
    if t != to {
      ChainContinues(tcb1, tcb[to].passedTo, p, t);
    }
  }

  /** When the old chain was inherited, everything that is reachable ends at p or better. */
  lemma {:induction false} ReachedIsUrgent(tcb: map<Task, Tcb>, to: Task?, from: Task, p: int, k: nat)
    requires from in tcb && tcb[from].priority == p && tcb[from].passedTo == to
    requires Inherits(tcb, {from})
    ensures var u := Hop(tcb, to, k);
            u != null && u in tcb ==> u in Chain(tcb, to, p) || tcb[u].priority <= p
  {
    var u := Hop(tcb, to, k);
    if k > 0 && u != null && u in tcb {
      var t := Hop(tcb, to, k - 1);
      HopLast(tcb, to, k);
      ReachedIsUrgent(tcb, to, from, p, k - 1);
      if t in Chain(tcb, to, p) {
        ChainContinues(tcb, to, p, t);
      }
    }
  }

  lemma {:induction false} HopLast(tcb: map<Task, Tcb>, to: Task?, k: nat)
    requires k > 0
    ensures var t := Hop(tcb, to, k - 1);
            Hop(tcb, to, k) == if t == null || t !in tcb then t else tcb[t].passedTo
    decreases k
  {
    if k > 1 && to != null && to in tcb {
      HopLast(tcb, tcb[to].passedTo, k - 1);
    }
  }

  // The chain without the loop: how far p gets, link by link, in the links as they are.

  /** Priority p gets k links far: the tasks on the way, and the one there, are different
      tasks and less urgent than p. */
  ghost predicate GetsTo(tcb: map<Task, Tcb>, to: Task?, p: int, k: nat) {
    && (forall i: nat :: i <= k ==>
          Hop(tcb, to, i) != null && Hop(tcb, to, i) in tcb && tcb[Hop(tcb, to, i)].priority > p)
    && forall i: nat, j: nat :: i < j <= k ==> Hop(tcb, to, i) != Hop(tcb, to, j)
  }

  ghost predicate Improves(tcb: map<Task, Tcb>, to: Task?, p: int, t: Task) {
    exists k: nat :: GetsTo(tcb, to, p, k) && Hop(tcb, to, k) == t
  }

  /** The tasks that p improves. */
  ghost function Improved(tcb: map<Task, Tcb>, to: Task?, p: int): (r: set<Task>) {
    set t | t in tcb && Improves(tcb, to, p, t)
  }

  /** One link further: to has got p, and so does not count as less urgent again. */
  lemma GetsFurther(tcb: map<Task, Tcb>, to: Task, p: int, k: nat)
    requires to in tcb && tcb[to].priority > p
    ensures var tcb1 := tcb[to := tcb[to].(priority := p)];
            && Hop(tcb1, tcb[to].passedTo, k) == Hop(tcb, to, k + 1)
            && (GetsTo(tcb1, tcb[to].passedTo, p, k) <==> GetsTo(tcb, to, p, k + 1))
  {
    var tcb1, next := tcb[to := tcb[to].(priority := p)], tcb[to].passedTo;
    forall i: nat
      ensures Hop(tcb1, next, i) == Hop(tcb, to, i + 1)
    {
      HopSame(tcb, tcb1, next, i);
    }
    hide Hop;
    assert Hop(tcb, to, 0) == to by { HopNone(tcb, to); }
    if GetsTo(tcb, to, p, k + 1) {
      NextGetsTo(tcb, to, p, k);
    }
    if GetsTo(tcb1, next, p, k) {
      GetsFromNext(tcb, to, p, k);
    }
  }

  lemma HopNone(tcb: map<Task, Tcb>, to: Task?)
    ensures Hop(tcb, to, 0) == to
  {
  }

  lemma NextGetsTo(tcb: map<Task, Tcb>, to: Task, p: int, k: nat)
    requires to in tcb && tcb[to].priority > p && Hop(tcb, to, 0) == to && GetsTo(tcb, to, p, k + 1)
    requires var tcb1 := tcb[to := tcb[to].(priority := p)];
             forall i: nat :: Hop(tcb1, tcb[to].passedTo, i) == Hop(tcb, to, i + 1)
    ensures GetsTo(tcb[to := tcb[to].(priority := p)], tcb[to].passedTo, p, k)
  {
    var tcb1, next := tcb[to := tcb[to].(priority := p)], tcb[to].passedTo;
    hide Hop;
    forall i: nat | i <= k
      ensures Hop(tcb1, next, i) != null && Hop(tcb1, next, i) in tcb1 && tcb1[Hop(tcb1, next, i)].priority > p
    {
      assert Hop(tcb, to, 0) != Hop(tcb, to, i + 1);
    }
    forall i: nat, j: nat | i < j <= k
      ensures Hop(tcb1, next, i) != Hop(tcb1, next, j)
    {
      assert Hop(tcb, to, i + 1) != Hop(tcb, to, j + 1);
    }
  }

  lemma GetsFromNext(tcb: map<Task, Tcb>, to: Task, p: int, k: nat)
    requires to in tcb && tcb[to].priority > p && Hop(tcb, to, 0) == to
    requires var tcb1 := tcb[to := tcb[to].(priority := p)];
             && GetsTo(tcb1, tcb[to].passedTo, p, k)
             && forall i: nat :: Hop(tcb1, tcb[to].passedTo, i) == Hop(tcb, to, i + 1)
    ensures GetsTo(tcb, to, p, k + 1)
  {
    var tcb1, next := tcb[to := tcb[to].(priority := p)], tcb[to].passedTo;
    hide Hop;
    forall i: nat | i <= k + 1
      ensures Hop(tcb, to, i) != null && Hop(tcb, to, i) in tcb && tcb[Hop(tcb, to, i)].priority > p
      ensures i > 0 ==> Hop(tcb, to, i) != to
    {
      if i > 0 {
        assert Hop(tcb1, next, i - 1) == Hop(tcb, to, i);
      }
    }
    forall i: nat, j: nat | i < j <= k + 1
      ensures Hop(tcb, to, i) != Hop(tcb, to, j)
    {
      if i > 0 {
        assert Hop(tcb1, next, i - 1) == Hop(tcb, to, i) && Hop(tcb1, next, j - 1) == Hop(tcb, to, j);
      }
    }
  }

  lemma GetsNowhere(tcb: map<Task, Tcb>, to: Task?, p: int, k: nat)
    requires to == null || to !in tcb || tcb[to].priority <= p
    ensures !GetsTo(tcb, to, p, k)
  {
    HopNone(tcb, to);
  }

  /** The loop raises exactly the tasks that p improves, over every graph of links. */
  lemma {:induction false} ChainIsImproved(tcb: map<Task, Tcb>, to: Task?, p: int, t: Task)
    ensures t in Chain(tcb, to, p) <==> Improves(tcb, to, p, t)
    decreases LessUrgent(tcb, p)
  {
    if to == null || to !in tcb || tcb[to].priority <= p {
      forall k: nat
        ensures !GetsTo(tcb, to, p, k)
      {
        GetsNowhere(tcb, to, p, k);
      }
    } else {
      var tcb1, next := tcb[to := tcb[to].(priority := p)], tcb[to].passedTo;
      assert to in LessUrgent(tcb, p) && to !in LessUrgent(tcb1, p);
      ChainIsImproved(tcb1, next, p, t);
      ImprovesFurther(tcb, to, p, t);
    }
  }

  lemma ImprovesFurther(tcb: map<Task, Tcb>, to: Task, p: int, t: Task)
    requires to in tcb && tcb[to].priority > p
    ensures Improves(tcb, to, p, t) <==>
            t == to || Improves(tcb[to := tcb[to].(priority := p)], tcb[to].passedTo, p, t)
  {
    var tcb1, next := tcb[to := tcb[to].(priority := p)], tcb[to].passedTo;
    assert GetsTo(tcb, to, p, 0) && Hop(tcb, to, 0) == to;
    hide GetsTo, Hop;
    if Improves(tcb, to, p, t) && t != to {
      var k: nat :| GetsTo(tcb, to, p, k) && Hop(tcb, to, k) == t;
      GetsFurther(tcb, to, p, k - 1);
      assert GetsTo(tcb1, next, p, k - 1) && Hop(tcb1, next, k - 1) == t;
    }
    if Improves(tcb1, next, p, t) {
      var k: nat :| GetsTo(tcb1, next, p, k) && Hop(tcb1, next, k) == t;
      GetsFurther(tcb, to, p, k);
      assert GetsTo(tcb, to, p, k + 1) && Hop(tcb, to, k + 1) == t;
    }
  }

  lemma ChainSet(tcb: map<Task, Tcb>, to: Task?, p: int)
    ensures Chain(tcb, to, p) == Improved(tcb, to, p)
  {
    hide Improves;
    forall t: Task
      ensures t in Chain(tcb, to, p) <==> t in Improved(tcb, to, p)
    {
      ChainIsImproved(tcb, to, p, t);
    }
  }

  /** The whole effect of the loop on the attributes, whatever the links are. */
  lemma PassAlongRaisesImproved(st: State, to: Task?, p: int)
    ensures PassAlong(st, to, p).tcb == Raised(st.tcb, Improved(st.tcb, to, p), p)
  {
    PassAlongRaisesChain(st, to, p);
    ChainSet(st.tcb, to, p);
  }

  /** When the old chain was inherited, what p improves is what is reachable and less urgent. */
  lemma ImprovesReachable(tcb: map<Task, Tcb>, to: Task?, from: Task, p: int, t: Task)
    requires from in tcb && tcb[from].priority == p && tcb[from].passedTo == to
    requires Inherits(tcb, {from}) && t in tcb
    ensures Improves(tcb, to, p, t) <==> Reaches(tcb, to, t) && tcb[t].priority > p
  {
    ChainIsImproved(tcb, to, p, t);
    if t in Chain(tcb, to, p) {
      var k := ChainReached(tcb, to, p, t);
      assert Reaches(tcb, to, t);
    }
    if Reaches(tcb, to, t) {
      var k: nat :| Hop(tcb, to, k) == t;
      ReachedIsUrgent(tcb, to, from, p, k);
    }
  }

  /** pass_prio on every graph of links: from now passes to to, the tasks that its priority
      improves get it, and no other attribute of any task changes. */
  lemma PassPrioRaises(st: State, to: Task?, from: Task, t: Task)
    requires from in st.tcb && t in st.tcb
    ensures var linked, p := st.tcb[from := st.tcb[from].(passedTo := to)], st.tcb[from].priority;
            var r := PassPrio(st, to, from);
            && r.linux == st.linux && r.timed == st.timed && r.tcb.Keys == st.tcb.Keys
            && r.tcb[t] == if Improves(linked, to, p, t) then linked[t].(priority := p) else linked[t]
  {
    var st1, p := SetPassedTo(st, from, to), st.tcb[from].priority;
    hide PassAlong, Chain, Improves;
    PassAlongRaisesImproved(st1, to, p);
    PassAlongRaisesChain(st1, to, p);
  }

  function Min(a: int, b: int): (r: int) {
    if a <= b then a else b
  }

  /** The whole effect of pass_prio on the task attributes: every task that from now waits
      for, directly or along links, gets at least from's urgency; nothing else changes. */
  lemma PassPrioExact(st: State, to: Task?, from: Task, t: Task)
    requires WellFormed(st) && from in RealTasks(st) && (to != null ==> to in RealTasks(st))
    requires Inherits(st.tcb, {from}) && t in st.tcb
    ensures var linked := st.tcb[from := st.tcb[from].(passedTo := to)];
            var r := PassPrio(st, to, from);
            && r.tcb.Keys == st.tcb.Keys
            && r.tcb[t] == linked[t].(priority :=
                             if Reaches(linked, to, t) then Min(st.tcb[t].priority, st.tcb[from].priority)
                             else st.tcb[t].priority)
  {
    var p := st.tcb[from].priority;
    var linked := st.tcb[from := st.tcb[from].(passedTo := to)];
    PassAlongRaisesChain(SetPassedTo(st, from, to), to, p);
    if t in Chain(linked, to, p) {
      var k := ChainReached(linked, to, p, t);
      assert Reaches(linked, to, t);
    }
    if Reaches(linked, to, t) {
      var k: nat :| Hop(linked, to, k) == t;
      ReachedIsUrgent(linked, to, from, p, k);
    }
  }

  /** And so inheritance holds for every task afterwards, from included. */
  lemma PassPrioInherits(st: State, to: Task?, from: Task)
    requires WellFormed(st) && from in RealTasks(st) && (to != null ==> to in RealTasks(st))
    requires Inherits(st.tcb, {from})
    ensures Inherits(PassPrio(st, to, from).tcb, {})
  {
    var p := st.tcb[from].priority;
    var linked := st.tcb[from := st.tcb[from].(passedTo := to)];
    var r := PassPrio(st, to, from);
    PassAlongRaisesChain(SetPassedTo(st, from, to), to, p);
    forall t | t in r.tcb && r.tcb[t].passedTo != null && r.tcb[t].passedTo in r.tcb
      ensures r.tcb[r.tcb[t].passedTo].priority <= r.tcb[t].priority
    {
      PassPrioExact(st, to, from, t);
      var u := linked[t].passedTo;
      PassPrioExact(st, to, from, u);
      if t == from {
        assert Hop(linked, to, 0) == u;
      } else if Reaches(linked, to, t) {
        var k: nat :| Hop(linked, to, k) == t;
        HopLast(linked, to, k + 1);
        assert Hop(linked, to, k + 1) == u;
      }
    }
  }
}
