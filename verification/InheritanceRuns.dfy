/** Inheritance over whole runs: no task is ever less urgent than one that waits for it. */
module InheritanceRuns {
  import opened Tasks
  import opened SchedulerSpec
  import opened Inheritance
  import opened Runs
  import opened ReadyRuns
  import PassPrioQueues

  lemma SameRanksInherit(st: State, r: State)
    requires SameRanks(st, r) && Inherits(st.tcb, {})
    ensures Inherits(r.tcb, {})
  {
  }

  lemma QueueStepRanks(st: State, s: Step)
    requires Consistent(st) && Legal(st, s)
    requires !s.Reprioritise? && !s.Inherit?
    ensures SameRanks(st, Apply(st, s))
  {
    hide WellFormed, SameRanks, WakeUp, WakeTask, DequeueBlocked, RemReady, EnqTimed, EnqueueBlocked;
    match s
    case Block(t, h, qtype, bits, timeout) => BlockRanks(st, t, h, qtype, bits, timeout);
    case Sleep(t, time) => SleepRanks(st, t, time);
    case Suspend(t) => SuspendRanks(st, t);
    case Wake(t, bits, byDeadline) => WakeTaskRanks(st, t, bits, byDeadline);
    case Release(t, bits, byDeadline) => ReleaseRanks(st, t, bits, byDeadline);
    case Tick(now) => TickRanks(st, now);
  }

  /** A new priority respects the links of a task: not more urgent than the task it passes
      to, not less urgent than any that pass to it. */
  ghost predicate Respects(tcb: map<Task, Tcb>, t: Task, p: int)
    requires t in tcb
  {
    && (tcb[t].passedTo != null && tcb[t].passedTo in tcb && tcb[t].passedTo != t
        ==> tcb[tcb[t].passedTo].priority <= p)
    && forall u :: u in tcb && u != t && tcb[u].passedTo == t ==> p <= tcb[u].priority
  }

  lemma RespectedInherits(tcb: map<Task, Tcb>, t: Task, p: int)
    requires Inherits(tcb, {}) && t in tcb
    ensures Inherits(tcb[t := tcb[t].(priority := p)], {}) <==> Respects(tcb, t, p)
  {
  }

  /** A step breaks inheritance exactly when it is a disrespectful change of priority. */
  lemma StepInherits(st: State, s: Step)
    requires Consistent(st) && Legal(st, s) && Inherits(st.tcb, {})
    ensures Inherits(Apply(st, s).tcb, {}) <==> (s.Reprioritise? ==> Respects(st.tcb, s.t, s.priority))
  {
    hide Inherits, SameRanks, Respects, RenqReady, WellFormed, Bounded;
    match s
    case Reprioritise(t, p) =>
      RespectedInherits(st.tcb, t, p);
      RenqReadyMembers(st, t, p);
    case Inherit(to, from) =>
      InheritsBut(st.tcb, from);
      PassPrioInherits(st, to, from);
    case _ =>
      QueueStepRanks(st, s);
      SameRanksInherit(st, Apply(st, s));
  }

  lemma InheritsBut(tcb: map<Task, Tcb>, from: Task)
    requires Inherits(tcb, {})
    ensures Inherits(tcb, {from})
  {
  }

  /** Every change of priority in the run respects the links that exist then. */
  ghost predicate RespectfulRun(st: State, run: seq<Step>)
    requires Consistent(st) && LegalRun(st, run)
    decreases |run|
  {
    run == [] ||
    ((run[0].Reprioritise? ==> Respects(st.tcb, run[0].t, run[0].priority))
     && (StepConsistent(st, run[0]); RespectfulRun(Apply(st, run[0]), run[1..])))
  }

  /** Over every such run, whoever waits for a task, directly or along links, is never more
      urgent than that task. */
  lemma {:induction false} RunInherits(st: State, run: seq<Step>)
    requires Consistent(st) && LegalRun(st, run) && RespectfulRun(st, run) && Inherits(st.tcb, {})
    ensures Inherits(Run(st, run).tcb, {})
    decreases |run|
  {
    if run != [] {
      StepConsistent(st, run[0]);
      StepInherits(st, run[0]);
      hide Consistent, Legal, Apply, Inherits, Respects;
      RunInherits(Apply(st, run[0]), run[1..]);
    }
  }

  /** And so is the whole chain: each task that t reaches is at least as urgent as t. */
  lemma {:induction false} ChainOfUrgency(st: State, t: Task, k: nat)
    requires WellFormed(st) && Inherits(st.tcb, {}) && t in RealTasks(st)
    ensures var u := Hop(st.tcb, t, k);
            u != null ==> u in RealTasks(st) && st.tcb[u].priority <= st.tcb[t].priority
    decreases k
  {
    if k > 0 {
      PassPrioQueues.LinkIsReal(st, t);
      hide WellFormed;
      if st.tcb[t].passedTo != null {
        ChainOfUrgency(st, st.tcb[t].passedTo, k - 1);
      }
    }
  }
}
