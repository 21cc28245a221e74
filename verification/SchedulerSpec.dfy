/** The scheduler's queues as sequences, and what each operation does to them. */
module SchedulerSpec {
  import opened Sequences
  import opened Tasks

  /** linux is the sentinel of the ready and timed queues; it is in neither sequence. */
  datatype State = State(
    linux: Task,
    tcb: map<Task, Tcb>,
    ready: seq<Task>,
    timed: seq<Task>,
    waiting: map<Queue, seq<Task>>)

  function RealTasks(st: State): (r: set<Task>) {
    st.tcb.Keys - {st.linux}
  }

  ghost predicate QueueOf(st: State, s: seq<Task>) {
    Distinct(s) && forall t :: t in s ==> t in st.tcb && t != st.linux
  }

  /** blockedOn names a wait queue exactly when the task is in that queue. */
  ghost predicate BlockedOnNamesQueue(st: State) {
    forall h, t {:trigger t in st.waiting[h]} :: h in st.waiting && t in RealTasks(st) ==>
      (t in st.waiting[h] <==> st.tcb[t].blockedOn == h)
  }

  ghost predicate WellFormed(st: State) {
    && st.linux in st.tcb
    && QueueOf(st, st.ready)
    && QueueOf(st, st.timed)
    && (forall h :: h in st.waiting ==> QueueOf(st, st.waiting[h]))
    && (forall t :: t in RealTasks(st) && st.tcb[t].blockedOn != null ==> st.tcb[t].blockedOn in st.waiting)
    && BlockedOnNamesQueue(st)
    && (forall t :: t in RealTasks(st) && st.tcb[t].passedTo != null ==> st.tcb[t].passedTo in RealTasks(st))
  }

  /** The sentinel is less urgent than every task. */
  ghost predicate PrioritiesBounded(st: State) {
    && st.linux in st.tcb
    && st.tcb[st.linux].priority == RT_SCHED_LINUX_PRIORITY
    && forall t :: t in RealTasks(st) ==> 0 <= st.tcb[t].priority < RT_SCHED_LINUX_PRIORITY
  }

  /** What the rest of the scheduler guarantees about the numbers: the sentinel is less
      urgent and later than every task, and a deadline (EDF) task carries priority 0. */
  ghost predicate Bounded(st: State) {
    && PrioritiesBounded(st)
    && st.tcb[st.linux].policy >= 0
    && forall t :: t in RealTasks(st) ==>
                     && st.tcb[t].resumeTime <= st.tcb[st.linux].resumeTime
                     && (st.tcb[t].policy < 0 ==> st.tcb[t].priority == 0)
  }

  /** A task is linked in the ready queue exactly when its state is READY and nothing else. */
  ghost predicate ReadyMatchesState(st: State) {
    forall t :: t in RealTasks(st) ==> (t in st.ready <==> st.tcb[t].state == RT_SCHED_READY)
  }

  /** A task is linked in the timed queue exactly when its DELAYED bit is set. */
  ghost predicate TimedMatchesState(st: State) {
    forall t :: t in RealTasks(st) ==> (t in st.timed <==> Delayed(st.tcb[t].state))
  }

  /** Which tasks an insertion walks past. */
  datatype Gate = UpTo(priority: int) | Deadline(period: int) | Earlier(resumeTime: int) | Due(now: int)

  predicate Passes(g: Gate, c: Tcb) {
    match g
    case UpTo(p) => c.priority <= p
    case Deadline(d) => c.policy < 0 && c.period <= d
    case Earlier(r) => c.resumeTime < r
    case Due(now) => c.resumeTime <= now
  }

  /** The first place of s that the gate does not let pass. */
  function StopAt(s: seq<Task>, tcb: map<Task, Tcb>, g: Gate): (k: nat)
    ensures k <= |s|
    ensures forall i :: 0 <= i < k ==> s[i] in tcb && Passes(g, tcb[s[i]])
    ensures k < |s| ==> !(s[k] in tcb && Passes(g, tcb[s[k]]))
  {
    if s == [] || s[0] !in tcb || !Passes(g, tcb[s[0]]) then 0 else 1 + StopAt(s[1..], tcb, g)
  }

  lemma StopAtUnique(s: seq<Task>, tcb: map<Task, Tcb>, g: Gate, k: nat)
    requires k <= |s| && (k < |s| ==> s[k] in tcb && !Passes(g, tcb[s[k]]))
    requires forall i :: 0 <= i < k ==> s[i] in tcb && Passes(g, tcb[s[i]])
    ensures k == StopAt(s, tcb, g)
  {
  }

  function Queued(s: seq<Task>, tcb: map<Task, Tcb>, g: Gate, t: Task): (r: seq<Task>) {
    InsertAt(s, StopAt(s, tcb, g), t)
  }

  function EnqReadyEdf(st: State, t: Task): (r: State)
    requires t in st.tcb
  {
    st.(ready := Queued(st.ready, st.tcb, Deadline(st.tcb[t].period), t))
  }

  function EnqReady(st: State, t: Task): (r: State)
    requires t in st.tcb
  {
    st.(ready := Queued(st.ready, st.tcb, UpTo(st.tcb[t].priority), t))
  }

  function RemReady(st: State, t: Task): (r: State) {
    st.(ready := Without(st.ready, t))
  }

  function EnqTimed(st: State, t: Task): (r: State)
    requires t in st.tcb
  {
    st.(timed := Queued(st.timed, st.tcb, Earlier(st.tcb[t].resumeTime), t))
  }

  function RemTimed(st: State, t: Task): (r: State) {
    st.(timed := Without(st.timed, t))
  }

  function SetPriority(st: State, t: Task, p: int): (r: State)
    requires t in st.tcb
  {
    st.(tcb := st.tcb[t := st.tcb[t].(priority := p)])
  }

  function SetState(st: State, t: Task, bits: bv32): (r: State)
    requires t in st.tcb
  {
    st.(tcb := st.tcb[t := st.tcb[t].(state := bits)])
  }

  function SetResumeTime(st: State, t: Task, time: int): (r: State)
    requires t in st.tcb
  {
    st.(tcb := st.tcb[t := st.tcb[t].(resumeTime := time)])
  }

  /** Changes a priority and, for a ready task, its place. */
  function RenqReady(st: State, t: Task, p: int): (r: State)
    requires t in st.tcb
  {
    if st.tcb[t].priority == p then st
    else if st.tcb[t].state == RT_SCHED_READY then EnqReady(RemReady(SetPriority(st, t, p), t), t)
    else SetPriority(st, t, p)
  }

  /** The same for the running task, which is always linked. */
  function RenqCurrent(st: State, t: Task, p: int): (r: State)
    requires t in st.tcb
  {
    if st.tcb[t].priority == p then st else EnqReady(RemReady(SetPriority(st, t, p), t), t)
  }

  /** The timer enqueues by deadline or by priority, as the task's policy says. */
  function EnqByPolicy(st: State, t: Task): (r: State)
    requires t in st.tcb
  {
    if st.tcb[t].policy < 0 then EnqReadyEdf(st, t) else EnqReady(st, t)
  }

  /** One expiry: clear the reasons for waiting, and make the task ready if none is left. */
  function WakeOne(st: State, t: Task): (r: State)
    requires t in st.tcb
  {
    var st1 := SetState(st, t, Woken(st.tcb[t].state));
    if st1.tcb[t].state == RT_SCHED_READY then EnqByPolicy(st1, t) else st1
  }

  function WakeAll(st: State, due: seq<Task>): (r: State)
    requires forall t :: t in due ==> t in st.tcb
    decreases |due|
  {
    if due == [] then st else WakeAll(WakeOne(st, due[0]), due[1..])
  }

  /** A timer tick at time now. */
  function WakeUp(st: State, now: int): (r: State) {
    var k := StopAt(st.timed, st.tcb, Due(now));
    WakeAll(st, st.timed[..k]).(timed := st.timed[k..])
  }

  /** The tasks blocked on h. */
  function Waiters(st: State, h: Queue?): (r: seq<Task>) {
    if h in st.waiting then st.waiting[h] else []
  }

  /** Joins the wait queue h, by priority when qtype is 0 and at the end otherwise. */
  function EnqueueBlocked(st: State, t: Task, h: Queue, qtype: int): (r: State)
    requires t in st.tcb
  {
    var w := Waiters(st, h);
    var tcb := st.tcb[t := st.tcb[t].(blockedOn := h)];
    var k := if qtype == 0 then StopAt(w, tcb, UpTo(tcb[t].priority)) else |w|;
    st.(tcb := tcb, waiting := st.waiting[h := InsertAt(w, k, t)])
  }

  /** Leaves the wait queue; the task no longer lends its priority to anyone. */
  function DequeueBlocked(st: State, t: Task): (r: State)
    requires t in st.tcb && st.tcb[t].blockedOn != null
  {
    var h := st.tcb[t].blockedOn;
    st.(tcb := st.tcb[t := st.tcb[t].(passedTo := null, blockedOn := null)],
        waiting := st.waiting[h := Without(Waiters(st, h), t)])
  }

  /** A blocked task is put back in order, unless it waits on an arrival-order semaphore. */
  predicate Moves(c: Tcb) {
    && c.state != RT_SCHED_READY
    && c.blockedOn != null
    && !(c.state & RT_SCHED_SEMAPHORE != 0 && c.blockedOn.qtype != 0)
  }

  /** Out of the wait queue and back in, by the task's own priority. */
  function RequeueBlocked(st: State, t: Task): (r: State)
    requires t in st.tcb && st.tcb[t].blockedOn != null
  {
    var h := st.tcb[t].blockedOn;
    st.(waiting := st.waiting[h := Queued(Without(Waiters(st, h), t), st.tcb, UpTo(st.tcb[t].priority), t)])
  }

  /** One task of the inheritance chain receives priority p. */
  function Raise(st: State, t: Task, p: int): (r: State)
    requires t in st.tcb
    ensures r.tcb == st.tcb[t := st.tcb[t].(priority := p)]
  {
    var st1 := SetPriority(st, t, p);
    if st1.tcb[t].state == RT_SCHED_READY then EnqReady(RemReady(st1, t), t)
    else if Moves(st1.tcb[t]) then RequeueBlocked(st1, t)
    else st1
  }

  function LessUrgent(tcb: map<Task, Tcb>, p: int): (r: set<Task>) {
    set t | t in tcb && tcb[t].priority > p
  }

  /** Priority p travels along the prioPassedTo links while it improves something.
      No round leaves as many tasks less urgent than p, whatever cycles the links make. */
  function PassAlong(st: State, to: Task?, p: int): (r: State)
    decreases LessUrgent(st.tcb, p)
  {
    if to == null || to !in st.tcb || st.tcb[to].priority <= p then st
    else
      var st1 := Raise(st, to, p);
      assert to in LessUrgent(st.tcb, p) && to !in LessUrgent(st1.tcb, p);
      PassAlong(st1, st1.tcb[to].passedTo, p)
  }

  function PassPrio(st: State, to: Task?, from: Task): (r: State)
    requires from in st.tcb
  {
    PassAlong(SetPassedTo(st, from, to), to, st.tcb[from].priority)
  }

  function SetPassedTo(st: State, from: Task, to: Task?): (r: State)
    requires from in st.tcb
  {
    st.(tcb := st.tcb[from := st.tcb[from].(passedTo := to)])
  }
}
