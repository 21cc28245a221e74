/** The scheduler's queues as they are in memory: circular lists threaded through
    the task records. Each method is proved against its function in SchedulerSpec. */
module SchedulerCore {
  import opened Sequences
  import opened Rings
  import opened Tasks
  import opened SchedulerSpec
  import opened WellFormedness

  /** The wait-queue nodes of the tasks of s. */
  ghost function NodesOf(s: seq<Task>): (r: seq<Queue>)
    ensures |r| == |s| && forall i :: 0 <= i < |s| ==> r[i] == s[i].queue
  {
    seq(|s|, i requires 0 <= i < |s| => s[i].queue)
  }

  lemma NodesOfInsert(w: seq<Task>, k: nat, t: Task)
    requires k <= |w|
    ensures NodesOf(InsertAt(w, k, t)) == InsertAt(NodesOf(w), k, t.queue)
  {
  }

  lemma NodesOfCons(t: Task, w: seq<Task>)
    ensures NodesOf([t] + w) == [t.queue] + NodesOf(w)
  {
  }

  lemma {:induction false} NodesOfWithout(w: seq<Task>, t: Task)
    requires t in w && forall u :: u in w && u.queue == t.queue ==> u == t
    ensures NodesOf(Without(w, t)) == Without(NodesOf(w), t.queue)
  {
    var x, rest := w[0], w[1..];
    assert w == [x] + rest;
    NodesOfCons(x, rest);
    WithoutCons(x, rest, t);
    WithoutCons(x.queue, NodesOf(rest), t.queue);
    if x != t {
      hide NodesOf, Without;
      NodesOfWithout(rest, t);
      NodesOfCons(x, Without(rest, t));
    }
  }

  /** Every waiter is a real task and waits in one place only. */
  ghost predicate Apart(waiting: map<Queue, seq<Task>>, others: set<Task>) {
    && (forall h :: h in waiting ==> Distinct(waiting[h]))
    && (forall h, t {:trigger t in waiting[h]} :: h in waiting && t in waiting[h] ==> t in others)
    && (forall h, g, t {:trigger t in waiting[h], t in waiting[g]} ::
          h in waiting && g in waiting && t in waiting[h] && t in waiting[g] ==> h == g)
  }

  lemma ApartWithout(waiting: map<Queue, seq<Task>>, others: set<Task>, h: Queue, task: Task)
    requires Apart(waiting, others) && h in waiting
    ensures Apart(waiting[h := Without(waiting[h], task)], others)
  {
    WithoutMembers(waiting[h], task);
    var w := waiting[h := Without(waiting[h], task)];
    forall g, t | g in w && t in w[g]
      ensures t in waiting[g]
    {
    }
  }

  ghost function NoWaiters(heads: set<Queue>): (r: map<Queue, seq<Task>>)
    ensures r.Keys == heads && forall h :: h in heads ==> r[h] == []
  {
    map h | h in heads :: []
  }

  class Scheduler {
    const linux: Task
    var timeH: int
    ghost const tasks: set<Task>  // the sentinel included
    ghost const nodes: set<Queue>  // every wait-queue head and every task's node
    ghost var ready: seq<Task>
    ghost var timed: seq<Task>
    ghost var waiting: map<Queue, seq<Task>>

    /** Empty queues: the sentinel and every head point at themselves. */
    constructor (linux: Task, timeH: int, ghost others: set<Task>, heads: set<Queue>)
      requires linux !in others
      requires forall t :: t in others ==> t.queue !in heads && t.queue.task == t
      requires forall t :: t in others ==> t.prioPassedTo == null && t.blockedOn == null
      modifies linux`rnext, linux`rprev, linux`tnext, linux`tprev, heads`next, heads`prev
      ensures Linked() && this.linux == linux && tasks == others + {linux}
      ensures ready == [] && timed == [] && waiting == NoWaiters(heads)
    {
      this.linux := linux;
      this.timeH := timeH;
      tasks := others + {linux};
      nodes := heads + set t | t in others :: t.queue;
      ready := [];
      timed := [];
      waiting := map[];
      new;
      linux.rnext := linux;
      linux.rprev := linux;
      linux.tnext := linux;
      linux.tprev := linux;
      forall h | h in heads {
        h.next := h;
      }
      forall h | h in heads {
        h.prev := h;
      }
      waiting := NoWaiters(heads);
      EmptyLinked(heads);
    }

    lemma EmptyLinked(heads: set<Queue>)
      requires linux in tasks && heads <= nodes
      requires forall t :: t in tasks && t != linux ==>
                             && t.queue in nodes && t.queue !in heads && t.queue.task == t
                             && t.prioPassedTo == null && t.blockedOn == null
      requires linux.rnext == linux && linux.rprev == linux && linux.tnext == linux && linux.tprev == linux
      requires forall h :: h in heads ==> h.next == h && h.prev == h
      requires ready == [] && timed == [] && waiting == NoWaiters(heads)
      ensures Linked()
    {
      hide Ring, WellFormed, NoWaiters;
      RingOfOne(ReadyLinks(), linux);
      RingOfOne(TimedLinks(), linux);
      forall h | h in heads
        ensures Ring(WaitLinks(), [h] + NodesOf(waiting[h]))
      {
        RingOfOne(WaitLinks(), h);
      }
      EmptyWellFormed(Abs());
    }

    ghost function Tcbs(): map<Task, Tcb>
      reads tasks`priority, tasks`policy, tasks`period, tasks`resumeTime
      reads tasks`state, tasks`prioPassedTo, tasks`blockedOn
    {
      map t | t in tasks :: t.Attributes()
    }

    /** The abstract value of the scheduler. */
    ghost function Abs(): State
      reads this`ready, this`timed, this`waiting
      reads tasks`priority, tasks`policy, tasks`period, tasks`resumeTime
      reads tasks`state, tasks`prioPassedTo, tasks`blockedOn
    {
      State(linux, Tcbs(), ready, timed, waiting)
    }

    ghost function ReadyNext(): map<Task, Task>
      reads tasks`rnext
    {
      map t | t in tasks :: t.rnext
    }

    ghost function ReadyPrev(): map<Task, Task>
      reads tasks`rprev
    {
      map t | t in tasks :: t.rprev
    }

    ghost function ReadyLinks(): Links<Task>
      reads tasks`rnext, tasks`rprev
    {
      Links(ReadyNext(), ReadyPrev())
    }

    ghost function TimedNext(): map<Task, Task>
      reads tasks`tnext
    {
      map t | t in tasks :: t.tnext
    }

    ghost function TimedPrev(): map<Task, Task>
      reads tasks`tprev
    {
      map t | t in tasks :: t.tprev
    }

    ghost function TimedLinks(): Links<Task>
      reads tasks`tnext, tasks`tprev
    {
      Links(TimedNext(), TimedPrev())
    }

    ghost function WaitNext(): map<Queue, Queue>
      reads nodes`next
    {
      map q | q in nodes :: q.next
    }

    ghost function WaitPrev(): map<Queue, Queue>
      reads nodes`prev
    {
      map q | q in nodes :: q.prev
    }

    ghost function WaitLinks(): Links<Queue>
      reads nodes`next, nodes`prev
    {
      Links(WaitNext(), WaitPrev())
    }

    ghost predicate ReadyRing()
      reads this`ready, tasks`rnext, tasks`rprev
    {
      Ring(ReadyLinks(), [linux] + ready)
    }

    ghost predicate TimedRing()
      reads this`timed, tasks`tnext, tasks`tprev
    {
      Ring(TimedLinks(), [linux] + timed)
    }

    ghost predicate WaitRings()
      reads this`waiting, nodes`next, nodes`prev, nodes`task
    {
      && waiting.Keys <= nodes
      && (forall t :: t in tasks && t != linux ==>
                        t.queue in nodes && t.queue !in waiting && t.queue.task == t)
      && forall h :: h in waiting ==> Ring(WaitLinks(), [h] + NodesOf(waiting[h]))
    }

    ghost predicate Linked()
      reads this`ready, this`timed, this`waiting
      reads tasks`priority, tasks`policy, tasks`period, tasks`resumeTime
      reads tasks`state, tasks`prioPassedTo, tasks`blockedOn
      reads tasks`rnext, tasks`rprev, tasks`tnext, tasks`tprev
      reads nodes`next, nodes`prev, nodes`task
    {
      && linux in tasks
      && WellFormed(Abs())
      && ReadyRing()
      && TimedRing()
      && WaitRings()
    }

    lemma TcbAt(task: Task)
      requires task in tasks
      ensures task in Tcbs() && Tcbs()[task] == task.Attributes()
    {
    }

    lemma ReadyLinksAt(task: Task)
      requires task in tasks
      ensures task in ReadyLinks().next && ReadyLinks().next[task] == task.rnext
      ensures task in ReadyLinks().prev && ReadyLinks().prev[task] == task.rprev
    {
    }

    /** The two stores that take a task out of the ready list. */
    method UnlinkReadyNode(task: Task)
      requires task in tasks && task.rprev in tasks && task.rnext in tasks
      requires task.rprev != task
      modifies tasks`rnext, tasks`rprev
      ensures ReadyLinks() == Unlink(old(ReadyLinks()), task)
    {
      ReadyLinksAt(task);
      hide ReadyNext, ReadyPrev;
      SetReadyNext(task.rprev, task.rnext);
      SetReadyPrev(task.rnext, task.rprev);
    }

    /** What a method may use of Linked without opening the rings. */
    lemma Members()
      requires Linked()
      ensures linux in tasks && WellFormed(Abs()) && ReadyRing() && TimedRing() && WaitRings()
      ensures Abs().tcb.Keys == tasks && RealTasks(Abs()) == tasks - {linux}
      ensures forall t :: t in ready ==> t in tasks && t != linux
      ensures Distinct(timed) && forall t :: t in timed ==> t in tasks && t != linux
    {
      hide Ring;
      assert Abs().tcb.Keys == tasks;
    }

    lemma Relinked()
      requires linux in tasks && WellFormed(Abs()) && ReadyRing() && TimedRing() && WaitRings()
      ensures Linked()
    {
      hide Ring, WellFormed;
    }

    lemma BoundedTasks()
      requires Linked() && PrioritiesBounded(Abs())
      ensures linux.priority == RT_SCHED_LINUX_PRIORITY
      ensures forall t :: t in tasks && t != linux ==> 0 <= t.priority < RT_SCHED_LINUX_PRIORITY
    {
      hide Ring, WellFormed;
      Members();
      forall t | t in tasks && t != linux
        ensures 0 <= t.priority < RT_SCHED_LINUX_PRIORITY
      {
        assert t in RealTasks(Abs());
      }
    }

    /** The sentinel's successor, which the scheduler runs next, is the first ready task. */
    lemma NextIsFirst()
      requires Linked()
      ensures linux.rnext == if ready == [] then linux else ready[0]
    {
      hide WellFormed, WaitRings, TimedRing;
      RingStart(ReadyLinks(), linux, ready);
      ReadyLinksAt(linux);
    }

    /** Takes a task of the ready queue out of it. */
    method UnlinkReady(task: Task)
      requires Linked() && task in ready
      modifies this`ready, tasks`rnext, tasks`rprev
      ensures Linked() && Abs() == RemReady(old(Abs()), task)
    {
      hide Ring, WellFormed, Linked, WaitRings, TimedRing, Without, Unlink, Tcbs, ReadyLinks;
      Members();
      RingUnlink(ReadyLinks(), linux, ready, task);
      ReadyLinksAt(task);
      RemReadyWellFormed(Abs(), task);
      UnlinkReadyNode(task);
      ready := Without(ready, task);
      assert Abs() == RemReady(old(Abs()), task);
      Relinked();
    }

    method SetReadyNext(a: Task, b: Task)
      requires a in tasks
      modifies a`rnext
      ensures a.rnext == b && ReadyNext() == old(ReadyNext())[a := b]
    {
      a.rnext := b;
    }

    method SetReadyPrev(a: Task, b: Task)
      requires a in tasks
      modifies a`rprev
      ensures a.rprev == b && ReadyPrev() == old(ReadyPrev())[a := b]
    {
      a.rprev := b;
    }

    /** The four stores that link readyTask in front of task in the ready list. */
    method LinkReadyNode(readyTask: Task, task: Task)
      requires task in tasks && readyTask in tasks && task.rprev in tasks
      requires task != readyTask && task.rprev != readyTask
      modifies tasks`rnext, tasks`rprev
      ensures ReadyLinks() == Splice(old(ReadyLinks()), readyTask, task)
    {
      ReadyLinksAt(task);
      hide ReadyNext, ReadyPrev;
      SetReadyPrev(readyTask, task.rprev);
      SetReadyNext(readyTask.rprev, readyTask);
      SetReadyPrev(task, readyTask);
      SetReadyNext(readyTask, task);
    }

    /** Links a task that is not ready in front of the k-th ready task, or of the sentinel. */
    method LinkReady(readyTask: Task, task: Task, ghost k: nat)
      requires Linked() && readyTask in tasks && readyTask != linux && readyTask !in ready
      requires k <= |ready| && task == NodeAt([linux] + ready, k + 1)
      modifies this`ready, tasks`rnext, tasks`rprev
      ensures ready == InsertAt(old(ready), k, readyTask)
      ensures ReadyRing() && TimedRing() && WaitRings() && Tcbs() == old(Tcbs())
    {
      hide Ring, WellFormed, Linked, WaitRings, TimedRing, Tcbs, Splice, InsertAt, ReadyLinks;
      Members();
      RingPrev(ReadyLinks(), linux, ready, k);
      RingSplice(ReadyLinks(), linux, ready, k, readyTask);
      ReadyLinksAt(task);
      LinkReadyNode(readyTask, task);
      ready := InsertAt(ready, k, readyTask);
    }

    /** The walk of a deadline insertion: past every earlier or equal deadline. */
    method WalkDeadlines(period: int) returns (task: Task)
      requires linux in tasks && ReadyRing() && linux.policy >= 0
      requires forall t :: t in ready ==> t in tasks
      ensures task == NodeAt([linux] + ready, StopAt(ready, Tcbs(), Deadline(period)) + 1)
    {
      hide Ring, StopAt;
      RingStart(ReadyLinks(), linux, ready);
      task := linux.rnext;
      ghost var k := 0;
      while task.policy < 0 && period >= task.period
        invariant k <= |ready| && task == NodeAt([linux] + ready, k + 1)
        invariant forall i :: 0 <= i < k ==> ready[i].policy < 0 && ready[i].period <= period
        decreases |ready| - k
      {
        RingNext(ReadyLinks(), linux, ready, k);
        task := task.rnext;
        k := k + 1;
      }
      StopAtUnique(ready, Tcbs(), Deadline(period), k);
    }

    /** The walk of a priority insertion: past every task at least as urgent. */
    method WalkPriorities(priority: int) returns (task: Task)
      requires linux in tasks && ReadyRing() && priority < linux.priority
      requires 0 <= linux.priority && forall t :: t in ready ==> t in tasks && 0 <= t.priority
      ensures task == NodeAt([linux] + ready, StopAt(ready, Tcbs(), UpTo(priority)) + 1)
    {
      hide Ring, StopAt;
      RingStart(ReadyLinks(), linux, ready);
      task := linux.rnext;
      ghost var k := 0;
      while priority >= task.priority
        invariant k <= |ready| && task == NodeAt([linux] + ready, k + 1)
        invariant forall i :: 0 <= i < k ==> ready[i].priority <= priority
        decreases |ready| - k
      {
        RingNext(ReadyLinks(), linux, ready, k);
        task := task.rnext;
        k := k + 1;
        if task.priority < 0 {
          break;
        }
      }
      StopAtUnique(ready, Tcbs(), UpTo(priority), k);
    }

    /** Inserts a deadline task: earliest deadline first, behind equals, ahead of all
        tasks without a deadline. */
    method EnqReadyEdfTask(readyTask: Task)
      requires Linked() && linux.policy >= 0
      requires readyTask in tasks && readyTask != linux && readyTask !in ready
      modifies this`ready, tasks`rnext, tasks`rprev
      ensures Linked() && Abs() == EnqReadyEdf(old(Abs()), readyTask)
    {
      hide Ring, WellFormed, Linked, WaitRings, TimedRing, ReadyRing, StopAt, Tcbs;
      Members();
      TcbAt(readyTask);
      var task := WalkDeadlines(readyTask.period);
      EnqReadyEdfWellFormed(Abs(), readyTask);
      LinkReady(readyTask, task, StopAt(ready, Tcbs(), Deadline(readyTask.period)));
      assert Abs() == EnqReadyEdf(old(Abs()), readyTask);
      Relinked();
    }

    /** Inserts a task by priority, behind equals. */
    method EnqReadyTask(readyTask: Task)
      requires Linked() && PrioritiesBounded(Abs())
      requires readyTask in tasks && readyTask != linux && readyTask !in ready
      modifies this`ready, tasks`rnext, tasks`rprev
      ensures Linked() && Abs() == EnqReady(old(Abs()), readyTask)
    {
      hide Ring, WellFormed, Linked, PrioritiesBounded, WaitRings, TimedRing, ReadyRing, StopAt, Tcbs;
      Members();
      BoundedTasks();
      TcbAt(readyTask);
      var task := WalkPriorities(readyTask.priority);
      EnqReadyWellFormed(Abs(), readyTask);
      LinkReady(readyTask, task, StopAt(ready, Tcbs(), UpTo(readyTask.priority)));
      assert Abs() == EnqReady(old(Abs()), readyTask);
      Relinked();
    }

    // Stores to the attributes.

    method StorePriority(task: Task, priority: int)
      requires Linked() && task in tasks && task != linux
      modifies task`priority
      ensures Linked() && Abs() == SetPriority(old(Abs()), task, priority)
    {
      hide Ring, WellFormed, Linked, WaitRings, TimedRing, ReadyRing;
      Members();
      TcbAt(task);
      SameLinksWellFormed(Abs(), task, Abs().tcb[task].(priority := priority));
      task.priority := priority;
      assert Tcbs() == old(Tcbs())[task := old(Tcbs())[task].(priority := priority)];
      Relinked();
    }

    method StoreState(task: Task, state: bv32)
      requires Linked() && task in tasks && task != linux
      modifies task`state
      ensures Linked() && Abs() == SetState(old(Abs()), task, state)
    {
      hide Ring, WellFormed, Linked, WaitRings, TimedRing, ReadyRing;
      Members();
      TcbAt(task);
      SameLinksWellFormed(Abs(), task, Abs().tcb[task].(state := state));
      task.state := state;
      assert Tcbs() == old(Tcbs())[task := old(Tcbs())[task].(state := state)];
      Relinked();
    }

    method StoreResumeTime(task: Task, time: int)
      requires Linked() && task in tasks && task != linux
      modifies task`resumeTime
      ensures Linked() && Abs() == SetResumeTime(old(Abs()), task, time)
    {
      hide Ring, WellFormed, Linked, WaitRings, TimedRing, ReadyRing;
      Members();
      TcbAt(task);
      SameLinksWellFormed(Abs(), task, Abs().tcb[task].(resumeTime := time));
      task.resumeTime := time;
      assert Tcbs() == old(Tcbs())[task := old(Tcbs())[task].(resumeTime := time)];
      Relinked();
    }

    method StorePassedTo(task: Task, to: Task?)
      requires Linked() && task in tasks && task != linux
      requires to != null ==> to in tasks && to != linux
      modifies task`prioPassedTo
      ensures Linked() && Abs() == SetPassedTo(old(Abs()), task, to)
    {
      hide Ring, WellFormed, Linked, WaitRings, TimedRing, ReadyRing;
      Members();
      TcbAt(task);
      SameLinksWellFormed(Abs(), task, Abs().tcb[task].(passedTo := to));
      task.prioPassedTo := to;
      assert Tcbs() == old(Tcbs())[task := old(Tcbs())[task].(passedTo := to)];
      Relinked();
    }

    /** Gives a task a new priority and, when it is ready, its new place; tells whether
        the priority changed. */
    method RenqReadyTask(readyTask: Task, priority: int) returns (retval: bool)
      requires Linked() && PrioritiesBounded(Abs())
      requires readyTask in tasks && readyTask != linux && 0 <= priority < RT_SCHED_LINUX_PRIORITY
      requires readyTask.state == RT_SCHED_READY ==> readyTask in ready
      modifies this`ready, tasks`rnext, tasks`rprev, readyTask`priority
      ensures Linked() && Abs() == RenqReady(old(Abs()), readyTask, priority)
      ensures retval <==> old(readyTask.priority) != priority
    {
      hide Ring, WellFormed, Linked, WaitRings, TimedRing, ReadyRing, Tcbs, StopAt;
      Members();
      TcbAt(readyTask);
      retval := readyTask.priority != priority;
      if retval {
        StorePriority(readyTask, priority);
        if readyTask.state == RT_SCHED_READY {
          Members();
          RemReadyWellFormed(Abs(), readyTask);
          UnlinkReady(readyTask);
          EnqReadyTask(readyTask);
        }
      }
    }

    method RenqCurrentTask(rtCurrent: Task, priority: int) returns (retval: bool)
      requires Linked() && PrioritiesBounded(Abs())
      requires rtCurrent in ready && 0 <= priority < RT_SCHED_LINUX_PRIORITY
      modifies this`ready, tasks`rnext, tasks`rprev, tasks`priority
      ensures Linked() && Abs() == RenqCurrent(old(Abs()), rtCurrent, priority)
      ensures retval <==> old(rtCurrent.priority) != priority
    {
      hide Ring, WellFormed, Linked, WaitRings, TimedRing, ReadyRing, Tcbs, StopAt;
      Members();
      TcbAt(rtCurrent);
      retval := rtCurrent.priority != priority;
      if retval {
        StorePriority(rtCurrent, priority);
        Members();
        RemReadyWellFormed(Abs(), rtCurrent);
        UnlinkReady(rtCurrent);
        EnqReadyTask(rtCurrent);
      }
    }

    /** Takes a task out of the ready queue if its state says that it is there. */
    method RemReadyTask(task: Task)
      requires Linked() && task in tasks && task != linux
      requires task.state == RT_SCHED_READY ==> task in ready
      modifies this`ready, tasks`rnext, tasks`rprev
      ensures Linked()
      ensures Abs() == if task.state == RT_SCHED_READY then RemReady(old(Abs()), task) else old(Abs())
    {
      if task.state == RT_SCHED_READY {
        UnlinkReady(task);
      }
    }

    method RemReadyCurrent(rtCurrent: Task)
      requires Linked() && rtCurrent in ready
      modifies this`ready, tasks`rnext, tasks`rprev
      ensures Linked() && Abs() == RemReady(old(Abs()), rtCurrent)
    {
      UnlinkReady(rtCurrent);
    }

    // The timed queue.

    lemma TimedLinksAt(task: Task)
      requires task in tasks
      ensures task in TimedLinks().next && TimedLinks().next[task] == task.tnext
      ensures task in TimedLinks().prev && TimedLinks().prev[task] == task.tprev
    {
    }

    method UnlinkTimedNode(task: Task)
      requires task in tasks && task.tprev in tasks && task.tnext in tasks
      requires task.tprev != task
      modifies tasks`tnext, tasks`tprev
      ensures TimedLinks() == Unlink(old(TimedLinks()), task)
    {
      TimedLinksAt(task);
      hide TimedNext, TimedPrev;
      SetTimedNext(task.tprev, task.tnext);
      SetTimedPrev(task.tnext, task.tprev);
    }

    method SetTimedNext(a: Task, b: Task)
      requires a in tasks
      modifies a`tnext
      ensures a.tnext == b && TimedNext() == old(TimedNext())[a := b]
    {
      a.tnext := b;
    }

    method SetTimedPrev(a: Task, b: Task)
      requires a in tasks
      modifies a`tprev
      ensures a.tprev == b && TimedPrev() == old(TimedPrev())[a := b]
    {
      a.tprev := b;
    }

    method LinkTimedNode(timedTask: Task, task: Task)
      requires task in tasks && timedTask in tasks && task.tprev in tasks
      requires task != timedTask && task.tprev != timedTask
      modifies tasks`tnext, tasks`tprev
      ensures TimedLinks() == Splice(old(TimedLinks()), timedTask, task)
    {
      TimedLinksAt(task);
      hide TimedNext, TimedPrev;
      SetTimedPrev(timedTask, task.tprev);
      SetTimedNext(timedTask.tprev, timedTask);
      SetTimedPrev(task, timedTask);
      SetTimedNext(timedTask, task);
    }

    /** The walk of a timed insertion: past every strictly earlier task. */
    method WalkTimes(resumeTime: int) returns (task: Task)
      requires linux in tasks && TimedRing() && resumeTime <= linux.resumeTime
      requires forall t :: t in timed ==> t in tasks
      ensures task == NodeAt([linux] + timed, StopAt(timed, Tcbs(), Earlier(resumeTime)) + 1)
    {
      hide Ring, StopAt;
      RingStart(TimedLinks(), linux, timed);
      task := linux.tnext;
      ghost var k := 0;
      while resumeTime > task.resumeTime
        invariant k <= |timed| && task == NodeAt([linux] + timed, k + 1)
        invariant forall i :: 0 <= i < k ==> timed[i].resumeTime < resumeTime
        decreases |timed| - k
      {
        RingNext(TimedLinks(), linux, timed, k);
        task := task.tnext;
        k := k + 1;
      }
      StopAtUnique(timed, Tcbs(), Earlier(resumeTime), k);
    }

    method LinkTimed(timedTask: Task, task: Task, ghost k: nat)
      requires Linked() && timedTask in tasks && timedTask != linux && timedTask !in timed
      requires k <= |timed| && task == NodeAt([linux] + timed, k + 1)
      modifies this`timed, tasks`tnext, tasks`tprev
      ensures timed == InsertAt(old(timed), k, timedTask)
      ensures ReadyRing() && TimedRing() && WaitRings() && Tcbs() == old(Tcbs())
    {
      hide Ring, WellFormed, Linked, WaitRings, ReadyRing, Tcbs, Splice, InsertAt, TimedLinks;
      Members();
      RingPrev(TimedLinks(), linux, timed, k);
      RingSplice(TimedLinks(), linux, timed, k, timedTask);
      TimedLinksAt(task);
      LinkTimedNode(timedTask, task);
      timed := InsertAt(timed, k, timedTask);
    }

    /** Inserts a task by resume time, ahead of equals. */
    method EnqTimedTask(timedTask: Task)
      requires Linked() && timedTask in tasks && timedTask != linux && timedTask !in timed
      requires timedTask.resumeTime <= linux.resumeTime
      modifies this`timed, tasks`tnext, tasks`tprev
      ensures Linked() && Abs() == EnqTimed(old(Abs()), timedTask)
    {
      hide Ring, WellFormed, Linked, WaitRings, TimedRing, ReadyRing, Tcbs, StopAt;
      Members();
      TcbAt(timedTask);
      EnqTimedWellFormed(Abs(), timedTask);
      var task := WalkTimes(timedTask.resumeTime);
      LinkTimed(timedTask, task, StopAt(timed, Tcbs(), Earlier(timedTask.resumeTime)));
      assert Abs() == EnqTimed(old(Abs()), timedTask);
      Relinked();
    }

    /** Takes a task of the timed queue out of it. */
    method UnlinkTimed(task: Task)
      requires Linked() && task in timed
      modifies this`timed, tasks`tnext, tasks`tprev
      ensures Linked() && Abs() == RemTimed(old(Abs()), task)
    {
      hide Ring, WellFormed, Linked, WaitRings, ReadyRing, Without, Unlink, Tcbs, TimedLinks;
      Members();
      RingUnlink(TimedLinks(), linux, timed, task);
      TimedLinksAt(task);
      RemTimedWellFormed(Abs(), task);
      UnlinkTimedNode(task);
      timed := Without(timed, task);
      assert Abs() == RemTimed(old(Abs()), task);
      Relinked();
    }

    /** Takes a task out of the timed queue if its state says that it is there. */
    method RemTimedTask(task: Task)
      requires Linked() && task in tasks && task != linux
      requires Delayed(task.state) ==> task in timed
      modifies this`timed, tasks`tnext, tasks`tprev
      ensures Linked()
      ensures Abs() == if Delayed(task.state) then RemTimed(old(Abs()), task) else old(Abs())
    {
      if Delayed(task.state) {
        UnlinkTimed(task);
      }
    }

    /** One round of the timer loop: clear the reasons for waiting, enqueue if ready. */
    method WakeTask(task: Task)
      requires Linked() && PrioritiesBounded(Abs()) && linux.policy >= 0
      requires task in tasks && task != linux && task !in ready
      modifies this`ready, tasks`rnext, tasks`rprev, tasks`state
      ensures Linked() && Abs() == WakeOne(old(Abs()), task)
    {
      hide Ring, WellFormed, Linked, PrioritiesBounded, WaitRings, TimedRing, ReadyRing, Tcbs, StopAt, Woken;
      Members();
      TcbAt(task);
      StoreState(task, Woken(task.state));
      TcbAt(task);
      SamePrioritiesBounded(old(Abs()), Abs());
      if task.state == RT_SCHED_READY {
        if task.policy < 0 {
          EnqReadyEdfTask(task);
        } else {
          EnqReadyTask(task);
        }
      }
    }

    method DropTimedNode(task: Task)
      requires linux in tasks && task in tasks
      modifies tasks`tnext, tasks`tprev
      ensures TimedLinks() == DropFirst(old(TimedLinks()), linux, task)
    {
      linux.tnext := task;
      assert TimedNext() == old(TimedNext())[linux := task];
      task.tprev := linux;
      assert TimedPrev() == old(TimedPrev())[task := linux];
    }

    /** The sentinel takes over the timed queue from task on. */
    method DropTimed(task: Task, ghost k: nat)
      requires Linked() && k <= |timed| && task == NodeAt([linux] + timed, k + 1)
      modifies this`timed, tasks`tnext, tasks`tprev
      ensures Linked() && Abs() == old(Abs()).(timed := old(timed)[k..])
    {
      hide Ring, WellFormed, Linked, WaitRings, ReadyRing, Tcbs, TimedLinks, DropFirst;
      Members();
      RingDropFirst(TimedLinks(), linux, timed, k);
      DropTimedWellFormed(Abs(), k);
      DropTimedNode(task);
      timed := timed[k..];
      Relinked();
    }

    /** The walk's end, seen before the walk. */
    lemma DueTasks(k: nat)
      requires Linked() && k == StopAt(timed, Tcbs(), Due(timeH))
      ensures DueEndsAt(k)
    {
      hide Ring, WellFormed, StopAt;
      Members();
    }

    ghost predicate DueEndsAt(k: nat)
      reads this`timed, this`timeH, timed`resumeTime
    {
      && k <= |timed|
      && (forall i :: 0 <= i < k ==> timed[i].resumeTime <= timeH)
      && (k < |timed| ==> timeH < timed[k].resumeTime)
    }

    /** The tick that began at start has woken the first k timed tasks. */
    ghost predicate WokenSoFar(start: State, k: nat)
      reads this`ready, this`timed, this`waiting
      reads tasks`priority, tasks`policy, tasks`period, tasks`resumeTime
      reads tasks`state, tasks`prioPassedTo, tasks`blockedOn
    {
      k <= |timed| && (forall t :: t in timed ==> t in start.tcb) && Abs() == WakeAll(start, timed[..k])
    }

    lemma DueOrNot(due: nat, k: nat, task: Task)
      requires DueEndsAt(due) && k <= due && task == NodeAt([linux] + timed, k + 1) && timeH < linux.resumeTime
      ensures due <= |timed|
      ensures task.resumeTime <= timeH ==> k < due
      ensures timeH < task.resumeTime ==> k == due
    {
    }

    /** A timer tick: wakes the tasks whose time has come. */
    method WakeUpTimedTasks()
      requires Linked() && PrioritiesBounded(Abs()) && linux.policy >= 0
      requires timeH < linux.resumeTime
      requires forall t :: t in timed ==> t !in ready
      modifies this`ready, this`timed, tasks`rnext, tasks`rprev, tasks`tnext, tasks`tprev, tasks`state
      ensures Linked() && Abs() == WakeUp(old(Abs()), timeH)
    {
      hide Ring, WellFormed, Linked, PrioritiesBounded, WaitRings, TimedRing, ReadyRing, Tcbs, StopAt,
           WakeOne, WakeAll, DueEndsAt, NodeAt;
      Members();
      ghost var start, q := Abs(), timed;
      ghost var due := StopAt(q, Tcbs(), Due(timeH));
      DueTasks(due);
      WakeAllNone(start);
      var task := FirstTimed();
      ghost var k := 0;
      DueOrNot(due, k, task);
      while task.resumeTime <= timeH
        invariant Linked() && PrioritiesBounded(Abs()) && timed == q && DueEndsAt(due)
        invariant k <= due <= |q| && task == NodeAt([linux] + q, k + 1)
        invariant task.resumeTime <= timeH ==> k < due
        invariant timeH < task.resumeTime ==> k == due
        invariant forall i :: k <= i < |q| ==> q[i] !in ready
        invariant WokenSoFar(start, k)
        modifies this`ready, tasks`rnext, tasks`rprev, tasks`state
        decreases due - k
      {
        task := WakeDue(task, k, due, start);
        k := k + 1;
      }
      DropTimed(task, k);
    }

    lemma NthTimed(k: nat)
      requires k < |timed|
      ensures NodeAt([linux] + timed, k + 1) == timed[k]
    {
    }

    method FirstTimed() returns (task: Task)
      requires linux in tasks && TimedRing()
      ensures task == NodeAt([linux] + timed, 1)
    {
      RingStart(TimedLinks(), linux, timed);
      task := linux.tnext;
    }

    method NextTimed(t: Task, ghost k: nat) returns (task: Task)
      requires TimedRing() && k < |timed| && t == timed[k] && t in tasks
      ensures task == NodeAt([linux] + timed, k + 2)
    {
      RingNext(TimedLinks(), linux, timed, k);
      task := t.tnext;
    }

    /** One round of the loop: the k-th timed task is woken, and the next one looked at. */
    method WakeRound(task: Task, ghost k: nat) returns (next: Task)
      requires Linked() && PrioritiesBounded(Abs()) && linux.policy >= 0
      requires k < |timed| && task == timed[k] && task !in ready
      modifies this`ready, tasks`rnext, tasks`rprev, tasks`state
      ensures Linked() && PrioritiesBounded(Abs())
      ensures Abs() == WakeOne(old(Abs()), task)
      ensures next == NodeAt([linux] + timed, k + 2)
      ensures forall t :: t in ready ==> t == task || t in old(ready)
    {
      hide Ring, WellFormed, Linked, PrioritiesBounded, WaitRings, TimedRing, ReadyRing, Tcbs, StopAt, WakeOne;
      Members();
      WakeOneWellFormed(Abs(), task);
      WakeTask(task);
      next := NextTimed(task, k);
    }

    /** The same, as the step from k tasks woken to one more. */
    method WakeDue(task: Task, ghost k: nat, ghost due: nat, ghost start: State) returns (next: Task)
      requires Linked() && PrioritiesBounded(Abs()) && linux.policy >= 0 && timeH < linux.resumeTime
      requires DueEndsAt(due) && k < due <= |timed| && task == NodeAt([linux] + timed, k + 1)
      requires forall i :: k <= i < |timed| ==> timed[i] !in ready
      requires WokenSoFar(start, k)
      modifies this`ready, tasks`rnext, tasks`rprev, tasks`state
      ensures Linked() && PrioritiesBounded(Abs()) && DueEndsAt(due)
      ensures next == NodeAt([linux] + timed, k + 2)
      ensures next.resumeTime <= timeH ==> k + 1 < due
      ensures timeH < next.resumeTime ==> k + 1 == due
      ensures forall i :: k + 1 <= i < |timed| ==> timed[i] !in ready
      ensures WokenSoFar(start, k + 1)
    {
      hide Ring, WellFormed, Linked, PrioritiesBounded, WaitRings, TimedRing, ReadyRing, Tcbs,
           WakeOne, WakeAll, DueEndsAt, NodeAt;
      Members();
      NthTimed(k);
      WakeAllSnoc(start, timed[..k], task);
      assert timed[..k] + [task] == timed[..k + 1];
      next := WakeRound(task, k);
      DueOrNot(due, k + 1, next);
    }

    // The wait queues.

    ghost predicate WaitersApart()
      reads this`waiting
    {
      Apart(waiting, tasks - {linux})
    }

    lemma LinkedWaitersApart()
      requires Linked()
      ensures WaitersApart() && Apart(waiting, tasks - {linux})
    {
      hide Ring;
      assert RealTasks(Abs()) == tasks - {linux};
      var st := Abs();
      forall h, t | h in waiting && t in waiting[h]
        ensures t in tasks && t != linux && st.tcb[t].blockedOn == h
      {
        assert QueueOf(st, st.waiting[h]);
        assert t in st.waiting[h];
      }
    }

    ghost function WaitRing(h: Queue): (r: seq<Queue>)
      requires h in waiting
      reads this`waiting
    {
      [h] + NodesOf(waiting[h])
    }

    /** Rings of different heads share no node. */
    lemma WaitRingsDisjoint(h: Queue, g: Queue)
      requires WaitRings() && WaitersApart() && h in waiting && g in waiting && h != g
      ensures forall y :: y in WaitRing(g) ==> y !in WaitRing(h)
    {
      hide Ring;
      forall y | y in WaitRing(g) && y in WaitRing(h)
        ensures false
      {
        NodeOwner(g, y);
        NodeOwner(h, y);
      }
    }

    /** A node of a ring is its head or belongs to a waiter. */
    lemma NodeOwner(h: Queue, y: Queue)
      requires WaitRings() && WaitersApart() && h in waiting && y in WaitRing(h)
      ensures y == h || (y !in waiting && y.task != null && y.task in waiting[h] && y.task.queue == y)
    {
      hide Ring;
      var i :| 0 <= i < |WaitRing(h)| && WaitRing(h)[i] == y;
      if i > 0 {
        assert waiting[h][i - 1] in waiting[h] && y == waiting[h][i - 1].queue;
      }
    }

    lemma WaitLinksAt(q: Queue)
      requires q in nodes
      ensures q in WaitLinks().next && WaitLinks().next[q] == q.next
      ensures q in WaitLinks().prev && WaitLinks().prev[q] == q.prev
    {
    }

    method UnlinkWaitNode(q: Queue)
      requires q in nodes && q.prev in nodes && q.next in nodes
      requires q.prev != q
      modifies nodes`next, nodes`prev
      ensures WaitLinks() == Unlink(old(WaitLinks()), q)
    {
      WaitLinksAt(q);
      hide WaitNext, WaitPrev;
      SetWaitNext(q.prev, q.next);
      SetWaitPrev(q.next, q.prev);
    }

    method SetWaitNext(a: Queue, b: Queue)
      requires a in nodes
      modifies a`next
      ensures a.next == b && WaitNext() == old(WaitNext())[a := b]
    {
      a.next := b;
    }

    method SetWaitPrev(a: Queue, b: Queue)
      requires a in nodes
      modifies a`prev
      ensures a.prev == b && WaitPrev() == old(WaitPrev())[a := b]
    {
      a.prev := b;
    }

    method LinkWaitNode(node: Queue, q: Queue)
      requires q in nodes && node in nodes && q.prev in nodes
      requires q != node && q.prev != node
      modifies nodes`next, nodes`prev
      ensures WaitLinks() == Splice(old(WaitLinks()), node, q)
    {
      WaitLinksAt(q);
      hide WaitNext, WaitPrev;
      SetWaitPrev(node, q.prev);
      SetWaitNext(node.prev, node);
      SetWaitPrev(q, node);
      SetWaitNext(node, q);
    }

    /** What the two stores of an unlink, and the four of a link, will do to the rings. */
    lemma WaitRingsUnlinked(h: Queue, task: Task)
      requires WaitRings() && WaitersApart() && h in waiting && task in waiting[h]
      ensures task.queue in WaitLinks().next && task.queue in WaitLinks().prev
      ensures WaitLinks().prev[task.queue] != task.queue
      ensures WaitLinks().prev[task.queue] in nodes && WaitLinks().next[task.queue] in nodes
      ensures var w := waiting[h := Without(waiting[h], task)];
              forall g :: g in w ==> Ring(Unlink(WaitLinks(), task.queue), [g] + NodesOf(w[g]))
    {
      hide Ring, Unlink, WaitLinks;
      var l, x := WaitLinks(), task.queue;
      var w := waiting[h := Without(waiting[h], task)];
      var i :| 0 <= i < |waiting[h]| && waiting[h][i] == task;
      assert NodesOf(waiting[h])[i] == x;
      RingUnlink(l, h, NodesOf(waiting[h]), x);
      forall u | u in waiting[h] && u.queue == x
        ensures u == task
      {
        assert u in tasks && task in tasks;
      }
      NodesOfWithout(waiting[h], task);
      forall g | g in waiting && g != h
        ensures Ring(Unlink(l, x), [g] + NodesOf(w[g]))
      {
        WaitRingsDisjoint(h, g);
        assert WaitRing(h)[i + 1] == x;
        UnlinkElsewhere(l, WaitRing(h), x, WaitRing(g));
      }
      NodesAllocated(h, l.prev[x]);
      NodesAllocated(h, l.next[x]);
    }

    lemma NodesAllocated(h: Queue, y: Queue)
      requires WaitRings() && WaitersApart() && h in waiting && y in WaitRing(h)
      ensures y in nodes
    {
      hide Ring;
      NodeOwner(h, y);
    }

    lemma WaitRingsLinked(h: Queue, task: Task, k: nat)
      requires WaitRings() && WaitersApart() && h in waiting && k <= |waiting[h]|
      requires task in tasks && task != linux && forall g :: g in waiting ==> task !in waiting[g]
      ensures var q := NodeAt(WaitRing(h), k + 1);
              && q in nodes && q in WaitLinks().prev && WaitLinks().prev[q] in nodes
              && q != task.queue && WaitLinks().prev[q] != task.queue
              && var w := waiting[h := InsertAt(waiting[h], k, task)];
                 forall g :: g in w ==> Ring(Splice(WaitLinks(), task.queue, q), [g] + NodesOf(w[g]))
    {
      hide Ring, Splice, WaitLinks, InsertAt;
      var l, x := WaitLinks(), task.queue;
      var w := waiting[h := InsertAt(waiting[h], k, task)];
      forall g | g in waiting
        ensures x !in WaitRing(g)
      {
        if x in WaitRing(g) {
          NodeOwner(g, x);
        }
      }
      RingPrev(l, h, NodesOf(waiting[h]), k);
      var q := NodeAt(WaitRing(h), k + 1);
      NodesAllocated(h, q);
      NodesAllocated(h, l.prev[q]);
      assert x !in WaitRing(h);
      assert x !in NodesOf(waiting[h]) && x != h by {
        assert forall i :: 0 <= i < |waiting[h]| ==> WaitRing(h)[i + 1] == NodesOf(waiting[h])[i];
        assert WaitRing(h)[0] == h;
      }
      RingSplice(l, h, NodesOf(waiting[h]), k, x);
      NodesOfInsert(waiting[h], k, task);
      forall g | g in waiting && g != h
        ensures Ring(Splice(l, x, q), [g] + NodesOf(w[g]))
      {
        WaitRingsDisjoint(h, g);
        SpliceElsewhere(l, WaitRing(h), k + 1, x, WaitRing(g));
      }
    }

    method UnlinkWait(task: Task, ghost h: Queue)
      requires WaitRings() && WaitersApart() && h in waiting && task in waiting[h]
      modifies this`waiting, nodes`next, nodes`prev
      ensures WaitRings() && waiting == old(waiting)[h := Without(old(waiting)[h], task)]
    {
      hide Ring, Unlink, WaitLinks, Without;
      WaitRingsUnlinked(h, task);
      assert task in tasks && task != linux;
      WaitLinksAt(task.queue);
      UnlinkWaitNode(task.queue);
      waiting := waiting[h := Without(waiting[h], task)];
    }

    method LinkWait(task: Task, q: Queue, ghost h: Queue, ghost k: nat)
      requires WaitRings() && WaitersApart() && h in waiting && k <= |waiting[h]|
      requires task in tasks && task != linux && forall g :: g in waiting ==> task !in waiting[g]
      requires q == NodeAt(WaitRing(h), k + 1)
      modifies this`waiting, nodes`next, nodes`prev
      ensures WaitRings() && waiting == old(waiting)[h := InsertAt(old(waiting)[h], k, task)]
    {
      hide Ring, Splice, WaitLinks, InsertAt;
      WaitRingsLinked(h, task, k);
      WaitLinksAt(q);
      LinkWaitNode(task.queue, q);
      waiting := waiting[h := InsertAt(waiting[h], k, task)];
    }

    lemma WaiterAt(h: Queue, k: nat)
      requires WaitRings() && WaitersApart() && h in waiting && k <= |waiting[h]|
      ensures var q := NodeAt(WaitRing(h), k + 1);
              if k < |waiting[h]|
              then q != h && q == waiting[h][k].queue && q.task == waiting[h][k]
              else q == h
    {
      hide Ring;
      if k < |waiting[h]| {
        assert waiting[h][k] in waiting[h];
      }
    }

    method FirstWaiter(h: Queue) returns (q: Queue)
      requires WaitRings() && h in waiting
      ensures q == NodeAt(WaitRing(h), 1)
    {
      hide Ring;
      RingStart(WaitLinks(), h, NodesOf(waiting[h]));
      q := h.next;
    }

    method NextWaiter(ghost h: Queue, ghost k: nat, p: Queue) returns (q: Queue)
      requires WaitRings() && h in waiting && k < |waiting[h]| && p == waiting[h][k].queue && p in nodes
      ensures q == NodeAt(WaitRing(h), k + 2)
    {
      hide Ring;
      RingNext(WaitLinks(), h, NodesOf(waiting[h]), k);
      q := p.next;
    }

    /** The walk of a wait-queue insertion: past every waiter at least as urgent. */
    method WalkWaiters(h: Queue, priority: int) returns (q: Queue)
      requires WaitRings() && WaitersApart() && h in waiting
      ensures q == NodeAt(WaitRing(h), StopAt(waiting[h], Tcbs(), UpTo(priority)) + 1)
    {
      hide Ring, StopAt, WaitRings, NodeAt;
      assert forall t :: t in waiting[h] ==> t in tasks && t != linux && t.queue in nodes by { WaitersAreTasks(h); }
      q := FirstWaiter(h);
      ghost var k := 0;
      WaiterAt(h, k);
      while q != h && q.task.priority <= priority
        invariant k <= |waiting[h]| && q == NodeAt(WaitRing(h), k + 1)
        invariant if k < |waiting[h]| then q != h && q == waiting[h][k].queue && q.task == waiting[h][k] else q == h
        invariant forall i :: 0 <= i < k ==> waiting[h][i].priority <= priority
        decreases |waiting[h]| - k
      {
        q := NextWaiter(h, k, q);
        k := k + 1;
        WaiterAt(h, k);
      }
      StopAtUnique(waiting[h], Tcbs(), UpTo(priority), k);
    }

    lemma WaitersAreTasks(h: Queue)
      requires WaitRings() && WaitersApart() && h in waiting
      ensures forall t :: t in waiting[h] ==> t in tasks && t != linux && t.queue in nodes
    {
      hide Ring;
      forall t | t in waiting[h]
        ensures t in tasks && t != linux && t.queue in nodes
      {
        assert t in waiting[h];
      }
    }

    method StoreBlockedOn(task: Task, queue: Queue?)
      requires task in tasks
      modifies task`blockedOn
      ensures Tcbs() == old(Tcbs())[task := old(Tcbs())[task].(blockedOn := queue)]
    {
      task.blockedOn := queue;
    }

    /** Blocks a task on a queue, by priority when qtype is 0 and at the end otherwise. */
    method EnqueueBlockedTask(task: Task, queue: Queue, qtype: int)
      requires Linked() && task in tasks && task != linux && queue in waiting
      requires task.blockedOn == null
      modifies this`waiting, nodes`next, nodes`prev, task`blockedOn
      ensures Linked() && Abs() == EnqueueBlocked(old(Abs()), task, queue, qtype)
    {
      hide Ring, WellFormed, Linked, WaitRings, TimedRing, ReadyRing, StopAt, InsertAt, WaitersApart, WaitRing, Tcbs;
      Members();
      LinkedWaitersApart();
      TcbAt(task);
      EnqueueBlockedWellFormed(Abs(), task, queue, qtype);
      StoreBlockedOn(task, queue);
      var q := PlaceInQueue(task, queue, qtype);
      WaitRingHead(queue);
      ghost var w := waiting[queue];
      LinkWait(task, q, queue, if qtype == 0 then StopAt(w, Tcbs(), UpTo(task.priority)) else |w|);
      assert Abs() == EnqueueBlocked(old(Abs()), task, queue, qtype);
      Relinked();
    }

    lemma WaitRingHead(h: Queue)
      requires h in waiting
      ensures |WaitRing(h)| == |waiting[h]| + 1 && NodeAt(WaitRing(h), |waiting[h]| + 1) == h
    {
    }

    /** The node that a blocking task goes in front of: the head itself in a FIFO queue. */
    method PlaceInQueue(task: Task, queue: Queue, qtype: int) returns (q: Queue)
      requires WaitRings() && WaitersApart() && queue in waiting && task in tasks
      ensures q == if qtype == 0
                   then NodeAt(WaitRing(queue), StopAt(waiting[queue], Tcbs(), UpTo(task.priority)) + 1)
                   else queue
    {
      hide WaitRings, WaitersApart, StopAt;
      q := queue;
      if qtype == 0 {
        q := WalkWaiters(queue, task.priority);
      }
    }

    /** Takes a blocked task off its queue and ends its lending of priority. */
    method DequeueBlockedTask(task: Task)
      requires Linked() && task in tasks && task != linux && task.blockedOn != null
      modifies this`waiting, nodes`next, nodes`prev, task`blockedOn, task`prioPassedTo
      ensures Linked() && Abs() == DequeueBlocked(old(Abs()), task)
    {
      hide Ring, WellFormed, Linked, WaitRings, TimedRing, ReadyRing, Without, WaitersApart, Tcbs;
      TcbAt(task);
      StorePassedTo(task, null);
      Members();
      LinkedWaitersApart();
      TcbAt(task);
      ghost var st := Abs();
      DequeueBlockedWellFormed(st, task);
      DequeueInSteps(old(Abs()), task);
      UnlinkWait(task, task.blockedOn);
      StoreBlockedOn(task, null);
      assert Abs() == DequeueBlocked(st, task);
      Relinked();
    }

    /** Off the wait queue and back in, where the task's priority now belongs. */
    method RequeueBlockedTask(task: Task)
      requires Linked() && task in tasks && task != linux && task.blockedOn != null
      modifies this`waiting, nodes`next, nodes`prev
      ensures Linked() && Abs() == RequeueBlocked(old(Abs()), task)
    {
      hide Ring, WellFormed, Linked, WaitRings, TimedRing, ReadyRing, Without, StopAt, InsertAt,
           WaitersApart, Apart, Tcbs, WaitRing;
      Members();
      LinkedWaitersApart();
      TcbAt(task);
      RequeueBlockedWellFormed(Abs(), task);
      var h := task.blockedOn;
      ApartWithout(waiting, tasks - {linux}, h, task);
      UnlinkWait(task, h);
      Reapart();
      var q := WalkWaiters(h, task.priority);
      LinkWait(task, q, h, StopAt(waiting[h], Tcbs(), UpTo(task.priority)));
      assert Abs() == RequeueBlocked(old(Abs()), task);
      Relinked();
    }

    lemma Reapart()
      requires Apart(waiting, tasks - {linux})
      ensures WaitersApart()
    {
    }

    // Priority inheritance.

    lemma PassEnded(to: Task?, p: int)
      requires to == null || (to in tasks && to.priority <= p)
      ensures PassAlong(Abs(), to, p) == Abs()
    {
      PassEnd(Abs(), to, p);
    }

    lemma PassedToReal(task: Task)
      requires Linked() && task in tasks && task != linux
      ensures task.prioPassedTo != null ==> task.prioPassedTo in tasks && task.prioPassedTo != linux
    {
      hide Ring;
      assert task in RealTasks(Abs());
    }

    /** One round of pass_prio's loop. */
    method RaiseTask(task: Task, priority: int)
      requires Linked() && PrioritiesBounded(Abs())
      requires task in tasks && task != linux && 0 <= priority < RT_SCHED_LINUX_PRIORITY
      requires task.state == RT_SCHED_READY ==> task in ready
      modifies this`ready, tasks`rnext, tasks`rprev, this`waiting, nodes`next, nodes`prev, task`priority
      ensures Linked() && PrioritiesBounded(Abs())
      ensures Abs() == Raise(old(Abs()), task, priority)
      ensures forall t :: t in old(ready) ==> t in ready
    {
      hide Ring, WellFormed, Linked, PrioritiesBounded, WaitRings, TimedRing, ReadyRing, Tcbs, StopAt;
      Members();
      TcbAt(task);
      RaiseBounded(Abs(), task, priority);
      RaiseReadyMembers(Abs(), task, priority);
      StorePriority(task, priority);
      SetPriorityBounded(old(Abs()), task, priority);
      TcbAt(task);
      if task.state == RT_SCHED_READY {
        Members();
        RemReadyWellFormed(Abs(), task);
        ghost var st := Abs();
        UnlinkReady(task);
        SamePrioritiesBounded(st, Abs());
        EnqReadyTask(task);
      } else if task.blockedOn != null && !(task.state & RT_SCHED_SEMAPHORE != 0 && task.blockedOn.qtype != 0) {
        RequeueBlockedTask(task);
      }
    }

    /** from, about to wait for to, lends it its priority, and so on along the chain. */
    method PassPrioTo(to: Task?, from: Task) returns (schedmap: bv32)
      requires Linked() && PrioritiesBounded(Abs())
      requires from in tasks && from != linux && (to != null ==> to in tasks && to != linux)
      requires forall t :: t in tasks && t != linux && t.state == RT_SCHED_READY ==> t in ready
      modifies this`ready, tasks`rnext, tasks`rprev, this`waiting, nodes`next, nodes`prev
      modifies tasks`priority, from`prioPassedTo
      ensures Linked() && Abs() == PassPrio(old(Abs()), to, from)
      ensures schedmap == 0
    {
      hide Ring, WellFormed, Linked, PrioritiesBounded, WaitRings, TimedRing, ReadyRing, Tcbs, Raise,
           PassAlong, LessUrgent;
      BoundedTasks();
      TcbAt(from);
      StorePassedTo(from, to);
      SamePrioritiesBounded(old(Abs()), Abs());
      ghost var start, p := Abs(), from.priority;
      var cur := to;
      while cur != null && cur.priority > from.priority
        invariant Linked() && PrioritiesBounded(Abs())
        invariant from.priority == p && (cur != null ==> cur in tasks && cur != linux)
        invariant forall t :: t in tasks && t != linux && t.state == RT_SCHED_READY ==> t in ready
        invariant PassAlong(Abs(), cur, p) == PassAlong(start, to, p)
        modifies this`ready, tasks`rnext, tasks`rprev, this`waiting, nodes`next, nodes`prev, tasks`priority
        decreases LessUrgent(Tcbs(), p)
      {
        TcbAt(cur);
        PassStep(Abs(), cur, p);
        PassedToReal(cur);
        RaiseTask(cur, from.priority);
        cur := cur.prioPassedTo;
      }
      PassEnded(cur, p);
      return 0;
    }
  }
}
