/** The task and wait-queue records of the scheduler, with the fields its queue
    operations read and write. */
module Tasks {

  // Priorities: smaller is more urgent, and the Linux task is the sentinel.
  const RT_SCHED_LINUX_PRIORITY := 0x7fffFfff

  // Bits of Task.state.
  const RT_SCHED_READY: bv32 := 1
  const RT_SCHED_SUSPENDED: bv32 := 2
  const RT_SCHED_DELAYED: bv32 := 4
  const RT_SCHED_SEMAPHORE: bv32 := 8
  const RT_SCHED_SEND: bv32 := 16
  const RT_SCHED_RECEIVE: bv32 := 32
  const RT_SCHED_RPC: bv32 := 64
  const RT_SCHED_RETURN: bv32 := 128
  const RT_SCHED_MBXSUSP: bv32 := 256

  // The bits that a timer expiry clears.
  const WAKE_BITS: bv32 := RT_SCHED_DELAYED | RT_SCHED_SUSPENDED | RT_SCHED_SEMAPHORE
                           | RT_SCHED_RECEIVE | RT_SCHED_SEND | RT_SCHED_RPC
                           | RT_SCHED_RETURN | RT_SCHED_MBXSUSP

  /** A state with every reason for waiting cleared. */
  function Woken(state: bv32): (r: bv32) {
    state & !WAKE_BITS
  }

  function WithBits(state: bv32, bits: bv32): (r: bv32) {
    state | bits
  }

  /** The reasons in bits, and any timeout, are over. */
  function WithoutBits(state: bv32, bits: bv32): (r: bv32) {
    state & !(bits | RT_SCHED_DELAYED)
  }

  predicate Delayed(state: bv32) {
    state & RT_SCHED_DELAYED != 0
  }

  // What the four operations do to the bits, by number: bits 1 to 8 are the reasons for
  // waiting, DELAYED is bit 2, READY is bit 0.

  lemma WokenClears(state: bv32)
    ensures var r := Woken(state);
            && r & RT_SCHED_DELAYED == 0 && r & RT_SCHED_SUSPENDED == 0 && r & RT_SCHED_SEMAPHORE == 0
            && r & RT_SCHED_RECEIVE == 0 && r & RT_SCHED_SEND == 0 && r & RT_SCHED_RPC == 0
            && r & RT_SCHED_RETURN == 0 && r & RT_SCHED_MBXSUSP == 0
  {
  }

  lemma WokenKeeps(was: bv32, state: bv32)
    requires state == Woken(was)
    ensures state == was & 0xFFFF_FE01
  {
  }

  lemma WokenReady(state: bv32)
    ensures Woken(state) == RT_SCHED_READY <==> state & 0xFFFF_FE01 == 1
  {
  }

  /** A wait-queue node: either the head that an object owns, or the node inside a
      task. qtype is the field of the semaphore that starts with this head, which is
      non-zero for arrival order; every other head has 0. */
  class Queue {
    var prev: Queue
    var next: Queue
    var task: Task?
    const qtype: int

    constructor (qtype: int)
      ensures prev == this && next == this && task == null && this.qtype == qtype
    {
      prev := this;
      next := this;
      task := null;
      this.qtype := qtype;
    }
  }

  class Task {
    var state: bv32
    var priority: int
    var policy: int
    var period: int
    var resumeTime: int
    var prioPassedTo: Task?
    var blockedOn: Queue?
    var rprev: Task
    var rnext: Task
    var tprev: Task
    var tnext: Task
    const queue: Queue

    constructor (priority: int, policy: int, period: int, resumeTime: int, state: bv32)
      ensures this.priority == priority && this.policy == policy && this.period == period
      ensures this.resumeTime == resumeTime && this.state == state
      ensures prioPassedTo == null && blockedOn == null
      ensures fresh(queue) && queue.task == this
    {
      this.priority := priority;
      this.policy := policy;
      this.period := period;
      this.resumeTime := resumeTime;
      this.state := state;
      prioPassedTo := null;
      blockedOn := null;
      rprev := this;
      rnext := this;
      tprev := this;
      tnext := this;
      queue := new Queue(0);
      new;
      queue.task := this;
    }

    /** The scheduling attributes of the task, as a value. */
    ghost function Attributes(): Tcb
      reads this`priority, this`policy, this`period, this`resumeTime, this`state
      reads this`prioPassedTo, this`blockedOn
    {
      Tcb(priority, policy, period, resumeTime, state, prioPassedTo, blockedOn)
    }
  }

  datatype Tcb = Tcb(
    priority: int,
    policy: int,
    period: int,
    resumeTime: int,
    state: bv32,
    passedTo: Task?,
    blockedOn: Queue?)
}
