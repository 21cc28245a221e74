/** The exit handlers of a task: a list of records that grows at the front and is run and
    released from the front when the task ends. */
module ExitHandlers {
  import opened Sequences

  const RT_TASK_MAGIC: bv32 := 0x9ad25f6f

  /** One call of a handler function. */
  datatype Call = Call(fun: int, arg1: int, arg2: int)

  /** A record, filled in once, when it is made. */
  class Handler {
    const nxt: Handler?
    const call: Call

    constructor (call: Call, nxt: Handler?)
      ensures this.call == call && this.nxt == nxt
    {
      this.call := call;
      this.nxt := nxt;
    }
  }

  ghost function CallsOf(chain: seq<Handler>): (r: seq<Call>)
    ensures |r| == |chain| && forall k :: 0 <= k < |chain| ==> r[k] == chain[k].call
  {
    seq(|chain|, k requires 0 <= k < |chain| => chain[k].call)
  }

  lemma CallsOfOneMore(p: Handler, chain: seq<Handler>)
    ensures CallsOf([p] + chain) == [p.call] + CallsOf(chain)
  {
  }

  /** The records from first on, along nxt, are those of chain. */
  ghost predicate ListOf(first: Handler?, chain: seq<Handler>) {
    if chain == [] then first == null else first == chain[0] && ListOf(chain[0].nxt, chain[1..])
  }

  lemma OneMore(p: Handler, chain: seq<Handler>)
    requires ListOf(p.nxt, chain) && Distinct(chain) && p !in chain
    ensures ListOf(p, [p] + chain) && Distinct([p] + chain)
  {
    assert ([p] + chain)[1..] == chain;
  }

  datatype Access = Read(p: Handler) | Release(p: Handler)

  /** The record is read for its call, read for its link, and released; then the next. */
  ghost function AccessesOf(chain: seq<Handler>): (r: seq<Access>) {
    if chain == [] then []
    else
      var p := chain[|chain| - 1];
      AccessesOf(chain[..|chain| - 1]) + [Read(p)] + [Read(p)] + [Release(p)]
  }

  ghost predicate NeverAfterRelease(trace: seq<Access>) {
    forall i, j :: 0 <= i < j < |trace| && trace[i].Release? ==> trace[i].p != trace[j].p
  }

  lemma {:induction false} AccessesSafe(chain: seq<Handler>)
    requires Distinct(chain)
    ensures NeverAfterRelease(AccessesOf(chain))
    ensures forall i :: 0 <= i < |AccessesOf(chain)| ==> AccessesOf(chain)[i].p in chain
  {
    if chain != [] {
      var front, p := chain[..|chain| - 1], chain[|chain| - 1];
      AccessesSafe(front);
      var t := AccessesOf(front);
      assert p !in front && forall q :: q in front ==> q in chain;
      assert forall i :: 0 <= i < |AccessesOf(chain)| ==>
                           AccessesOf(chain)[i] ==
                           if i < |t| then t[i] else if i < |t| + 2 then Read(p) else Release(p);
    }
  }

  class ExitHooks {
    const magic: bv32
    var exitHook: Handler?
    ghost var chain: seq<Handler>  // the records, first to last

    constructor (magic: bv32)
      ensures Valid() && chain == [] && this.magic == magic
    {
      this.magic := magic;
      exitHook := null;
      chain := [];
    }

    ghost predicate Valid()
      reads this
    {
      ListOf(exitHook, chain) && Distinct(chain)
    }

    /** What ending the task would call, in order. */
    ghost function Calls(): (r: seq<Call>)
      reads this
    {
      CallsOf(chain)
    }

    /** Adds a handler in front, unless this is no task or there is no memory. */
    method SetExitHandler(fun: int, arg1: int, arg2: int, granted: bool) returns (p: Handler?)
      requires Valid()
      modifies this
      ensures Valid()
      ensures p != null <==> magic == 0x9ad25f6f && granted
      ensures p == null ==> exitHook == old(exitHook) && chain == old(chain) && Calls() == old(Calls())
      ensures p != null ==> fresh(p) && exitHook == p && chain == [p] + old(chain)
      ensures p != null ==> Calls() == [Call(fun, arg1, arg2)] + old(Calls())
    {
      if magic != RT_TASK_MAGIC {
        return null;
      }
      if !granted {
        return null;
      }
      p := new Handler(Call(fun, arg1, arg2), exitHook);
      CallsOfOneMore(p, chain);
      OneMore(p, chain);
      hide ListOf, Distinct, CallsOf;
      exitHook := p;
      chain := [p] + chain;
    }

    /** Runs every handler and releases its record: each once, the newest first. trace is
        every access to a record, in order: none is read after its release. */
    method CallExitHandlers() returns (calls: seq<Call>, freed: seq<Handler>, ghost trace: seq<Access>)
      requires Valid()
      modifies this
      ensures Valid() && exitHook == null && chain == []
      ensures calls == old(Calls()) && freed == old(chain) && Distinct(freed)
      ensures trace == AccessesOf(old(chain)) && NeverAfterRelease(trace)
    {
      calls, freed, trace := [], [], [];
      var pt := exitHook;
      ghost var k := 0;
      while pt != null
        invariant k <= |chain| && ListOf(pt, chain[k..])
        invariant freed == chain[..k] && calls == Calls()[..k] && trace == AccessesOf(chain[..k])
        modifies {}
        decreases |chain| - k
      {
        assert chain[k..][0] == chain[k] && chain[k..][1..] == chain[k + 1..];
        assert chain[..k + 1][..k] == chain[..k];
        calls := calls + [pt.call];
        trace := trace + [Read(pt)];
        var tmp := pt;
        pt := pt.nxt;
        trace := trace + [Read(tmp)];
        freed := freed + [tmp];
        trace := trace + [Release(tmp)];
        k := k + 1;
      }
      assert chain[..k] == chain;
      AccessesSafe(chain);
      exitHook := null;
      chain := [];
    }
  }

  /** The calls pending after the registrations of cs, all of them granted. */
  function Pending(cs: seq<Call>): (r: seq<Call>) {
    if cs == [] then [] else [cs[|cs| - 1]] + Pending(cs[..|cs| - 1])
  }

  /** Handlers run in the reverse of the order of registration, each exactly once. */
  lemma {:induction false} PendingReversed(cs: seq<Call>)
    ensures |Pending(cs)| == |cs| && multiset(Pending(cs)) == multiset(cs)
    ensures forall i :: 0 <= i < |cs| ==> Pending(cs)[i] == cs[|cs| - 1 - i]
  {
    if cs != [] {
      var rest := cs[..|cs| - 1];
      PendingReversed(rest);
      assert cs == rest + [cs[|cs| - 1]];
    }
  }

  /** Registering and then ending, through the list itself. */
  method RegisterThenEnd(cs: seq<Call>) returns (calls: seq<Call>)
    ensures calls == Pending(cs)
  {
    var hooks := new ExitHooks(RT_TASK_MAGIC);
    for i := 0 to |cs|
      invariant fresh(hooks) && hooks.Valid() && hooks.magic == RT_TASK_MAGIC
      invariant hooks.Calls() == Pending(cs[..i])
    {
      var p := hooks.SetExitHandler(cs[i].fun, cs[i].arg1, cs[i].arg2, true);
      assert cs[..i + 1][..i] == cs[..i];
    }
    assert cs[..|cs|] == cs;
    var freed;
    ghost var trace;
    calls, freed, trace := hooks.CallExitHandlers();
  }
}
