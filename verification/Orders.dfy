/** The order of each queue, and what insertion and removal do to a sorted queue. */
module Orders {
  import opened Sequences
  import opened Tasks

  datatype Order = ByUrgency | ByPriority | ByTime

  /** a may stand ahead of b. By urgency: deadline tasks first, by period; then the
      others, by priority. */
  predicate Leq(o: Order, a: Tcb, b: Tcb) {
    match o
    case ByUrgency =>
      if a.policy < 0 then b.policy >= 0 || a.period <= b.period
      else b.policy >= 0 && a.priority <= b.priority
    case ByPriority => a.priority <= b.priority
    case ByTime => a.resumeTime <= b.resumeTime
  }

  ghost predicate Sorted(o: Order, s: seq<Task>, tcb: map<Task, Tcb>) {
    && (forall t :: t in s ==> t in tcb)
    && forall i, j :: 0 <= i < j < |s| ==> Leq(o, tcb[s[i]], tcb[s[j]])
  }

  /** The gate's first stop splits a sorted queue: t may follow all before, precede all after. */
  ghost predicate Fits(o: Order, s: seq<Task>, tcb: map<Task, Tcb>, k: nat, t: Task) {
    && k <= |s| && t in tcb
    && (forall u :: u in s ==> u in tcb)
    && (forall i :: 0 <= i < k ==> Leq(o, tcb[s[i]], tcb[t]))
    && (forall i :: k <= i < |s| ==> Leq(o, tcb[t], tcb[s[i]]))
  }

  lemma SortedInsert(o: Order, s: seq<Task>, tcb: map<Task, Tcb>, k: nat, t: Task)
    requires Sorted(o, s, tcb) && Fits(o, s, tcb, k, t)
    ensures Sorted(o, InsertAt(s, k, t), tcb)
  {
    var r := InsertAt(s, k, t);
    InsertMembers(s, k, t);
    forall i, j | 0 <= i < j < |r|
      ensures Leq(o, tcb[r[i]], tcb[r[j]])
    {
      hide Leq;
      if i == k {
        assert r[j] == s[j - 1];
      } else if j == k {
        assert r[i] == s[i];
      } else {
        var i', j' := if i < k then i else i - 1, if j < k then j else j - 1;
        assert r[i] == s[i'] && r[j] == s[j'];
      }
    }
  }

  lemma SortedWithout(o: Order, s: seq<Task>, tcb: map<Task, Tcb>, t: Task)
    requires Sorted(o, s, tcb) && Distinct(s)
    ensures Sorted(o, Without(s, t), tcb)
  {
    hide Leq, Without;
    WithoutMembers(s, t);
    if t in s {
      var k :| 0 <= k < |s| && s[k] == t;
      WithoutAt(s, k);
      SortedCut(o, s, tcb, k);
    } else {
      WithoutAbsent(s, t);
    }
  }

  lemma SortedCut(o: Order, s: seq<Task>, tcb: map<Task, Tcb>, k: nat)
    requires Sorted(o, s, tcb) && k < |s|
    ensures Sorted(o, s[..k] + s[k + 1..], tcb)
  {
    hide Leq;
    var r := s[..k] + s[k + 1..];
    forall i, j | 0 <= i < j < |r|
      ensures Leq(o, tcb[r[i]], tcb[r[j]])
    {
      var i', j' := if i < k then i else i + 1, if j < k then j else j + 1;
      assert r[i] == s[i'] && r[j] == s[j'];
    }
  }

  /** Only the attributes of the members matter. */
  lemma SortedElsewhere(o: Order, s: seq<Task>, tcb: map<Task, Tcb>, tcb': map<Task, Tcb>)
    requires Sorted(o, s, tcb)
    requires forall t :: t in s ==> t in tcb' && tcb'[t] == tcb[t]
    ensures Sorted(o, s, tcb')
  {
    hide Leq;
  }

  /** The members that come out ahead of an inserted task are those ahead of its place. */
  lemma InsertedBefore(s: seq<Task>, k: nat, t: Task, i: nat)
    requires k <= |s| && i < |s| && Distinct(s) && t !in s
    ensures Before(InsertAt(s, k, t), s[i], t) <==> i < k
  {
    var r := InsertAt(s, k, t);
    InsertMembers(s, k, t);
    assert r[k] == t && r[if i < k then i else i + 1] == s[i];
  }
}
