/** Circular doubly linked lists as link maps: what one splice and one unlink do
    to a ring, for every queue of the scheduler. */
module Rings {
  import opened Sequences

  /** The two pointer fields of every node. */
  datatype Links<T> = Links(next: map<T, T>, prev: map<T, T>)

  function After(i: nat, n: nat): (r: nat)
    requires i < n
    ensures r < n
  {
    if i + 1 == n then 0 else i + 1
  }

  function Back(i: nat, n: nat): (r: nat)
    requires i < n
    ensures r < n && After(r, n) == i
  {
    if i == 0 then n - 1 else i - 1
  }

  /** s[0], s[1], ... is exactly one turn around the ring, in both directions. */
  ghost predicate Ring<T>(l: Links<T>, s: seq<T>) {
    && |s| > 0
    && Distinct(s)
    && (forall x :: x in s ==> x in l.next && x in l.prev)
    && (forall i {:trigger l.next[s[i]]} :: 0 <= i < |s| ==> l.next[s[i]] == s[After(i, |s|)])
    && (forall i {:trigger l.prev[s[i]]} :: 0 <= i < |s| ==> l.prev[s[i]] == s[Back(i, |s|)])
  }

  /** The stores that link x in front of at. */
  ghost function Splice<T>(l: Links<T>, x: T, at: T): (r: Links<T>)
    requires at in l.prev
  {
    var p := l.prev[at];
    Links(l.next[p := x][x := at], l.prev[x := p][at := x])
  }

  /** The stores that take x out; x keeps its own stale pointers. */
  ghost function Unlink<T>(l: Links<T>, x: T): (r: Links<T>)
    requires x in l.next && x in l.prev
  {
    Links(l.next[l.prev[x] := l.next[x]], l.prev[l.next[x] := l.prev[x]])
  }

  /** The node that an insertion at place k of a ring goes in front of. */
  function NodeAt<T>(s: seq<T>, k: nat): (r: T)
    requires 0 < |s| && k <= |s|
  {
    if k < |s| then s[k] else s[0]
  }

  lemma SpliceInserts<T>(l: Links<T>, s: seq<T>, k: nat, x: T)
    requires Ring(l, s) && x !in s && 1 <= k <= |s|
    ensures Ring(Splice(l, x, NodeAt(s, k)), InsertAt(s, k, x))
  {
    var r := InsertAt(s, k, x);
    InsertMembers(s, k, x);
    var m := Splice(l, x, NodeAt(s, k));
    forall i | 0 <= i < |r|
      ensures m.next[r[i]] == r[After(i, |r|)]
      ensures m.prev[r[i]] == r[Back(i, |r|)]
    {
      SplicedNext(l, s, k, x, i);
      SplicedPrev(l, s, k, x, i);
    }
  }

  lemma SplicedNext<T>(l: Links<T>, s: seq<T>, k: nat, x: T, i: nat)
    requires Ring(l, s) && x !in s && 1 <= k <= |s| && i <= |s|
    ensures var m := Splice(l, x, NodeAt(s, k));
            var r := InsertAt(s, k, x);
            r[i] in m.next && m.next[r[i]] == r[After(i, |r|)]
  {
    assert l.prev[NodeAt(s, k)] == s[k - 1];
    if i != k {
      var j := if i < k then i else i - 1;
      assert l.next[s[j]] == s[After(j, |s|)];
    }
  }

  lemma SplicedPrev<T>(l: Links<T>, s: seq<T>, k: nat, x: T, i: nat)
    requires Ring(l, s) && x !in s && 1 <= k <= |s| && i <= |s|
    ensures var m := Splice(l, x, NodeAt(s, k));
            var r := InsertAt(s, k, x);
            r[i] in m.prev && m.prev[r[i]] == r[Back(i, |r|)]
  {
    assert l.prev[NodeAt(s, k)] == s[k - 1];
    if i != k {
      var j := if i < k then i else i - 1;
      assert l.prev[s[j]] == s[Back(j, |s|)];
    }
  }

  lemma UnlinkRemoves<T>(l: Links<T>, s: seq<T>, k: nat)
    requires Ring(l, s) && 1 <= k < |s|
    ensures s[k] in l.next && s[k] in l.prev
    ensures Ring(Unlink(l, s[k]), s[..k] + s[k + 1..])
  {
    hide Unlink;
    var r := s[..k] + s[k + 1..];
    var m := Unlink(l, s[k]);
    assert Distinct(r);
    forall i | 0 <= i < |r|
      ensures r[i] in m.next && m.next[r[i]] == r[After(i, |r|)]
      ensures r[i] in m.prev && m.prev[r[i]] == r[Back(i, |r|)]
    {
      UnlinkedAt(l, s, k, i);
    }
  }

  lemma UnlinkedAt<T>(l: Links<T>, s: seq<T>, k: nat, i: nat)
    requires Ring(l, s) && 1 <= k < |s| && i < |s| - 1
    ensures s[k] in l.next && s[k] in l.prev
    ensures var m := Unlink(l, s[k]);
            var r := s[..k] + s[k + 1..];
            && r[i] in m.next && m.next[r[i]] == r[After(i, |r|)]
            && r[i] in m.prev && m.prev[r[i]] == r[Back(i, |r|)]
  {
    var n := |s|;
    assert l.prev[s[k]] == s[k - 1] && l.next[s[k]] == s[After(k, n)];
    var j := if i < k then i else i + 1;
    assert l.next[s[j]] == s[After(j, n)] && l.prev[s[j]] == s[Back(j, n)];
  }

  /** Enqueue then remove restores every pointer of every other node. */
  lemma UnlinkUndoesSplice<T>(l: Links<T>, s: seq<T>, k: nat, x: T)
    requires Ring(l, s) && x !in s && 1 <= k <= |s|
    ensures var m := Unlink(Splice(l, x, NodeAt(s, k)), x);
            m.next - {x} == l.next - {x} && m.prev - {x} == l.prev - {x}
  {
    assert l.prev[NodeAt(s, k)] == s[k - 1];
    assert l.next[s[k - 1]] == NodeAt(s, k);
  }

  /** A ring that shares no node with the changed one keeps its links. */
  lemma SpliceElsewhere<T>(l: Links<T>, s: seq<T>, k: nat, x: T, other: seq<T>)
    requires Ring(l, s) && 1 <= k <= |s| && Ring(l, other)
    requires x !in other && forall y :: y in other ==> y !in s
    ensures NodeAt(s, k) in l.prev && Ring(Splice(l, x, NodeAt(s, k)), other)
  {
    assert l.prev[NodeAt(s, k)] == s[k - 1];
    assert NodeAt(s, k) !in other && s[k - 1] !in other;
  }

  lemma UnlinkElsewhere<T>(l: Links<T>, s: seq<T>, x: T, other: seq<T>)
    requires Ring(l, s) && x in s && Ring(l, other)
    requires forall y :: y in other ==> y !in s
    ensures x in l.next && x in l.prev && Ring(Unlink(l, x), other)
  {
    var k :| 0 <= k < |s| && s[k] == x;
    assert l.next[s[k]] == s[After(k, |s|)] && l.prev[s[k]] == s[Back(k, |s|)];
    assert s[After(k, |s|)] !in other && s[Back(k, |s|)] !in other;
  }

  /** Walking prev from a node visits the nodes that next visits, in reverse. */
  lemma {:induction false} BackwardReversesForward<T>(l: Links<T>, s: seq<T>, k: nat)
    requires Ring(l, s) && k <= |s|
    ensures Walk(l.next, s[0], k) == s[..k]
    ensures var back := Walk(l.prev, s[|s| - 1], k);
            |back| == k && forall j :: 0 <= j < k ==> back[j] == s[|s| - 1 - j]
  {
    WalkForward(l, s, 0, k);
    WalkBackward(l, s, |s| - 1, k);
  }

  /** The first k nodes met by following f from x, x included. */
  ghost function Walk<T>(f: map<T, T>, x: T, k: nat): (r: seq<T>) {
    if k == 0 then [] else if k == 1 || x !in f then [x] else [x] + Walk(f, f[x], k - 1)
  }

  lemma {:induction false} WalkForward<T>(l: Links<T>, s: seq<T>, i: nat, k: nat)
    requires Ring(l, s) && i < |s| && i + k <= |s|
    ensures Walk(l.next, s[i], k) == s[i..i + k]
    decreases k
  {
    if k > 1 {
      WalkForward(l, s, i + 1, k - 1);
      assert l.next[s[i]] == s[i + 1];
      assert [s[i]] + s[i + 1..i + k] == s[i..i + k];
    }
  }

  lemma {:induction false} WalkBackward<T>(l: Links<T>, s: seq<T>, i: nat, k: nat)
    requires Ring(l, s) && i < |s| && k <= i + 1
    ensures var back := Walk(l.prev, s[i], k);
            |back| == k && forall j :: 0 <= j < k ==> back[j] == s[i - j]
    decreases k
  {
    if k > 1 {
      WalkBackward(l, s, i - 1, k - 1);
      assert l.prev[s[i]] == s[i - 1];
      assert Walk(l.prev, s[i], k) == [s[i]] + Walk(l.prev, s[i - 1], k - 1);
    }
  }

  lemma RingOfOne<T>(l: Links<T>, head: T)
    requires head in l.next && l.next[head] == head
    requires head in l.prev && l.prev[head] == head
    ensures Ring(l, [head] + [])
  {
  }

  // A queue is the ring of its head followed by its members.

  lemma RingMembers<T>(l: Links<T>, head: T, s: seq<T>)
    requires Ring(l, [head] + s)
    ensures Distinct(s) && head !in s && Distinct([head] + s)
    ensures head in l.next && head in l.prev
    ensures forall x :: x in s ==> x in l.next && x in l.prev
  {
    var r := [head] + s;
    assert r[0] == head;
    assert forall i :: 0 <= i < |s| ==> r[i + 1] == s[i];
    assert forall x :: x in s ==> x in r;
  }

  /** The first member, or the head of an empty queue. */
  lemma RingStart<T>(l: Links<T>, head: T, s: seq<T>)
    requires Ring(l, [head] + s)
    ensures head in l.next && l.next[head] == NodeAt([head] + s, 1)
  {
    assert l.next[([head] + s)[0]] == ([head] + s)[After(0, |s| + 1)];
  }

  lemma RingNext<T>(l: Links<T>, head: T, s: seq<T>, k: nat)
    requires Ring(l, [head] + s) && k < |s|
    ensures s[k] in l.next && l.next[s[k]] == NodeAt([head] + s, k + 2)
  {
    var r := [head] + s;
    assert l.next[r[k + 1]] == r[After(k + 1, |r|)];
  }

  /** The node in front of an insertion place. */
  lemma RingPrev<T>(l: Links<T>, head: T, s: seq<T>, k: nat)
    requires Ring(l, [head] + s) && k <= |s|
    ensures var at := NodeAt([head] + s, k + 1);
            at in l.prev && at in [head] + s && l.prev[at] == ([head] + s)[k]
  {
    var r := [head] + s;
    var i := if k + 1 < |r| then k + 1 else 0;
    assert l.prev[r[i]] == r[Back(i, |r|)];
  }

  lemma RingSplice<T>(l: Links<T>, head: T, s: seq<T>, k: nat, x: T)
    requires Ring(l, [head] + s) && k <= |s| && x !in s && x != head
    ensures NodeAt([head] + s, k + 1) in l.prev
    ensures Ring(Splice(l, x, NodeAt([head] + s, k + 1)), [head] + InsertAt(s, k, x))
  {
    hide Ring, Splice;
    SpliceInserts(l, [head] + s, k + 1, x);
    RingPrev(l, head, s, k);
    assert InsertAt([head] + s, k + 1, x) == [head] + InsertAt(s, k, x);
  }

  lemma RingUnlinkAt<T>(l: Links<T>, head: T, s: seq<T>, k: nat)
    requires Ring(l, [head] + s) && k < |s|
    ensures s[k] in l.next && s[k] in l.prev
    ensures Ring(Unlink(l, s[k]), [head] + (s[..k] + s[k + 1..]))
  {
    hide Ring, Unlink;
    var r := [head] + s;
    UnlinkRemoves(l, r, k + 1);
    assert r[..k + 1] + r[k + 2..] == [head] + (s[..k] + s[k + 1..]);
  }

  /** A member has two neighbours other than itself; unlinking it leaves the ring of
      the others. */
  lemma RingUnlink<T>(l: Links<T>, head: T, s: seq<T>, x: T)
    requires Ring(l, [head] + s) && x in s
    ensures x in l.next && x in l.prev && l.prev[x] != x
    ensures l.prev[x] in [head] + s && l.next[x] in [head] + s
    ensures Ring(Unlink(l, x), [head] + Without(s, x))
  {
    hide Ring, Unlink;
    RingMembers(l, head, s);
    var k :| 0 <= k < |s| && s[k] == x;
    RingUnlinkAt(l, head, s, k);
    WithoutAt(s, k);
    RingPrev(l, head, s, k);
    assert l.prev[x] == ([head] + s)[k] && ([head] + s)[k + 1] == x;
    RingNext(l, head, s, k);
  }

  /** The two stores that cut the first k members out, the head taking the rest. */
  ghost function DropFirst<T>(l: Links<T>, head: T, at: T): (r: Links<T>) {
    Links(l.next[head := at], l.prev[at := head])
  }

  lemma RingDropFirst<T>(l: Links<T>, head: T, s: seq<T>, k: nat)
    requires Ring(l, [head] + s) && k <= |s|
    ensures Ring(DropFirst(l, head, NodeAt([head] + s, k + 1)), [head] + s[k..])
  {
    RingMembers(l, head, s);
    var r := [head] + s[k..];
    var m := DropFirst(l, head, NodeAt([head] + s, k + 1));
    assert forall i :: 0 < i < |r| ==> r[i] == s[k + i - 1];
    forall i | 0 <= i < |r|
      ensures m.next[r[i]] == r[After(i, |r|)]
      ensures m.prev[r[i]] == r[Back(i, |r|)]
    {
      DroppedAt(l, head, s, k, i);
    }
  }

  lemma DroppedAt<T>(l: Links<T>, head: T, s: seq<T>, k: nat, i: nat)
    requires Ring(l, [head] + s) && k <= |s| && i <= |s| - k
    ensures var m := DropFirst(l, head, NodeAt([head] + s, k + 1));
            var r := [head] + s[k..];
            && r[i] in m.next && m.next[r[i]] == r[After(i, |r|)]
            && r[i] in m.prev && m.prev[r[i]] == r[Back(i, |r|)]
  {
    var r, n := [head] + s, [head] + s[k..];
    var j := if i == 0 then 0 else i + k;
    assert n[i] == r[j];
    assert l.next[r[j]] == r[After(j, |r|)] && l.prev[r[j]] == r[Back(j, |r|)];
    var at := NodeAt(r, k + 1);
    if i == 0 {
      assert k < |s| ==> at == n[1] && r[0] != r[k + 1];
    } else {
      assert r[0] != r[j] && at == r[k + 1];
    }
  }
}
