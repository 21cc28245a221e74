/** Facts about finite sequences that the queue models share. */
module Sequences {

  ghost predicate Distinct<T>(s: seq<T>) {
    forall i, j :: 0 <= i < j < |s| ==> s[i] != s[j]
  }

  /** x occurs in s at some place strictly ahead of some occurrence of y. */
  ghost predicate Before<T>(s: seq<T>, x: T, y: T) {
    exists i, j :: 0 <= i < j < |s| && s[i] == x && s[j] == y
  }

  function InsertAt<T>(s: seq<T>, k: nat, x: T): (r: seq<T>)
    requires k <= |s|
  {
    s[..k] + [x] + s[k..]
  }

  /** s with the first occurrence of x taken out. */
  function Without<T(==)>(s: seq<T>, x: T): (r: seq<T>) {
    if s == [] then [] else if s[0] == x then s[1..] else [s[0]] + Without(s[1..], x)
  }

  lemma InsertMembers<T>(s: seq<T>, k: nat, x: T)
    requires k <= |s|
    ensures forall y :: y in InsertAt(s, k, x) ==> y == x || y in s
    ensures x in InsertAt(s, k, x) && forall y :: y in s ==> y in InsertAt(s, k, x)
    ensures Distinct(s) && x !in s ==> Distinct(InsertAt(s, k, x))
  {
    var r := InsertAt(s, k, x);
    assert r[k] == x;
    forall y | y in s
      ensures y in r
    {
      var i :| 0 <= i < |s| && s[i] == y;
      assert r[if i < k then i else i + 1] == y;
    }
  }

  lemma WithoutCons<T>(x: T, s: seq<T>, y: T)
    ensures Without([x] + s, y) == if x == y then s else [x] + Without(s, y)
  {
    assert ([x] + s)[1..] == s;
  }

  lemma {:induction false} WithoutAbsent<T>(s: seq<T>, x: T)
    requires x !in s
    ensures Without(s, x) == s
  {
    if s != [] {
      WithoutAbsent(s[1..], x);
    }
  }

  lemma {:induction false} WithoutAt<T>(s: seq<T>, k: nat)
    requires k < |s| && Distinct(s)
    ensures Without(s, s[k]) == s[..k] + s[k + 1..]
  {
    if k > 0 {
      WithoutAt(s[1..], k - 1);
      assert s[1..][..k - 1] == s[1..k];
      assert s[1..][k..] == s[k + 1..];
      assert [s[0]] + s[1..k] == s[..k];
    }
  }

  lemma CutMembers<T>(s: seq<T>, k: nat)
    requires k < |s| && Distinct(s)
    ensures var r := s[..k] + s[k + 1..];
            && (forall y :: y in r ==> y != s[k] && y in s)
            && (forall y :: y in s && y != s[k] ==> y in r)
            && Distinct(r)
  {
    var r := s[..k] + s[k + 1..];
    forall y | y in s && y != s[k]
      ensures y in r
    {
      var i :| 0 <= i < |s| && s[i] == y;
      assert r[if i < k then i else i - 1] == y;
    }
  }

  lemma WithoutMembers<T>(s: seq<T>, x: T)
    requires Distinct(s)
    ensures forall y :: y in Without(s, x) ==> y != x && y in s
    ensures forall y :: y in s && y != x ==> y in Without(s, x)
    ensures Distinct(Without(s, x))
    ensures |Without(s, x)| == if x in s then |s| - 1 else |s|
  {
    if x in s {
      var k :| 0 <= k < |s| && s[k] == x;
      hide Distinct, Without;
      WithoutAt(s, k);
      CutMembers(s, k);
    } else {
      WithoutAbsent(s, x);
    }
  }

  /** Taking out what was just inserted gives the sequence back. */
  lemma WithoutInserted<T>(s: seq<T>, k: nat, x: T)
    requires k <= |s| && Distinct(s) && x !in s
    ensures Without(InsertAt(s, k, x), x) == s
  {
    var r := InsertAt(s, k, x);
    InsertMembers(s, k, x);
    WithoutAt(r, k);
    assert r[..k] + r[k + 1..] == s;
  }

  /** Neither insertion nor removal of a third element reorders two others. */
  lemma BeforeInserted<T>(s: seq<T>, k: nat, x: T, a: T, b: T)
    requires k <= |s| && a != x && b != x
    ensures Before(InsertAt(s, k, x), a, b) <==> Before(s, a, b)
  {
    var r := InsertAt(s, k, x);
    if Before(s, a, b) {
      var i, j :| 0 <= i < j < |s| && s[i] == a && s[j] == b;
      var i', j' := if i < k then i else i + 1, if j < k then j else j + 1;
      assert r[i'] == a && r[j'] == b;
    }
    if Before(r, a, b) {
      var i, j :| 0 <= i < j < |r| && r[i] == a && r[j] == b;
      var i', j' := if i < k then i else i - 1, if j < k then j else j - 1;
      assert s[i'] == a && s[j'] == b;
    }
  }

  /** Putting back what was taken out gives the sequence back. */
  lemma InsertedBack<T>(s: seq<T>, k: nat)
    requires k < |s| && Distinct(s)
    ensures var r := Without(s, s[k]); k <= |r| && InsertAt(r, k, s[k]) == s
  {
    WithoutAt(s, k);
    CutAndPut(s, k);
  }

  lemma CutAndPut<T>(s: seq<T>, k: nat)
    requires k < |s|
    ensures InsertAt(s[..k] + s[k + 1..], k, s[k]) == s
  {
    var r := s[..k] + s[k + 1..];
    assert r[..k] == s[..k] && r[k..] == s[k + 1..];
  }

  /** Without, place by place. */
  lemma WithoutPlaces<T>(s: seq<T>, k: nat)
    requires k < |s| && Distinct(s)
    ensures var v := Without(s, s[k]);
            && |v| == |s| - 1
            && (forall i :: 0 <= i < k ==> v[i] == s[i])
            && (forall i :: k < i < |s| ==> v[i - 1] == s[i])
  {
    WithoutAt(s, k);
  }

  lemma BeforeWithout<T>(s: seq<T>, x: T, a: T, b: T)
    requires Distinct(s) && a != x && b != x
    ensures Before(Without(s, x), a, b) <==> Before(s, a, b)
  {
    if x in s {
      var k :| 0 <= k < |s| && s[k] == x;
      hide Before, Distinct, Without, InsertAt;
      InsertedBack(s, k);
      BeforeInserted(Without(s, x), k, x, a, b);
    } else {
      WithoutAbsent(s, x);
    }
  }

  /** Nor does dropping a prefix that holds neither. */
  lemma BeforeDropped<T>(s: seq<T>, k: nat, a: T, b: T)
    requires k <= |s| && forall i :: 0 <= i < k ==> s[i] != a && s[i] != b
    ensures Before(s[k..], a, b) <==> Before(s, a, b)
  {
    var r := s[k..];
    if Before(s, a, b) {
      var i, j :| 0 <= i < j < |s| && s[i] == a && s[j] == b;
      assert r[i - k] == a && r[j - k] == b;
    }
    if Before(r, a, b) {
      var i, j :| 0 <= i < j < |r| && r[i] == a && r[j] == b;
      assert s[i + k] == a && s[j + k] == b;
    }
  }

  /** In r, the members of s other than x come as in s. */
  ghost predicate OthersInOrder<T>(s: seq<T>, r: seq<T>, x: T) {
    forall a, b :: a in s && b in s && a != x && b != x ==> (Before(r, a, b) <==> Before(s, a, b))
  }

  lemma WithoutInOrder<T>(s: seq<T>, x: T)
    requires Distinct(s)
    ensures OthersInOrder(s, Without(s, x), x)
  {
    forall a, b | a in s && b in s && a != x && b != x
      ensures Before(Without(s, x), a, b) <==> Before(s, a, b)
    {
      BeforeWithout(s, x, a, b);
    }
  }

  /** In a duplicate-free sequence two different members come in exactly one order. */
  lemma BeforeTotal<T>(s: seq<T>, a: T, b: T)
    requires Distinct(s) && a in s && b in s && a != b
    ensures Before(s, a, b) <==> !Before(s, b, a)
  {
    var i :| 0 <= i < |s| && s[i] == a;
    var j :| 0 <= j < |s| && s[j] == b;
    assert s[i] == a && s[j] == b;
    if i < j {
      assert Before(s, a, b);
    } else {
      assert Before(s, b, a);
    }
  }
}
