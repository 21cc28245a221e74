/** The shared circular buffer, used by one caller at a time: a bounded byte queue kept in
    an array with one spare place. */
module CircularBuffer {

  /** How many bytes lie from place f up to place l. */
  function Dist(f: int, l: int, size: int): (d: int) {
    if l >= f then l - f else size + l - f
  }

  /** The place k bytes after place base. */
  function Slot(base: int, k: int, size: int): (i: int) {
    if base + k < size then base + k else base + k - size
  }

  /** The bytes from place f up to place l, around the end of the array if need be. */
  function Unread(d: seq<bv8>, f: int, l: int): (r: seq<bv8>)
    requires 0 <= f < |d| && 0 <= l < |d|
    ensures |r| == Dist(f, l, |d|) < |d|
  {
    if l >= f then d[f..l] else d[f..] + d[..l]
  }

  /** d with s written over it from place at. */
  function Overwrite(d: seq<bv8>, at: int, s: seq<bv8>): (r: seq<bv8>)
    requires 0 <= at && at + |s| <= |d|
    ensures |r| == |d|
  {
    d[..at] + s + d[at + |s|..]
  }

  lemma UnreadAt(d: seq<bv8>, f: int, l: int, i: int)
    requires 0 <= f < |d| && 0 <= l < |d| && 0 <= i < Dist(f, l, |d|)
    ensures 0 <= Slot(f, i, |d|) < |d| && Unread(d, f, l)[i] == d[Slot(f, i, |d|)]
  {
  }

  lemma OverwriteAt(d: seq<bv8>, at: int, s: seq<bv8>, j: int)
    requires 0 <= at && at + |s| <= |d| && 0 <= j < |d|
    ensures Overwrite(d, at, s)[j] == if at <= j < at + |s| then s[j - at] else d[j]
  {
  }

  /** Appending in one piece. */
  lemma PutPlain(d: seq<bv8>, f: int, l: int, m: seq<bv8>)
    requires 0 <= f < |d| && 0 <= l < |d| && |m| < |d| - Dist(f, l, |d|) && l + |m| < |d|
    ensures Unread(Overwrite(d, l, m), f, l + |m|) == Unread(d, f, l) + m
  {
    hide Unread, Overwrite;
    var r := Overwrite(d, l, m);
    var before, after := Unread(d, f, l), Unread(r, f, l + |m|);
    forall i | 0 <= i < |after|
      ensures after[i] == (before + m)[i]
    {
      UnreadAt(r, f, l + |m|, i);
      OverwriteAt(d, l, m, Slot(f, i, |d|));
      if i < |before| {
        UnreadAt(d, f, l, i);
      }
    }
  }

  /** Appending in two pieces: to the end of the array, and from its start. */
  lemma PutWrapped(d: seq<bv8>, f: int, l: int, m: seq<bv8>)
    requires 0 <= f < |d| && 0 <= l < |d| && |m| < |d| - Dist(f, l, |d|) && l + |m| >= |d|
    ensures var k := |d| - l;
            Unread(Overwrite(Overwrite(d, l, m[..k]), 0, m[k..]), f, |m| - k) == Unread(d, f, l) + m
  {
    hide Unread, Overwrite;
    var k := |d| - l;
    var d1 := Overwrite(d, l, m[..k]);
    var r := Overwrite(d1, 0, m[k..]);
    var before, after := Unread(d, f, l), Unread(r, f, |m| - k);
    forall i | 0 <= i < |after|
      ensures after[i] == (before + m)[i]
    {
      var j := Slot(f, i, |d|);
      UnreadAt(r, f, |m| - k, i);
      OverwriteAt(d1, 0, m[k..], j);
      OverwriteAt(d, l, m[..k], j);
      if i < |before| {
        UnreadAt(d, f, l, i);
      }
    }
  }

  /** Removing from the front, in one piece or in two. */
  lemma GetPlain(d: seq<bv8>, f: int, l: int, n: int)
    requires 0 <= f < |d| && 0 <= l < |d| && 0 <= n <= Dist(f, l, |d|) && f + n < |d|
    ensures d[f..f + n] == Unread(d, f, l)[..n] && Unread(d, f + n, l) == Unread(d, f, l)[n..]
  {
    hide Unread;
    var before, after := Unread(d, f, l), Unread(d, f + n, l);
    forall i | 0 <= i < |before|
      ensures if i < n then d[f + i] == before[i] else after[i - n] == before[i]
    {
      UnreadAt(d, f, l, i);
      if i >= n {
        UnreadAt(d, f + n, l, i - n);
      }
    }
  }

  lemma GetWrapped(d: seq<bv8>, f: int, l: int, n: int)
    requires 0 <= f < |d| && 0 <= l < |d| && 0 <= n <= Dist(f, l, |d|) && f + n >= |d|
    ensures var k := |d| - f;
            && d[f..] + d[..n - k] == Unread(d, f, l)[..n]
            && Unread(d, n - k, l) == Unread(d, f, l)[n..]
  {
    hide Unread;
    var k := |d| - f;
    var before, after := Unread(d, f, l), Unread(d, n - k, l);
    forall i | 0 <= i < |before|
      ensures if i < n then (d[f..] + d[..n - k])[i] == before[i] else after[i - n] == before[i]
    {
      UnreadAt(d, f, l, i);
      if i >= n {
        UnreadAt(d, n - k, l, i - n);
      }
    }
  }

  method Memcpy(dst: array<bv8>, d: int, src: array<bv8>, s: int, n: int)
    requires dst != src && 0 <= n && 0 <= d && d + n <= dst.Length && 0 <= s && s + n <= src.Length
    modifies dst
    ensures dst[..] == Overwrite(old(dst[..]), d, src[s..s + n])
  {
    OverwriteNothing(dst[..], d, src[..], s);
    hide Overwrite;
    for i := 0 to n
      invariant dst[..] == Overwrite(old(dst[..]), d, src[..][s..s + i])
    {
      OverwriteNext(old(dst[..]), d, src[..], s, i);
      dst[d + i] := src[s + i];
    }
  }

  lemma Overwritten(d: seq<bv8>, s: seq<bv8>, r: seq<bv8>)
    requires |s| <= |d| && r == Overwrite(d, 0, s)
    ensures r[..|s|] == s && r[|s|..] == d[|s|..]
  {
  }

  lemma OverwriteNothing(d: seq<bv8>, at: int, m: seq<bv8>, s: int)
    requires 0 <= at <= |d| && 0 <= s <= |m|
    ensures Overwrite(d, at, m[s..s]) == d
  {
  }

  lemma OverwriteNext(d: seq<bv8>, at: int, m: seq<bv8>, s: int, i: int)
    requires 0 <= at && 0 <= i && at + i < |d| && 0 <= s && s + i < |m|
    ensures Overwrite(d, at, m[s..s + i + 1]) == Overwrite(d, at, m[s..s + i])[at + i := m[s + i]]
  {
    assert m[s..s + i + 1] == m[s..s + i] + [m[s + i]];
  }

  class Scb {
    const size: int  // one more than the capacity
    var fbyte: int
    var lbyte: int
    const data: array<bv8>

    constructor (capacity: nat)
      ensures Valid() && Contents() == [] && size == capacity + 1 && fresh(data)
    {
      size := capacity + 1;
      fbyte := 0;
      lbyte := 0;
      data := new bv8[capacity + 1];
    }

    ghost predicate Valid()
      reads this
    {
      0 <= fbyte < size && 0 <= lbyte < size && data.Length == size
    }

    /** The bytes put and not yet got, oldest first. */
    ghost function Contents(): (r: seq<bv8>)
      requires Valid()
      reads this, data
      ensures |r| < size
    {
      Unread(data[..], fbyte, lbyte)
    }

    method Bytes() returns (n: int)
      requires Valid()
      ensures n == |Contents()|
    {
      n := if lbyte >= fbyte then lbyte - fbyte else size + lbyte - fbyte;
    }

    /** Takes the oldest msgSize bytes, if there are as many; a failure changes nothing and
        returns msgSize. */
    method Get(msg: array<bv8>, msgSize: int) returns (r: int)
      requires Valid() && msg != data && msgSize <= msg.Length
      modifies this`fbyte, msg
      ensures Valid()
      ensures if 0 < msgSize <= |old(Contents())|
              then r == 0 && msg[..msgSize] == old(Contents())[..msgSize] && msg[msgSize..] == old(msg[msgSize..])
                   && Contents() == old(Contents())[msgSize..]
              else r == msgSize && msg[..] == old(msg[..]) && Contents() == old(Contents())
    {
      hide Unread, Overwrite, Slot;
      if msgSize > 0 && (if lbyte >= fbyte then lbyte - fbyte else size + lbyte - fbyte) >= msgSize {
        ghost var d := data[..];
        var tocpy := size - fbyte;
        if tocpy > msgSize {
          GetPlain(d, fbyte, lbyte, msgSize);
          Memcpy(msg, 0, data, fbyte, msgSize);
          fbyte := fbyte + msgSize;
        } else {
          GetWrapped(d, fbyte, lbyte, msgSize);
          CopyTwice(msg, tocpy, msgSize);
          fbyte := msgSize - tocpy;
        }
        Overwritten(old(msg[..]), old(Contents())[..msgSize], msg[..]);
        return 0;
      }
      return msgSize;
    }

    /** The split copy out of the buffer, shared by get and evdrp. */
    method CopyTwice(msg: array<bv8>, tocpy: int, msgSize: int)
      requires Valid() && msg != data && tocpy == size - fbyte
      requires tocpy <= msgSize <= msg.Length && msgSize - tocpy <= size
      modifies msg
      ensures msg[..] == Overwrite(old(msg[..]), 0, data[fbyte..] + data[..msgSize - tocpy])
    {
      Memcpy(msg, 0, data, fbyte, tocpy);
      if msgSize - tocpy != 0 {
        Memcpy(msg, tocpy, data, 0, msgSize - tocpy);
      }
    }

    /** What Get would return, with the buffer left as it is. */
    method Evdrp(msg: array<bv8>, msgSize: int) returns (r: int)
      requires Valid() && msg != data && msgSize <= msg.Length
      modifies msg
      ensures Contents() == old(Contents())
      ensures if 0 < msgSize <= |Contents()|
              then r == 0 && msg[..msgSize] == Contents()[..msgSize] && msg[msgSize..] == old(msg[msgSize..])
              else r == msgSize && msg[..] == old(msg[..])
    {
      hide Unread, Overwrite, Slot;
      if msgSize > 0 && (if lbyte >= fbyte then lbyte - fbyte else size + lbyte - fbyte) >= msgSize {
        ghost var d := data[..];
        var tocpy := size - fbyte;
        if tocpy > msgSize {
          GetPlain(d, fbyte, lbyte, msgSize);
          Memcpy(msg, 0, data, fbyte, msgSize);
        } else {
          GetWrapped(d, fbyte, lbyte, msgSize);
          CopyTwice(msg, tocpy, msgSize);
        }
        Overwritten(old(msg[..]), old(Contents())[..msgSize], msg[..]);
        return 0;
      }
      return msgSize;
    }

    /** The split copy into the buffer. */
    method CopyInTwice(msg: array<bv8>, tocpy: int, msgSize: int)
      requires Valid() && msg != data && tocpy == size - lbyte
      requires tocpy <= msgSize <= msg.Length && msgSize - tocpy <= size
      modifies data
      ensures data[..] == Overwrite(Overwrite(old(data[..]), lbyte, msg[..tocpy]), 0, msg[tocpy..msgSize])
    {
      Memcpy(data, lbyte, msg, 0, tocpy);
      if msgSize - tocpy != 0 {
        Memcpy(data, 0, msg, tocpy, msgSize - tocpy);
      }
    }

    /** Appends the first msgSize bytes of msg, if there is room for all; a failure changes
        nothing and returns msgSize. */
    method Put(msg: array<bv8>, msgSize: int) returns (r: int)
      requires Valid() && msg != data && msgSize <= msg.Length
      modifies this`lbyte, data
      ensures Valid()
      ensures if 0 < msgSize <= size - 1 - |old(Contents())|
              then r == 0 && Contents() == old(Contents()) + msg[..msgSize]
              else r == msgSize && Contents() == old(Contents()) && data[..] == old(data[..])
    {
      hide Unread, Overwrite, Slot;
      if msgSize > 0 && (if lbyte >= fbyte then size - (lbyte - fbyte) else fbyte - lbyte) > msgSize {
        ghost var d, m := data[..], msg[..msgSize];
        var tocpy := size - lbyte;
        if tocpy > msgSize {
          PutPlain(d, fbyte, lbyte, m);
          assert m == msg[0..msgSize];
          Memcpy(data, lbyte, msg, 0, msgSize);
          lbyte := lbyte + msgSize;
        } else {
          PutWrapped(d, fbyte, lbyte, m);
          assert m[..tocpy] == msg[..tocpy] && m[tocpy..] == msg[tocpy..msgSize];
          CopyInTwice(msg, tocpy, msgSize);
          lbyte := msgSize - tocpy;
        }
        return 0;
      }
      return msgSize;
    }
  }
}
