/** One producer and one consumer on the shared circular buffer at the same time: every
    interleaving of their loads, of the single bytes they copy, and of the one store with
    which each publishes its work. */
module ConcurrentBuffer {
  import opened CircularBuffer

  type Bytes = seq<bv8>

  /** Where the producer is in a put of msg, or in a count of the unread bytes; f and l are
      what it loaded, count is what it works out. */
  datatype Producer =
    | PIdle
    | PCalled(msg: Bytes)
    | PLoadedF(msg: Bytes, f: int)
    | PCopying(msg: Bytes, f: int, l: int, copied: nat)
    | PCounting
    | PCountingF(f: int)
    | PCounted(count: int)

  /** Where the consumer is in a get, or with spy in an eavesdrop, of n bytes, or in a count;
      out is what it has copied so far. */
  datatype Consumer =
    | CIdle
    | CCalled(n: int, spy: bool)
    | CLoadedF(n: int, spy: bool, f: int)
    | CCopying(n: int, spy: bool, f: int, l: int, out: Bytes)
    | CCounting
    | CCountingF(f: int)
    | CCounted(count: int)

  /** The shared words, the two threads, and the completed calls, oldest first. */
  datatype System = System(
    data: Bytes,
    fbyte: int,
    lbyte: int,
    producer: Producer,
    consumer: Consumer,
    puts: seq<Bytes>,
    gets: seq<Bytes>)

  datatype Event =
    | Put(msg: Bytes) | PutLoadF | PutLoadL | PutCopy | PutPublish
    | Get(n: int) | Evdrp(n: int) | GetLoadF | GetLoadL | GetCopy | GetPublish | EvdrpReturn
    | PBytes | PBytesLoadF | PBytesLoadL | PBytesReturn  // rt_scb_bytes, called by the producer
    | CBytes | CBytesLoadF | CBytesLoadL | CBytesReturn  // and by the consumer

  /** The number of unread bytes between two loaded indices, as the source computes it. */
  function Count(f: int, l: int, size: int): (n: int) {
    if l >= f then l - f else size + l - f
  }

  /** The index stored after n bytes from place base. */
  function Advance(base: int, n: int, size: int): (i: int) {
    if size - base > n then base + n else n - (size - base)
  }

  predicate Enabled(s: System, e: Event) {
    match e
    case Put(msg) => s.producer.PIdle?
    case PutLoadF => s.producer.PCalled?
    case PutLoadL => s.producer.PLoadedF?
    case PutCopy => s.producer.PCopying? && s.producer.copied < |s.producer.msg|
    case PutPublish => s.producer.PCopying? && s.producer.copied == |s.producer.msg|
    case Get(n) => s.consumer.CIdle?
    case Evdrp(n) => s.consumer.CIdle?
    case GetLoadF => s.consumer.CCalled?
    case GetLoadL => s.consumer.CLoadedF?
    case GetCopy => s.consumer.CCopying? && |s.consumer.out| < s.consumer.n
    case GetPublish => s.consumer.CCopying? && |s.consumer.out| == s.consumer.n && !s.consumer.spy
    case EvdrpReturn => s.consumer.CCopying? && |s.consumer.out| == s.consumer.n && s.consumer.spy
    case PBytes => s.producer.PIdle?
    case PBytesLoadF => s.producer.PCounting?
    case PBytesLoadL => s.producer.PCountingF?
    case PBytesReturn => s.producer.PCounted?
    case CBytes => s.consumer.CIdle?
    case CBytesLoadF => s.consumer.CCounting?
    case CBytesLoadL => s.consumer.CCountingF?
    case CBytesReturn => s.consumer.CCounted?
  }

  /** The places that copies touch are places of the buffer. */
  ghost predicate InBounds(s: System, e: Event)
    requires Enabled(s, e)
  {
    match e
    case PutCopy => 0 <= Slot(s.producer.l, s.producer.copied, |s.data|) < |s.data|
    case GetCopy => 0 <= Slot(s.consumer.f, |s.consumer.out|, |s.data|) < |s.data|
    case _ => true
  }

  function Step(s: System, e: Event): (r: System)
    requires Enabled(s, e) && InBounds(s, e)
  {
    var size := |s.data|;
    match e
    case Put(msg) => s.(producer := PCalled(msg))
    case PutLoadF => s.(producer := PLoadedF(s.producer.msg, s.fbyte))
    case PutLoadL =>
      var (msg, f, l) := (s.producer.msg, s.producer.f, s.lbyte);
      if |msg| > 0 && (if l >= f then size - (l - f) else f - l) > |msg|
      then s.(producer := PCopying(msg, f, l, 0))
      else s.(producer := PIdle)
    case PutCopy =>
      var p := s.producer;
      s.(data := s.data[Slot(p.l, p.copied, size) := p.msg[p.copied]], producer := p.(copied := p.copied + 1))
    case PutPublish =>
      var p := s.producer;
      s.(lbyte := Advance(p.l, |p.msg|, size), producer := PIdle, puts := s.puts + [p.msg])
    case Get(n) => s.(consumer := CCalled(n, false))
    case Evdrp(n) => s.(consumer := CCalled(n, true))
    case GetLoadF => s.(consumer := CLoadedF(s.consumer.n, s.consumer.spy, s.fbyte))
    case GetLoadL =>
      var (n, f, l) := (s.consumer.n, s.consumer.f, s.lbyte);
      if n > 0 && Count(f, l, size) >= n
      then s.(consumer := CCopying(n, s.consumer.spy, f, l, []))
      else s.(consumer := CIdle)
    case GetCopy =>
      var c := s.consumer;
      s.(consumer := c.(out := c.out + [s.data[Slot(c.f, |c.out|, size)]]))
    case GetPublish =>
      var c := s.consumer;
      s.(fbyte := Advance(c.f, c.n, size), consumer := CIdle, gets := s.gets + [c.out])
    case EvdrpReturn => s.(consumer := CIdle)
    case PBytes => s.(producer := PCounting)
    case PBytesLoadF => s.(producer := PCountingF(s.fbyte))
    case PBytesLoadL => s.(producer := PCounted(Count(s.producer.f, s.lbyte, size)))
    case PBytesReturn => s.(producer := PIdle)
    case CBytes => s.(consumer := CCounting)
    case CBytesLoadF => s.(consumer := CCountingF(s.fbyte))
    case CBytesLoadL => s.(consumer := CCounted(Count(s.consumer.f, s.lbyte, size)))
    case CBytesReturn => s.(consumer := CIdle)
  }

  /** All bytes of a list of messages. */
  function Flatten(ms: seq<Bytes>): (r: Bytes) {
    if ms == [] then [] else Flatten(ms[..|ms| - 1]) + ms[|ms| - 1]
  }

  lemma FlattenAdd(ms: seq<Bytes>, m: Bytes)
    ensures Flatten(ms + [m]) == Flatten(ms) + m
  {
    assert (ms + [m])[..|ms|] == ms;
  }

  /** The unread bytes are the sent ones that were not received, in their places. */
  ghost predicate DataInv(s: System) {
    var sent, got, size := Flatten(s.puts), Flatten(s.gets), |s.data|;
    && 0 <= s.fbyte < size && 0 <= s.lbyte < size
    && |sent| == |got| + Dist(s.fbyte, s.lbyte, size)
    && got == sent[..|got|]
    && forall i :: 0 <= i < |sent| - |got| ==> s.data[Slot(s.fbyte, i, size)] == sent[|got| + i]
  }

  /** What the producer loaded is old news at worst, and its copies are outside the unread. */
  ghost predicate ProducerInv(s: System)
    requires 0 <= s.fbyte < |s.data| && 0 <= s.lbyte < |s.data|
  {
    var size := |s.data|;
    match s.producer
    case PIdle => true
    case PCalled(_) => true
    case PLoadedF(msg, f) => 0 <= f < size && Dist(s.fbyte, s.lbyte, size) <= Dist(f, s.lbyte, size)
    case PCopying(msg, f, l, copied) =>
      && 0 <= f < size && l == s.lbyte && 0 < |msg| && copied <= |msg|
      && Dist(s.fbyte, s.lbyte, size) <= Dist(f, s.lbyte, size) < size - |msg|
      && forall j :: 0 <= j < copied ==> s.data[Slot(l, j, size)] == msg[j]
    case PCounting => true
    case PCountingF(f) => 0 <= f < size && Dist(s.fbyte, s.lbyte, size) <= Dist(f, s.lbyte, size)
    case PCounted(count) => Dist(s.fbyte, s.lbyte, size) <= count < size
  }

  /** The consumer's own index is exact, and what it copies was sent and not yet received. */
  ghost predicate ConsumerInv(s: System)
    requires 0 <= s.fbyte < |s.data| && 0 <= s.lbyte < |s.data|
  {
    var sent, got, size := Flatten(s.puts), Flatten(s.gets), |s.data|;
    match s.consumer
    case CIdle => true
    case CCalled(_, _) => true
    case CLoadedF(n, _, f) => f == s.fbyte
    case CCopying(n, _, f, l, out) =>
      && f == s.fbyte && 0 <= l < size && 0 < n <= Dist(f, l, size) <= Dist(s.fbyte, s.lbyte, size)
      && |out| <= n
      && |got| + |out| <= |sent| && out == sent[|got|..|got| + |out|]
    case CCounting => true
    case CCountingF(f) => f == s.fbyte
    case CCounted(count) => 0 <= count <= Dist(s.fbyte, s.lbyte, size)
  }

  ghost predicate Inv(s: System) {
    DataInv(s) && ProducerInv(s) && ConsumerInv(s)
  }

  function Start(data: Bytes): (r: System) {
    System(data, 0, 0, PIdle, CIdle, [], [])
  }

  lemma StartInv(data: Bytes)
    requires data != []
    ensures Inv(Start(data))
  {
  }

  lemma CopiesInBounds(s: System, e: Event)
    requires Inv(s) && Enabled(s, e)
    ensures InBounds(s, e)
  {
    hide Flatten;
  }

  lemma PutLoadKeeps(s: System, e: Event)
    requires Inv(s) && Enabled(s, e) && InBounds(s, e) && (e.Put? || e.PutLoadF? || e.PutLoadL?)
    ensures Inv(Step(s, e))
  {
    hide Flatten;
  }

  lemma GetLoadKeeps(s: System, e: Event)
    requires Inv(s) && Enabled(s, e) && InBounds(s, e)
    requires e.Get? || e.Evdrp? || e.GetLoadF? || e.GetLoadL? || e.EvdrpReturn?
    ensures Inv(Step(s, e))
  {
    hide Flatten;
  }

  lemma BytesKeeps(s: System, e: Event)
    requires Inv(s) && Enabled(s, e) && InBounds(s, e)
    requires || e.PBytes? || e.PBytesLoadF? || e.PBytesLoadL? || e.PBytesReturn?
             || e.CBytes? || e.CBytesLoadF? || e.CBytesLoadL? || e.CBytesReturn?
    ensures Inv(Step(s, e))
  {
    hide Flatten;
  }

  /** A byte copied in lands on no unread byte. */
  lemma PutCopyKeeps(s: System)
    requires Inv(s) && Enabled(s, PutCopy) && InBounds(s, PutCopy)
    ensures Inv(Step(s, PutCopy))
    ensures forall i :: 0 <= i < Dist(s.fbyte, s.lbyte, |s.data|) ==>
              Slot(s.producer.l, s.producer.copied, |s.data|) != Slot(s.fbyte, i, |s.data|)
  {
    hide Flatten;
  }

  lemma GetCopyKeeps(s: System)
    requires Inv(s) && Enabled(s, GetCopy) && InBounds(s, GetCopy)
    ensures Inv(Step(s, GetCopy))
  {
    hide Flatten;
    var c := s.consumer;
    var sent, got := Flatten(s.puts), Flatten(s.gets);
    assert s.data[Slot(c.f, |c.out|, |s.data|)] == sent[|got| + |c.out|];
  }

  lemma PutPublishKeeps(s: System)
    requires Inv(s) && Enabled(s, PutPublish)
    ensures Inv(Step(s, PutPublish))
  {
    hide Flatten;
    var p, size := s.producer, |s.data|;
    FlattenAdd(s.puts, p.msg);
    var sent, got := Flatten(s.puts), Flatten(s.gets);
    var r := Step(s, PutPublish);
    var len := |sent| - |got|;
    forall i | 0 <= i < len + |p.msg|
      ensures r.data[Slot(r.fbyte, i, size)] == (sent + p.msg)[|got| + i]
    {
      if i >= len {
        assert Slot(s.fbyte, i, size) == Slot(p.l, i - len, size);
      }
    }
  }

  lemma GetPublishKeeps(s: System)
    requires Inv(s) && Enabled(s, GetPublish)
    ensures Inv(Step(s, GetPublish))
  {
    hide Flatten;
    var c, size := s.consumer, |s.data|;
    FlattenAdd(s.gets, c.out);
    var sent, got := Flatten(s.puts), Flatten(s.gets);
    var r := Step(s, GetPublish);
    assert got + c.out == sent[..|got| + c.n];
    forall i | 0 <= i < |sent| - |got| - c.n
      ensures r.data[Slot(r.fbyte, i, size)] == sent[|got| + c.n + i]
    {
      assert Slot(r.fbyte, i, size) == Slot(s.fbyte, c.n + i, size);
    }
  }

  lemma StepKeeps(s: System, e: Event)
    requires Inv(s) && Enabled(s, e)
    ensures InBounds(s, e) && Inv(Step(s, e))
  {
    CopiesInBounds(s, e);
    hide Inv, Step, InBounds;
    match e
    case PutCopy => PutCopyKeeps(s);
    case PutPublish => PutPublishKeeps(s);
    case GetCopy => GetCopyKeeps(s);
    case GetPublish => GetPublishKeeps(s);
    case Put(_) => PutLoadKeeps(s, e);
    case PutLoadF => PutLoadKeeps(s, e);
    case PutLoadL => PutLoadKeeps(s, e);
    case Get(_) => GetLoadKeeps(s, e);
    case Evdrp(_) => GetLoadKeeps(s, e);
    case EvdrpReturn => GetLoadKeeps(s, e);
    case GetLoadF => GetLoadKeeps(s, e);
    case GetLoadL => GetLoadKeeps(s, e);
    case _ => BytesKeeps(s, e);
  }

  /** Any interleaving of the two threads' events. */
  ghost predicate LegalRun(s: System, run: seq<Event>)
    requires Inv(s)
    decreases |run|
  {
    run == [] || (Enabled(s, run[0]) && (StepKeeps(s, run[0]); LegalRun(Step(s, run[0]), run[1..])))
  }

  ghost function Run(s: System, run: seq<Event>): (r: System)
    requires Inv(s) && LegalRun(s, run)
    decreases |run|
  {
    if run == [] then s
    else
      StepKeeps(s, run[0]);
      Run(Step(s, run[0]), run[1..])
  }

  lemma {:induction false} RunKeeps(s: System, run: seq<Event>)
    requires Inv(s) && LegalRun(s, run)
    ensures Inv(Run(s, run)) && |Run(s, run).data| == |s.data|
    decreases |run|
  {
    if run != [] {
      StepKeeps(s, run[0]);
      StepKeepsSize(s, run[0]);
      hide Inv, Step, Enabled;
      RunKeeps(Step(s, run[0]), run[1..]);
    }
  }

  lemma StepKeepsSize(s: System, e: Event)
    requires Enabled(s, e) && InBounds(s, e)
    ensures |Step(s, e).data| == |s.data|
  {
  }

  /** What is unread in the buffer is what was sent and not yet received. */
  lemma UnreadIsSent(s: System)
    requires DataInv(s)
    ensures Unread(s.data, s.fbyte, s.lbyte) == Flatten(s.puts)[|Flatten(s.gets)|..]
  {
    hide Flatten;
    var u, rest := Unread(s.data, s.fbyte, s.lbyte), Flatten(s.puts)[|Flatten(s.gets)|..];
    forall i | 0 <= i < |u|
      ensures u[i] == rest[i]
    {
      assert u[i] == s.data[Slot(s.fbyte, i, |s.data|)];
    }
  }

  /** The store that publishes a put is the moment of the put: the whole message is
      appended, and there was room for it. */
  lemma PutPublishAppends(s: System)
    requires Inv(s) && Enabled(s, PutPublish)
    ensures var r, before := Step(s, PutPublish), Unread(s.data, s.fbyte, s.lbyte);
            && Inv(r) && 0 < |s.producer.msg| <= |s.data| - 1 - |before|
            && Unread(r.data, r.fbyte, r.lbyte) == before + s.producer.msg
  {
    PutPublishKeeps(s);
    UnreadIsSent(s);
    UnreadIsSent(Step(s, PutPublish));
    FlattenAdd(s.puts, s.producer.msg);
    var sent, got := Flatten(s.puts), Flatten(s.gets);
    hide Flatten, Unread;
    assert (sent + s.producer.msg)[|got|..] == sent[|got|..] + s.producer.msg;
  }

  /** The store that publishes a get is the moment of the get: the first n unread bytes,
      the ones copied out, are removed. */
  lemma GetPublishRemoves(s: System)
    requires Inv(s) && Enabled(s, GetPublish)
    ensures var r, before, n := Step(s, GetPublish), Unread(s.data, s.fbyte, s.lbyte), s.consumer.n;
            && Inv(r) && 0 < n <= |before| && s.consumer.out == before[..n]
            && Unread(r.data, r.fbyte, r.lbyte) == before[n..]
  {
    GetPublishKeeps(s);
    UnreadIsSent(s);
    UnreadIsSent(Step(s, GetPublish));
    FlattenAdd(s.gets, s.consumer.out);
    var sent, got, n := Flatten(s.puts), Flatten(s.gets), s.consumer.n;
    hide Flatten, Unread;
    assert sent[|got|..][n..] == sent[|got| + n..];
    assert sent[|got|..|got| + n] == sent[|got|..][..n];
  }

  /** An eavesdrop returns the first n unread bytes, as they are when it returns, whatever
      the producer does meanwhile. */
  lemma EvdrpSees(s: System)
    requires Inv(s) && Enabled(s, EvdrpReturn)
    ensures var before, n := Unread(s.data, s.fbyte, s.lbyte), s.consumer.n;
            && 0 < n <= |before| && s.consumer.out == before[..n]
            && Step(s, EvdrpReturn) == s.(consumer := CIdle)
  {
    UnreadIsSent(s);
    var sent, got, n := Flatten(s.puts), Flatten(s.gets), s.consumer.n;
    hide Flatten, Unread;
    assert sent[|got|..|got| + n] == sent[|got|..][..n];
  }

  // What the calls that copy nothing mean, and when a get or put is refused.

  /** A get or an eavesdrop is refused exactly when, at its load of LBYTE, fewer than n bytes
      are unread (or n is not positive). */
  lemma GetRefused(s: System)
    requires Inv(s) && Enabled(s, GetLoadL)
    ensures Step(s, GetLoadL).consumer.CIdle? <==>
            s.consumer.n <= 0 || |Unread(s.data, s.fbyte, s.lbyte)| < s.consumer.n
  {
    hide Flatten;
  }

  // From the argument of a call to what the call does, over every interleaving.

  /** The producer is at work on msg, or has given up. */
  predicate PutsOnly(s: System, msg: Bytes) {
    match s.producer
    case PIdle => true
    case PCalled(m) => m == msg
    case PLoadedF(m, _) => m == msg
    case PCopying(m, _, _, _) => m == msg
    case _ => false
  }

  /** Until the producer publishes or makes another call, it works on msg. */
  lemma {:induction false} PutCarries(s: System, run: seq<Event>, msg: Bytes)
    requires Inv(s) && LegalRun(s, run) && PutsOnly(s, msg)
    requires forall e :: e in run ==> !e.Put? && !e.PutPublish? && !e.PBytes?
    ensures var r := Run(s, run); Inv(r) && PutsOnly(r, msg) && r.puts == s.puts
    decreases |run|
  {
    if run != [] {
      assert run[0] in run && forall e :: e in run[1..] ==> e in run;
      PutStepCarries(s, run[0], msg);
      hide Inv, Step, Enabled, PutsOnly;
      StepKeeps(s, run[0]);
      PutCarries(Step(s, run[0]), run[1..], msg);
    }
  }

  lemma PutStepCarries(s: System, e: Event, msg: Bytes)
    requires Inv(s) && Enabled(s, e) && PutsOnly(s, msg) && !e.Put? && !e.PutPublish? && !e.PBytes?
    ensures InBounds(s, e) && PutsOnly(Step(s, e), msg) && Step(s, e).puts == s.puts
  {
    StepKeeps(s, e);
    hide Inv;
  }

  /** After the call Put(msg), whatever happens meanwhile, the producer's next publishing
      store publishes msg: the completed puts grow by msg, and the unread bytes by its bytes. */
  lemma PutPublishesMessage(s: System, msg: Bytes, s1: System, run: seq<Event>)
    requires Inv(s) && Enabled(s, Put(msg)) && s1 == Step(s, Put(msg)) && Inv(s1) && LegalRun(s1, run)
    requires forall e :: e in run ==> !e.Put? && !e.PutPublish? && !e.PBytes?
    requires Enabled(Run(s1, run), PutPublish)
    ensures var s2 := Run(s1, run);
            var r := Step(s2, PutPublish);
            && Inv(s2) && Inv(r) && r.puts == s.puts + [msg] && r.data == s2.data && r.fbyte == s2.fbyte && 0 < |msg|
            && Unread(r.data, r.fbyte, r.lbyte) == Unread(s2.data, s2.fbyte, s2.lbyte) + msg
  {
    PutCarries(s1, run, msg);
    hide Inv, Unread, Run, LegalRun;
    PutPublishAppends(Run(s1, run));
  }

  /** The consumer is at work on a get, or with spy on an eavesdrop, of n bytes, or has given up. */
  predicate GetsOnly(s: System, n: int, spy: bool) {
    match s.consumer
    case CIdle => true
    case CCalled(m, b) => m == n && b == spy
    case CLoadedF(m, b, _) => m == n && b == spy
    case CCopying(m, b, _, _, _) => m == n && b == spy
    case _ => false
  }

  /** No call of the consumer begins or ends. */
  predicate WithinCall(e: Event) {
    !e.Get? && !e.Evdrp? && !e.CBytes? && !e.GetPublish? && !e.EvdrpReturn?
  }

  lemma {:induction false} GetCarries(s: System, run: seq<Event>, n: int, spy: bool)
    requires Inv(s) && LegalRun(s, run) && GetsOnly(s, n, spy) && forall e :: e in run ==> WithinCall(e)
    ensures var r := Run(s, run);
            Inv(r) && GetsOnly(r, n, spy) && r.gets == s.gets && r.fbyte == s.fbyte
    decreases |run|
  {
    if run != [] {
      assert run[0] in run && forall e :: e in run[1..] ==> e in run;
      GetStepCarries(s, run[0], n, spy);
      hide Inv, Step, Enabled, GetsOnly, WithinCall;
      StepKeeps(s, run[0]);
      GetCarries(Step(s, run[0]), run[1..], n, spy);
    }
  }

  lemma GetStepCarries(s: System, e: Event, n: int, spy: bool)
    requires Inv(s) && Enabled(s, e) && GetsOnly(s, n, spy) && WithinCall(e)
    ensures InBounds(s, e)
    ensures var r := Step(s, e); GetsOnly(r, n, spy) && r.gets == s.gets && r.fbyte == s.fbyte
  {
    StepKeeps(s, e);
    hide Inv;
  }

  /** After the call Get(n), whatever happens meanwhile: it is refused exactly when n is not
      positive or too few bytes are unread at its load of LBYTE; and the consumer's next
      publishing store takes the oldest n bytes. */
  lemma GetTakesOldest(s: System, n: int, s1: System, run: seq<Event>)
    requires Inv(s) && Enabled(s, Get(n)) && s1 == Step(s, Get(n)) && Inv(s1) && LegalRun(s1, run)
    requires forall e :: e in run ==> WithinCall(e)
    ensures Inv(Run(s1, run))
    ensures var s2 := Run(s1, run);
            var before := Unread(s2.data, s2.fbyte, s2.lbyte);
            && s2.gets == s.gets && s2.fbyte == s.fbyte && !Enabled(s2, EvdrpReturn)
            && (Enabled(s2, GetLoadL) ==> (Step(s2, GetLoadL).consumer.CIdle? <==> n <= 0 || |before| < n))
            && (Enabled(s2, GetPublish) ==>
                  var r := Step(s2, GetPublish);
                  && Inv(r) && 0 < n <= |before| && r.gets == s.gets + [before[..n]]
                  && Unread(r.data, r.fbyte, r.lbyte) == before[n..])
  {
    GetCarries(s1, run, n, false);
    var s2 := Run(s1, run);
    hide Inv, Unread, Run, LegalRun, Advance, Slot, Count;
    if Enabled(s2, GetLoadL) {
      GetRefused(s2);
    }
    if Enabled(s2, GetPublish) {
      GetPublishRemoves(s2);
    }
  }

  /** After the call Evdrp(n), whatever happens meanwhile: it is refused under the same
      condition, it publishes nothing, and it returns the oldest n bytes of that moment. */
  lemma EvdrpReturnsOldest(s: System, n: int, s1: System, run: seq<Event>)
    requires Inv(s) && Enabled(s, Evdrp(n)) && s1 == Step(s, Evdrp(n)) && Inv(s1) && LegalRun(s1, run)
    requires forall e :: e in run ==> WithinCall(e)
    ensures Inv(Run(s1, run))
    ensures var s2 := Run(s1, run);
            var before := Unread(s2.data, s2.fbyte, s2.lbyte);
            && s2.gets == s.gets && s2.fbyte == s.fbyte && !Enabled(s2, GetPublish)
            && (Enabled(s2, GetLoadL) ==> (Step(s2, GetLoadL).consumer.CIdle? <==> n <= 0 || |before| < n))
            && (Enabled(s2, EvdrpReturn) ==>
                  && 0 < n <= |before| && s2.consumer.out == before[..n]
                  && Step(s2, EvdrpReturn) == s2.(consumer := CIdle))
  {
    GetCarries(s1, run, n, true);
    var s2 := Run(s1, run);
    hide Inv, Unread, Run, LegalRun, Advance, Slot, Count;
    if Enabled(s2, GetLoadL) {
      GetRefused(s2);
    }
    if Enabled(s2, EvdrpReturn) {
      EvdrpSees(s2);
    }
  }

  predicate OfConsumer(e: Event) {
    || e.Get? || e.Evdrp? || e.GetLoadF? || e.GetLoadL? || e.GetCopy? || e.GetPublish? || e.EvdrpReturn?
    || e.CBytes? || e.CBytesLoadF? || e.CBytesLoadL? || e.CBytesReturn?
  }

  /** While only the consumer moves, the producer's words stay. */
  lemma {:induction false} ConsumerRun(s: System, run: seq<Event>)
    requires Inv(s) && LegalRun(s, run) && forall e :: e in run ==> OfConsumer(e)
    ensures var r := Run(s, run);
            r.producer == s.producer && r.lbyte == s.lbyte && |r.data| == |s.data| && Inv(r)
    decreases |run|
  {
    if run != [] {
      StepKeeps(s, run[0]);
      ConsumerStep(s, run[0]);
      assert forall e :: e in run[1..] ==> e in run;
      hide Inv, Step, Enabled, OfConsumer;
      ConsumerRun(Step(s, run[0]), run[1..]);
    }
  }

  lemma ConsumerStep(s: System, e: Event)
    requires Enabled(s, e) && InBounds(s, e) && OfConsumer(e)
    ensures var r := Step(s, e); r.producer == s.producer && r.lbyte == s.lbyte && |r.data| == |s.data|
  {
  }

  /** The call Put(msg) is refused exactly when msg is empty or there is no room for it at
      its load of FBYTE, whatever the consumer does before and between the loads. */
  lemma PutRefused(s: System, msg: Bytes, s1: System, before: seq<Event>, s2: System, between: seq<Event>)
    requires Inv(s) && Enabled(s, Put(msg)) && s1 == Step(s, Put(msg)) && Inv(s1)
    requires LegalRun(s1, before) && forall e :: e in before ==> OfConsumer(e)
    requires s2 == Run(s1, before).(producer := PLoadedF(msg, Run(s1, before).fbyte)) && Inv(s2)
    requires LegalRun(s2, between) && forall e :: e in between ==> OfConsumer(e)
    ensures var a, c := Run(s1, before), Run(s2, between);
            && Inv(a) && Enabled(a, PutLoadF) && Step(a, PutLoadF) == s2 && Enabled(c, PutLoadL)
            && (Step(c, PutLoadL).producer.PIdle? <==>
                |msg| == 0 || |s.data| - 1 - |Unread(a.data, a.fbyte, a.lbyte)| < |msg|)
  {
    hide Flatten, Run, LegalRun;
    ConsumerRun(s1, before);
    ConsumerRun(s2, between);
  }

  /** The producer's count is the number of unread bytes at its load of FBYTE. */
  lemma ProducerCount(s: System, s1: System, run: seq<Event>)
    requires Inv(s) && Enabled(s, PBytesLoadF) && s1 == Step(s, PBytesLoadF) && Inv(s1)
    requires LegalRun(s1, run) && forall e :: e in run ==> OfConsumer(e)
    ensures var s2 := Run(s1, run);
            && Enabled(s2, PBytesLoadL)
            && Step(s2, PBytesLoadL).producer == PCounted(|Unread(s.data, s.fbyte, s.lbyte)|)
  {
    hide Flatten, Run, LegalRun;
    ConsumerRun(s1, run);
  }

  /** The consumer's count is exact at its load of LBYTE. When a count returns, the consumer
      can rely on as many bytes being unread, the producer on no more being unread. */
  lemma CountsSeen(s: System)
    requires Inv(s)
    ensures Enabled(s, CBytesLoadL) ==>
              Step(s, CBytesLoadL).consumer == CCounted(|Unread(s.data, s.fbyte, s.lbyte)|)
    ensures Enabled(s, CBytesReturn) ==> s.consumer.count <= |Unread(s.data, s.fbyte, s.lbyte)|
    ensures Enabled(s, PBytesReturn) ==> s.producer.count >= |Unread(s.data, s.fbyte, s.lbyte)|
  {
    hide Flatten;
  }

  /** No other event changes what is unread. */
  lemma OthersKeepUnread(s: System, e: Event)
    requires Inv(s) && Enabled(s, e) && e != PutPublish && e != GetPublish
    ensures InBounds(s, e)
    ensures var r := Step(s, e);
            Inv(r) && Unread(r.data, r.fbyte, r.lbyte) == Unread(s.data, s.fbyte, s.lbyte)
  {
    StepKeeps(s, e);
    UnreadIsSent(s);
    UnreadIsSent(Step(s, e));
    hide Flatten, Unread, Inv;
  }

  // A thread that is alone finishes: with room, or bytes enough, each call is a legal run of
  // its events to the end, with the effect that it has as one operation.

  lemma RunCons(s: System, e: Event, rest: seq<Event>)
    requires Inv(s) && Enabled(s, e) && InBounds(s, e) && Inv(Step(s, e)) && LegalRun(Step(s, e), rest)
    ensures LegalRun(s, [e] + rest) && Run(s, [e] + rest) == Run(Step(s, e), rest)
  {
    hide Inv, Enabled, Step, InBounds;
    assert ([e] + rest)[0] == e && ([e] + rest)[1..] == rest;
  }

  /** k copies, and then the event that ends the call. */
  function Finish(copy: Event, k: nat, last: Event): (r: seq<Event>) {
    if k == 0 then [last] else [copy] + Finish(copy, k - 1, last)
  }

  lemma RunLast(s: System, e: Event)
    requires Inv(s) && Enabled(s, e) && InBounds(s, e) && Inv(Step(s, e))
    ensures LegalRun(s, [e]) && Run(s, [e]) == Step(s, e)
  {
    assert [e] + [] == [e];
    RunCons(s, e, []);
  }

  lemma {:induction false} PutFinishes(s: System, k: nat)
    requires Inv(s) && s.producer.PCopying? && k == |s.producer.msg| - s.producer.copied
    ensures LegalRun(s, Finish(PutCopy, k, PutPublish))
    ensures var r := Run(s, Finish(PutCopy, k, PutPublish));
            && Inv(r) && r.producer == PIdle && r.consumer == s.consumer
            && r.puts == s.puts + [s.producer.msg] && r.gets == s.gets
            && Unread(r.data, r.fbyte, r.lbyte) == Unread(s.data, s.fbyte, s.lbyte) + s.producer.msg
    decreases k
  {
    hide Inv, Unread;
    var e := if k == 0 then PutPublish else PutCopy;
    StepKeeps(s, e);
    if k == 0 {
      PutPublishAppends(s);
      RunLast(s, PutPublish);
    } else {
      OthersKeepUnread(s, PutCopy);
      PutFinishes(Step(s, PutCopy), k - 1);
      RunCons(s, PutCopy, Finish(PutCopy, k - 1, PutPublish));
    }
  }

  lemma PutAlone(s: System, msg: Bytes)
    requires Inv(s) && s.producer.PIdle? && 0 < |msg| <= |s.data| - 1 - |Unread(s.data, s.fbyte, s.lbyte)|
    ensures var run := [Put(msg)] + ([PutLoadF] + ([PutLoadL] + Finish(PutCopy, |msg|, PutPublish)));
            && LegalRun(s, run)
            && var r := Run(s, run);
               && Inv(r) && r.producer == PIdle && r.consumer == s.consumer
               && r.puts == s.puts + [msg] && r.gets == s.gets
               && Unread(r.data, r.fbyte, r.lbyte) == Unread(s.data, s.fbyte, s.lbyte) + msg
  {
    var a := Step(s, Put(msg));
    var b := Step(a, PutLoadF);
    var c := Step(b, PutLoadL);
    RoomIs(s);
    assert c.producer == PCopying(msg, s.fbyte, s.lbyte, 0);
    hide Inv, Unread, Finish, LegalRun, Run;
    OthersKeepUnread(s, Put(msg));
    OthersKeepUnread(a, PutLoadF);
    OthersKeepUnread(b, PutLoadL);
    PutFinishes(c, |msg|);
    RunCons(b, PutLoadL, Finish(PutCopy, |msg|, PutPublish));
    RunCons(a, PutLoadF, [PutLoadL] + Finish(PutCopy, |msg|, PutPublish));
    RunCons(s, Put(msg), [PutLoadF] + ([PutLoadL] + Finish(PutCopy, |msg|, PutPublish)));
  }

  lemma RoomIs(s: System)
    requires Inv(s)
    ensures 0 <= s.fbyte < |s.data| && 0 <= s.lbyte < |s.data|
    ensures var (f, l, size) := (s.fbyte, s.lbyte, |s.data|);
            && (if l >= f then size - (l - f) else f - l) == size - |Unread(s.data, f, l)|
            && Count(f, l, size) == |Unread(s.data, f, l)|
  {
    hide Flatten;
  }

  /** last is GetPublish for a get, and EvdrpReturn for an eavesdrop. */
  lemma {:induction false} GetFinishes(s: System, k: nat, last: Event)
    requires Inv(s) && s.consumer.CCopying? && k == s.consumer.n - |s.consumer.out|
    requires last == if s.consumer.spy then EvdrpReturn else GetPublish
    ensures LegalRun(s, Finish(GetCopy, k, last))
    ensures var r, before, n := Run(s, Finish(GetCopy, k, last)), Unread(s.data, s.fbyte, s.lbyte), s.consumer.n;
            && Inv(r) && r.consumer == CIdle && r.producer == s.producer && r.puts == s.puts && 0 < n <= |before|
            && if s.consumer.spy then r.gets == s.gets && Unread(r.data, r.fbyte, r.lbyte) == before
               else r.gets == s.gets + [before[..n]] && Unread(r.data, r.fbyte, r.lbyte) == before[n..]
    decreases k
  {
    hide Inv, Unread;
    var e := if k == 0 then last else GetCopy;
    StepKeeps(s, e);
    if k == 0 {
      if s.consumer.spy {
        EvdrpSees(s);
      } else {
        GetPublishRemoves(s);
      }
      RunLast(s, last);
    } else {
      OthersKeepUnread(s, GetCopy);
      GetFinishes(Step(s, GetCopy), k - 1, last);
      RunCons(s, GetCopy, Finish(GetCopy, k - 1, last));
    }
  }

  lemma GetAlone(s: System, n: int, spy: bool)
    requires Inv(s) && s.consumer.CIdle? && 0 < n <= |Unread(s.data, s.fbyte, s.lbyte)|
    ensures var call, last := if spy then Evdrp(n) else Get(n), if spy then EvdrpReturn else GetPublish;
            var run := [call] + ([GetLoadF] + ([GetLoadL] + Finish(GetCopy, n, last)));
            && LegalRun(s, run)
            && var r, before := Run(s, run), Unread(s.data, s.fbyte, s.lbyte);
               && Inv(r) && r.consumer == CIdle && r.producer == s.producer && r.puts == s.puts
               && if spy then r.gets == s.gets && Unread(r.data, r.fbyte, r.lbyte) == before
                  else r.gets == s.gets + [before[..n]] && Unread(r.data, r.fbyte, r.lbyte) == before[n..]
  {
    var call, last := if spy then Evdrp(n) else Get(n), if spy then EvdrpReturn else GetPublish;
    var a := Step(s, call);
    var b := Step(a, GetLoadF);
    var c := Step(b, GetLoadL);
    RoomIs(s);
    assert c.consumer == CCopying(n, spy, s.fbyte, s.lbyte, []);
    hide Inv, Unread, Finish, LegalRun, Run;
    OthersKeepUnread(s, call);
    OthersKeepUnread(a, GetLoadF);
    OthersKeepUnread(b, GetLoadL);
    GetFinishes(c, n, last);
    RunCons(b, GetLoadL, Finish(GetCopy, n, last));
    RunCons(a, GetLoadF, [GetLoadL] + Finish(GetCopy, n, last));
    RunCons(s, call, [GetLoadF] + ([GetLoadL] + Finish(GetCopy, n, last)));
  }

  /** Over every run from an empty buffer, the bytes received are a prefix of the bytes of
      the completed puts, the rest are unread in the buffer, and a consumer that asks for
      the messages' sizes gets the messages. */
  lemma RunSafe(data: Bytes, run: seq<Event>)
    requires data != [] && (StartInv(data); LegalRun(Start(data), run))
    ensures var r := (StartInv(data); Run(Start(data), run));
            && Inv(r) && |r.data| == |data|
            && Flatten(r.gets) + Unread(r.data, r.fbyte, r.lbyte) == Flatten(r.puts)
            && (|r.gets| <= |r.puts| && (forall i :: 0 <= i < |r.gets| ==> |r.gets[i]| == |r.puts[i]|)
                ==> r.gets == r.puts[..|r.gets|])
  {
    StartInv(data);
    hide Flatten, Run, LegalRun;
    RunKeeps(Start(data), run);
    var r := Run(Start(data), run);
    UnreadIsSent(r);
    if |r.gets| <= |r.puts| && forall i :: 0 <= i < |r.gets| ==> |r.gets[i]| == |r.puts[i]| {
      FlattenPrefix(r.puts, |r.gets|);
      SameSizesSameMessages(r.gets, r.puts[..|r.gets|], Flatten(r.puts));
    }
  }

  lemma {:induction false} FlattenPrefix(ms: seq<Bytes>, k: nat)
    requires k <= |ms|
    ensures |Flatten(ms[..k])| <= |Flatten(ms)| && Flatten(ms[..k]) == Flatten(ms)[..|Flatten(ms[..k])|]
    decreases |ms|
  {
    if k < |ms| {
      var front := ms[..|ms| - 1];
      FlattenPrefix(front, k);
      assert front[..k] == ms[..k];
    } else {
      assert ms[..k] == ms;
    }
  }

  /** Two lists of messages of the same sizes, both at the start of the same bytes. */
  lemma {:induction false} SameSizesSameMessages(a: seq<Bytes>, b: seq<Bytes>, bytes: Bytes)
    requires |a| == |b| && forall i :: 0 <= i < |a| ==> |a[i]| == |b[i]|
    requires |Flatten(a)| <= |bytes| && Flatten(a) == bytes[..|Flatten(a)|]
    requires |Flatten(b)| <= |bytes| && Flatten(b) == bytes[..|Flatten(b)|]
    ensures a == b
  {
    if a != [] {
      var k := |a| - 1;
      var x, y := Flatten(a[..k]), Flatten(b[..k]);
      FlattenLengths(a[..k], b[..k]);
      assert Flatten(a) == x + a[k] && Flatten(b) == y + b[k];
      assert x == Flatten(a)[..|x|] && y == Flatten(b)[..|y|];
      SameSizesSameMessages(a[..k], b[..k], bytes);
      assert a[k] == Flatten(a)[|x|..] && b[k] == Flatten(b)[|y|..];
      assert a == a[..k] + [a[k]] && b == b[..k] + [b[k]];
    }
  }

  lemma {:induction false} FlattenLengths(a: seq<Bytes>, b: seq<Bytes>)
    requires |a| == |b| && forall i :: 0 <= i < |a| ==> |a[i]| == |b[i]|
    ensures |Flatten(a)| == |Flatten(b)|
  {
    if a != [] {
      FlattenLengths(a[..|a| - 1], b[..|b| - 1]);
    }
  }
}
