/**
  Who takes client input up again. Reading is disabled by too much queued payload, or stays disabled
  when a resume fails; what enables it is the progress of writers.
  */
module UpstreamWakeups {
  import opened Bytes
  import opened Callers
  import opened Protocol
  import opened Upstream
  import opened UpstreamInvariant
  import opened UpstreamRuns

  /** Payload that will be written once the socket takes it. */
  predicate Holds(s: Stream) {
    s.fifo != [] && !s.eof
  }

  /** Such a stream, or one that will write as soon as its connection is established. */
  predicate Drives(s: Stream) {
    Holds(s) || (s.status.Connecting? && !s.eof)
  }

  predicate Driver(x: Input) {
    exists i :: 0 <= i < |x.streams| && Drives(x.streams[i])
  }

  /** Payload of streams that have lost their sockets. */
  function Orphaned(ss: seq<Stream>): nat {
    if ss == [] then 0 else (if ss[0].eof then ss[0].bytes else 0) + Orphaned(ss[1..])
  }

  lemma {:induction false} OrphanedAppend(a: seq<Stream>, b: seq<Stream>)
    ensures Orphaned(a + b) == Orphaned(a) + Orphaned(b)
    decreases |a|
  {
    if a == [] {
      assert a + b == b;
    } else {
      assert (a + b)[1..] == a[1..] + b;
      OrphanedAppend(a[1..], b);
    }
  }

  /** What the streams other than the i-th have orphaned. */
  function RestOrphaned(ss: seq<Stream>, i: nat): nat
    requires i < |ss|
  {
    Orphaned(ss[..i]) + Orphaned(ss[i + 1..])
  }

  lemma OrphanedAt(ss: seq<Stream>, i: nat, s: Stream)
    requires i < |ss|
    ensures Orphaned(ss[i := s]) == RestOrphaned(ss, i) + if s.eof then s.bytes else 0
  {
    assert ss[i := s] == ss[..i] + ([s] + ss[i + 1..]);
    OrphanedAppend(ss[..i], [s] + ss[i + 1..]);
    OrphanedAppend([s], ss[i + 1..]);
    assert [s][1..] == [];
  }

  lemma {:induction false} OrphanedIsPart(ss: seq<Stream>)
    ensures Orphaned(ss) <= SumBytes(ss)
    decreases |ss|
  {
    if ss != [] {
      OrphanedIsPart(ss[1..]);
    }
  }

  lemma RestOfOthers(ss: seq<Stream>, i: nat)
    requires i < |ss|
    ensures RestOrphaned(ss, i) <= Rest(ss, i)
    ensures Orphaned(ss) == RestOrphaned(ss, i) + if ss[i].eof then ss[i].bytes else 0
  {
    OrphanedIsPart(ss[..i]);
    OrphanedIsPart(ss[i + 1..]);
    OrphanedAt(ss, i, ss[i]);
    assert ss[i := ss[i]] == ss;
  }

  /** More queued than orphaned: somebody has something to write. */
  lemma {:induction false} SomebodyHolds(max: nat, ss: seq<Stream>) returns (i: nat)
    requires Streams(max, ss) && (Orphaned(ss) < SumBytes(ss) || (Orphaned(ss) <= max / 2 && CountBlocked(ss) > 0))
    ensures i < |ss| && Holds(ss[i])
    decreases |ss|
  {
    assert StreamInv(max, ss[0]);
    if Holds(ss[0]) {
      i := 0;
    } else {
      i := SomebodyHolds(max, ss[1..]);
      i := i + 1;
    }
  }

  // ----- Payload nobody will write -----

  /** Nothing is resumed while the others hold more than half the limit. */
  ghost predicate Heavy(max: nat, p: Pair, rest: nat) {
    p.c.readBlocked && p.c.pending >= rest > max / 2
  }

  lemma {:induction false} SettleHeavy(max: nat, p: Pair, n: nat, rest: nat, rb: nat)
    requires Mid(max, p, rest, rb) && Heavy(max, p, rest)
    ensures Heavy(max, Settle(max, p, n), rest)
    decreases |p.s.fifo|
  {
    if n != 0 && p.s.fifo != [] {
      var left := |p.s.fifo[0].data| - p.s.fifo[0].sent;
      if n >= left {
        PopBytes(max, p);
        PopKeeps(max, p, rest, rb);
        SettleHeavy(max, Popped(max, p), n - left, rest, rb);
      }
    }
  }

  lemma {:induction false} WriteLoopHeavy(max: nat, p: Pair, budget: Budget, script: seq<Write>, rest: nat, rb: nat)
    requires Mid(max, p, rest, rb) && Heavy(max, p, rest)
    ensures Heavy(max, WriteLoop(max, p, budget, script).p, rest)
    decreases |script|
  {
    if !(p.s.fifo == [] || budget == AtMost(0) || script == []) && script[0].Wrote? {
      var n := Min(script[0].n, Offered(p.s.fifo, 0, CHAIN_LIMIT, budget));
      SettleKeeps(max, p, n, rest, rb);
      SettleHeavy(max, p, n, rest, rb);
      WriteLoopHeavy(max, Settle(max, p, n), Spent(budget, n), script[1..], rest, rb);
    }
  }

  lemma SendHeavy(max: nat, p: Pair, budget: Budget, script: seq<Write>, rest: nat, rb: nat)
    requires Mid(max, p, rest, rb) && Heavy(max, p, rest)
    ensures Heavy(max, SendPending(max, p, budget, script).p, rest)
  {
    WriteLoopHeavy(max, p, budget, script, rest, rb);
  }

  lemma CloseHeavy(max: nat, p: Pair, rest: nat)
    requires Heavy(max, p, rest) && p.c.pending == rest + p.s.bytes
    ensures Heavy(max, Close(max, p), rest)
  {
  }

  lemma EnqueueHeavy(max: nat, p: Pair, data: Bytes, rest: nat)
    requires Heavy(max, p, rest)
    ensures Heavy(max, Enqueue(max, p, data), rest)
  {
  }

  lemma RemainderHeavy(max: nat, p: Pair, data: Bytes, script: seq<Write>, rest: nat)
    requires Heavy(max, p, rest)
    ensures Heavy(max, Remainder(max, p, data, script).p, rest)
  {
    if p.s.fifo != [] {
      EnqueueHeavy(max, Accept(p, data), data, rest);
    } else {
      var d := SendDirect(data, script);
      EnqueueHeavy(max, Written(Accept(p, data), data[..|data| - Min(|d.rest|, |data|)]), d.rest, rest);
    }
  }

  lemma QueueHeavy(max: nat, p: Pair, data: Bytes, ready: bool, flush: seq<Write>, direct: seq<Write>, rest: nat,
                   rb: nat)
    requires Mid(max, p, rest, rb) && Heavy(max, p, rest)
    ensures Heavy(max, Queue(max, p, data, ready, flush, direct).p, rest)
  {
    var q := Handed(p, data);
    if p.s.eof || !p.s.status.Connected? {
      EnqueueHeavy(max, Accept(q, data), data, rest);
    } else {
      SendHeavy(max, q, Unlimited, flush, rest, rb);
      RemainderHeavy(max, SendPending(max, q, Unlimited, flush).p, data, direct, rest);
      RemainderHeavy(max, q, data, direct, rest);
    }
  }

  lemma FinHeavy(max: nat, p: Pair, script: seq<Write>, rest: nat, rb: nat)
    requires Settled(max, p, rest, rb) && (rb > 0 ==> rest > 0) && Heavy(max, p, rest)
    requires p.s.status in {Connecting, Connected} && !p.s.eof
    ensures Heavy(max, ClientFin(max, p, script), rest)
  {
    var q := p.(s := p.s.(inClosed := true));
    if p.s.status.Connected? {
      SendHeavy(max, q, Unlimited, script, rest, rb);
      SendKeeps(max, q, Unlimited, script, rest, rb);
    }
  }

  /** Reading is disabled, and the orphaned payload alone keeps it so. */
  ghost predicate Overhung(max: nat, x: Input) {
    x.c.readBlocked && Orphaned(x.streams) > max / 2
  }

  /** An event that does not give orphaned payload up. */
  predicate Spares(x: Input, e: Event) {
    !(e.CloseStream? && e.i < |x.streams| && x.streams[e.i].eof)
  }

  predicate SparesAlong(max: nat, x: Input, es: seq<Event>)
    decreases |es|
  {
    es != [] && AllSized(x) ==> Spares(x, es[0]) && SparesAlong(max, Step(max, x, es[0]), es[1..])
  }

  /** Orphans stay orphans. */
  lemma PutOverhung(max: nat, x: Input, i: nat, p: Pair)
    requires Overhung(max, x) && i < |x.streams| && !x.streams[i].eof
    requires Heavy(max, p, Rest(x.streams, i)) && !p.s.eof
    ensures Overhung(max, Put(x, i, p))
  {
    RestOfOthers(x.streams, i);
    OrphanedAt(x.streams, i, p.s);
  }

  /** An open stream with a socket, in a connection with an overhang. */
  lemma AtHeavy(max: nat, x: Input, i: nat)
    requires Inv(max, x) && !x.c.closing && i < |x.streams| && !x.streams[i].status.Gone? && !x.streams[i].eof
    requires Overhung(max, x)
    ensures var rest, rb := Rest(x.streams, i), RestBlocked(x.streams, i);
            Settled(max, At(x, i), rest, rb) && Heavy(max, At(x, i), rest) && (rb > 0 ==> rest > 0)
  {
    AtSettled(max, x, i);
    RestOfOthers(x.streams, i);
  }

  lemma WritableOverhung(max: nat, x: Input, i: nat, budget: Budget, script: seq<Write>)
    requires Inv(max, x) && !x.c.closing && Overhung(max, x) && i < |x.streams|
    ensures AllSized(x) && Overhung(max, Writes(max, x, i, budget, script))
  {
    InvIsSized(max, x);
    var p := At(x, i);
    if p.s.status.Gone? || p.s.eof {
      assert x.streams[i := p.s] == x.streams;
    } else {
      var rest, rb := Rest(x.streams, i), RestBlocked(x.streams, i);
      AtHeavy(max, x, i);
      SendHeavy(max, p, budget, script, rest, rb);
      SendKeeps(max, p, budget, script, rest, rb);
      var r := SendPending(max, p, budget, script);
      if r.failed {
        CloseHeavy(max, r.p, rest);
      }
      PutOverhung(max, x, i, OnWritable(max, p, budget, script));
    }
  }

  lemma CloseOverhung(max: nat, x: Input, i: nat)
    requires Inv(max, x) && !x.c.closing && Overhung(max, x) && i < |x.streams| && !x.streams[i].eof
    ensures Overhung(max, Put(x, i, Close(max, At(x, i))))
  {
    var p := At(x, i);
    if p.s.status.Gone? {
      assert x.streams[i := p.s] == x.streams;
    } else {
      AtHeavy(max, x, i);
      CloseHeavy(max, p, Rest(x.streams, i));
      PutOverhung(max, x, i, Close(max, p));
    }
  }

  lemma RefuseOverhung(max: nat, x: Input, who: Caller)
    requires Inv(max, x) && Overhung(max, x) && !who.Reader? && !x.c.closing
    requires who.Writer? && who.i < |x.streams| ==> !x.streams[who.i].eof
    ensures Overhung(max, Refuse(max, x, who))
  {
    if who.Writer? && who.i < |x.streams| {
      CloseOverhung(max, Barred(x), who.i);
    }
  }

  lemma PayloadOverhung(max: nat, x: Input, e: Event)
    requires Inv(max, x) && Framed(e) && Overhung(max, x) && e.Payload? && Delivers(x, e, e.i)
    ensures AllSized(x) && (!OnPayload(max, x, e).c.closing ==> Overhung(max, OnPayload(max, x, e)))
  {
    PayloadKeeps(max, x, e);
    AtSettled(max, x, e.i);
    var rest, rb := Rest(x.streams, e.i), RestBlocked(x.streams, e.i);
    AtHeavy(max, x, e.i);
    QueueHeavy(max, At(x, e.i), e.data, e.ready, e.flush, e.direct, rest, rb);
    var r := Delivery(max, x, e);
    PutOverhung(max, x, e.i, r.p);
    if r.failed {
      if e.who.Reader? {
        ReaderEnds(max, Put(x, e.i, r.p), e.i);
      } else {
        PutPayload(max, x, e);
        RefuseOverhung(max, Put(x, e.i, r.p), e.who);
      }
    }
  }

  lemma PutPayload(max: nat, x: Input, e: Event)
    requires Inv(max, x) && Framed(e) && e.Payload? && Delivers(x, e, e.i)
    ensures AllSized(x) && Inv(max, Put(x, e.i, Delivery(max, x, e).p)) && !Delivery(max, x, e).p.c.closing
  {
    InvIsSized(max, x);
    AtSettled(max, x, e.i);
    QueueKeeps(max, At(x, e.i), e.data, e.ready, e.flush, e.direct, Rest(x.streams, e.i),
      RestBlocked(x.streams, e.i));
    var r := Delivery(max, x, e);
    FedShares(x.streams[e.i], r.p.s, e.data, r.failed);
    PutKeeps(max, x, e.i, r.p);
  }

  lemma FinOverhung(max: nat, x: Input, i: nat, script: seq<Write>)
    requires Inv(max, x) && !x.c.closing && Overhung(max, x) && i < |x.streams| && !x.streams[i].inClosed
    ensures AllSized(x) && Overhung(max, Put(x, i, ClientFin(max, At(x, i), script)))
  {
    InvIsSized(max, x);
    AtSettled(max, x, i);
    AtHeavy(max, x, i);
    var rest, rb := Rest(x.streams, i), RestBlocked(x.streams, i);
    FinHeavy(max, At(x, i), script, rest, rb);
    FinHasSocket(max, At(x, i), script, rest, rb);
    PutOverhung(max, x, i, ClientFin(max, At(x, i), script));
  }

  lemma FinHasSocket(max: nat, p: Pair, script: seq<Write>, rest: nat, rb: nat)
    requires Settled(max, p, rest, rb) && (rb > 0 ==> rest > 0) && p.s.status in {Connecting, Connected} && !p.s.eof
    ensures !ClientFin(max, p, script).s.eof
  {
    if p.s.status.Connected? {
      SendKeeps(max, p.(s := p.s.(inClosed := true)), Unlimited, script, rest, rb);
    }
  }

  lemma LostOverhung(max: nat, x: Input, i: nat)
    requires Overhung(max, x) && i < |x.streams|
    ensures Overhung(max, Put(x, i, Lost(At(x, i))))
  {
    RestOfOthers(x.streams, i);
    OrphanedAt(x.streams, i, Lost(At(x, i)).s);
  }

  lemma EstablishedOverhung(max: nat, x: Input, i: nat)
    requires Inv(max, x) && !x.c.closing && Overhung(max, x) && i < |x.streams| && x.streams[i].status.Connecting?
    ensures Inv(max, Established(x, i)) && Overhung(max, Established(x, i))
  {
    ConnectKeeps(max, x, i);
    AtSettled(max, x, i);
    AtHeavy(max, x, i);
    PutOverhung(max, x, i, Pair(x.streams[i].(status := Connected), x.c));
  }

  lemma StepOverhung(max: nat, x: Input, e: Event)
    requires Inv(max, x) && Framed(e) && !x.c.closing && Overhung(max, x) && Spares(x, e)
    ensures AllSized(x) && (!Step(max, x, e).c.closing ==> Overhung(max, Step(max, x, e)))
  {
    InvIsSized(max, x);
    match e
    case Open => OrphanedAppend(x.streams, [FRESH]); assert [FRESH][1..] == [];
    case Finalize => ClosedEnds(max, x);
    case ConnectDone(i, budget, script) =>
      if i < |x.streams| && x.streams[i].status.Connecting? {
        EstablishedOverhung(max, x, i);
        WritableOverhung(max, Established(x, i), i, budget, script);
      }
    case Payload(i, _, _, _, _, _) =>
      if Delivers(x, e, i) {
        PayloadOverhung(max, x, e);
      }
    case Refused(who) =>
      if Handles(x, who) {
        if who.Reader? {
          ClosedEnds(max, x);
        } else {
          RefuseOverhung(max, x, who);
        }
      }
    case Fin(i, script) =>
      if i < |x.streams| && !x.streams[i].inClosed {
        FinOverhung(max, x, i, script);
      }
    case Writable(i, budget, script) =>
      if i < |x.streams| {
        WritableOverhung(max, x, i, budget, script);
      }
    case EndOfFile(i) =>
      if i < |x.streams| {
        LostOverhung(max, x, i);
      }
    case CloseStream(i) =>
      if i < |x.streams| {
        CloseOverhung(max, x, i);
      }
    case CloseCompletes(i) => OrphanedIsPart(x.streams);
  }

  lemma ClosedEnds(max: nat, x: Input)
    ensures Finalized(max, x).c.closing
  {
    if x.streams != [] {
      ReaderEnds(max, x, 0);
    }
  }

  /** Once orphaned payload exceeds half the limit, disabled reading stays disabled, whatever happens,
      unless that payload is given up or the connection ends. */
  lemma {:induction false} OverhangLasts(max: nat, x: Input, es: seq<Event>)
    requires Inv(max, x) && AllFramed(es) && !x.c.closing && Overhung(max, x) && SparesAlong(max, x, es)
    ensures !Run(max, x, es).c.closing ==> Overhung(max, Run(max, x, es))
    decreases |es|
  {
    if es != [] {
      StepOverhung(max, x, es[0]);
      StepKeeps(max, x, es[0]);
      var x1 := Step(max, x, es[0]);
      if x1.c.closing {
        ClosedStays(max, x1, es[1..], 0);
      } else {
        OverhangLasts(max, x1, es[1..]);
      }
    }
  }

  // ----- When writers enable reading -----

  /** Progress of the upstream side alone: a connection is established, or a socket takes payload that
      waits for it. */
  predicate Progress(x: Input, e: Event) {
    e.ConnectDone? || (e.Writable? && e.i < |x.streams| && Holds(x.streams[e.i]))
  }

  predicate ProgressOnly(max: nat, x: Input, es: seq<Event>)
    decreases |es|
  {
    es != [] && AllSized(x) ==> Progress(x, es[0]) && ProgressOnly(max, Step(max, x, es[0]), es[1..])
  }

  /** Writers can still make the client be read. */
  ghost predicate Recoverable(max: nat, x: Input) {
    exists es :: ProgressOnly(max, x, es) && !Run(max, x, es).c.readBlocked
  }

  lemma WritesLives(max: nat, x: Input, i: nat, budget: Budget, script: seq<Write>)
    requires Inv(max, x) && !x.c.closing && i < |x.streams|
    ensures AllSized(x) && !Writes(max, x, i, budget, script).c.closing
  {
    InvIsSized(max, x);
    if !x.streams[i].status.Gone? {
      AtSettled(max, x, i);
      SendKeeps(max, At(x, i), budget, script, Rest(x.streams, i), RestBlocked(x.streams, i));
    }
  }

  lemma ProgressLives(max: nat, x: Input, e: Event)
    requires Inv(max, x) && !x.c.closing && Progress(x, e)
    ensures AllSized(x) && Inv(max, Step(max, x, e)) && !Step(max, x, e).c.closing
  {
    StepKeeps(max, x, e);
    if e.Writable? {
      WritesLives(max, x, e.i, e.budget, e.script);
    } else if e.i < |x.streams| && x.streams[e.i].status.Connecting? {
      ConnectKeeps(max, x, e.i);
      WritesLives(max, Established(x, e.i), e.i, e.budget, e.script);
    }
  }

  lemma {:induction false} ProgressKeepsOverhang(max: nat, x: Input, es: seq<Event>)
    requires Inv(max, x) && !x.c.closing && Overhung(max, x) && ProgressOnly(max, x, es)
    ensures Overhung(max, Run(max, x, es))
    decreases |es|
  {
    InvIsSized(max, x);
    if es != [] {
      ProgressLives(max, x, es[0]);
      StepOverhung(max, x, es[0]);
      ProgressKeepsOverhang(max, Step(max, x, es[0]), es[1..]);
    }
  }

  lemma {:induction false} NobodyWrites(max: nat, x: Input, es: seq<Event>)
    requires Inv(max, x) && !x.c.closing && !Driver(x) && ProgressOnly(max, x, es)
    ensures Run(max, x, es).c == x.c
    decreases |es|
  {
    InvIsSized(max, x);
    if es != [] {
      ProgressLives(max, x, es[0]);
      var y := Step(max, x, es[0]);
      if es[0].i < |x.streams| {
        assert !Drives(x.streams[es[0].i]);
        assert StreamInv(max, x.streams[es[0].i]);
      }
      assert y == x;
      NobodyWrites(max, y, es[1..]);
    }
  }

  /** A write of exactly the first buffer. */
  function HeadSize(s: Stream): nat
    requires s.fifo != [] && Sized(s.fifo)
  {
    |s.fifo[0].data| - s.fifo[0].sent
  }

  lemma WritesHead(max: nat, p: Pair, rest: nat, rb: nat)
    requires Mid(max, p, rest, rb) && Holds(p.s) && p.s.status in {Connected, HalfClosed}
    ensures Sized(p.s.fifo)
    ensures var q := OnWritable(max, p, AtMost(HeadSize(p.s)), [Wrote(HeadSize(p.s))]);
            && q == AfterWriting(max, Popped(max, p)) && q.s.fifo == p.s.fifo[1..] && !q.s.eof
            && q.c.pending < p.c.pending
  {
    var size := HeadSize(p.s);
    assert Offered(p.s.fifo, 0, CHAIN_LIMIT, AtMost(size)) == size;
    PopBytes(max, p);
    assert Settle(max, p, size) == Popped(max, p) by {
      assert Settle(max, Popped(max, p), 0) == Popped(max, p);
    }
    assert WriteLoop(max, p, AtMost(size), [Wrote(size)]) == Sending(Popped(max, p), false);
  }

  lemma RunCons(max: nat, x: Input, e: Event, es: seq<Event>)
    requires AllSized(x)
    ensures Run(max, x, [e] + es) == Run(max, Step(max, x, e), es)
    ensures ProgressOnly(max, x, [e] + es) <==> Progress(x, e) && ProgressOnly(max, Step(max, x, e), es)
  {
    assert ([e] + es)[1..] == es;
  }

  predicate Holding(x: Input) {
    exists i :: 0 <= i < |x.streams| && Holds(x.streams[i])
  }

  /** After a write of a whole buffer: reading is enabled, or somebody still has something to write. */
  lemma StillHeld(max: nat, x: Input, i: nat, p: Pair)
    requires i < |x.streams| && Inv(max, Put(x, i, AfterWriting(max, p))) && !p.c.closing && !p.s.eof
    requires Orphaned(Put(x, i, AfterWriting(max, p)).streams) <= max / 2
    requires Put(x, i, AfterWriting(max, p)).c.readBlocked
    ensures Holding(Put(x, i, AfterWriting(max, p)))
  {
    var y := Put(x, i, AfterWriting(max, p));
    if p.s.fifo != [] {
      assert Holds(y.streams[i]);
    } else {
      var k := SomebodyHolds(max, y.streams);
    }
  }

  lemma {:induction false} Recovers(max: nat, x: Input) returns (es: seq<Event>)
    requires Inv(max, x) && !x.c.closing && x.c.readBlocked && Holding(x) && Orphaned(x.streams) <= max / 2
    ensures ProgressOnly(max, x, es) && !Run(max, x, es).c.readBlocked
    decreases x.c.pending, 1
  {
    InvIsSized(max, x);
    var i :| 0 <= i < |x.streams| && Holds(x.streams[i]);
    assert StreamInv(max, x.streams[i]);
    if x.streams[i].status.Connecting? {
      var e := ConnectDone(i, AtMost(0), []);
      var y := Established(x, i);
      ConnectKeeps(max, x, i);
      assert Step(max, x, e) == y;
      OrphanedAt(x.streams, i, y.streams[i]);
      OrphanedAt(x.streams, i, x.streams[i]);
      assert x.streams[i := x.streams[i]] == x.streams;
      var later := RecoversBy(max, y, i);
      es := [e] + later;
      RunCons(max, x, e, later);
    } else {
      es := RecoversBy(max, x, i);
    }
  }

  /** Nothing is queued that a writer could write, but a connection is on its way. */
  lemma RecoversByConnecting(max: nat, x: Input, i: nat) returns (es: seq<Event>)
    requires Inv(max, x) && !x.c.closing && x.c.readBlocked && !Holding(x) && Orphaned(x.streams) <= max / 2
    requires i < |x.streams| && x.streams[i].status.Connecting? && !x.streams[i].eof
    ensures ProgressOnly(max, x, es) && !Run(max, x, es).c.readBlocked
  {
    InvIsSized(max, x);
    var e := ConnectDone(i, AtMost(0), []);
    assert !Holds(x.streams[i]);
    if x.c.pending > max / 2 || x.c.blocked > 0 {
      var k := SomebodyHolds(max, x.streams);
    }
    es := [e];
    assert [e] == [e] + [];
    RunCons(max, x, e, []);
  }

  lemma {:induction false} RecoversBy(max: nat, x: Input, i: nat) returns (es: seq<Event>)
    requires Inv(max, x) && !x.c.closing && x.c.readBlocked && Orphaned(x.streams) <= max / 2
    requires i < |x.streams| && Holds(x.streams[i]) && x.streams[i].status in {Connected, HalfClosed}
    ensures ProgressOnly(max, x, es) && !Run(max, x, es).c.readBlocked
    decreases x.c.pending, 0
  {
    InvIsSized(max, x);
    AtSettled(max, x, i);
    var p := At(x, i);
    var size := HeadSize(p.s);
    WritesHead(max, p, Rest(x.streams, i), RestBlocked(x.streams, i));
    var e := Writable(i, AtMost(size), [Wrote(size)]);
    var y := Step(max, x, e);
    ProgressLives(max, x, e);
    OrphanedAt(x.streams, i, y.streams[i]);
    RestOfOthers(x.streams, i);
    var later := [];
    if y.c.readBlocked {
      PoppedHasSocket(max, p);
      StillHeld(max, x, i, Popped(max, p));
      later := Recovers(max, y);
    }
    es := [e] + later;
    RunCons(max, x, e, later);
  }

  lemma PoppedHasSocket(max: nat, p: Pair)
    requires Flowing(max, p.s) && Holds(p.s)
    ensures !Popped(max, p).s.eof && Popped(max, p).c.closing == p.c.closing
  {
    PopBytes(max, p);
  }

  /** While reading is disabled: writers can enable it again if and only if somebody has something to
      write, or will be connected, and what nobody will write is at most half the limit. */
  lemma RecoverableIff(max: nat, x: Input)
    requires Inv(max, x) && !x.c.closing && x.c.readBlocked
    ensures Recoverable(max, x) <==> Driver(x) && Orphaned(x.streams) <= max / 2
  {
    if Driver(x) && Orphaned(x.streams) <= max / 2 {
      if Holding(x) {
        var es := Recovers(max, x);
      } else {
        var i :| 0 <= i < |x.streams| && Drives(x.streams[i]);
        var es := RecoversByConnecting(max, x, i);
      }
    } else if Recoverable(max, x) {
      var es :| ProgressOnly(max, x, es) && !Run(max, x, es).c.readBlocked;
      if Driver(x) {
        ProgressKeepsOverhang(max, x, es);
      } else {
        NobodyWrites(max, x, es);
      }
    }
  }

  /** In every state of every run of a connection that lives. */
  lemma WakeupIff(max: nat, es: seq<Event>)
    requires AllFramed(es) && !Reached(max, es).c.closing && Reached(max, es).c.readBlocked
    ensures var x := Reached(max, es); Recoverable(max, x) <==> Driver(x) && Orphaned(x.streams) <= max / 2
  {
    ReachedInv(max, es);
    RecoverableIff(max, Reached(max, es));
  }

  // ----- When no wakeup is lost -----

  /** Reading is disabled only while something is queued. */
  predicate Waiting(c: Shared) {
    c.readBlocked ==> c.pending > 0
  }

  /** A stream that loses its socket has written everything. */
  predicate NoOrphans(x: Input) {
    forall i :: 0 <= i < |x.streams| && x.streams[i].eof ==> x.streams[i].fifo == []
  }

  /** The two ways to lose a wakeup: a stream with a backlog loses its socket, or a frame is refused in a
      resume called by a discard when nobody has anything to write. */
  predicate Strands(max: nat, x: Input, e: Event)
    requires AllSized(x)
  {
    match e
    case EndOfFile(i) => i < |x.streams| && x.streams[i].fifo != []
    case Refused(who) => who.Discard? && x.c.pending == 0
    case Payload(i, _, _, _, _, who) =>
      who.Discard? && Delivers(x, e, i) && Delivery(max, x, e).failed && Delivery(max, x, e).p.c.pending == 0
    case _ => false
  }

  predicate NothingStrands(max: nat, x: Input, es: seq<Event>)
    decreases |es|
  {
    es != [] && AllSized(x) ==> !Strands(max, x, es[0]) && NothingStrands(max, Step(max, x, es[0]), es[1..])
  }

  lemma SendWaits(max: nat, p: Pair, budget: Budget, script: seq<Write>, rest: nat, rb: nat)
    requires Settled(max, p, rest, rb) && (rb > 0 ==> rest > 0) && !p.s.status.Gone? && Waiting(p.c)
    ensures Waiting(SendPending(max, p, budget, script).p.c)
  {
    SendKeeps(max, p, budget, script, rest, rb);
    if !p.s.eof && p.s.status in {Connected, HalfClosed} {
      WriteLoopKeeps(max, p, budget, script, rest, rb);
      FailedHolds(max, p, budget, script);
      BacklogCounts(WriteLoop(max, p, budget, script).p.s.fifo);
    }
  }

  lemma CloseWaits(max: nat, p: Pair, rest: nat, rb: nat)
    requires Closable(p, rest, rb) && !p.s.status.Gone? && !p.c.closing && (rb > 0 ==> rest > 0)
    ensures Waiting(Close(max, p).c)
  {
  }

  lemma RemainderWaits(max: nat, p: Pair, data: Bytes, script: seq<Write>)
    requires Waiting(p.c) && data != []
    ensures Waiting(Remainder(max, p, data, script).p.c)
  {
  }

  lemma QueueWaits(max: nat, p: Pair, data: Bytes, ready: bool, flush: seq<Write>, direct: seq<Write>, rest: nat,
                   rb: nat)
    requires Settled(max, p, rest, rb) && (rb > 0 ==> rest > 0) && p.s.status in {Connecting, Connected} && Waiting(p.c)
    ensures Waiting(Queue(max, p, data, ready, flush, direct).p.c)
  {
    var q := Handed(p, data);
    if data != [] && !q.s.eof && q.s.status.Connected? {
      SendWaits(max, q, Unlimited, flush, rest, rb);
      RemainderWaits(max, q, data, direct);
      RemainderWaits(max, SendPending(max, q, Unlimited, flush).p, data, direct);
    }
  }

  lemma FinWaits(max: nat, p: Pair, script: seq<Write>, rest: nat, rb: nat)
    requires Settled(max, p, rest, rb) && (rb > 0 ==> rest > 0) && p.s.status in {Connecting, Connected} && Waiting(p.c)
    requires Share(p.s) && !p.s.eof
    ensures Waiting(ClientFin(max, p, script).c)
  {
    var q := p.(s := p.s.(inClosed := true));
    if !p.s.status.Connected? {
      MidIsClosable(max, q, rest, rb);
      CloseWaits(max, q, rest, rb);
    } else {
      SendKeeps(max, q, Unlimited, script, rest, rb);
      SendWaits(max, q, Unlimited, script, rest, rb);
      var r := SendPending(max, q, Unlimited, script);
      if r.failed {
        MidIsClosable(max, r.p, rest, rb);
        CloseWaits(max, r.p, rest, rb);
      }
    }
  }

  ghost predicate Awake(x: Input) {
    Waiting(x.c) && NoOrphans(x)
  }

  lemma PutAwake(x: Input, i: nat, p: Pair)
    requires NoOrphans(x) && i < |x.streams| && Waiting(p.c) && (p.s.eof ==> p.s.fifo == [])
    ensures Awake(Put(x, i, p))
  {
  }

  lemma CloseAwake(max: nat, x: Input, i: nat)
    requires Inv(max, x) && !x.c.closing && NoOrphans(x) && i < |x.streams|
    requires x.streams[i].status.Gone? ==> Waiting(x.c)
    ensures Awake(Put(x, i, Close(max, At(x, i))))
  {
    var p := At(x, i);
    if p.s.status.Gone? {
      assert x.streams[i := p.s] == x.streams;
    } else {
      AtSettled(max, x, i);
      InvIsLoose(max, p.s);
      CloseWaits(max, p, Rest(x.streams, i), RestBlocked(x.streams, i));
    }
  }

  lemma WritableAwake(max: nat, x: Input, i: nat, budget: Budget, script: seq<Write>)
    requires Inv(max, x) && !x.c.closing && Awake(x) && i < |x.streams|
    ensures AllSized(x) && Awake(Writes(max, x, i, budget, script))
  {
    InvIsSized(max, x);
    var p := At(x, i);
    if p.s.status.Gone? || p.s.eof {
      assert x.streams[i := p.s] == x.streams;
    } else {
      var rest, rb := Rest(x.streams, i), RestBlocked(x.streams, i);
      AtSettled(max, x, i);
      SendKeeps(max, p, budget, script, rest, rb);
      SendWaits(max, p, budget, script, rest, rb);
      var r := SendPending(max, p, budget, script);
      if r.failed {
        MidIsClosable(max, r.p, rest, rb);
        CloseWaits(max, r.p, rest, rb);
      }
      PutAwake(x, i, OnWritable(max, p, budget, script));
    }
  }

  lemma RefuseAwake(max: nat, x: Input, who: Caller)
    requires Inv(max, x) && !x.c.closing && Awake(x) && !who.Reader?
    requires who.Discard? ==> x.c.pending > 0
    requires who.Writer? ==> who.i < |x.streams| && (!x.streams[who.i].status.Gone? || x.c.pending > 0)
    ensures Awake(Refuse(max, x, who))
  {
    if who.Writer? {
      CloseAwake(max, Barred(x), who.i);
    }
  }

  lemma PayloadAwake(max: nat, x: Input, e: Event)
    requires Inv(max, x) && Framed(e) && Awake(x) && e.Payload? && Delivers(x, e, e.i)
    requires AllSized(x) && !Strands(max, x, e)
    ensures !OnPayload(max, x, e).c.closing ==> Awake(OnPayload(max, x, e))
  {
    PayloadKeeps(max, x, e);
    AtSettled(max, x, e.i);
    QueueWaits(max, At(x, e.i), e.data, e.ready, e.flush, e.direct, Rest(x.streams, e.i), RestBlocked(x.streams, e.i));
    var r := Delivery(max, x, e);
    PutAwake(x, e.i, r.p);
    if r.failed {
      if e.who.Reader? {
        ReaderEnds(max, Put(x, e.i, r.p), e.i);
      } else {
        PutPayload(max, x, e);
        RefuseAwake(max, Put(x, e.i, r.p), e.who);
      }
    }
  }

  lemma FinAwake(max: nat, x: Input, i: nat, script: seq<Write>)
    requires Inv(max, x) && !x.c.closing && Awake(x) && i < |x.streams| && !x.streams[i].inClosed
    ensures AllSized(x) && Awake(Put(x, i, ClientFin(max, At(x, i), script)))
  {
    InvIsSized(max, x);
    AtSettled(max, x, i);
    var rest, rb := Rest(x.streams, i), RestBlocked(x.streams, i);
    FinWaits(max, At(x, i), script, rest, rb);
    FinHasSocket(max, At(x, i), script, rest, rb);
  }

  lemma StepAwake(max: nat, x: Input, e: Event)
    requires Inv(max, x) && Framed(e) && !x.c.closing && Awake(x) && AllSized(x) && !Strands(max, x, e)
    ensures !Step(max, x, e).c.closing ==> Awake(Step(max, x, e))
  {
    match e
    case Open =>
    case Finalize => ClosedEnds(max, x);
    case ConnectDone(i, budget, script) =>
      if i < |x.streams| && x.streams[i].status.Connecting? {
        ConnectKeeps(max, x, i);
        WritableAwake(max, Established(x, i), i, budget, script);
      }
    case Payload(i, _, _, _, _, _) =>
      if Delivers(x, e, i) {
        PayloadAwake(max, x, e);
      }
    case Refused(who) =>
      if Handles(x, who) {
        if who.Reader? {
          ClosedEnds(max, x);
        } else {
          RefuseAwake(max, x, who);
        }
      }
    case Fin(i, script) =>
      if i < |x.streams| && !x.streams[i].inClosed {
        FinAwake(max, x, i, script);
      }
    case Writable(i, budget, script) =>
      if i < |x.streams| {
        WritableAwake(max, x, i, budget, script);
      }
    case EndOfFile(i) =>
    case CloseStream(i) =>
      if i < |x.streams| {
        CloseAwake(max, x, i);
      }
    case CloseCompletes(i) =>
  }

  lemma {:induction false} RunAwake(max: nat, x: Input, es: seq<Event>)
    requires Inv(max, x) && AllFramed(es) && !x.c.closing && Awake(x) && NothingStrands(max, x, es)
    ensures !Run(max, x, es).c.closing ==> Awake(Run(max, x, es))
    decreases |es|
  {
    InvIsSized(max, x);
    if es != [] {
      var x1 := Step(max, x, es[0]);
      StepKeeps(max, x, es[0]);
      StepAwake(max, x, es[0]);
      if x1.c.closing {
        ClosedStays(max, x1, es[1..], 0);
      } else {
        RunAwake(max, x1, es[1..]);
      }
    }
  }

  lemma {:induction false} NothingOrphaned(max: nat, ss: seq<Stream>)
    requires Streams(max, ss) && forall i :: 0 <= i < |ss| && ss[i].eof ==> ss[i].fifo == []
    ensures Orphaned(ss) == 0
    decreases |ss|
  {
    if ss != [] {
      assert StreamInv(max, ss[0]);
      NothingOrphaned(max, ss[1..]);
    }
  }

  /** Over every run in which neither happens, disabled reading is only a pause: writers can enable it. */
  lemma NoWakeupIsLost(max: nat, es: seq<Event>)
    requires AllFramed(es) && NothingStrands(max, Initial(), es)
    requires !Reached(max, es).c.closing && Reached(max, es).c.readBlocked
    ensures Recoverable(max, Reached(max, es))
  {
    ReachedInv(max, es);
    RunAwake(max, Initial(), es);
    var x := Reached(max, es);
    NothingOrphaned(max, x.streams);
    var i := SomebodyHolds(max, x.streams);
    assert Drives(x.streams[i]);
    RecoverableIff(max, x);
  }

  // ----- What enables reading when nothing is queued -----

  /** An event of the client's bytes; while reading is disabled and nothing is left over there is none. */
  predicate FromClient(e: Event) {
    e.Payload? || e.Refused? || e.Fin?
  }

  /** Payload of a stream is discarded, a connection is established, or a socket without a backlog
      reports that it is writable. */
  predicate Reopens(x: Input, e: Event) {
    match e
    case CloseStream(i) => i < |x.streams| && !x.streams[i].status.Gone?
    case CloseCompletes(i) => i < |x.streams| && x.streams[i].status.Gone?
    case ConnectDone(i, _, _) => i < |x.streams| && x.streams[i].status.Connecting?
    case Writable(i, _, _) =>
      i < |x.streams| && x.streams[i].status in {Connected, HalfClosed} && !x.streams[i].eof
    case _ => false
  }

  predicate ReopensAlong(max: nat, x: Input, es: seq<Event>)
    decreases |es|
  {
    es != [] && AllSized(x) && (Reopens(x, es[0]) || ReopensAlong(max, Step(max, x, es[0]), es[1..]))
  }

  predicate NoClient(es: seq<Event>) {
    forall i :: 0 <= i < |es| ==> !FromClient(es[i]) && !es[i].Finalize?
  }

  lemma {:induction false} NothingHeld(max: nat, ss: seq<Stream>, i: nat)
    requires Streams(max, ss) && SumBytes(ss) == 0 && i < |ss|
    ensures CountBlocked(ss) == 0 && ss[i].bytes == 0 && ss[i].fifo == [] && !ss[i].blocked
  {
    BlockedHold(max, ss);
    SumSplit(ss, i);
    assert StreamInv(max, ss[i]);
  }

  /** A socket of an empty connection has room. */
  lemma WritesReopens(max: nat, x: Input, i: nat, budget: Budget, script: seq<Write>)
    requires Inv(max, x) && !x.c.closing && x.c.pending == 0 && i < |x.streams|
    ensures AllSized(x)
    ensures var y := Writes(max, x, i, budget, script); var s := x.streams[i];
            && y.c.pending == 0 && !y.c.closing
            && (y.c.readBlocked
                <==> x.c.readBlocked && !(s.status in {Connected, HalfClosed} && !s.eof))
  {
    InvIsSized(max, x);
    NothingHeld(max, x.streams, i);
  }

  /** An empty connection without frames of the client: reading is enabled afterwards if and only if it
      was or the event does it. */
  lemma StepReopens(max: nat, x: Input, e: Event)
    requires Inv(max, x) && !x.c.closing && x.c.pending == 0 && !FromClient(e) && !e.Finalize?
    ensures AllSized(x)
    ensures var y := Step(max, x, e);
            && Inv(max, y) && !y.c.closing && y.c.pending == 0
            && (y.c.readBlocked <==> x.c.readBlocked && !Reopens(x, e))
  {
    StepKeeps(max, x, e);
    if !e.Open? && e.i < |x.streams| {
      NothingHeld(max, x.streams, e.i);
      assert StreamInv(max, x.streams[e.i]);
      if e.Writable? {
        WritesReopens(max, x, e.i, e.budget, e.script);
      } else if e.ConnectDone? && x.streams[e.i].status.Connecting? {
        ConnectKeeps(max, x, e.i);
        WritesReopens(max, Established(x, e.i), e.i, e.budget, e.script);
      }
    }
  }

  /** Over every run of such a connection. */
  lemma {:induction false} ReadAgainIff(max: nat, x: Input, es: seq<Event>)
    requires Inv(max, x) && !x.c.closing && x.c.pending == 0 && NoClient(es)
    ensures Run(max, x, es).c.readBlocked <==> x.c.readBlocked && !ReopensAlong(max, x, es)
    decreases |es|
  {
    if es != [] {
      StepReopens(max, x, es[0]);
      ReadAgainIff(max, Step(max, x, es[0]), es[1..]);
    }
  }
}
