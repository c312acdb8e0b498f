/** Runs of all streams of a connection, and what holds in every reachable state. */
module UpstreamRuns {
  import opened Bytes
  import opened Callers
  import opened Protocol
  import opened Upstream
  import opened UpstreamInvariant

  datatype Input = Input(streams: seq<Stream>, c: Shared)

  /** `ConnectDone` also writes the backlog, as the handler of an established connection does. After
      `CloseStream` the close of a stream that still had output completes later, with a second discard:
      `CloseCompletes`. */
  datatype Event =
    | Open
    | ConnectDone(i: nat, budget: Budget, script: seq<Write>)
    | Payload(i: nat, data: Bytes, ready: bool, flush: seq<Write>, direct: seq<Write>, who: Caller)
    | Refused(who: Caller)
    | Fin(i: nat, script: seq<Write>)
    | Writable(i: nat, budget: Budget, script: seq<Write>)
    | EndOfFile(i: nat)
    | CloseStream(i: nat)
    | CloseCompletes(i: nat)
    | Finalize

  const FRESH: Stream := Stream([], 0, Connecting, false, false, false, false, 0, [], [], [])

  function Initial(): Input {
    Input([], Shared(0, 0, false, false, false))
  }

  function At(x: Input, i: nat): Pair
    requires i < |x.streams|
  {
    Pair(x.streams[i], x.c)
  }

  function Put(x: Input, i: nat, p: Pair): Input
    requires i < |x.streams|
  {
    Input(x.streams[i := p.s], p.c)
  }

  /** Close every stream of the list, from the i-th on. */
  function CloseFrom(max: nat, x: Input, i: nat): Input
    decreases |x.streams| - i
  {
    if i >= |x.streams| then x else CloseFrom(max, Put(x, i, Close(max, At(x, i))), i + 1)
  }

  function Finalized(max: nat, x: Input): Input {
    CloseFrom(max, x.(c := x.c.(closing := true)), 0)
  }

  /** Frames are handled while input is not paused; a writer on whose behalf that happens has a socket. */
  predicate Handles(x: Input, who: Caller) {
    && !x.c.closing && !x.c.paused
    && (who.Writer? ==> who.i < |x.streams| && !x.streams[who.i].status.Gone? && !x.streams[who.i].eof)
  }

  /** A frame that takes payload to the i-th stream. */
  predicate Delivers(x: Input, e: Event, i: nat) {
    e.Payload? && e.i == i < |x.streams| && Handles(x, e.who) && !x.streams[i].inClosed
  }

  function Barred(x: Input): Input {
    x.(c := x.c.(readBlocked := true))
  }

  /** A frame is refused. Only the read handler ends the connection; a writer closes its own stream,
      and in either other case the resume that handled the frame does not enable reading. */
  function Refuse(max: nat, x: Input, who: Caller): Input {
    match who
    case Reader => Finalized(max, x)
    case Discard => Barred(x)
    case Writer(j) => if j < |x.streams| then Put(Barred(x), j, Close(max, At(Barred(x), j))) else Barred(x)
  }

  function Delivery(max: nat, x: Input, e: Event): Sending
    requires e.Payload? && e.i < |x.streams| && Sized(x.streams[e.i].fifo)
  {
    Queue(max, At(x, e.i), e.data, e.ready, e.flush, e.direct)
  }

  /** A stream no longer found under its id, or that no longer accepts payload, ignores frames. */
  function OnPayload(max: nat, x: Input, e: Event): Input
    requires e.Payload? && e.i < |x.streams| && Sized(x.streams[e.i].fifo)
  {
    if !Delivers(x, e, e.i) then x
    else
      var r := Delivery(max, x, e);
      if r.failed then Refuse(max, Put(x, e.i, r.p), e.who) else Put(x, e.i, r.p)
  }

  function OnWritable(max: nat, p: Pair, budget: Budget, script: seq<Write>): Pair
    requires Sized(p.s.fifo)
  {
    var r := SendPending(max, p, budget, script);
    if r.failed then Close(max, r.p) else r.p
  }

  function Writes(max: nat, x: Input, i: nat, budget: Budget, script: seq<Write>): Input
    requires i < |x.streams| && Sized(x.streams[i].fifo)
  {
    Put(x, i, OnWritable(max, At(x, i), budget, script))
  }

  function Established(x: Input, i: nat): Input
    requires i < |x.streams|
  {
    Put(x, i, Pair(x.streams[i].(status := Connected), x.c))
  }

  predicate AllSized(x: Input) {
    forall i :: 0 <= i < |x.streams| ==> Sized(x.streams[i].fifo)
  }

  function Step(max: nat, x: Input, e: Event): Input
    requires AllSized(x)
  {
    if x.c.closing then x
    else
      match e
      case Open => x.(streams := x.streams + [FRESH])
      case Finalize => Finalized(max, x)
      case ConnectDone(i, budget, script) =>
        if i < |x.streams| && x.streams[i].status.Connecting? then Writes(max, Established(x, i), i, budget, script)
        else x
      case Payload(i, _, _, _, _, _) => if i < |x.streams| then OnPayload(max, x, e) else x
      case Refused(who) => if Handles(x, who) then Refuse(max, x, who) else x
      case EndOfFile(i) => if i < |x.streams| then Put(x, i, Lost(At(x, i))) else x
      case Fin(i, script) =>
        if i < |x.streams| && !x.streams[i].inClosed then Put(x, i, ClientFin(max, At(x, i), script)) else x
      case Writable(i, budget, script) =>
        if i < |x.streams| then Writes(max, x, i, budget, script) else x
      case CloseStream(i) => if i < |x.streams| then Put(x, i, Close(max, At(x, i))) else x
      case CloseCompletes(i) =>
        if i < |x.streams| && x.streams[i].status.Gone? then x.(c := Resumed(max, x.c)) else x
  }

  // ----- Sums -----

  function SumBytes(ss: seq<Stream>): nat {
    if ss == [] then 0 else ss[0].bytes + SumBytes(ss[1..])
  }

  function CountBlocked(ss: seq<Stream>): nat {
    if ss == [] then 0 else One(ss[0].blocked) + CountBlocked(ss[1..])
  }

  /** What the streams other than the i-th hold. */
  function Rest(ss: seq<Stream>, i: nat): nat
    requires i < |ss|
  {
    SumBytes(ss[..i]) + SumBytes(ss[i + 1..])
  }

  function RestBlocked(ss: seq<Stream>, i: nat): nat
    requires i < |ss|
  {
    CountBlocked(ss[..i]) + CountBlocked(ss[i + 1..])
  }

  lemma {:induction false} SumAppend(a: seq<Stream>, b: seq<Stream>)
    ensures SumBytes(a + b) == SumBytes(a) + SumBytes(b)
    ensures CountBlocked(a + b) == CountBlocked(a) + CountBlocked(b)
    decreases |a|
  {
    if a == [] {
      assert a + b == b;
    } else {
      assert (a + b)[1..] == a[1..] + b;
      SumAppend(a[1..], b);
    }
  }

  lemma SumAt(ss: seq<Stream>, i: nat, s: Stream)
    requires i < |ss|
    ensures SumBytes(ss[i := s]) == Rest(ss, i) + s.bytes
    ensures CountBlocked(ss[i := s]) == RestBlocked(ss, i) + One(s.blocked)
  {
    assert ss[i := s] == ss[..i] + ([s] + ss[i + 1..]);
    SumAppend(ss[..i], [s] + ss[i + 1..]);
    SumAppend([s], ss[i + 1..]);
    assert [s][1..] == [];
  }

  lemma SumSplit(ss: seq<Stream>, i: nat)
    requires i < |ss|
    ensures SumBytes(ss) == Rest(ss, i) + ss[i].bytes
    ensures CountBlocked(ss) == RestBlocked(ss, i) + One(ss[i].blocked)
  {
    assert ss[i := ss[i]] == ss;
    SumAt(ss, i, ss[i]);
  }

  ghost predicate Streams(max: nat, ss: seq<Stream>) {
    forall i :: 0 <= i < |ss| ==> StreamInv(max, ss[i])
  }

  /** A blocked stream holds bytes. */
  lemma {:induction false} BlockedHold(max: nat, ss: seq<Stream>)
    requires Streams(max, ss)
    ensures CountBlocked(ss) > 0 ==> SumBytes(ss) > 0
    decreases |ss|
  {
    if ss != [] {
      assert StreamInv(max, ss[0]);
      BlockedHold(max, ss[1..]);
    }
  }

  lemma OthersHold(max: nat, ss: seq<Stream>, i: nat)
    requires Streams(max, ss) && i < |ss|
    ensures RestBlocked(ss, i) > 0 ==> Rest(ss, i) > 0
  {
    BlockedHold(max, ss[..i]);
    BlockedHold(max, ss[i + 1..]);
  }

  // ----- The invariant -----

  /** Exact counters; the limits of the flow control; nothing left behind by a closed connection. */
  ghost predicate Inv(max: nat, x: Input) {
    && Streams(max, x.streams)
    && x.c.pending == SumBytes(x.streams)
    && x.c.blocked == CountBlocked(x.streams)
    && (if x.c.closing then Ended(x) else Controlled(max, x.c))
  }

  ghost predicate Controlled(max: nat, c: Shared) {
    && (!c.paused ==> c.pending <= max)
    && (c.paused ==> c.pending > 0 && c.readBlocked)
    && c.pending <= max + MAX_FRAME_DATA
  }

  ghost predicate Ended(x: Input) {
    x.c.pending == 0 && x.c.blocked == 0 && forall i :: 0 <= i < |x.streams| ==> x.streams[i].status.Gone?
  }

  lemma InvIsSized(max: nat, x: Input)
    requires Streams(max, x.streams)
    ensures AllSized(x)
  {
    forall i | 0 <= i < |x.streams| ensures Sized(x.streams[i].fifo) {
      assert StreamInv(max, x.streams[i]);
    }
  }

  lemma AtSettled(max: nat, x: Input, i: nat)
    requires Inv(max, x) && !x.c.closing && i < |x.streams| && !x.streams[i].status.Gone?
    ensures Settled(max, At(x, i), Rest(x.streams, i), RestBlocked(x.streams, i))
    ensures RestBlocked(x.streams, i) > 0 ==> Rest(x.streams, i) > 0
    ensures StreamInv(max, x.streams[i])
  {
    SumSplit(x.streams, i);
    OthersHold(max, x.streams, i);
    assert StreamInv(max, x.streams[i]);
  }

  /** Putting a stream back. */
  lemma PutKeeps(max: nat, x: Input, i: nat, p: Pair)
    requires Inv(max, x) && !x.c.closing && i < |x.streams| && !p.c.closing && StreamInv(max, p.s)
    requires Counted(max, p, Rest(x.streams, i), RestBlocked(x.streams, i)) && (p.c.paused ==> p.c.pending > 0)
    requires p.c.pending <= max + MAX_FRAME_DATA
    ensures Inv(max, Put(x, i, p))
  {
    SumAt(x.streams, i, p.s);
    assert Streams(max, Put(x, i, p).streams);
  }

  // ----- Closing the connection -----

  /** What the end of a connection needs of a stream; a failed write leaves at least this. */
  ghost predicate Loose(max: nat, s: Stream) {
    if s.status.Gone? then StreamInv(max, s)
    else
      && s.bytes == Total(s.fifo) && IsPrefix(s.written, s.accepted) && Share(s)
      && s.shutdowns <= 1 && (s.shutdowns == 1 ==> s.written == s.accepted) && (s.eof ==> !s.status.Connecting?)
  }

  ghost predicate Ending(max: nat, x: Input, i: nat) {
    && i <= |x.streams| && x.c.closing && (x.c.paused ==> x.c.readBlocked)
    && x.c.pending == SumBytes(x.streams) && x.c.blocked == CountBlocked(x.streams)
    && (forall j :: 0 <= j < |x.streams| ==> Loose(max, x.streams[j]))
    && (forall j :: 0 <= j < i ==> x.streams[j].status.Gone?)
  }

  lemma CloseOneOfAll(max: nat, x: Input, i: nat)
    requires Ending(max, x, i) && i < |x.streams|
    ensures Ending(max, Put(x, i, Close(max, At(x, i))), i + 1)
  {
    var p := At(x, i);
    var q := Close(max, p);
    SumSplit(x.streams, i);
    assert Loose(max, x.streams[i]);
    if !p.s.status.Gone? {
      CloseKeeps(max, p, Rest(x.streams, i), RestBlocked(x.streams, i));
    }
    SumAt(x.streams, i, q.s);
    var y := Put(x, i, q);
    forall j | 0 <= j < |y.streams| ensures Loose(max, y.streams[j]) {
      if j != i {
        assert Loose(max, x.streams[j]);
      }
    }
  }

  lemma {:induction false} CloseFromEnds(max: nat, x: Input, i: nat)
    requires Ending(max, x, i)
    ensures Ending(max, CloseFrom(max, x, i), |x.streams|) && |CloseFrom(max, x, i).streams| == |x.streams|
    decreases |x.streams| - i
  {
    if i < |x.streams| {
      CloseOneOfAll(max, x, i);
      CloseFromEnds(max, Put(x, i, Close(max, At(x, i))), i + 1);
    }
  }

  lemma {:induction false} GoneHoldNothing(max: nat, ss: seq<Stream>)
    requires forall j :: 0 <= j < |ss| ==> Loose(max, ss[j]) && ss[j].status.Gone?
    ensures SumBytes(ss) == 0 && CountBlocked(ss) == 0 && Streams(max, ss)
    decreases |ss|
  {
    if ss != [] {
      assert Loose(max, ss[0]);
      GoneHoldNothing(max, ss[1..]);
      forall j | 0 <= j < |ss| ensures StreamInv(max, ss[j]) {
        assert Loose(max, ss[j]);
      }
    }
  }

  lemma FinalizedKeeps(max: nat, x: Input)
    requires x.c.pending == SumBytes(x.streams) && x.c.blocked == CountBlocked(x.streams)
    requires x.c.paused ==> x.c.readBlocked
    requires forall j :: 0 <= j < |x.streams| ==> Loose(max, x.streams[j])
    ensures Inv(max, Finalized(max, x)) && Finalized(max, x).c.closing
  {
    var y := x.(c := x.c.(closing := true));
    CloseFromEnds(max, y, 0);
    GoneHoldNothing(max, Finalized(max, x).streams);
  }

  lemma InvIsLoose(max: nat, s: Stream)
    requires StreamInv(max, s)
    ensures Loose(max, s)
  {
    if s.status.HalfClosed? && s.fifo == [] {
      assert s.written + Unsent(s.fifo) == s.written;
    }
  }

  // ----- Steps -----

  lemma FedShares(s: Stream, t: Stream, data: Bytes, failed: bool)
    requires Share(s) && FedBy(s, t, data, failed)
    ensures Share(t)
  {
    var k := |t.accepted| - |s.accepted|;
    assert data[..|data|] == data;
  }

  lemma PayloadKeeps(max: nat, x: Input, e: Event)
    requires Inv(max, x) && e.Payload? && |e.data| <= MAX_FRAME_DATA && Delivers(x, e, e.i)
    ensures AllSized(x) && Inv(max, OnPayload(max, x, e))
    ensures var r := Delivery(max, x, e); FedBy(x.streams[e.i], r.p.s, e.data, r.failed)
  {
    InvIsSized(max, x);
    AtSettled(max, x, e.i);
    QueueKeeps(max, At(x, e.i), e.data, e.ready, e.flush, e.direct, Rest(x.streams, e.i),
      RestBlocked(x.streams, e.i));
    var r := Delivery(max, x, e);
    FedShares(x.streams[e.i], r.p.s, e.data, r.failed);
    PutKeeps(max, x, e.i, r.p);
    if r.failed {
      RefuseKeeps(max, Put(x, e.i, r.p), e.who);
    }
  }

  lemma AllLoose(max: nat, x: Input)
    requires Inv(max, x)
    ensures forall j :: 0 <= j < |x.streams| ==> Loose(max, x.streams[j])
  {
    forall j | 0 <= j < |x.streams| ensures Loose(max, x.streams[j]) {
      InvIsLoose(max, x.streams[j]);
    }
  }

  lemma RefuseKeeps(max: nat, x: Input, who: Caller)
    requires Inv(max, x) && !x.c.closing
    ensures Inv(max, Refuse(max, x, who))
  {
    match who
    case Reader =>
      AllLoose(max, x);
      FinalizedKeeps(max, x);
    case Discard =>
    case Writer(j) =>
      if j < |x.streams| {
        CloseStepKeeps(max, Barred(x), j);
      }
  }

  lemma LostKeeps(max: nat, x: Input, i: nat)
    requires Inv(max, x) && !x.c.closing && i < |x.streams|
    ensures Inv(max, Put(x, i, Lost(At(x, i))))
  {
    var p := At(x, i);
    if p.s.status in {Connected, HalfClosed} {
      AtSettled(max, x, i);
      PutKeeps(max, x, i, Lost(p));
    } else {
      assert x.streams[i := p.s] == x.streams;
    }
  }

  lemma CloseStepKeeps(max: nat, x: Input, i: nat)
    requires Inv(max, x) && !x.c.closing && i < |x.streams|
    ensures Inv(max, Put(x, i, Close(max, At(x, i))))
  {
    var p := At(x, i);
    if p.s.status.Gone? {
      assert x.streams[i := p.s] == x.streams;
    } else {
      var rest, rb := Rest(x.streams, i), RestBlocked(x.streams, i);
      AtSettled(max, x, i);
      assert Loose(max, p.s) by {
        InvIsLoose(max, p.s);
      }
      CloseKeeps(max, p, rest, rb);
      CloseSettles(max, p, rest, rb);
      PutKeeps(max, x, i, Close(max, p));
    }
  }

  lemma FinStepKeeps(max: nat, x: Input, i: nat, script: seq<Write>)
    requires Inv(max, x) && !x.c.closing && i < |x.streams| && !x.streams[i].inClosed
    ensures AllSized(x) && Inv(max, Put(x, i, ClientFin(max, At(x, i), script)))
  {
    InvIsSized(max, x);
    assert StreamInv(max, x.streams[i]);
    AtSettled(max, x, i);
    FinKeeps(max, At(x, i), script, Rest(x.streams, i), RestBlocked(x.streams, i));
    PutKeeps(max, x, i, ClientFin(max, At(x, i), script));
  }

  lemma WritableKeeps(max: nat, x: Input, i: nat, budget: Budget, script: seq<Write>)
    requires Inv(max, x) && !x.c.closing && i < |x.streams|
    ensures AllSized(x) && Inv(max, Writes(max, x, i, budget, script))
  {
    InvIsSized(max, x);
    var p := At(x, i);
    if p.s.status.Gone? {
      assert x.streams[i := p.s] == x.streams;
    } else {
      var rest, rb := Rest(x.streams, i), RestBlocked(x.streams, i);
      AtSettled(max, x, i);
      SendKeeps(max, p, budget, script, rest, rb);
      var r := SendPending(max, p, budget, script);
      if r.failed {
        MidIsClosable(max, r.p, rest, rb);
        CloseKeeps(max, r.p, rest, rb);
        CloseSettles(max, r.p, rest, rb);
      }
      PutKeeps(max, x, i, OnWritable(max, p, budget, script));
    }
  }

  lemma OpenKeeps(max: nat, x: Input)
    requires Inv(max, x) && !x.c.closing
    ensures Inv(max, x.(streams := x.streams + [FRESH]))
  {
    SumAppend(x.streams, [FRESH]);
    assert [FRESH][1..] == [];
  }

  lemma ConnectKeeps(max: nat, x: Input, i: nat)
    requires Inv(max, x) && !x.c.closing && i < |x.streams| && x.streams[i].status.Connecting?
    ensures Inv(max, Established(x, i))
  {
    AtSettled(max, x, i);
    PutKeeps(max, x, i, Pair(x.streams[i].(status := Connected), x.c));
  }

  predicate Framed(e: Event) {
    e.Payload? ==> |e.data| <= MAX_FRAME_DATA
  }

  /** One event, whatever it is and whatever the sockets do. */
  lemma StepKeeps(max: nat, x: Input, e: Event)
    requires Inv(max, x) && Framed(e)
    ensures AllSized(x) && Inv(max, Step(max, x, e))
  {
    InvIsSized(max, x);
    if !x.c.closing {
      match e
      case Open => OpenKeeps(max, x);
      case Finalize =>
        AllLoose(max, x);
        FinalizedKeeps(max, x);
      case ConnectDone(i, budget, script) =>
        if i < |x.streams| && x.streams[i].status.Connecting? {
          ConnectKeeps(max, x, i);
          WritableKeeps(max, Established(x, i), i, budget, script);
        }
      case Payload(i, _, _, _, _, _) =>
        if Delivers(x, e, i) {
          PayloadKeeps(max, x, e);
        }
      case Refused(who) =>
        if Handles(x, who) {
          RefuseKeeps(max, x, who);
        }
      case EndOfFile(i) =>
        if i < |x.streams| {
          LostKeeps(max, x, i);
        }
      case Fin(i, script) =>
        if i < |x.streams| && !x.streams[i].inClosed {
          FinStepKeeps(max, x, i, script);
        }
      case Writable(i, budget, script) =>
        if i < |x.streams| {
          WritableKeeps(max, x, i, budget, script);
        }
      case CloseStream(i) =>
        if i < |x.streams| {
          CloseStepKeeps(max, x, i);
        }
      case CloseCompletes(i) =>
    }
  }

  /** The state after a run of events. (No buffer of a reachable state is written past its end.) */
  function Run(max: nat, x: Input, es: seq<Event>): Input
    decreases |es|
  {
    if es == [] || !AllSized(x) then x else Run(max, Step(max, x, es[0]), es[1..])
  }

  predicate AllFramed(es: seq<Event>) {
    forall i :: 0 <= i < |es| ==> Framed(es[i])
  }

  /** The invariant holds after every sequence of events. */
  lemma {:induction false} RunKeeps(max: nat, x: Input, es: seq<Event>)
    requires Inv(max, x) && AllFramed(es)
    ensures Inv(max, Run(max, x, es))
    decreases |es|
  {
    if es != [] {
      StepKeeps(max, x, es[0]);
      RunKeeps(max, Step(max, x, es[0]), es[1..]);
    }
  }

  function Reached(max: nat, es: seq<Event>): Input {
    Run(max, Initial(), es)
  }

  lemma ReachedInv(max: nat, es: seq<Event>)
    requires AllFramed(es)
    ensures Inv(max, Reached(max, es))
  {
    RunKeeps(max, Initial(), es);
  }

  // ----- What a stream is given -----

  /** Payload is lost although the connection goes on: handing it to the i-th stream fails in a resume
      that was called by a writer or a discard. */
  predicate Drops(max: nat, x: Input, e: Event, i: nat)
    requires AllSized(x)
  {
    Delivers(x, e, i) && !e.who.Reader? && Delivery(max, x, e).failed
  }

  predicate DropsIn(max: nat, x: Input, es: seq<Event>, i: nat)
    decreases |es|
  {
    es != [] && AllSized(x) && (Drops(max, x, es[0], i) || DropsIn(max, Step(max, x, es[0]), es[1..], i))
  }

  /** What a stream has been given and has taken. */
  predicate SameHistory(s: Stream, t: Stream) {
    t.dispatched == s.dispatched && t.accepted == s.accepted
  }

  lemma {:induction false} CloseFromHistory(max: nat, x: Input, k: nat, i: nat)
    requires i < |x.streams|
    ensures |CloseFrom(max, x, k).streams| == |x.streams| && CloseFrom(max, x, k).c.closing == x.c.closing
    ensures SameHistory(x.streams[i], CloseFrom(max, x, k).streams[i])
    decreases |x.streams| - k
  {
    if k < |x.streams| {
      CloseFromHistory(max, Put(x, k, Close(max, At(x, k))), k + 1, i);
    }
  }

  lemma RefuseHistory(max: nat, x: Input, who: Caller, i: nat)
    requires i < |x.streams|
    ensures |Refuse(max, x, who).streams| == |x.streams|
    ensures SameHistory(x.streams[i], Refuse(max, x, who).streams[i])
  {
    if who.Reader? {
      CloseFromHistory(max, x.(c := x.c.(closing := true)), 0, i);
    }
  }

  lemma FinHistory(max: nat, x: Input, i: nat, script: seq<Write>)
    requires Inv(max, x) && !x.c.closing && i < |x.streams| && !x.streams[i].inClosed
    ensures AllSized(x) && SameHistory(x.streams[i], ClientFin(max, At(x, i), script).s)
  {
    InvIsSized(max, x);
    AtSettled(max, x, i);
    var p := At(x, i);
    if p.s.status.Connected? {
      SendKeeps(max, p.(s := p.s.(inClosed := true)), Unlimited, script, Rest(x.streams, i), RestBlocked(x.streams, i));
    }
  }

  lemma WritesHistory(max: nat, x: Input, k: nat, budget: Budget, script: seq<Write>, i: nat)
    requires Inv(max, x) && !x.c.closing && k < |x.streams| && i < |x.streams|
    ensures AllSized(x) && SameHistory(x.streams[i], Writes(max, x, k, budget, script).streams[i])
  {
    InvIsSized(max, x);
    if !x.streams[k].status.Gone? {
      AtSettled(max, x, k);
      SendKeeps(max, At(x, k), budget, script, Rest(x.streams, k), RestBlocked(x.streams, k));
    }
  }

  /** What is handed to a stream is exactly the payload of the frames handled for it, in their order,
      each once; what it takes of a frame is all of it, or if handing it over fails the beginning. */
  lemma StepAccepts(max: nat, x: Input, e: Event, i: nat)
    requires Inv(max, x) && Framed(e) && i < |x.streams|
    ensures AllSized(x) && i < |Step(max, x, e).streams|
    ensures var s, t := x.streams[i], Step(max, x, e).streams[i];
            if Delivers(x, e, i) then t.dispatched == s.dispatched + e.data
              && TookOf(s, t, e.data, Delivery(max, x, e).failed)
            else SameHistory(s, t)
  {
    InvIsSized(max, x);
    if !x.c.closing {
      match e
      case Finalize => CloseFromHistory(max, x.(c := x.c.(closing := true)), 0, i);
      case Payload(k, _, _, _, _, _) =>
        if Delivers(x, e, k) {
          PayloadAccepts(max, x, e, i);
        }
      case Refused(who) => RefuseHistory(max, x, who, i);
      case Fin(k, script) =>
        if k == i && !x.streams[i].inClosed {
          FinHistory(max, x, i, script);
        }
      case ConnectDone(k, budget, script) =>
        if k < |x.streams| && x.streams[k].status.Connecting? {
          ConnectKeeps(max, x, k);
          WritesHistory(max, Established(x, k), k, budget, script, i);
        }
      case Writable(k, budget, script) =>
        if k < |x.streams| {
          WritesHistory(max, x, k, budget, script, i);
        }
      case _ =>
    }
  }

  lemma PayloadAccepts(max: nat, x: Input, e: Event, i: nat)
    requires Inv(max, x) && Framed(e) && e.Payload? && Delivers(x, e, e.i) && i < |x.streams|
    ensures AllSized(x) && i < |OnPayload(max, x, e).streams|
    ensures var s, t := x.streams[i], OnPayload(max, x, e).streams[i];
            if e.i == i then t.dispatched == s.dispatched + e.data && TookOf(s, t, e.data, Delivery(max, x, e).failed)
            else SameHistory(s, t)
  {
    PayloadKeeps(max, x, e);
    var r := Delivery(max, x, e);
    if r.failed {
      RefuseHistory(max, Put(x, e.i, r.p), e.who, i);
    }
  }

  /** No byte of what was handed over is missing. */
  predicate Whole(x: Input, i: nat) {
    i < |x.streams| ==> x.streams[i].accepted == x.streams[i].dispatched
  }

  /** One event: nothing is missing afterwards if and only if nothing was and the event drops nothing.
      (If the event ends the connection, this is so for streams that were shut down.) */
  lemma StepWhole(max: nat, x: Input, e: Event, i: nat)
    requires Inv(max, x) && Framed(e)
    ensures AllSized(x)
    ensures var y := Step(max, x, e);
            !y.c.closing || x.c.closing || (i < |y.streams| && y.streams[i].shutdowns == 1) ==>
              (Whole(y, i) <==> Whole(x, i) && !Drops(max, x, e, i))
  {
    InvIsSized(max, x);
    if i < |x.streams| {
      StepAccepts(max, x, e, i);
      if Delivers(x, e, i) {
        DeliveryWhole(max, x, e, i);
      }
    } else {
      StepStreams(max, x, e);
    }
  }

  /** Streams come by opening, and none goes. */
  lemma StepStreams(max: nat, x: Input, e: Event)
    requires AllSized(x)
    ensures var y := Step(max, x, e);
            if e.Open? && !x.c.closing then y.streams == x.streams + [FRESH] else |y.streams| == |x.streams|
  {
    if !x.c.closing && x.streams != [] {
      match e
      case Finalize => CloseFromHistory(max, x.(c := x.c.(closing := true)), 0, 0);
      case Payload(k, _, _, _, _, _) =>
        if Delivers(x, e, k) {
          RefuseHistory(max, Put(x, k, Delivery(max, x, e).p), e.who, 0);
        }
      case Refused(who) => RefuseHistory(max, x, who, 0);
      case _ =>
    }
  }

  lemma DeliveryWhole(max: nat, x: Input, e: Event, i: nat)
    requires Inv(max, x) && Framed(e) && Delivers(x, e, i)
    ensures AllSized(x)
    ensures var y := Step(max, x, e);
            i < |y.streams| && (!y.c.closing || y.streams[i].shutdowns == 1 ==>
              (Whole(y, i) <==> Whole(x, i) && !Drops(max, x, e, i)))
  {
    StepAccepts(max, x, e, i);
    PayloadKeeps(max, x, e);
    var s, r := x.streams[i], Delivery(max, x, e);
    assert e.data[..|e.data|] == e.data;
    assert Share(s) by {
      assert StreamInv(max, s);
    }
    if r.failed && e.who.Reader? {
      ReaderEnds(max, Put(x, i, r.p), i);
    }
  }

  /** The end of a connection shuts nothing down. */
  lemma ReaderEnds(max: nat, x: Input, i: nat)
    requires i < |x.streams|
    ensures Finalized(max, x).c.closing && |Finalized(max, x).streams| == |x.streams|
    ensures Finalized(max, x).streams[i].shutdowns == x.streams[i].shutdowns
  {
    CloseFromHistory(max, x.(c := x.c.(closing := true)), 0, i);
    CloseFromShutdowns(max, x.(c := x.c.(closing := true)), 0, i);
  }

  lemma {:induction false} CloseFromShutdowns(max: nat, x: Input, k: nat, i: nat)
    requires i < |x.streams|
    ensures |CloseFrom(max, x, k).streams| == |x.streams|
    ensures CloseFrom(max, x, k).streams[i].shutdowns == x.streams[i].shutdowns
    decreases |x.streams| - k
  {
    if k < |x.streams| {
      CloseFromShutdowns(max, Put(x, k, Close(max, At(x, k))), k + 1, i);
    }
  }

  lemma {:induction false} ClosedStays(max: nat, x: Input, es: seq<Event>, i: nat)
    requires x.c.closing
    ensures Run(max, x, es) == x && !DropsIn(max, x, es, i)
    decreases |es|
  {
    if es != [] && AllSized(x) {
      ClosedStays(max, x, es[1..], i);
    }
  }

  /** Over every run, as long as the connection lives, and for a stream that was shut down also after
      that: no byte handed over is missing if and only if none was dropped. */
  lemma {:induction false} RunWhole(max: nat, x: Input, es: seq<Event>, i: nat)
    requires Inv(max, x) && AllFramed(es) && !x.c.closing
    ensures var y := Run(max, x, es);
            !y.c.closing || (i < |y.streams| && y.streams[i].shutdowns == 1) ==>
              (Whole(y, i) <==> Whole(x, i) && !DropsIn(max, x, es, i))
    decreases |es|
  {
    InvIsSized(max, x);
    if es != [] {
      var x1 := Step(max, x, es[0]);
      StepKeeps(max, x, es[0]);
      StepWhole(max, x, es[0], i);
      if x1.c.closing {
        ClosedStays(max, x1, es[1..], i);
      } else {
        RunWhole(max, x1, es[1..], i);
      }
    }
  }

  // ----- The promises -----

  /** The bytes written upstream followed by the queued ones are what the stream took; after a close
      they are a prefix of it. */
  lemma TakenIsKept(max: nat, es: seq<Event>, i: nat)
    requires AllFramed(es) && i < |Reached(max, es).streams|
    ensures var s := Reached(max, es).streams[i];
            && Sized(s.fifo)
            && IsPrefix(s.written, s.accepted)
            && (!s.status.Gone? ==> s.accepted == s.written + Unsent(s.fifo))
  {
    ReachedInv(max, es);
    assert StreamInv(max, Reached(max, es).streams[i]);
  }

  /** Conservation over every run of a connection that lives: for every open stream the bytes written
      upstream followed by the queued ones are exactly the payload handed to it, if and only if no
      payload for it failed in a resume called by a writer or a discard. */
  lemma ConservedIff(max: nat, es: seq<Event>, i: nat)
    requires AllFramed(es) && i < |Reached(max, es).streams|
    requires !Reached(max, es).c.closing && !Reached(max, es).streams[i].status.Gone?
    ensures var s := Reached(max, es).streams[i];
            Sized(s.fifo) && (s.dispatched == s.written + Unsent(s.fifo) <==> !DropsIn(max, Initial(), es, i))
  {
    TakenIsKept(max, es, i);
    RunWhole(max, Initial(), es, i);
  }

  /** A write shutdown happens at most once, and nothing is accepted any more; a half-closed stream
      without a backlog has been shut down. The whole payload was written before the shutdown if and
      only if no payload failed in a resume called by a writer or a discard. */
  lemma ShutdownIsLast(max: nat, es: seq<Event>, i: nat)
    requires AllFramed(es) && i < |Reached(max, es).streams|
    ensures var s := Reached(max, es).streams[i];
            && s.shutdowns <= 1
            && (s.shutdowns == 1 ==>
                  s.inClosed && s.written == s.accepted
                  && (s.written == s.dispatched <==> !DropsIn(max, Initial(), es, i)))
            && (s.status.HalfClosed? ==> (s.shutdowns == 1 <==> s.fifo == []))
  {
    ReachedInv(max, es);
    RunWhole(max, Initial(), es, i);
    var s := Reached(max, es).streams[i];
    assert StreamInv(max, s);
    if s.fifo == [] && !s.status.Gone? {
      assert s.written + Unsent(s.fifo) == s.written;
    }
  }

  /** The limits: not paused means within the limit, and one frame is all that can exceed it; paused
      means something is queued; a blocked stream holds more than half the limit. */
  lemma FlowControl(max: nat, es: seq<Event>)
    requires AllFramed(es)
    ensures var x := Reached(max, es);
            && x.c.pending == SumBytes(x.streams) && x.c.blocked == CountBlocked(x.streams)
            && x.c.pending <= max + MAX_FRAME_DATA && (x.c.closing ==> Ended(x))
            && (!x.c.closing && !x.c.paused ==> x.c.pending <= max)
            && (!x.c.closing && x.c.paused ==> x.c.pending > 0 && x.c.readBlocked)
            && (forall i :: 0 <= i < |x.streams| && x.streams[i].blocked ==> x.streams[i].bytes > max / 2)
  {
    ReachedInv(max, es);
    var x := Reached(max, es);
    forall i | 0 <= i < |x.streams| && x.streams[i].blocked ensures x.streams[i].bytes > max / 2 {
      assert StreamInv(max, x.streams[i]);
    }
  }

  /** Once everything queued is gone, input is not paused. (Whether the client is read is another matter, see
      UpstreamWakeups.) */
  lemma EmptyIsNotPaused(max: nat, es: seq<Event>)
    requires AllFramed(es)
    requires !Reached(max, es).c.closing
    requires forall i :: 0 <= i < |Reached(max, es).streams| ==> Reached(max, es).streams[i].fifo == []
    ensures !Reached(max, es).c.paused && Reached(max, es).c.blocked == 0
  {
    ReachedInv(max, es);
    var x := Reached(max, es);
    NothingQueued(max, x.streams);
  }

  lemma {:induction false} NothingQueued(max: nat, ss: seq<Stream>)
    requires Streams(max, ss) && forall i :: 0 <= i < |ss| ==> ss[i].fifo == []
    ensures SumBytes(ss) == 0 && CountBlocked(ss) == 0
    decreases |ss|
  {
    if ss != [] {
      assert StreamInv(max, ss[0]);
      NothingQueued(max, ss[1..]);
    }
  }
}
