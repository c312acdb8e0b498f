/** Runs of the upstream side that do not meet what a caller would expect, each from the beginning. */
module UpstreamLimits {
  import opened Bytes
  import opened Callers
  import opened Protocol
  import opened Upstream
  import opened UpstreamInvariant
  import opened UpstreamRuns
  import opened UpstreamWakeups

  const UP: Stream := FRESH.(status := Connected)

  /** A stream that has written all of `data`. */
  function Through(data: Bytes): Stream {
    UP.(dispatched := data, accepted := data, written := data)
  }

  /** A stream that has too much to write. */
  function Choked(data: Bytes): Stream {
    UP.(fifo := [Buf(data, 0)], bytes := |data|, blocked := true, dispatched := data, accepted := data)
  }

  function Idle(ss: seq<Stream>): Input {
    Input(ss, Shared(0, 0, false, false, false))
  }

  /** More than the limit arrives for a connected stream whose socket takes nothing. */
  function Flood(data: Bytes): Event {
    Payload(0, data, false, [], [], Reader)
  }

  lemma Floods(max: nat, ss: seq<Stream>, data: Bytes)
    requires ss != [] && ss[0] == UP && |data| > max && AllSized(Idle(ss))
    ensures Step(max, Idle(ss), Flood(data)) == Input(ss[0 := Choked(data)], Shared(|data|, 1, true, true, false))
  {
    assert [] + data == data && data[..0] == [] && [] + [Buf(data, 0)] == [Buf(data, 0)];
    assert SendDirect(data, []) == Direct(data, false) && data[..|data| - Min(|data|, |data|)] == [];
    assert UP.written + [] == [] && UP.dispatched + data == data;
  }

  // ----- Payload lost, and the connection goes on -----

  /** The first stream's socket takes everything: input is taken up on its behalf. */
  lemma Unchokes(max: nat, s: Stream, data: Bytes)
    requires |data| > max && s == UP
    ensures var x := Input([Choked(data), s], Shared(|data|, 1, true, true, false));
            AllSized(x) && Step(max, x, Writable(0, Unlimited, [Wrote(|data|)])) == Idle([Through(data), s])
  {
    var p := Pair(Choked(data), Shared(|data|, 1, true, true, false));
    var q := Pair(Through(data), Shared(0, 0, false, false, false));
    assert data[0..|data|] == data && [] + data == data;
    assert [Buf(data, 0)][1..] == [] && [Buf(data, |data|)] + [] == [Buf(data, |data|)];
    assert Offered([Buf(data, 0)], 0, CHAIN_LIMIT, Unlimited) == |data|;
    assert Settle(max, p, |data|) == q;
    assert WriteLoop(max, p, Unlimited, [Wrote(|data|)]) == Sending(q, false);
  }

  /** The second stream's socket takes one byte of its payload and fails: the first one is closed. */
  lemma Fails(max: nat, big: Bytes, data: Bytes)
    requires |data| > 1
    ensures var x := Idle([Through(big), UP]);
            && AllSized(x)
            && Step(max, x, Payload(1, data, true, [], [Wrote(1), WriteError], Writer(0)))
               == Idle([Through(big).(status := Gone, inClosed := true),
                        UP.(dispatched := data, accepted := data[..1], written := data[..1])])
  {
    assert SendDirect(data, [Wrote(1), WriteError]) == Direct(data[1..], true) by {
      assert [Wrote(1), WriteError][1..] == [WriteError];
      assert SendDirect(data[1..], [WriteError]) == Direct(data[1..], true);
    }
    assert [] + data == data && [] + data[..1] == data[..1];
  }

  lemma Finishes(max: nat, s: Stream, t: Stream)
    requires s.status.Gone? && s.fifo == [] && t.status.Connected? && t.fifo == [] && !t.eof && !t.inClosed
    requires !t.pendingShutdown && t.shutdowns == 0
    ensures AllSized(Idle([s, t]))
    ensures Step(max, Idle([s, t]), Fin(1, []))
            == Idle([s, t.(inClosed := true, status := HalfClosed, shutdowns := 1)])
  {
  }

  /** A connection is established, and there is nothing to write. */
  function Done(i: nat): Event {
    ConnectDone(i, Unlimited, [])
  }

  lemma ConnectsTwo(max: nat)
    ensures Run(max, Initial(), [Open, Open, Done(0), Done(1)]) == Idle([UP, UP])
  {
    RunFour(max, Initial(), Open, Open, Done(0), Done(1), Idle([FRESH]), Idle([FRESH, FRESH]), Idle([UP, FRESH]),
      Idle([UP, UP]));
  }

  lemma {:induction false} RunAppend(max: nat, x: Input, a: seq<Event>, b: seq<Event>)
    requires Inv(max, x) && AllFramed(a)
    ensures Run(max, x, a + b) == Run(max, Run(max, x, a), b)
    decreases |a|
  {
    InvIsSized(max, x);
    if a == [] {
      assert a + b == b;
    } else {
      assert (a + b)[0] == a[0] && (a + b)[1..] == a[1..] + b;
      StepKeeps(max, x, a[0]);
      RunAppend(max, Step(max, x, a[0]), a[1..], b);
    }
  }

  function LosingTail(big: Bytes, data: Bytes): seq<Event> {
    [Flood(big), Writable(0, Unlimited, [Wrote(|big|)]),
     Payload(1, data, true, [], [Wrote(1), WriteError], Writer(0)), Fin(1, [])]
  }

  lemma RunFour(max: nat, x: Input, a: Event, b: Event, d: Event, e: Event, x1: Input, x2: Input, x3: Input, x4: Input)
    requires AllSized(x) && x1 == Step(max, x, a) && AllSized(x1) && x2 == Step(max, x1, b)
    requires AllSized(x2) && x3 == Step(max, x2, d) && AllSized(x3) && x4 == Step(max, x3, e)
    ensures Run(max, x, [a, b, d, e]) == x4
  {
    assert [a, b, d, e] == [a] + [b, d, e] && [b, d, e] == [b] + [d, e] && [d, e] == [d] + [e] && [e] == [e] + [];
    RunCons(max, x, a, [b, d, e]);
    RunCons(max, x1, b, [d, e]);
    RunCons(max, x2, d, [e]);
    RunCons(max, x3, e, []);
  }

  /** The failing run: payload for the second stream is handled on behalf of the first, its socket fails
      after one byte, and a FIN then shuts the socket down with the rest missing. */
  lemma PayloadIsLost(max: nat, big: Bytes, data: Bytes)
    requires max < |big| <= MAX_FRAME_DATA && 1 < |data| <= MAX_FRAME_DATA
    ensures var x := Reached(max, [Open, Open, Done(0), Done(1)] + LosingTail(big, data));
            && !x.c.closing && |x.streams| == 2
            && x.streams[1].dispatched == data && x.streams[1].written == data[..1] && x.streams[1].fifo == []
            && x.streams[1].shutdowns == 1
  {
    var up := [Open, Open, Done(0), Done(1)];
    var t := UP.(dispatched := data, accepted := data[..1], written := data[..1]);
    var x2 := Idle([Through(big), UP]);
    var x3 := Idle([Through(big).(status := Gone, inClosed := true), t]);
    ConnectsTwo(max);
    Floods(max, [UP, UP], big);
    assert [UP, UP][0 := Choked(big)] == [Choked(big), UP];
    var x1 := Input([Choked(big), UP], Shared(|big|, 1, true, true, false));
    Unchokes(max, UP, big);
    Fails(max, big, data);
    Finishes(max, x3.streams[0], t);
    var tail := LosingTail(big, data);
    RunFour(max, Idle([UP, UP]), tail[0], tail[1], tail[2], tail[3], x1, x2, x3,
      Idle([x3.streams[0], t.(inClosed := true, status := HalfClosed, shutdowns := 1)]));
    RunAppend(max, Initial(), up, tail);
  }

  // ----- Wakeups lost -----

  function Refusal(big: Bytes): seq<Event> {
    [Open, Done(0), Flood(big), CloseStream(0), Refused(Discard)]
  }

  function Stranded(big: Bytes): Input {
    Barred(Idle([Choked(big).(fifo := [], bytes := 0, blocked := false, status := Gone, inClosed := true)]))
  }

  lemma OpensAndConnects(max: nat)
    ensures AllSized(Idle([FRESH])) && AllSized(Idle([UP]))
    ensures Step(max, Initial(), Open) == Idle([FRESH]) && Step(max, Idle([FRESH]), Done(0)) == Idle([UP])
  {
    assert [] + [FRESH] == [FRESH] && [FRESH][0 := UP] == [UP] && [UP][0 := UP] == [UP];
  }

  lemma ClosesAndRefuses(max: nat, big: Bytes, x: Input)
    requires x == Input([Choked(big)], Shared(|big|, 1, true, true, false))
    ensures var y := Idle(Stranded(big).streams);
            && AllSized(x) && AllSized(y)
            && Step(max, x, CloseStream(0)) == y && Step(max, y, Refused(Discard)) == Stranded(big)
  {
    assert [Choked(big)][0 := Stranded(big).streams[0]] == Stranded(big).streams;
  }

  lemma RefusalLeads(max: nat, big: Bytes)
    requires max < |big|
    ensures Reached(max, Refusal(big)) == Stranded(big)
  {
    var x1 := Input([Choked(big)], Shared(|big|, 1, true, true, false));
    OpensAndConnects(max);
    Floods(max, [UP], big);
    assert [UP][0 := Choked(big)] == [Choked(big)];
    ClosesAndRefuses(max, big, x1);
    assert Refusal(big) == [Open] + Refusal(big)[1..];
    RunCons(max, Initial(), Open, Refusal(big)[1..]);
    RunFour(max, Idle([FRESH]), Done(0), Flood(big), CloseStream(0), Refused(Discard),
      Idle([UP]), x1, Idle(Stranded(big).streams), Stranded(big));
  }

  /** The failing run of a refused frame: the flooded stream is closed, and a frame handled while its
      payload is discarded is refused. Nothing is queued, and the client is not read. No writer changes
      that, and while no frame arrives it changes exactly when something else calls the resume. */
  lemma RefusalStrands(max: nat, big: Bytes, later: seq<Event>)
    requires max < |big| <= MAX_FRAME_DATA && NoClient(later)
    ensures var x := Reached(max, Refusal(big));
            && !x.c.closing && x.c.readBlocked && !x.c.paused && x.c.pending == 0 && !Recoverable(max, x)
            && (Run(max, x, later).c.readBlocked <==> !ReopensAlong(max, x, later))
  {
    RefusalLeads(max, big);
    WakeupIff(max, Refusal(big));
    ReachedInv(max, Refusal(big));
    ReadAgainIff(max, Stranded(big), later);
  }

  function LostSocket(big: Bytes): seq<Event> {
    [Open, Done(0), Flood(big), EndOfFile(0)]
  }

  function Orphan(big: Bytes): Input {
    Input([Choked(big).(eof := true, inClosed := true)], Shared(|big|, 1, true, true, false))
  }

  lemma LossLeads(max: nat, big: Bytes)
    requires max < |big|
    ensures Reached(max, LostSocket(big)) == Orphan(big)
  {
    var x1 := Input([Choked(big)], Shared(|big|, 1, true, true, false));
    OpensAndConnects(max);
    Floods(max, [UP], big);
    assert [UP][0 := Choked(big)] == [Choked(big)];
    assert Step(max, x1, EndOfFile(0)) == Orphan(big) by {
      assert [Choked(big)][0 := Orphan(big).streams[0]] == Orphan(big).streams;
    }
    RunFour(max, Initial(), Open, Done(0), Flood(big), EndOfFile(0), Idle([FRESH]), Idle([UP]), x1, Orphan(big));
  }

  /** The failing run of a lost socket: the upstream of the flooded stream closes while its FIN has no
      place. Input is paused, and reading stays disabled over every later run that keeps the stream. */
  lemma EndOfFileStrands(max: nat, big: Bytes, later: seq<Event>)
    requires max < |big| <= MAX_FRAME_DATA && AllFramed(later)
    ensures var x := Reached(max, LostSocket(big));
            && !x.c.closing && x.c.paused && x.c.readBlocked
            && (SparesAlong(max, x, later) && !Run(max, x, later).c.closing ==> Run(max, x, later).c.readBlocked)
  {
    LossLeads(max, big);
    ReachedInv(max, LostSocket(big));
    assert Orphaned(Orphan(big).streams) == |big| by {
      assert Orphan(big).streams[1..] == [];
    }
    if SparesAlong(max, Orphan(big), later) {
      OverhangLasts(max, Orphan(big), later);
    }
  }
}
