/** Where the output multiplexer's promises end, and scheduling fairness. */
module MuxLimits {
  import opened Bytes
  import opened StreamDecoder
  import opened Protocol
  import opened Mux
  import opened MuxLists
  import opened MuxInvariant
  import opened MuxMoves
  import opened MuxLife
  import opened MuxEvents
  import opened MuxRuns
  import opened MuxTheorems
  import opened MuxHistory
  import opened MuxProgress
  import opened Wrappers

  // ---------------------------------------------------------------------------------------
  // Fairness

  function MoveTimes(m: Mux, n: nat): Mux
    decreases n
  {
    if n == 0 || m.lists.ready == [] then m else MoveTimes(MoveOne(m), n - 1)
  }

  lemma MoveAdvances(m: Mux, k: nat)
    requires Core(m) && NoUdp(m) && 0 < k < |m.lists.ready|
    ensures var n := MoveOne(m);
            && NoUdp(n) && k - 1 < |n.lists.ready| && n.lists.ready[k - 1] == m.lists.ready[k]
            && Get(n, m.lists.ready[k]) == Get(m, m.lists.ready[k])
  {
    var q := m.lists.ready; var n := MoveOne(m);
    ReadyHasOutput(m);
    assert q[0] in q && q[k] in q && q[0] != q[k];
    MoveNoUdp(m);
  }

  /** Without UDP streams on the ready list, the stream at position `k` has its head frame moved
      right after the `k` streams before it have had one moved each. */
  lemma {:induction false} RoundRobin(m: Mux, k: nat)
    requires Core(m) && NoUdp(m) && k < |m.lists.ready|
    ensures var n := MoveTimes(m, k); var h := m.lists.ready[k];
            && n.lists.ready != [] && n.lists.ready[0] == h && Get(n, h) == Get(m, h)
    decreases k
  {
    if k > 0 {
      var n := MoveOne(m);
      assert Core(n) by { MoveOneCore(m); }
      assert NoUdp(n) && k - 1 < |n.lists.ready| && n.lists.ready[k - 1] == m.lists.ready[k]
             && Get(n, m.lists.ready[k]) == Get(m, m.lists.ready[k]) by { MoveAdvances(m, k); }
      RoundRobin(n, k - 1);
    }
  }

  /** How many frames a schedule call moves. */
  function Moves(c: Conf, m: Mux, frames: nat, bytes: nat): (n: nat)
    requires frames <= DRAIN_FRAMES
    ensures frames + n <= DRAIN_FRAMES
    decreases DRAIN_FRAMES - frames
  {
    if m.lists.ready == [] || frames >= DRAIN_FRAMES || bytes >= ByteBudget(c) then 0
    else
      var out := Get(m, m.lists.ready[0]).flow.out;
      if out == [] then 0 else 1 + Moves(c, MoveOne(m), frames + 1, bytes + out[0].length)
  }

  ghost predicate HeadMoves(good: Mux -> bool, m: Mux) {
    good(m) && m.lists.ready != [] ==> Get(m, m.lists.ready[0]).flow.out != [] && good(MoveOne(m))
  }

  lemma MovesTurn(c: Conf, m: Mux, frames: nat, bytes: nat)
    requires m.lists.ready != [] && frames < DRAIN_FRAMES && bytes < ByteBudget(c)
    requires Get(m, m.lists.ready[0]).flow.out != []
    ensures var n := bytes + Get(m, m.lists.ready[0]).flow.out[0].length;
            Moves(c, m, frames, bytes) == 1 + Moves(c, MoveOne(m), frames + 1, n)
  {
  }

  lemma {:induction false} MovesCount(c: Conf, m: Mux, frames: nat, bytes: nat, good: Mux -> bool)
    requires frames <= DRAIN_FRAMES && good(m) && forall n: Mux :: HeadMoves(good, n)
    ensures Schedule(c, m, frames, bytes) == MoveTimes(m, Moves(c, m, frames, bytes))
    decreases DRAIN_FRAMES - frames
  {
    if !(m.lists.ready == [] || frames >= DRAIN_FRAMES || bytes >= ByteBudget(c)) {
      assert HeadMoves(good, m);
      MovesTurn(c, m, frames, bytes);
      ScheduleTurn(c, m, frames, bytes);
      MovesCount(c, MoveOne(m), frames + 1, bytes + Get(m, m.lists.ready[0]).flow.out[0].length, good);
    }
  }

  /** A schedule call is such a chain of moves, within the frame budget. */
  lemma ScheduleIsMoves(c: Conf, m: Mux)
    requires Core(m)
    ensures Schedule(c, m, 0, 0) == MoveTimes(m, Moves(c, m, 0, 0))
  {
    var good := n => Core(n);
    forall n: Mux ensures HeadMoves(good, n) {
      if good(n) && n.lists.ready != [] {
        ReadyHasOutput(n);
        MoveOneCore(n);
      }
    }
    MovesCount(c, m, 0, 0, good);
  }

  // ---------------------------------------------------------------------------------------
  // A frame that names a stream without being counted there

  lemma OwnedCount(a: seq<OutFrame>, f: OutFrame, b: seq<OutFrame>, h: Handle)
    requires f.owner == Some(h)
    ensures |Owned(a + [f] + b, h)| == |Owned(a + b, h)| + 1
  {
    OwnedInsert(a, f, b, h);
  }

  /** The stream's frame counter stays exact if and only if the frame is one of PSH, FIN and
      SYNACK. (The source's only other frame with a stream parameter, ALERT, is always queued
      without one.) */
  lemma ExactIffStrong(c: Conf, m: Mux, h: Handle, f: OutFrame)
    requires Core(m) && h < |m.streams| && f.owner == Some(h)
    ensures var m' := Accept(c, m, f); var w := m'.streams[h].flow;
            w.queuedFrames == |Owned(Outstanding(m'), h)| + |w.out| <==> Strong(f)
  {
    assert StreamAt(m, h);
    if f.frame.cmd != PSH && f.frame.cmd != FIN {
      ControlShare(m, h, f);
    } else {
      DataShare(c, m, h, f);
    }
  }

  lemma ControlShare(m: Mux, h: Handle, f: OutFrame)
    requires h < |m.streams| && f.owner == Some(h)
    ensures var m' := ToControl(m, f); var w, w' := m.streams[h].flow, m'.streams[h].flow;
            && |Owned(Outstanding(m'), h)| == |Owned(Outstanding(m), h)| + 1 && w'.out == w.out
            && w'.queuedFrames == w.queuedFrames + One(Strong(f))
  {
    ToControlOutstanding(m, f);
    OwnedCount(m.wire.sending + m.control, f, m.data, h);
  }

  lemma DataShare(c: Conf, m: Mux, h: Handle, f: OutFrame)
    requires h < |m.streams| && f.owner == Some(h) && (f.frame.cmd == PSH || f.frame.cmd == FIN)
    ensures var m' := Accept(c, m, f); var w, w' := m.streams[h].flow, m'.streams[h].flow;
            && |Owned(Outstanding(m'), h)| + |w'.out| == |Owned(Outstanding(m), h)| + |w.out| + 1
            && w'.queuedFrames == w.queuedFrames + 1
  {
    if GoesDirect(c, m, m.streams[h].flow, f) {
      ToDataOutstanding(m, h, f);
      OwnedLast(Outstanding(m), f, h);
    } else {
      assert Outstanding(ToStream(m, h, f)) == Outstanding(m);
    }
  }

  /** A SYNACK is accepted only on the first call, and only if the peer speaks version 2. */
  lemma SynackOnlyOnce(c: Conf, m: Mux, h: Handle, msg: Bytes)
    requires h < |m.streams|
    ensures SendSynack(c, m, h, msg).0.streams[h].flow != m.streams[h].flow
        ==> !m.streams[h].synackSent && m.peerVersion >= 2
    ensures SendSynack(c, m, h, msg).0.streams[h].synackSent
  {
    var s := m.streams[h]; var f := Frame(SYNACK, s.id, msg);
    if !s.synackSent && m.peerVersion >= 2 && f.Encodable() {
      AcceptGrewUnless(c, Set(m, h, s.(synackSent := true)), Plain(Some(h), f), h);
    }
  }

  lemma AcceptGrewUnless(c: Conf, m: Mux, f: OutFrame, h: Handle)
    requires h < |m.streams| && f.owner == Some(h) && f.frame.cmd == SYNACK
    ensures Queue(c, m, f).0.streams[h].synackSent == m.streams[h].synackSent
  {
    AcceptGrew(c, m, f, h);
  }

  // ---------------------------------------------------------------------------------------
  // Limits too small for a read

  ghost predicate AllFit(c: Conf, m: Mux) {
    forall h :: h in m.lists.blocked && Readable(Get(m, h)) ==> ReadFits(c, Get(m, h))
  }

  lemma AllFitButHead(c: Conf, m: Mux)
    requires Core(m) && m.lists.blocked != []
    requires var s := Get(m, m.lists.blocked[0]); !Readable(s) || ReadFits(c, s)
    ensures Core(Unblock(m, m.lists.blocked[0])) && Unblock(m, m.lists.blocked[0]).lists.blocked == m.lists.blocked[1..]
    ensures AllFit(c, m) <==> AllFit(c, Unblock(m, m.lists.blocked[0]))
  {
    var q := m.lists.blocked; var h := q[0]; var m1 := Unblock(m, h);
    assert h in q;
    UnblockCore(m, h);
    RemoveHead(q);
    assert forall k :: k in q <==> k == h || k in q[1..];
    assert h !in q[1..];
    assert forall k :: k in q[1..] ==> Get(m1, k) == Get(m, k);
  }

  /** With nothing left to write, every blocked reader is resumed if and only if one read of each
      that can be read fits the limit. */
  lemma {:induction false} IdleResumesIff(c: Conf, m: Mux)
    requires Core(m) && !m.pressure && m.count.pendingOutput == 0
    ensures Resume(c, m).lists.blocked == [] <==> AllFit(c, m)
    decreases |m.lists.blocked|
  {
    var q := m.lists.blocked;
    if q != [] {
      var h := q[0]; var m1 := Unblock(m, h);
      assert h in q;
      if !Readable(Get(m, h)) || ReadFits(c, Get(m, h)) {
        AllFitButHead(c, m);
        assert Resume(c, m) == Resume(c, m1);
        IdleResumesIff(c, m1);
      }
    }
  }

  /** A reader that can be read but whose read never fits stays blocked, whatever happens, as long as
      it can be read at all. */
  lemma StuckForever(c: Conf, m: Mux, es: seq<Event>, h: Handle)
    requires Reached(c, m) && h < |m.streams| && !Run(c, m, es).finalized
    requires m.streams[h].readBlocked && Readable(m.streams[h]) && !ReadFits(c, m.streams[h])
    ensures var m' := Run(c, m, es); h < |m'.streams| && (Readable(m'.streams[h]) ==> m'.streams[h].readBlocked)
  {
    ReachedIsBetween(c, m);
    RunGoes(c, m, es);
    assert Onward(c, !RunTakesEmptyDatagram(c, m, es), m.streams[h], Run(c, m, es).streams[h]);
  }

  /** No connection has a reader that waits for output that does not exist. */
  ghost predicate NeverStuck(c: Conf) {
    forall es :: StuckOnly(c, Run(c, Start(), es))
  }

  predicate StuckOnly(c: Conf, m: Mux) {
    !m.finalized && m.lists.blocked != [] ==> m.count.pendingOutput > 0
  }

  const TCP_RUN: seq<Event> :=
    [Open(1), OnStream(0, Dial(true)), OnStream(0, Established), OnStream(0, UpstreamReadable([]))]

  const UDP_RUN: seq<Event> :=
    [Open(1), OnStream(0, OpenUot(true)), OnStream(0, UdpSocket), OnStream(0, UpstreamReadable([]))]

  /** A connection with one idle stream. */
  function Lone(s: Stream): Mux {
    Start().(streams := [s], count := Counts(0, 0, 1, if s.uotCounted then 1 else 0))
  }

  const TCP_UP: Stream := NewStream(1).(state := Connected, conn := true, synackSent := true)

  const UDP_UP: Stream :=
    NewStream(1).(state := Connected, conn := true, synackSent := true, uot := true, uotConnect := true,
      uotCounted := true)

  lemma RunFour(c: Conf, m: Mux, a: Event, b: Event, d: Event, e: Event)
    ensures Run(c, m, [a, b, d, e]) == Step(c, Step(c, Step(c, Step(c, m, a), b), d), e)
  {
    RunThree(c, Step(c, m, a), b, d, e);
    assert [a, b, d, e][1..] == [b, d, e];
  }

  lemma RunThree(c: Conf, m: Mux, a: Event, b: Event, d: Event)
    ensures Run(c, m, [a, b, d]) == Step(c, Step(c, Step(c, m, a), b), d)
  {
    assert [a, b, d][1..] == [b, d] && [b, d][1..] == [d] && [d][1..] == [];
    assert Run(c, Step(c, Step(c, m, a), b), [d]) == Step(c, Step(c, Step(c, m, a), b), d);
    assert Run(c, Step(c, m, a), [b, d]) == Run(c, Step(c, Step(c, m, a), b), [d]);
  }

  lemma TcpComesUp(c: Conf)
    requires c.maxStreams > 0
    ensures Step(c, Step(c, Step(c, Start(), Open(1)), OnStream(0, Dial(true))), OnStream(0, Established))
            == Lone(TCP_UP)
  {
    var m1 := Step(c, Start(), Open(1));
    assert m1 == Lone(NewStream(1));
    var m2 := Step(c, m1, OnStream(0, Dial(true)));
    assert m2 == Lone(NewStream(1).(state := Connecting, conn := true));
    assert Step(c, m2, OnStream(0, Established)) == Lone(TCP_UP);
  }

  lemma UdpComesUp(c: Conf)
    requires c.maxStreams > 0 && c.maxUotStreams > 0
    ensures Step(c, Step(c, Step(c, Start(), Open(1)), OnStream(0, OpenUot(true))), OnStream(0, UdpSocket))
            == Lone(UDP_UP)
  {
    var m1 := Step(c, Start(), Open(1));
    assert m1 == Lone(NewStream(1));
    var m2 := Step(c, m1, OnStream(0, OpenUot(true)));
    assert m2 == Lone(UDP_UP.(conn := false));
  }

  /** A lone reader is read until it has nothing. */
  lemma VisitOnly(c: Conf, m: Mux, script: seq<Read>)
    requires !m.finalized && |m.streams| == 1 && m.lists.readReady == []
    requires Readable(m.streams[0]) && !m.streams[0].readReady && !m.streams[0].readBlocked
    ensures Step(c, m, OnStream(0, UpstreamReadable(script))) == ReadLoop(c, m, 0, 0, script).0
  {
    var s := m.streams[0]; var m1 := Requeue(m, 0);
    assert [] + [0] == [0] && [0][1..] == [];
    assert m1.streams == [s.(readReady := true)] && m1.lists.readReady == [0];
    assert PopRead(m1).streams == m.streams && PopRead(m1) == m;
    VisitLast(c, m1, 0, script);
  }

  /** An idle stream whose read does not fit is blocked as soon as it becomes readable. */
  lemma IdleReadBlocks(c: Conf, s: Stream)
    requires Readable(s) && !s.readReady && !s.readBlocked && !ReadFits(c, s)
    ensures var m := Step(c, Lone(s), OnStream(0, UpstreamReadable([])));
            m.lists.blocked == [0] && m.count.pendingOutput == 0 && !m.finalized
            && m.streams == [s.(readBlocked := true)]
  {
    var m := Lone(s);
    VisitOnly(c, m, []);
    assert ReadLoop(c, m, 0, 0, []).0 == Block(m, 0);
    assert [] + [0] == [0];
  }

  lemma TcpGetsStuck(c: Conf)
    requires c.maxStreams > 0 && HEADER_LEN + Min(c.bufferSize, TLS_RECORD_SIZE - HEADER_LEN) > c.maxPendingOutput
    ensures !StuckOnly(c, Run(c, Start(), TCP_RUN))
  {
    RunFour(c, Start(), Open(1), OnStream(0, Dial(true)), OnStream(0, Established), OnStream(0, UpstreamReadable([])));
    TcpComesUp(c);
    IdleReadBlocks(c, TCP_UP);
  }

  lemma UdpGetsStuck(c: Conf)
    requires c.maxStreams > 0 && c.maxUotStreams > 0
    requires HEADER_LEN + Min(c.bufferSize, MAX_FRAME_DATA) > c.maxPendingOutput
    ensures !StuckOnly(c, Run(c, Start(), UDP_RUN))
  {
    RunFour(c, Start(), Open(1), OnStream(0, OpenUot(true)), OnStream(0, UdpSocket), OnStream(0, UpstreamReadable([])));
    UdpComesUp(c);
    IdleReadBlocks(c, UDP_UP);
  }

  /** Over every run a blocked reader implies pending output, if and only if a header and one read of
      every kind of stream that the configuration allows fit the output limit. */
  lemma NeverStuckIff(c: Conf)
    ensures NeverStuck(c) <==> Roomy(c)
  {
    if Roomy(c) {
      forall es ensures StuckOnly(c, Run(c, Start(), es)) {
        var m := Run(c, Start(), es);
        if !m.finalized {
          assert Reached(c, m);
          BlockedMeansPending(c, m, 0);
        }
      }
    } else if c.maxStreams > 0 && HEADER_LEN + Min(c.bufferSize, TLS_RECORD_SIZE - HEADER_LEN) > c.maxPendingOutput {
      TcpGetsStuck(c);
    } else {
      UdpGetsStuck(c);
    }
  }

  // ---------------------------------------------------------------------------------------
  // A full queue at the end of a stream

  /** The same control frame `n` times. */
  function Beats(f: Frame, n: nat): seq<Event> {
    if n == 0 then [] else [Control(f.cmd, f.sid, f.data)] + Beats(f, n - 1)
  }

  /** The connection has `n` more control frames than before, and nothing else has changed. */
  ghost predicate Beaten(m: Mux, m': Mux, n: nat) {
    && m'.count == m.count.(pendingOutput := m.count.pendingOutput + HEADER_LEN * n, frames := m.count.frames + n)
    && m' == m.(control := m'.control, count := m'.count, writePending := m'.writePending)
  }

  lemma OneControl(m: Mux, f: OutFrame)
    requires f.owner.None? && f.length == HEADER_LEN
    ensures Beaten(m, ToControl(m, f), 1)
  {
  }

  const BEAT: Frame := Frame(HEART_RESPONSE, 0, [])

  /** A frame queued `n` times. */
  function Beating(c: Conf, m: Mux, f: OutFrame, n: nat): Mux
    decreases n
  {
    if n == 0 then m else Beating(c, Queue(c, m, f).0, f, n - 1)
  }

  lemma ControlStepIs(c: Conf, m: Mux, f: Frame)
    requires !m.finalized && f.Encodable() && f.cmd != PSH && f.cmd != FIN && f.cmd <= SERVER_SETTINGS
    ensures Step(c, m, Control(f.cmd, f.sid, f.data)) == Queue(c, m, Plain(None, f)).0
  {
    assert Frame(f.cmd, f.sid, f.data) == f;
  }

  lemma ControlQueued(c: Conf, m: Mux, f: OutFrame)
    requires f.owner.None? && m.count.frames < MAX_OUT_FRAMES
    ensures Queue(c, m, f).0 == ToControl(m, f)
  {
  }

  lemma BeatenChain(a: Mux, b: Mux, d: Mux, n: nat)
    requires Beaten(a, b, 1) && Beaten(b, d, n)
    ensures Beaten(a, d, n + 1)
  {
  }

  lemma RunHead(c: Conf, m: Mux, e: Event, es: seq<Event>)
    ensures Run(c, m, [e] + es) == Run(c, Step(c, m, e), es)
  {
    assert ([e] + es)[1..] == es;
  }

  lemma {:induction false} ManyBeats(c: Conf, m: Mux, f: OutFrame, n: nat)
    requires f.owner.None? && f.length == HEADER_LEN && m.count.frames + n <= MAX_OUT_FRAMES
    ensures Beaten(m, Beating(c, m, f, n), n)
    decreases n
  {
    if n > 0 {
      OneControl(m, f);
      ControlQueued(c, m, f);
      ManyBeats(c, ToControl(m, f), f, n - 1);
      BeatenChain(m, ToControl(m, f), Beating(c, m, f, n), n - 1);
    }
  }

  lemma {:induction false} RunBeats(c: Conf, m: Mux, f: Frame, n: nat)
    requires !m.finalized && m.count.frames + n <= MAX_OUT_FRAMES
    requires f.Encodable() && f.cmd != PSH && f.cmd != FIN && f.cmd <= SERVER_SETTINGS
    ensures Run(c, m, Beats(f, n)) == Beating(c, m, Plain(None, f), n)
    decreases n
  {
    if n > 0 {
      ControlStepIs(c, m, f);
      ControlQueued(c, m, Plain(None, f));
      RunHead(c, m, Control(f.cmd, f.sid, f.data), Beats(f, n - 1));
      RunBeats(c, ToControl(m, Plain(None, f)), f, n - 1);
    }
  }

  lemma {:induction false} RunAppend(c: Conf, m: Mux, a: seq<Event>, b: seq<Event>)
    ensures Run(c, m, a + b) == Run(c, Run(c, m, a), b)
    decreases |a|
  {
    if a == [] {
      assert a + b == b;
    } else {
      assert (a + b)[0] == a[0] && (a + b)[1..] == a[1..] + b;
      RunAppend(c, Step(c, m, a[0]), a[1..], b);
    }
  }

  lemma EofOf(c: Conf, m: Mux, s: Stream)
    requires !m.finalized && !m.pressure && m.streams == [s] && m.lists.readReady == []
    requires Readable(s) && !s.uot && !s.readReady && !s.readBlocked && OpenEnded(s)
    requires m.count.frames == MAX_OUT_FRAMES && HasRoom(c, m, ReadSize(c, s))
    ensures Step(c, m, OnStream(0, UpstreamReadable([Got([])]))) == Unended(m, s)
  {
    VisitOnly(c, m, [Got([])]);
    EndsReading(c, m, [Got([])], s);
    FinRefused(c, m, s);
  }

  function Unended(m: Mux, s: Stream): Mux {
    m.(streams := [Marked(s.(conn := false))])
  }

  lemma FinRefused(c: Conf, m: Mux, s: Stream)
    requires m.streams == [s] && OpenEnded(s) && m.count.frames == MAX_OUT_FRAMES
    ensures EndOfUpstream(c, m, 0) == Unended(m, s)
  {
    var t := s.(conn := false); var n := Set(m, 0, t);
    assert n.streams == [t] && n.count == m.count;
    assert Set(n, 0, Marked(t)) == Unended(m, s);
    FinShape(c, n, 0);
  }

  lemma EndsReading(c: Conf, m: Mux, script: seq<Read>, s: Stream)
    requires m.streams == [s] && !s.uot && s.id < U32_LIMIT && !m.pressure && HasRoom(c, m, ReadSize(c, s))
    requires script != [] && script[0] == Got([])
    ensures ReadLoop(c, m, 0, 0, script).0 == EndOfUpstream(c, m, 0)
  {
    assert ReadOne(c, m, 0, []) == (EndOfUpstream(c, m, 0), false);
  }

  lemma AtTheLimit(c: Conf, f: Frame, n: nat) returns (m: Mux)
    requires c.maxStreams > 0 && n <= MAX_OUT_FRAMES
    requires f.data == [] && f.sid == 0 && f.cmd == HEART_RESPONSE
    ensures m == Run(c, Start(), [Open(1), OnStream(0, Dial(true)), OnStream(0, Established)] + Beats(f, n))
    ensures Beaten(Lone(TCP_UP), m, n)
  {
    var up := [Open(1), OnStream(0, Dial(true)), OnStream(0, Established)];
    m := Run(c, Lone(TCP_UP), Beats(f, n));
    RunThree(c, Start(), up[0], up[1], up[2]);
    TcpComesUp(c);
    RunBeats(c, Lone(TCP_UP), f, n);
    ManyBeats(c, Lone(TCP_UP), Plain(None, f), n);
    RunAppend(c, Start(), up, Beats(f, n));
  }

  /** The failing input: ten thousand frames outstanding, then the upstream closes. The stream has
      lost its socket but neither ended nor given its place back. */
  lemma EofAtTheLimit(c: Conf)
    requires c.maxStreams > 0 && c.maxPendingOutput >= 100000
    ensures var m := Run(c, Start(), [Open(1), OnStream(0, Dial(true)), OnStream(0, Established)]
                                     + Beats(BEAT, MAX_OUT_FRAMES) + [OnStream(0, UpstreamReadable([Got([])]))]);
            && m.streams == [TCP_UP.(conn := false, closedByProtocol := true)] && m.count.active == 1
  {
    var m := AtTheLimit(c, BEAT, MAX_OUT_FRAMES);
    EofOf(c, m, TCP_UP);
    RunAppend(c, Start(), [Open(1), OnStream(0, Dial(true)), OnStream(0, Established)] + Beats(BEAT, MAX_OUT_FRAMES),
      [OnStream(0, UpstreamReadable([Got([])]))]);
    RunOne(c, m, OnStream(0, UpstreamReadable([Got([])])));
  }

  // ---------------------------------------------------------------------------------------
  // Empty datagrams

  /** A read makes a frame whose bytes are not its encoding if and only if it is an empty
      datagram of a connected UDP stream. */
  lemma TruncatedIffEmptyDatagram(h: Handle, s: Stream, bytes: Bytes)
    requires s.id < U32_LIMIT && |bytes| <= MAX_FRAME_DATA
    requires s.uot && s.uotConnect ==> |bytes| + 2 <= MAX_FRAME_DATA
    ensures var f := ReadFrame(h, s, bytes);
            && Proper(f) && f.length == HEADER_LEN + |f.frame.data|
            && (f.wire != Encode(f.frame) <==> s.uot && s.uotConnect && bytes == [])
            && (Truncated(f) <==> s.uot && s.uotConnect && bytes == [])
  {
    var f := ReadFrame(h, s, bytes);
    assert |Encode(f.frame)| == HEADER_LEN + |f.frame.data|;
  }

  const EXAMPLE: Conf := Conf(0x80_0000, 65535, 1024, 64)

  const EMPTY_DATAGRAM: OutFrame := OutFrame(Frame(PSH, 1, [0, 0]), Some(0), 9, Header(PSH, 1, 2))

  const LAST_FRAME: OutFrame := Plain(Some(0), Frame(FIN, 1, []))

  /** A connected UDP stream receives an empty datagram, idles and is ended; then the socket takes
      everything. */
  const EMPTY_RUN: seq<Event> :=
    [Open(1), OnStream(0, OpenUot(true)), OnStream(0, UdpSocket),
     OnStream(0, UpstreamReadable([Got([])])), OnStream(0, UotIdle), Writable(100)]

  function Received(e: OutFrame): Mux {
    Lone(UDP_UP).(data := [e], streams := [UDP_UP.(flow := Flow([], 1, 9, 1, false, false, false, [e]))],
                  count := Counts(9, 1, 1, 1), writePending := true)
  }

  lemma AcceptsEmpty()
    ensures ReadOne(EXAMPLE, Lone(UDP_UP), 0, []) == (Received(EMPTY_DATAGRAM), true)
  {
    var m := Lone(UDP_UP);
    assert ReadFrame(0, m.streams[0], []) == EMPTY_DATAGRAM;
    assert Accept(EXAMPLE, m, EMPTY_DATAGRAM) == ToData(m, 0, EMPTY_DATAGRAM);
    assert [] + [EMPTY_DATAGRAM] == [EMPTY_DATAGRAM];
    assert ToData(m, 0, EMPTY_DATAGRAM).streams == Received(EMPTY_DATAGRAM).streams;
  }

  lemma LoopsOnce()
    ensures ReadLoop(EXAMPLE, Lone(UDP_UP), 0, 0, [Got([])]).0 == Received(EMPTY_DATAGRAM)
  {
    AcceptsEmpty();
    assert [Got([])][1..] == [];
    assert ReadLoop(EXAMPLE, Received(EMPTY_DATAGRAM), 0, 1, []).0 == Received(EMPTY_DATAGRAM);
  }

  lemma VisitLast(c: Conf, m: Mux, h: Handle, script: seq<Read>)
    requires m.lists.readReady == [h] && Readable(Get(m, h))
    ensures DrainReads(c, m, 0, 0, script) == ReadLoop(c, PopRead(m), h, 0, script).0
  {
  }

  lemma ReadsEmpty()
    ensures Step(EXAMPLE, Lone(UDP_UP), OnStream(0, UpstreamReadable([Got([])]))) == Received(EMPTY_DATAGRAM)
  {
    LoopsOnce();
    VisitOnly(EXAMPLE, Lone(UDP_UP), [Got([])]);
  }

  /** The stream, marked and without its socket. */
  function Leaving(e: OutFrame): Mux {
    Lone(UDP_UP).(data := [e], count := Counts(9, 1, 1, 0), writePending := true,
                  streams := [UDP_UP.(conn := false, uotCounted := false, closedByProtocol := true,
                                      flow := Flow([], 1, 9, 1, false, false, false, [e]))])
  }

  /** The stream has got its last frame and waits for it to be written. */
  function LetGo(e: OutFrame, f: OutFrame): Mux {
    Leaving(e).(
      streams := [Leaving(e).streams[0].(state := Closing, closing := true,
                                         flow := Flow([f], 2, 16, 0, true, true, false, [e, f]))],
      lists := Lists([0], [], [], [0]), count := Counts(16, 2, 1, 0))
  }

  lemma TakesLast(c: Conf, e: OutFrame, f: OutFrame)
    requires f.owner == Some(0) && f.length == 7 && f.frame.cmd == FIN
    ensures CloseStream(Accept(c, Leaving(e), f), 0) == LetGo(e, f)
  {
    var m := ToStream(Leaving(e), 0, f);
    assert Accept(c, Leaving(e), f) == m;
    assert [] + [f] == [f] && [e] + [f] == [e, f];
    assert m.streams == [Leaving(e).streams[0].(flow := LetGo(e, f).streams[0].flow)];
    assert [0] + [] == [0] && [] + [0] == [0];
    assert DelayClose(m, 0).streams == LetGo(e, f).streams;
  }

  lemma MarksLeaving(e: OutFrame)
    ensures var m1 := UotClose(Received(e), 0);
            && |m1.streams| == 1 && m1.count.frames == 1 && Set(m1, 0, Marked(m1.streams[0])) == Leaving(e)
            && m1.streams[0].flow == Received(e).streams[0].flow && m1.streams[0].id == 1
  {
    var m1 := UotClose(Received(e), 0);
    assert m1.streams == [Received(e).streams[0].(conn := false, uotCounted := false)];
    assert Set(m1, 0, Marked(m1.streams[0])).streams == Leaving(e).streams;
  }

  lemma IdlesLeaving(c: Conf, e: OutFrame)
    ensures SendFinAndClose(c, UotClose(Received(e), 0), 0) == LetGo(e, FinFrame(0, 1))
  {
    var m1 := UotClose(Received(e), 0);
    MarksLeaving(e);
    FinShape(c, m1, 0);
    FinFrameProper(0, 1);
    TakesLast(c, e, FinFrame(0, 1));
  }

  lemma IdleIsEnd(c: Conf, m: Mux)
    requires !m.finalized && |m.streams| == 1 && m.streams[0].uot && m.streams[0].conn
    ensures Step(c, m, OnStream(0, UotIdle)) == SendFinAndClose(c, UotClose(m, 0), 0)
  {
  }

  ghost predicate HasTaken(c: Conf, m: Mux, taken: Bytes) {
    Steady(c, m) && m.wire.taken == taken
  }

  /** Retiring frames and waking readers takes nothing from the socket and gives it nothing. */
  lemma RecycleTakes(c: Conf, m: Mux)
    requires Steady(c, m)
    ensures HasTaken(c, Recycle(m), m.wire.taken)
  {
    var keep := n => HasTaken(c, n, m.wire.taken);
    forall n: Mux ensures RetireKeeps(keep, n) {
      if keep(n) && HeadWritten(n.wire) {
        RetireSteady(c, n);
      }
    }
    RecycleKeeps(m, keep);
  }

  lemma PushTakes(c: Conf, m: Mux, k: nat)
    requires Steady(c, m)
    ensures Pushed(c, m, k).0.wire.taken == Write(m.wire, k).taken
  {
    var m0 := m.(wire := Write(m.wire, k)); var m1 := Recycle(m0);
    WriteSteady(c, m, k);
    RecycleTakes(c, m0);
    ResumeWakes(c, m1);
    var m2 := if m1.pressure then m1 else Resume(c, m1);
    var m3 := m2.(armed := false);
    SignalsSteady(c, m2, m3);
    NothingToClose(m3, m3.lists.closing);
  }

  lemma ResumeTakes(c: Conf, m: Mux)
    requires Steady(c, m)
    ensures HasTaken(c, Resume(c, m), m.wire.taken)
  {
    ResumeWakes(c, m);
  }

  /** A drain gives the socket what its one write does. */
  lemma DrainTakes(c: Conf, m: Mux, k: nat)
    requires Steady(c, m) && HeadOpen(m.wire) && Chained(c, m).wire.unsent != []
    ensures Drain(c, m, k).wire.taken == Write(Chained(c, m).wire, k).taken
  {
    NothingToClose(m, m.lists.closing);
    var (m1, all) := Flush(c, m, k);
    ChainedSteady(c, m);
    PushTakes(c, Chained(c, m), k);
    FlushFlushed(c, m, k);
    var m2 := m1.(pressure := !all);
    SignalsSteady(c, m1, m2);
    ResumeTakes(c, m1);
    ResumeTakes(c, m2);
    if all {
      ResumeTakes(c, Resume(c, m2));
    } else {
      SuspendWakes(c, m2);
      ResumeTakes(c, SuspendReads(m2));
    }
  }

  lemma ChainsBoth(c: Conf, e: OutFrame, f: OutFrame)
    ensures var w := Chained(c, LetGo(e, f).(writePending := false)).wire;
            w.unsent == e.wire + f.wire && w.taken == []
  {
    var m := LetGo(e, f).(writePending := false); var m1 := MoveOne(m);
    assert [0][1..] == [] && [f][1..] == [] && [e] + [f] == [e, f];
    assert m1.data == [e, f] && m1.lists.ready == [];
    assert Schedule(c, m, 0, 0) == m1;
    assert [] + [e, f] == [e, f];
    TwoOnWire(e, f);
  }

  lemma MisreadBytes(w: Bytes)
    requires w == [2, 0, 0, 0, 1, 0, 2, 3, 0, 0, 0, 1, 0, 0]
    ensures Decode(ParseFrame, w) == Decoded([Frame(PSH, 1, [3, 0])], [0, 0, 1, 0, 0], false)
  {
    assert w[7..9] == [3, 0] && w[9..] == [0, 0, 1, 0, 0];
    assert ParseFrame(w) == Item(Frame(PSH, 1, [3, 0]), 9);
    assert Decode(ParseFrame, w[9..]) == Decoded([], w[9..], false);
  }

  lemma RunOne(c: Conf, m: Mux, e: Event)
    ensures Run(c, m, [e]) == Step(c, m, e)
  {
    assert [e][1..] == [];
  }

  lemma RunTwo(c: Conf, m: Mux, d: Event, e: Event)
    ensures Run(c, m, [d, e]) == Step(c, Step(c, m, d), e)
  {
    assert [d, e][1..] == [e] && [e][1..] == [];
    assert Run(c, Step(c, m, d), [e]) == Step(c, Step(c, m, d), e);
  }

  lemma LastTwo()
    ensures Run(EXAMPLE, Lone(UDP_UP), [EMPTY_RUN[3], EMPTY_RUN[4]]) == LetGo(EMPTY_DATAGRAM, LAST_FRAME)
  {
    RunTwo(EXAMPLE, Lone(UDP_UP), EMPTY_RUN[3], EMPTY_RUN[4]);
    ReadsEmpty();
    IdlesLeaving(EXAMPLE, EMPTY_DATAGRAM);
    IdleIsEnd(EXAMPLE, Received(EMPTY_DATAGRAM));
  }

  lemma FiveToEnd()
    ensures Run(EXAMPLE, Start(), EMPTY_RUN[..5]) == LetGo(EMPTY_DATAGRAM, LAST_FRAME)
  {
    var es := EMPTY_RUN;
    RunThree(EXAMPLE, Start(), es[0], es[1], es[2]);
    UdpComesUp(EXAMPLE);
    LastTwo();
    RunAppend(EXAMPLE, Start(), [es[0], es[1], es[2]], [es[3], es[4]]);
    assert es[..5] == [es[0], es[1], es[2]] + [es[3], es[4]];
  }

  lemma GetsToEnd()
    ensures Between(EXAMPLE, LetGo(EMPTY_DATAGRAM, LAST_FRAME))
  {
    FiveToEnd();
    StartInv(EXAMPLE);
    RunInv(EXAMPLE, Start(), EMPTY_RUN[..5]);
  }

  lemma ThenDrains()
    ensures Run(EXAMPLE, Start(), EMPTY_RUN) == Step(EXAMPLE, LetGo(EMPTY_DATAGRAM, LAST_FRAME), Writable(100))
  {
    FiveToEnd();
    RunAppend(EXAMPLE, Start(), EMPTY_RUN[..5], [EMPTY_RUN[5]]);
    RunOne(EXAMPLE, LetGo(EMPTY_DATAGRAM, LAST_FRAME), EMPTY_RUN[5]);
    assert EMPTY_RUN == EMPTY_RUN[..5] + [EMPTY_RUN[5]];
  }

  /** The failing run: the stream's frames are the datagram and the FIN, and what the client decodes
      is a datagram of two other bytes and no FIN. */
  lemma EmptyDatagramBreaksFraming()
    ensures var taken := Run(EXAMPLE, Start(), EMPTY_RUN).wire.taken;
            Decode(ParseFrame, taken) == Decoded([Frame(PSH, 1, [3, 0])], [0, 0, 1, 0, 0], false)
    ensures Run(EXAMPLE, Start(), EMPTY_RUN) == Step(EXAMPLE, LetGo(EMPTY_DATAGRAM, LAST_FRAME), Writable(100))
    ensures var m := LetGo(EMPTY_DATAGRAM, LAST_FRAME);
            Frames(m.streams[0].flow.accepted) == [Frame(PSH, 1, [0, 0]), Frame(FIN, 1, [])]
  {
    GetsToEnd();
    ThenDrains();
    ExampleBytes();
    MisreadBytes(EMPTY_DATAGRAM.wire + LAST_FRAME.wire);
    TwoOnWire(EMPTY_DATAGRAM, LAST_FRAME);
    TakesBoth(EXAMPLE, EMPTY_DATAGRAM, LAST_FRAME, 100);
  }

  lemma TakesBoth(c: Conf, e: OutFrame, f: OutFrame, k: nat)
    requires Between(c, LetGo(e, f)) && 0 < |e.wire + f.wire| <= k
    ensures Step(c, LetGo(e, f), Writable(k)).wire.taken == e.wire + f.wire
  {
    var m := LetGo(e, f).(writePending := false); var all := e.wire + f.wire;
    SignalsSteady(c, LetGo(e, f), m);
    ChainsBoth(c, e, f);
    DrainTakes(c, m, k);
    assert all[..|all|] == all && [] + all == all;
  }

  lemma ExampleBytes()
    ensures EMPTY_DATAGRAM.wire + Encode(Frame(FIN, 1, [])) == [2, 0, 0, 0, 1, 0, 2, 3, 0, 0, 0, 1, 0, 0]
  {
    OctetHeader(PSH, 1, 2);
    OctetHeader(FIN, 1, 0);
    var h := Header(FIN, 1, 0);
    assert Encode(Frame(FIN, 1, [])) == h + [] == h;
  }

  lemma TwoOnWire(f: OutFrame, g: OutFrame)
    ensures WireBytes([f, g]) == f.wire + g.wire && Frames([f, g]) == [f.frame, g.frame]
  {
    assert [f, g][1..] == [g] && [g][1..] == [];
    assert WireBytes([g]) == g.wire + [];
    assert Frames([g]) == [g.frame] + [];
  }
}
