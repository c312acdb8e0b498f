/** What holds of the output multiplexer after every run, stated for its users. */
module MuxTheorems {
  import opened Bytes
  import opened StreamDecoder
  import opened Protocol
  import opened Mux
  import opened MuxLists
  import opened MuxInvariant
  import opened MuxMoves
  import opened MuxLife
  import opened MuxEvents
  import opened MuxRuns
  import opened Wrappers
  import SocksAddr

  // ---------------------------------------------------------------------------------------
  // Finalizing

  /** After the connection is finalized every stream is closed, both stream counters are zero, and
      what is still charged is exactly what the connection itself still holds. */
  ghost predicate Ended(m: Mux) {
    && m.finalized && m.count.active == 0 && m.count.uotStreams == 0
    && m.count.pendingOutput == Total(Outstanding(m)) && m.count.frames == |Outstanding(m)|
    && forall h :: 0 <= h < |m.streams| ==> m.streams[h].state == Closed && m.streams[h].flow.out == []
  }

  ghost predicate Tidy(s: Stream) {
    s.state == Closed ==> !s.uotCounted && s.flow.out == []
  }

  ghost predicate ClosedUpTo(m: Mux, h: nat) {
    && m.finalized && Balanced(m.count, Outstanding(m), m.streams)
    && (forall k :: 0 <= k < |m.streams| ==> Tidy(m.streams[k]))
    && (forall k :: 0 <= k < |m.streams| && k < h ==> m.streams[k].state == Closed)
  }

  /** The close of a stream that still holds frames gives back what they were charged with; the clamps
      of that loop never act. */
  lemma FinalClose(m: Mux, h: Handle)
    requires h < |m.streams| && m.finalized && m.streams[h].state != Closed
    requires m.count.pendingOutput >= Total(m.streams[h].flow.out) && m.count.frames >= |m.streams[h].flow.out|
    ensures var m' := CloseStream(m, h); var s := m.streams[h];
            && m'.streams == Put(m.streams, h, Gone(s)) && m'.finalized && Outstanding(m') == Outstanding(m)
            && m'.count.pendingOutput == m.count.pendingOutput - Total(s.flow.out)
            && m'.count.frames == m.count.frames - |s.flow.out|
            && m'.count.active == Minus(m.count.active, 1) && m'.count.uotStreams == FreeSlot(m.count.uotStreams, s)
  {
    UnchargeExact(m.count.pendingOutput, m.streams[h].flow.out);
  }

  lemma CloseOneMore(m: Mux, h: Handle)
    requires ClosedUpTo(m, h) && h < |m.streams|
    ensures ClosedUpTo(CloseStream(m, h), h + 1) && |CloseStream(m, h).streams| == |m.streams|
  {
    if m.streams[h].state != Closed {
      SumsPut(m.streams, h, Gone(m.streams[h]));
      FinalClose(m, h);
    }
  }

  lemma {:induction false} CloseAllEnds(m: Mux, h: Handle)
    requires ClosedUpTo(m, h) && h <= |m.streams|
    ensures Ended(CloseAll(m, h))
    decreases |m.streams| - h
  {
    if h < |m.streams| {
      CloseOneMore(m, h);
      CloseAllEnds(CloseStream(m, h), h + 1);
    } else {
      SumZero(LiveOne, m.streams);
      SumZero(UotOne, m.streams);
      SumZero(OutBytes, m.streams);
      SumZero(OutCount, m.streams);
    }
  }

  lemma FinalizeEnds(m: Mux)
    requires Core(m) && Lives(m)
    ensures Ended(FinalizeAll(m))
  {
    forall k | 0 <= k < |m.streams| ensures Tidy(m.streams[k]) {
      assert StreamAt(m, k) && Life(m.streams[k]);
    }
    CloseAllEnds(m.(finalized := true), 0);
  }

  // ---------------------------------------------------------------------------------------
  // Every run

  ghost predicate Inv(c: Conf, m: Mux) {
    if m.finalized then Ended(m) else Between(c, m)
  }

  lemma StartInv(c: Conf)
    ensures Inv(c, Start())
  {
  }

  lemma QuietStep(c: Conf, m: Mux, m': Mux)
    requires Between(c, m) && Sound(c, m') && Quiet(m, m')
    ensures Between(c, m')
  {
    QuietAwake(m, m');
  }

  lemma OpenSound(c: Conf, m: Mux, id: nat)
    requires Sound(c, m) && id < U32_LIMIT && m.count.active < c.maxStreams
    ensures Sound(c, Opened(m, id)) && Quiet(m, Opened(m, id))
  {
    NewStreamCore(m, id);
    assert Life(NewStream(id));
  }

  lemma OpenStep(c: Conf, m: Mux, id: nat)
    requires Between(c, m)
    ensures Between(c, Step(c, m, Open(id)))
  {
    if m.count.active < c.maxStreams && id < U32_LIMIT {
      OpenSound(c, m, id);
      QuietStep(c, m, Opened(m, id));
    }
  }

  lemma VersionStep(c: Conf, m: Mux, v: nat)
    requires Between(c, m)
    ensures Between(c, m.(peerVersion := v))
  {
    SignalsCore(m, m.(peerVersion := v));
    QuietStep(c, m, m.(peerVersion := v));
  }

  lemma StreamEventStep(c: Conf, m: Mux, h: Handle, what: StreamEvent)
    requires Between(c, m) && h < |m.streams|
    ensures Between(c, StreamStep(c, m, h, what))
  {
    StreamStepOk(c, m, h, what);
    QuietStep(c, m, StreamStep(c, m, h, what));
  }

  lemma ControlStep(c: Conf, m: Mux, cmd: byte, sid: nat, payload: Bytes)
    requires Between(c, m)
    ensures Between(c, Step(c, m, Control(cmd, sid, payload)))
  {
    var f := Frame(cmd, sid, payload);
    if !(cmd == PSH || cmd == FIN || cmd > SERVER_SETTINGS || !f.Encodable()) && Admits(m, Plain(None, f)) {
      AcceptSound(c, m, Plain(None, f));
      QuietStep(c, m, Accept(c, m, Plain(None, f)));
    }
  }

  lemma DrainStep(c: Conf, m: Mux, k: nat)
    requires Between(c, m)
    ensures Between(c, Drain(c, m, k)) && Between(c, Drain(c, m.(writePending := false), k))
  {
    var m1 := m.(writePending := false);
    SignalsSteady(c, m, m1);
    DrainBetween(c, m, k);
    DrainBetween(c, m1, k);
  }

  lemma EndStep(c: Conf, m: Mux, e: Event)
    requires Between(c, m) && !m.finalized && (e.Abort? || e.Finalize?)
    ensures Ended(Step(c, m, e))
  {
    if e.Abort? {
      DrainStep(c, m, e.k);
      FinalizeEnds(Drain(c, m, e.k));
    } else {
      FinalizeEnds(m);
    }
  }

  lemma StepInv(c: Conf, m: Mux, e: Event) returns (m1: Mux)
    requires Inv(c, m)
    ensures m1 == Step(c, m, e)
    ensures Inv(c, m1)
  {
    m1 := Step(c, m, e);
    if !m.finalized {
      match e {
        case Open(id) => OpenStep(c, m, id);
        case PeerVersion(v) => VersionStep(c, m, v);
        case Control(cmd, sid, payload) => ControlStep(c, m, cmd, sid, payload);
        case Writable(k) => DrainStep(c, m, k);
        case Abort(_) => EndStep(c, m, e);
        case Finalize => EndStep(c, m, e);
        case OnStream(h, what) =>
          if h < |m.streams| { StreamEventStep(c, m, h, what); }
      }
    }
  }

  /** The invariant holds after every sequence of events. */
  lemma {:induction false} RunInv(c: Conf, m: Mux, es: seq<Event>)
    requires Inv(c, m)
    ensures Inv(c, Run(c, m, es))
    decreases |es|
  {
    if es != [] {
      var _ := StepInv(c, m, es[0]);
      RunInv(c, Step(c, m, es[0]), es[1..]);
    }
  }

  // ---------------------------------------------------------------------------------------
  // Order and framing

  /** The state after a run from the beginning that has not ended the connection. */
  ghost predicate Reached(c: Conf, m: Mux) {
    !m.finalized && exists es :: m == Run(c, Start(), es)
  }

  lemma ReachedIsBetween(c: Conf, m: Mux)
    requires Reached(c, m)
    ensures Between(c, m)
  {
    var es :| m == Run(c, Start(), es);
    StartInv(c);
    RunInv(c, Start(), es);
  }

  lemma ReachedFlow(c: Conf, m: Mux, h: Handle)
    requires Reached(c, m) && h < |m.streams|
    ensures FlowOk(m.streams[h].flow, h, Owned(m.wire.sent, h), Owned(Outstanding(m), h)) && Bounded(m.streams[h])
  {
    ReachedIsBetween(c, m);
    assert StreamAt(m, h);
  }

  lemma OwnedOutstanding(m: Mux, h: Handle)
    ensures Owned(Outstanding(m), h) == Owned(m.wire.sending, h) + (Owned(m.control, h) + Owned(m.data, h))
  {
    OwnedAppend(m.wire.sending + m.control, m.data, h);
    OwnedAppend(m.wire.sending, m.control, h);
  }

  /** Conservation and order per stream: what was accepted is, in acceptance order, what has been
      written, what is being written, what waits among the connection's frames, and what waits
      at the stream. Nothing is lost, repeated or overtaken, in spite of the fast path. */
  lemma AcceptedInOrder(c: Conf, m: Mux, h: Handle)
    requires Reached(c, m) && h < |m.streams|
    ensures m.streams[h].flow.accepted
         == Owned(m.wire.sent, h)
          + (Owned(m.wire.sending, h) + (Owned(m.control, h) + Owned(m.data, h)))
          + m.streams[h].flow.out
  {
    ReachedFlow(c, m, h);
    OwnedOutstanding(m, h);
  }

  lemma GrammarOrders(w: Flow, i: nat, j: nat)
    requires Grammar(w) && i < j < |w.accepted|
    ensures w.accepted[j].frame.cmd != SYNACK && w.accepted[i].frame.cmd != FIN
  {
  }

  lemma AtPrefix<T>(a: seq<T>, b: seq<T>, d: seq<T>, i: nat)
    requires i < |a + b|
    ensures (a + (b + d))[i] == (a + b)[i]
  {
  }

  /** On the wire a stream's SYNACK comes first, its FIN last, and there is at most one of each. */
  lemma WireOrder(c: Conf, m: Mux, h: Handle, i: nat, j: nat)
    requires Reached(c, m) && h < |m.streams|
    requires i < j < |Owned(m.wire.sent + m.wire.sending, h)|
    ensures var w := Owned(m.wire.sent + m.wire.sending, h);
            w[j].frame.cmd != SYNACK && w[i].frame.cmd != FIN
  {
    var w := m.streams[h].flow;
    var done, going := Owned(m.wire.sent, h), Owned(m.wire.sending, h);
    var rest := Owned(m.control, h) + Owned(m.data, h) + w.out;
    assert Owned(m.wire.sent + m.wire.sending, h) == done + going by { OwnedAppend(m.wire.sent, m.wire.sending, h); }
    assert w.accepted == done + (going + rest) by { AcceptedInOrder(c, m, h); }
    AtPrefix(done, going, rest, i);
    AtPrefix(done, going, rest, j);
    assert Grammar(w) by { ReachedFlow(c, m, h); }
    GrammarOrders(w, i, j);
  }

  function Frames(fs: seq<OutFrame>): seq<Frame> {
    if fs == [] then [] else [fs[0].frame] + Frames(fs[1..])
  }

  ghost predicate AllProper(fs: seq<OutFrame>) {
    forall f :: f in fs ==> Proper(f)
  }

  lemma {:induction false} ProperFramesAreSendable(fs: seq<OutFrame>)
    requires AllProper(fs)
    ensures Sendable(Frames(fs)) && |Frames(fs)| == |fs|
  {
    if fs != [] {
      assert fs[0] in fs;
      assert forall f :: f in fs[1..] ==> f in fs;
      ProperFramesAreSendable(fs[1..]);
    }
  }

  function TruncatedIn(fs: seq<OutFrame>): nat {
    if fs == [] then 0 else One(Truncated(fs[0])) + TruncatedIn(fs[1..])
  }

  /** Each empty datagram costs the wire two bytes; otherwise the bytes are the encoded frames. */
  lemma {:induction false} WireVersusEncoding(fs: seq<OutFrame>)
    requires AllProper(fs)
    ensures Sendable(Frames(fs))
    ensures |WireBytes(fs)| + 2 * TruncatedIn(fs) == |EncodeAll(Frames(fs))|
    ensures TruncatedIn(fs) == 0 ==> WireBytes(fs) == EncodeAll(Frames(fs))
  {
    ProperFramesAreSendable(fs);
    if fs != [] {
      var g := fs[0];
      assert g in fs;
      assert forall f :: f in fs[1..] ==> f in fs;
      WireVersusEncoding(fs[1..]);
      assert Frames(fs)[0] == g.frame && Frames(fs)[1..] == Frames(fs[1..]);
      assert |Encode(g.frame)| == g.length;
      assert Truncated(g) ==> |g.wire| == HEADER_LEN && |Encode(g.frame)| == HEADER_LEN + 2;
    }
  }

  /** The bytes written for whole frames are their encodings if and only if none of them stands
      for an empty datagram. */
  lemma FramedIffNoEmptyDatagram(fs: seq<OutFrame>)
    requires AllProper(fs)
    ensures Sendable(Frames(fs))
    ensures WireBytes(fs) == EncodeAll(Frames(fs)) <==> TruncatedIn(fs) == 0
  {
    WireVersusEncoding(fs);
  }

  /** Decoding what the socket took yields the written frames, if none of them stands for an empty
      datagram. */
  lemma WrittenDecodes(c: Conf, m: Mux)
    requires Reached(c, m) && TruncatedIn(m.wire.sent) == 0
    requires m.wire.sending != [] ==> !Truncated(m.wire.sending[0])
    ensures exists partial :: Decode(ParseFrame, m.wire.taken) == Decoded(Frames(m.wire.sent), partial, false)
  {
    ReachedIsBetween(c, m);
    var w := m.wire;
    assert AllProper(w.sent);
    WireVersusEncoding(w.sent);
    var partial: Bytes := if w.sending == [] then [] else w.sending[0].wire[..w.written];
    assert w.taken == WireBytes(w.sent) + partial by { TakenIsWhole(w); }
    if w.sending != [] {
      assert w.sending[0] in Outstanding(m);
      PartialFrameWaits(w.sending[0].frame, w.written);
    }
    var _ := DecodeOfEncoded(Frames(w.sent), partial);
  }

  /** What the socket took is whole frames and the beginning of the next. */
  lemma TakenIsWhole(w: Wire)
    requires Wires(w) && HeadOpen(w)
    ensures w.taken == WireBytes(w.sent) + (if w.sending == [] then [] else w.sending[0].wire[..w.written])
  {
    var all := WireBytes(w.sent) + WireBytes(w.sending);
    assert |w.taken| == |WireBytes(w.sent)| + w.written;
    assert w.taken == all[..|w.taken|];
  }

  // ---------------------------------------------------------------------------------------
  // Accounting

  /** The connection's counters are exact, and so are those of every stream; a stream never has
      more than the guard, one SYNACK and one FIN outstanding. */
  lemma ExactAccounting(c: Conf, m: Mux)
    requires Reached(c, m)
    ensures m.count.pendingOutput == Total(m.wire.sending + m.control + m.data) + SumBy(OutBytes, m.streams)
    ensures m.count.frames == |m.wire.sending| + |m.control| + |m.data| + SumBy(OutCount, m.streams) <= MAX_OUT_FRAMES
    ensures m.count.active == SumBy(LiveOne, m.streams) <= c.maxStreams
    ensures m.count.uotStreams == SumBy(UotOne, m.streams) <= c.maxUotStreams
  {
    ReachedIsBetween(c, m);
  }

  lemma ExactStreamAccounting(c: Conf, m: Mux, h: Handle)
    requires Reached(c, m) && h < |m.streams|
    ensures var w := m.streams[h].flow; var on := Owned(m.wire.sending + m.control + m.data, h);
            && w.queuedFrames == |on| + |w.out| <= MAX_STREAM_FRAMES + 2
            && w.pendingOut == Total(on) + Total(w.out)
            && (h in m.lists.ready <==> w.out != [])
  {
    ReachedFlow(c, m, h);
    ReachedIsBetween(c, m);
  }

  /** A stream that is closing still has frames to write; one that has none is closed. */
  lemma ClosingHasFrames(c: Conf, m: Mux, h: Handle)
    requires Reached(c, m) && h < |m.streams|
    ensures m.streams[h].state == Closing ==> m.streams[h].flow.queuedFrames > 0
    ensures m.streams[h].state == Closed ==> m.streams[h].flow.queuedFrames == 0 && m.streams[h].flow.out == []
  {
    ReachedFlow(c, m, h);
    ReachedIsBetween(c, m);
    assert Life(m.streams[h]);
  }

  /** A frame accepted by the reader leaves the output within its limit. */
  lemma ReadStaysWithinLimit(c: Conf, m: Mux, h: Handle, bytes: Bytes)
    requires h < |m.streams| && HasRoom(c, m, ReadSize(c, m.streams[h])) && ReadOne(c, m, h, bytes).1
    ensures ReadOne(c, m, h, bytes).0.count.pendingOutput <= c.maxPendingOutput
  {
    var s := m.streams[h];
    var got := bytes[..Min(|bytes|, ReadLimit(c, s))];
    AcceptTook(c, m, ReadFrame(h, s, got));
  }

  /** Nor do the packets of a packet-mode stream exceed it, however many datagrams are read. */
  lemma {:induction false} DatagramsStayWithinLimit(c: Conf, m: Mux, h: Handle, dgrams: seq<SocksAddr.Packet>)
    ensures var m' := ReadDatagrams(c, m, h, dgrams);
            m'.count.pendingOutput <= c.maxPendingOutput || m'.count.pendingOutput == m.count.pendingOutput
    decreases |dgrams|
  {
    if dgrams != [] {
      var p := dgrams[0];
      if !p.Valid() || p.peer.Domain? || |p.payload| > (if p.peer.V4? then 65527 else 65515) {
        DatagramsStayWithinLimit(c, m, h, dgrams[1..]);
      } else {
        var f := Frame(PSH, Get(m, h).id, SocksAddr.EncodePacket(p));
        if f.Encodable() && HasRoom(c, m, |f.data|) && Admits(m, Plain(Some(h), f)) {
          AcceptTook(c, m, Plain(Some(h), f));
          DatagramsStayWithinLimit(c, Accept(c, m, Plain(Some(h), f)), h, dgrams[1..]);
        }
      }
    }
  }

  // ---------------------------------------------------------------------------------------
  // Wakeups

  /** No lost wakeup: between events, outstanding frames mean that a write is posted, or that the
      socket holds back bytes and the write event is armed. */
  lemma NoLostWakeup(c: Conf, m: Mux)
    requires Reached(c, m)
    ensures m.count.frames > 0 ==> m.writePending || (m.wire.unsent != [] && m.armed)
    ensures m.pressure <==> m.wire.unsent != []
  {
    ReachedIsBetween(c, m);
    if m.count.frames > 0 {
      FramesSomewhere(m);
    }
  }

  lemma FramesSomewhere(m: Mux)
    requires Core(m) && m.count.frames > 0
    ensures Outstanding(m) != [] || m.lists.ready != []
  {
    if Outstanding(m) == [] && m.lists.ready == [] {
      forall h | 0 <= h < |m.streams| ensures OutCount(m.streams[h]) == 0 {
        assert StreamAt(m, h);
      }
      SumZero(OutCount, m.streams);
    }
  }

  /** With a limit that fits one read, nobody is blocked without output being pending, and a
      drain that empties the output wakes everybody. */
  lemma BlockedMeansPending(c: Conf, m: Mux, k: nat)
    requires Reached(c, m) && Roomy(c)
    ensures m.lists.blocked != [] ==> m.count.pendingOutput > 0
    ensures Drain(c, m, k).count.pendingOutput == 0 ==> Drain(c, m, k).lists.blocked == []
  {
    ReachedIsBetween(c, m);
    DrainBetween(c, m, k);
  }
}
