/** The life of a stream: every event that concerns one stream keeps the invariant. */
module MuxLife {
  import opened Bytes
  import opened Protocol
  import opened Mux
  import opened MuxLists
  import opened MuxInvariant
  import opened MuxMoves
  import opened Wrappers
  import SocksAddr

  predicate Ending(s: Stream) {
    s.state == Closing || s.state == Closed
  }

  /** What a stream's state says about the rest of its record. */
  ghost predicate Life(s: Stream) {
    && (s.state == Init || s.state == Connecting ==> !s.synackSent && !s.uot)
    && (s.state == Connected || s.state == HalfClosed ==> s.synackSent)
    && (s.flow.finQueued ==> Ending(s))
    && (s.closing <==> s.state == Closing)
    && (s.state == Closing ==> s.flow.queuedFrames > 0)
    && (s.state == Closed ==> s.flow.queuedFrames == 0)
    && (Ending(s) ==> s.closedByProtocol && !s.readReady && !s.readBlocked && !s.conn)
    && (s.uotCounted ==> s.state == Connected && s.uot)
  }

  ghost predicate LivesBut(m: Mux, h: int) {
    forall k :: 0 <= k < |m.streams| && k != h ==> Life(m.streams[k])
  }

  ghost predicate Lives(m: Mux) {
    LivesBut(m, -1)
  }

  /** One read of this stream and its header fit an empty output queue. */
  predicate ReadFits(c: Conf, s: Stream) {
    HEADER_LEN + ReadSize(c, s) <= c.maxPendingOutput
  }

  /** The read of every stream that the configuration allows fits an empty output queue. */
  predicate Roomy(c: Conf) {
    && (c.maxStreams > 0 ==> HEADER_LEN + Min(c.bufferSize, TLS_RECORD_SIZE - HEADER_LEN) <= c.maxPendingOutput)
    && (c.maxStreams > 0 && c.maxUotStreams > 0
      ==> HEADER_LEN + Min(c.bufferSize, MAX_FRAME_DATA) <= c.maxPendingOutput)
  }

  /** A stream of a kind that the configuration allows. */
  predicate Permitted(c: Conf, s: Stream) {
    c.maxStreams > 0 && (s.uot ==> c.maxUotStreams > 0)
  }

  lemma PermittedFits(c: Conf, s: Stream)
    requires Roomy(c) && Permitted(c, s)
    ensures ReadFits(c, s)
  {
  }

  /** The limits on streams hold. */
  ghost predicate Limited(c: Conf, m: Mux) {
    && m.count.uotStreams <= c.maxUotStreams && m.count.active <= c.maxStreams
    && forall k :: 0 <= k < |m.streams| ==> Permitted(c, m.streams[k])
  }

  /** Nobody waits for output that does not exist, and the limits hold. */
  ghost predicate Calm(c: Conf, m: Mux) {
    && (m.pressure ==> m.count.pendingOutput > 0)
    && (Roomy(c) && m.lists.blocked != [] ==> m.count.pendingOutput > 0)
    && Limited(c, m)
  }

  ghost predicate Sound(c: Conf, m: Mux) {
    Core(m) && Lives(m) && Calm(c, m) && !m.finalized
  }

  /** What an event other than a drain leaves alone: it adds frames at most, and never without
      posting a write. */
  ghost predicate Quiet(m: Mux, m': Mux) {
    && m'.wire == m.wire && m'.pressure == m.pressure && m'.armed == m.armed && m'.finalized == m.finalized
    && |m'.streams| >= |m.streams| && m'.count.pendingOutput >= m.count.pendingOutput
    && (m.writePending ==> m'.writePending)
    && (m'.writePending
        || (m'.control == m.control && m'.data == m.data && (m.lists.ready == [] ==> m'.lists.ready == [])))
  }

  lemma QuietChain(a: Mux, b: Mux, d: Mux)
    requires Quiet(a, b) && Quiet(b, d)
    ensures Quiet(a, d)
  {
  }

  ghost predicate OnlyStream(m: Mux, m': Mux, h: Handle) {
    && |m'.streams| == |m.streams|
    && forall k :: 0 <= k < |m.streams| && k != h ==> m'.streams[k] == m.streams[k]
  }

  /** A change of one record that leaves its kind alone. */
  lemma KindKept(c: Conf, m: Mux, m': Mux, h: Handle)
    requires Limited(c, m) && h < |m.streams| && OnlyStream(m, m', h) && m'.streams[h].uot == m.streams[h].uot
    requires m'.count.uotStreams <= m.count.uotStreams && m'.count.active <= m.count.active
    ensures Limited(c, m')
  {
  }

  // ---------------------------------------------------------------------------------------
  // Frames

  /** What accepting a frame does to the connection and to the frame's stream. */
  ghost predicate Took(m: Mux, m': Mux, f: OutFrame) {
    && Quiet(m, m') && m'.writePending && m'.count.uotStreams == m.count.uotStreams
    && m'.count.active == m.count.active
    && m'.lists == m.lists.(ready := m'.lists.ready)
    && m'.count.pendingOutput == m.count.pendingOutput + f.length
  }

  ghost predicate Grew(m: Mux, m': Mux, h: Handle, f: OutFrame)
    requires h < |m.streams|
  {
    && OnlyStream(m, m', h)
    && var s, s' := m.streams[h], m'.streams[h];
       && s' == s.(flow := s'.flow) && s'.flow.queuedFrames == s.flow.queuedFrames + 1
       && s'.flow.finQueued == (s.flow.finQueued || f.frame.cmd == FIN)
  }

  lemma AcceptTook(c: Conf, m: Mux, f: OutFrame)
    ensures Took(m, Accept(c, m, f), f)
  {
  }

  lemma AcceptGrew(c: Conf, m: Mux, f: OutFrame, h: Handle)
    requires f.owner == Some(h) && h < |m.streams| && Strong(f)
    ensures Grew(m, Accept(c, m, f), h, f)
  {
    if f.frame.cmd != PSH && f.frame.cmd != FIN {
      ToControlGrew(m, f, h);
    } else if GoesDirect(c, m, m.streams[h].flow, f) {
      ToDataGrew(m, f, h);
    } else {
      ToStreamGrew(m, f, h);
    }
  }

  lemma ToControlGrew(m: Mux, f: OutFrame, h: Handle)
    requires f.owner == Some(h) && h < |m.streams| && Strong(f)
    ensures Grew(m, ToControl(m, f), h, f)
  {
  }

  lemma ToDataGrew(m: Mux, f: OutFrame, h: Handle)
    requires f.owner == Some(h) && h < |m.streams| && Strong(f)
    ensures Grew(m, ToData(m, h, f), h, f)
  {
  }

  lemma ToStreamGrew(m: Mux, f: OutFrame, h: Handle)
    requires f.owner == Some(h) && h < |m.streams| && Strong(f)
    ensures Grew(m, ToStream(m, h, f), h, f)
  {
  }

  lemma AcceptSound(c: Conf, m: Mux, f: OutFrame)
    requires Sound(c, m) && Fits(m, f) && Admits(m, f)
    requires f.owner.Some? ==> f.frame.cmd == PSH && !Ending(Get(m, f.owner.value))
    ensures Sound(c, Accept(c, m, f)) && Quiet(m, Accept(c, m, f))
  {
    AcceptCore(c, m, f);
    AcceptTook(c, m, f);
    if f.owner.Some? {
      AcceptGrew(c, m, f, f.owner.value);
    } else {
      assert Accept(c, m, f).streams == m.streams;
    }
  }

  /** What sending a SYNACK may change. */
  ghost predicate Answered(c: Conf, m: Mux, m': Mux, h: Handle)
    requires h < |m.streams|
  {
    && Core(m') && Calm(c, m') && Quiet(m, m') && OnlyStream(m, m', h)
    && var s, s' := m.streams[h], m'.streams[h];
       && s' == s.(flow := s'.flow, synackSent := true) && s'.flow.finQueued == s.flow.finQueued
       && s'.flow.queuedFrames >= s.flow.queuedFrames
  }

  lemma SynackMark(c: Conf, m: Mux, h: Handle)
    requires Core(m) && Calm(c, m) && h < |m.streams|
    ensures Answered(c, m, Set(m, h, m.streams[h].(synackSent := true)), h)
  {
    SetCore(m, h, m.streams[h].(synackSent := true));
  }

  lemma SynackAccepted(c: Conf, m: Mux, h: Handle, f: OutFrame)
    requires Core(m) && Calm(c, m) && h < |m.streams| && m.streams[h].synackSent && m.streams[h].flow.accepted == []
    requires f.owner == Some(h) && f.frame.cmd == SYNACK && Proper(f) && Admits(m, f)
    ensures Answered(c, m, Accept(c, m, f), h)
  {
    assert StreamAt(m, h);
    AcceptCore(c, m, f);
    AcceptTook(c, m, f);
    AcceptGrew(c, m, f, h);
  }

  lemma SynackChain(c: Conf, m: Mux, m1: Mux, m2: Mux, h: Handle)
    requires h < |m.streams| && Answered(c, m, m1, h) && Answered(c, m1, m2, h)
    ensures Answered(c, m, m2, h)
  {
  }

  lemma SynackShape(c: Conf, m: Mux, h: Handle, msg: Bytes)
    requires Core(m) && Calm(c, m) && h < |m.streams|
    ensures Answered(c, m, SendSynack(c, m, h, msg).0, h)
  {
    var s := m.streams[h];
    if s.synackSent {
      assert s == s.(synackSent := true);
    } else {
      var m1 := Set(m, h, s.(synackSent := true));
      assert Answered(c, m, m1, h) by { SynackMark(c, m, h); }
      var f := Frame(SYNACK, s.id, msg);
      if m.peerVersion >= 2 && f.Encodable() && Admits(m1, Plain(Some(h), f)) {
        assert s.flow.accepted == [] by { assert StreamAt(m, h); }
        SynackAccepted(c, m1, h, Plain(Some(h), f));
        SynackChain(c, m, m1, Accept(c, m1, Plain(Some(h), f)), h);
      }
    }
  }

  // ---------------------------------------------------------------------------------------
  // Closing

  ghost predicate Shrank(m: Mux, m': Mux, h: Handle) {
    && Quiet(m, m') && OnlyStream(m, m', h) && m'.count.pendingOutput == m.count.pendingOutput
    && m'.count.uotStreams <= m.count.uotStreams && m'.count.active <= m.count.active
    && (m.lists.blocked == [] ==> m'.lists.blocked == [])
    && (h < |m.streams| ==> m'.streams[h].uot == m.streams[h].uot)
  }

  lemma DelayShrinks(m: Mux, h: Handle)
    requires h < |m.streams|
    ensures Shrank(m, DelayClose(m, h), h)
  {
  }

  lemma CompleteShrinks(m: Mux, h: Handle)
    requires h < |m.streams| && m.streams[h].flow.out == [] && !m.streams[h].flow.onReady
    ensures Shrank(m, CompleteClose(m, h), h)
  {
  }

  lemma CloseShrinks(m: Mux, h: Handle)
    requires Core(m) && h < |m.streams| && !m.finalized
    ensures Shrank(m, CloseStream(m, h), h)
  {
    if m.streams[h].state != Closed {
      if m.streams[h].flow.queuedFrames != 0 {
        DelayShrinks(m, h);
      } else {
        assert StreamAt(m, h);
        EmptiedFlow(m.streams[h].flow, h, Owned(m.wire.sent, h), Owned(Outstanding(m), h));
        CompleteShrinks(m, h);
      }
    }
  }

  lemma ClosedLives(s: Stream)
    ensures s.flow.queuedFrames > 0 ==> Life(Waiting(s))
    ensures s.flow.queuedFrames == 0 ==> Life(Gone(s))
  {
  }

  lemma CloseRecord(m: Mux, h: Handle)
    requires h < |m.streams| && !m.finalized && m.streams[h].state != Closed
    ensures var s := m.streams[h];
            CloseStream(m, h).streams[h] == if s.flow.queuedFrames != 0 then Waiting(s) else Gone(s)
  {
  }

  lemma CloseLives(m: Mux, h: Handle)
    requires h < |m.streams| && !m.finalized && LivesBut(m, h) && OnlyStream(m, CloseStream(m, h), h)
    requires m.streams[h].state == Closed ==> Life(m.streams[h])
    ensures Lives(CloseStream(m, h))
  {
    if m.streams[h].state != Closed {
      CloseRecord(m, h);
      ClosedLives(m.streams[h]);
    }
  }

  lemma CloseSound(c: Conf, m: Mux, h: Handle)
    requires Core(m) && Calm(c, m) && h < |m.streams| && !m.finalized && LivesBut(m, h)
    requires m.streams[h].state == Closed ==> Life(m.streams[h])
    ensures Sound(c, CloseStream(m, h)) && Quiet(m, CloseStream(m, h)) && |CloseStream(m, h).streams| == |m.streams|
  {
    CloseStreamCore(m, h);
    CloseShrinks(m, h);
    CloseLives(m, h);
  }
}
