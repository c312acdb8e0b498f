/** How the streams of the output multiplexer change from one state to a later one. */
module MuxHistory {
  import opened Bytes
  import opened Protocol
  import opened Mux
  import opened MuxLists
  import opened MuxInvariant
  import opened MuxMoves
  import opened MuxLife
  import opened MuxEvents
  import opened MuxRuns
  import opened MuxPressure
  import opened Wrappers
  import SocksAddr

  // ---------------------------------------------------------------------------------------
  // One stream

  /** How many of a stream's frames have left its own queue. */
  function Scheduled(s: Stream): int {
    |s.flow.accepted| - |s.flow.out|
  }

  /** Beyond every wakeup: the socket is gone for good, or the stream waits for room for a read
      that no empty queue has room for. */
  predicate Held(c: Conf, s: Stream) {
    && s.state != Init && s.state != Connecting && !ReadFits(c, s)
    && (if s.conn then s.readBlocked else !s.uotCounted)
  }

  ghost predicate NoneTruncated(fs: seq<OutFrame>) {
    forall f :: f in fs ==> !Truncated(f)
  }

  /** `s'` is a later record of the stream `s`: accepted frames and scheduled ones are never taken
      back, an ended stream accepts nothing and a closed one stays closed. `pure` says that no frame
      of an empty datagram was accepted in between. */
  ghost predicate Onward(c: Conf, pure: bool, s: Stream, s': Stream) {
    && s'.id == s.id && (s.uot ==> s'.uot)
    && Extends(s.flow.accepted, s'.flow.accepted, pure)
    && Scheduled(s) <= Scheduled(s')
    && (Ending(s) ==> Ending(s') && s'.flow.accepted == s.flow.accepted && s'.flow.queuedFrames <= s.flow.queuedFrames)
    && (s.state == Closed ==> s'.state == Closed)
    && (Held(c, s) ==> Held(c, s'))
  }

  ghost predicate Extends(a: seq<OutFrame>, b: seq<OutFrame>, pure: bool) {
    IsPrefix(a, b) && (pure ==> NoneTruncated(b[|a|..]))
  }

  lemma ExtendsChain(a: seq<OutFrame>, b: seq<OutFrame>, d: seq<OutFrame>, p: bool, q: bool)
    requires Extends(a, b, p) && Extends(b, d, q)
    ensures Extends(a, d, p && q)
  {
    assert d[|a|..] == b[|a|..] + d[|b|..];
  }

  lemma OnwardChain(c: Conf, p: bool, q: bool, a: Stream, b: Stream, d: Stream)
    requires Onward(c, p, a, b) && Onward(c, q, b, d)
    ensures Onward(c, p && q, a, d)
  {
    ExtendsChain(a.flow.accepted, b.flow.accepted, d.flow.accepted, p, q);
  }

  /** A change that leaves the frames alone. */
  lemma OnwardSame(c: Conf, s: Stream, s': Stream)
    requires s'.id == s.id && s'.flow == s.flow && (s.uot ==> s'.uot)
    requires (Ending(s) ==> Ending(s')) && (s.state == Closed ==> s'.state == Closed) && (Held(c, s) ==> Held(c, s'))
    ensures Onward(c, true, s, s')
  {
    assert s.flow.accepted[|s.flow.accepted|..] == [];
  }

  lemma OnwardFrame(c: Conf, s: Stream, s': Stream, f: OutFrame)
    requires !Ending(s) && s' == s.(flow := s'.flow)
    requires s'.flow.accepted == s.flow.accepted + [f] && |s'.flow.out| <= |s.flow.out| + 1
    ensures Onward(c, !Truncated(f), s, s')
  {
    assert s'.flow.accepted[|s.flow.accepted|..] == [f];
  }

  // ---------------------------------------------------------------------------------------
  // All streams

  ghost predicate Goes(c: Conf, pure: bool, m: Mux, m': Mux) {
    && |m.streams| <= |m'.streams|
    && (forall h: nat :: h < |m.streams| ==> Onward(c, pure, m.streams[h], m'.streams[h]))
    && (pure ==> forall h: nat :: |m.streams| <= h < |m'.streams| ==> NoneTruncated(m'.streams[h].flow.accepted))
    && Within(c, m, m')
  }

  /** No UDP stream is on the ready list. */
  ghost predicate NoUdp(m: Mux) {
    forall h: nat :: h < |m.streams| && m.streams[h].flow.onReady ==> !m.streams[h].uot
  }

  /** UDP streams on the ready list are still there. */
  ghost predicate UdpStays(m: Mux, m': Mux)
    requires |m.streams| <= |m'.streams|
  {
    forall h: nat :: h < |m.streams| && m.streams[h].uot && m.streams[h].flow.onReady ==>
      m'.streams[h].uot && m'.streams[h].flow.onReady
  }

  /** UDP streams on the ready list stay on it, and without any nobody on it has lost his place. */
  ghost predicate Lined(m: Mux, m': Mux)
    requires |m.streams| <= |m'.streams|
  {
    UdpStays(m, m') && (NoUdp(m') ==> IsPrefix(m.lists.ready, m'.lists.ready))
  }

  ghost predicate Later(c: Conf, pure: bool, m: Mux, m': Mux) {
    Goes(c, pure, m, m') && Lined(m, m')
  }

  lemma GoesChain(c: Conf, p: bool, q: bool, a: Mux, b: Mux, d: Mux)
    requires Goes(c, p, a, b) && Goes(c, q, b, d)
    ensures Goes(c, p && q, a, d)
  {
    forall h: nat | h < |a.streams| ensures Onward(c, p && q, a.streams[h], d.streams[h]) {
      OnwardChain(c, p, q, a.streams[h], b.streams[h], d.streams[h]);
    }
    if p && q {
      forall h: nat | |a.streams| <= h < |d.streams| ensures NoneTruncated(d.streams[h].flow.accepted) {
        if h < |b.streams| {
          CleanOnward(c, b.streams[h], d.streams[h]);
        }
      }
    }
  }

  lemma CleanOnward(c: Conf, s: Stream, s': Stream)
    requires Onward(c, true, s, s') && NoneTruncated(s.flow.accepted)
    ensures NoneTruncated(s'.flow.accepted)
  {
    var a, b := s.flow.accepted, s'.flow.accepted;
    assert b == a + b[|a|..];
  }

  lemma NoUdpBefore(m: Mux, m': Mux)
    requires |m.streams| <= |m'.streams| && UdpStays(m, m') && NoUdp(m')
    ensures NoUdp(m)
  {
  }

  lemma LaterChain(c: Conf, p: bool, q: bool, a: Mux, b: Mux, d: Mux)
    requires Later(c, p, a, b) && Later(c, q, b, d)
    ensures Later(c, p && q, a, d)
  {
    GoesChain(c, p, q, a, b, d);
    if NoUdp(d) {
      NoUdpBefore(b, d);
    }
  }

  lemma GoesOne(c: Conf, pure: bool, m: Mux, m': Mux, h: Handle)
    requires OnlyStream(m, m', h) && (h < |m.streams| ==> Onward(c, pure, m.streams[h], m'.streams[h]))
    requires Within(c, m, m')
    ensures Goes(c, pure, m, m')
  {
    forall k: nat | k < |m.streams| ensures Onward(c, pure, m.streams[k], m'.streams[k]) {
      if k != h {
        OnwardSame(c, m.streams[k], m'.streams[k]);
      }
    }
  }

  lemma GoesNowhere(c: Conf, m: Mux, m': Mux)
    requires m'.streams == m.streams && Outstanding(m') == Outstanding(m)
    ensures Goes(c, true, m, m')
  {
    SamePushing(m, m', |m.streams|);
    GoesOne(c, true, m, m', |m.streams|);
  }

  /** One record changes, its frames stay, and the ready list too. */
  lemma SetLater(c: Conf, m: Mux, m': Mux, h: Handle)
    requires h < |m.streams| && OnlyStream(m, m', h) && m'.lists.ready == m.lists.ready
    requires Outstanding(m') == Outstanding(m)
    requires var s, s' := m.streams[h], m'.streams[h];
             && s'.id == s.id && s'.flow == s.flow && (s.uot ==> s'.uot)
             && (Ending(s) ==> Ending(s')) && (s.state == Closed ==> s'.state == Closed) && (Held(c, s) ==> Held(c, s'))
    ensures Later(c, true, m, m')
  {
    OnwardSame(c, m.streams[h], m'.streams[h]);
    SamePushing(m, m', h);
    GoesOne(c, true, m, m', h);
  }

  // ---------------------------------------------------------------------------------------
  // Accepting and closing

  lemma AcceptRecord(c: Conf, m: Mux, f: OutFrame, h: Handle)
    requires f.owner == Some(h) && h < |m.streams| && Strong(f)
    ensures var m' := Accept(c, m, f); var s, s' := m.streams[h], m'.streams[h];
            && OnlyStream(m, m', h) && s' == s.(flow := s'.flow)
            && s'.flow.accepted == s.flow.accepted + [f] && |s'.flow.out| <= |s.flow.out| + 1
  {
  }

  /** The stream joins the ready list, at its front if it is a UDP stream, or the list stays. */
  ghost predicate Queues(m: Mux, m': Mux, h: Handle)
    requires h < |m.streams|
  {
    && OnlyStream(m, m', h) && m'.streams[h].uot == m.streams[h].uot
    && (m.streams[h].flow.onReady ==> m'.streams[h].flow.onReady)
    && (IsPrefix(m.lists.ready, m'.lists.ready) || (m'.streams[h].uot && m'.streams[h].flow.onReady))
  }

  lemma SameListQueues(m: Mux, m': Mux, h: Handle)
    requires h < |m.streams| && OnlyStream(m, m', h) && m'.lists.ready == m.lists.ready
    requires m'.streams[h].uot == m.streams[h].uot && (m.streams[h].flow.onReady ==> m'.streams[h].flow.onReady)
    ensures Queues(m, m', h)
  {
  }

  lemma ToControlQueues(m: Mux, f: OutFrame, h: Handle)
    requires f.owner == Some(h) && h < |m.streams|
    ensures Queues(m, ToControl(m, f), h)
  {
    SameListQueues(m, ToControl(m, f), h);
  }

  lemma ToDataQueues(m: Mux, f: OutFrame, h: Handle)
    requires h < |m.streams|
    ensures Queues(m, ToData(m, h, f), h)
  {
    SameListQueues(m, ToData(m, h, f), h);
  }

  lemma ToStreamQueues(m: Mux, f: OutFrame, h: Handle)
    requires h < |m.streams|
    ensures Queues(m, ToStream(m, h, f), h)
  {
    var m' := ToStream(m, h, f);
    assert OnlyStream(m, m', h) && m'.streams[h].uot == m.streams[h].uot && m'.streams[h].flow.onReady;
    assert m'.streams[h].uot || IsPrefix(m.lists.ready, m'.lists.ready);
  }

  lemma AcceptQueues(c: Conf, m: Mux, f: OutFrame, h: Handle)
    requires f.owner == Some(h) && h < |m.streams|
    ensures Queues(m, Accept(c, m, f), h)
  {
    ToControlQueues(m, f, h);
    ToDataQueues(m, f, h);
    ToStreamQueues(m, f, h);
  }

  lemma QueuesLines(m: Mux, m': Mux, h: Handle)
    requires h < |m.streams| && Queues(m, m', h)
    ensures Lined(m, m')
  {
  }

  lemma AcceptLines(c: Conf, m: Mux, f: OutFrame)
    requires f.owner.Some? ==> f.owner.value < |m.streams|
    ensures |Accept(c, m, f).streams| == |m.streams| && Lined(m, Accept(c, m, f))
  {
    if f.owner.Some? {
      var h := f.owner.value;
      AcceptQueues(c, m, f, h);
      QueuesLines(m, Accept(c, m, f), h);
    }
  }

  /** A payload frame that stays within the output limit. */
  ghost predicate Allowed(c: Conf, m: Mux, f: OutFrame) {
    f.frame.cmd == PSH ==> Books(Accept(c, m, f)) && m.count.pendingOutput + f.length <= c.maxPendingOutput
  }

  lemma AcceptLater(c: Conf, m: Mux, f: OutFrame)
    requires f.owner.Some? ==> f.owner.value < |m.streams| && Strong(f) && !Ending(Get(m, f.owner.value))
    requires Allowed(c, m, f)
    ensures Later(c, !Truncated(f), m, Accept(c, m, f))
  {
    var m' := Accept(c, m, f);
    AcceptLines(c, m, f);
    AcceptWithin(c, m, f);
    if f.owner.Some? {
      var h := f.owner.value;
      AcceptRecord(c, m, f, h);
      OnwardFrame(c, m.streams[h], m'.streams[h], f);
      GoesOne(c, !Truncated(f), m, m', h);
    } else {
      assert m'.streams == m.streams;
      forall k: nat | k < |m.streams| ensures Onward(c, true, m.streams[k], m'.streams[k]) {
        OnwardSame(c, m.streams[k], m.streams[k]);
      }
    }
  }

  lemma ClosedOnward(c: Conf, s: Stream)
    ensures Onward(c, true, s, Waiting(s)) || s.state == Closed
    ensures s.flow.out == [] ==> Onward(c, true, s, Gone(s))
  {
    assert s.flow.accepted[|s.flow.accepted|..] == [];
  }

  /** Between events a stream that is closed for good holds no frame. */
  lemma NothingHeldBack(m: Mux, h: Handle)
    requires Core(m) && h < |m.streams| && m.streams[h].flow.queuedFrames == 0
    ensures m.streams[h].flow.out == [] && !m.streams[h].flow.onReady
  {
    assert StreamAt(m, h);
  }

  lemma CloseRecordOnward(c: Conf, m: Mux, h: Handle)
    requires Core(m) && !m.finalized && h < |m.streams| && m.streams[h].state != Closed
    ensures Onward(c, true, m.streams[h], CloseStream(m, h).streams[h])
    ensures CloseStream(m, h).lists.ready == m.lists.ready
    ensures var s' := CloseStream(m, h).streams[h];
            m.streams[h].flow.onReady ==> s'.flow.onReady && s'.uot == m.streams[h].uot
  {
    var s := m.streams[h];
    CloseRecord(m, h);
    ClosedOnward(c, s);
    if s.flow.queuedFrames == 0 {
      NothingHeldBack(m, h);
    }
  }

  lemma CloseLater(c: Conf, m: Mux, h: Handle)
    requires Core(m) && !m.finalized && h < |m.streams|
    ensures Later(c, true, m, CloseStream(m, h))
  {
    CloseShrinks(m, h);
    ClosePushing(m, h);
    if m.streams[h].state != Closed {
      CloseRecordOnward(c, m, h);
    } else {
      OnwardSame(c, m.streams[h], m.streams[h]);
    }
    GoesOne(c, true, m, CloseStream(m, h), h);
  }

  lemma UotCloseLater(c: Conf, m: Mux, h: Handle)
    requires h < |m.streams|
    ensures Later(c, true, m, UotClose(m, h))
  {
    SetLater(c, m, UotClose(m, h), h);
  }

  lemma BlockLater(c: Conf, m: Mux, h: Handle)
    requires h < |m.streams|
    ensures Later(c, true, m, Block(m, h))
  {
    SetLater(c, m, Block(m, h), h);
  }

  lemma RequeueLater(c: Conf, m: Mux, h: Handle)
    requires h < |m.streams|
    ensures Later(c, true, m, Requeue(m, h))
  {
    SetLater(c, m, Requeue(m, h), h);
  }

  lemma PopReadLater(c: Conf, m: Mux)
    requires m.lists.readReady != [] && m.lists.readReady[0] < |m.streams|
    ensures Later(c, true, m, PopRead(m))
  {
    SetLater(c, m, PopRead(m), m.lists.readReady[0]);
  }

  /** A reader is woken only if its read may fit. */
  lemma UnblockLater(c: Conf, m: Mux, h: Handle)
    requires h < |m.streams| && Life(m.streams[h]) && (Readable(m.streams[h]) ==> ReadFits(c, m.streams[h]))
    ensures Later(c, true, m, Unblock(m, h))
  {
    SetLater(c, m, Unblock(m, h), h);
  }

  // ---------------------------------------------------------------------------------------
  // Events on a stream

  lemma PlainIsWhole(owner: Option<Handle>, f: Frame)
    requires f.Encodable()
    ensures !Truncated(Plain(owner, f))
  {
    assert |Encode(f)| == HEADER_LEN + |f.data|;
  }

  lemma SynackLater(c: Conf, m: Mux, h: Handle, msg: Bytes)
    requires h < |m.streams| && !Ending(m.streams[h])
    ensures Later(c, true, m, SendSynack(c, m, h, msg).0)
  {
    var s := m.streams[h];
    if s.synackSent {
      GoesNowhere(c, m, m);
    } else {
      var m1 := Set(m, h, s.(synackSent := true));
      SetLater(c, m, m1, h);
      var f := Frame(SYNACK, s.id, msg);
      if m.peerVersion >= 2 && f.Encodable() && Admits(m1, Plain(Some(h), f)) {
        AcceptLater(c, m1, Plain(Some(h), f));
        LaterChain(c, true, true, m, m1, Accept(c, m1, Plain(Some(h), f)));
      }
    }
  }

  lemma FinAcceptedLater(c: Conf, m: Mux, h: Handle, f: OutFrame)
    requires Sound(c, m) && h < |m.streams| && m.streams[h].synackSent && !Ending(m.streams[h])
    requires f.owner == Some(h) && f.frame.cmd == FIN && Proper(f) && Admits(m, f)
    ensures Later(c, true, m, CloseStream(Accept(c, m, f), h))
  {
    var m1 := Accept(c, m, f);
    AcceptLater(c, m, f);
    assert Life(m.streams[h]);
    AcceptCore(c, m, f);
    AcceptTook(c, m, f);
    CloseLater(c, m1, h);
    LaterChain(c, true, true, m, m1, CloseStream(m1, h));
  }

  function Marked(s: Stream): Stream {
    s.(closedByProtocol := true)
  }

  function FinFrame(h: Handle, id: nat): OutFrame
    requires id < U32_LIMIT
  {
    Plain(Some(h), Frame(FIN, id, []))
  }

  /** The end of a stream that has no FIN yet: it waits for nothing but a place for its FIN. */
  lemma FinShape(c: Conf, m: Mux, h: Handle)
    requires h < |m.streams| && !m.streams[h].flow.finQueued && !m.streams[h].flow.finSent
             && m.streams[h].id < U32_LIMIT
    ensures var m1 := Set(m, h, Marked(m.streams[h])); var f := FinFrame(h, m.streams[h].id);
            SendFinAndClose(c, m, h) == if m.count.frames < MAX_OUT_FRAMES then CloseStream(Accept(c, m1, f), h) else m1
  {
    var m1 := Set(m, h, Marked(m.streams[h])); var f := FinFrame(h, m.streams[h].id);
    FinFrameProper(h, m.streams[h].id);
    assert QueueFin(c, m, h) == Queue(c, m1, f);
    FinQueued(c, m1, f);
  }

  lemma FinQueued(c: Conf, m: Mux, f: OutFrame)
    requires f.frame.cmd == FIN
    ensures Queue(c, m, f) == if m.count.frames < MAX_OUT_FRAMES then (Accept(c, m, f), true) else (m, false)
  {
  }

  lemma FinLater(c: Conf, m: Mux, h: Handle)
    requires Sound(c, m) && h < |m.streams| && m.streams[h].synackSent && !Ending(m.streams[h])
    ensures Later(c, true, m, SendFinAndClose(c, m, h))
  {
    var s := m.streams[h];
    assert !s.flow.finQueued && !s.flow.finSent && s.id < U32_LIMIT by { assert StreamAt(m, h) && Life(s); }
    FinShape(c, m, h);
    MarkLater(c, m, h);
    if m.count.frames < MAX_OUT_FRAMES {
      FinFrameProper(h, s.id);
      MarkedFinLater(c, m, Set(m, h, Marked(s)), h, FinFrame(h, s.id));
    }
  }

  lemma MarkLater(c: Conf, m: Mux, h: Handle)
    requires Sound(c, m) && h < |m.streams|
    ensures var m1 := Set(m, h, Marked(m.streams[h]));
            && Later(c, true, m, m1) && Sound(c, m1) && |m1.streams| == |m.streams|
            && m1.streams[h] == Marked(m.streams[h]) && m1.count.frames == m.count.frames
  {
    MarkSound(c, m, h);
    SetLater(c, m, Set(m, h, Marked(m.streams[h])), h);
  }

  lemma MarkSound(c: Conf, m: Mux, h: Handle)
    requires Sound(c, m) && h < |m.streams|
    ensures Sound(c, Set(m, h, Marked(m.streams[h])))
  {
    assert Life(m.streams[h]);
    SetOk(c, m, h, Marked(m.streams[h]));
  }

  lemma PlainIsProper(owner: Option<Handle>, f: Frame)
    requires f.Encodable() && f.cmd <= SERVER_SETTINGS
    ensures Proper(Plain(owner, f))
  {
  }

  lemma FinFrameProper(h: Handle, id: nat)
    requires id < U32_LIMIT
    ensures var f := FinFrame(h, id); f.owner == Some(h) && f.frame.cmd == FIN && Proper(f) && f.length == HEADER_LEN
  {
    PlainIsProper(Some(h), Frame(FIN, id, []));
  }

  lemma MarkedFinLater(c: Conf, m: Mux, m1: Mux, h: Handle, f: OutFrame)
    requires Later(c, true, m, m1) && Sound(c, m1) && h < |m1.streams| && m1.count.frames < MAX_OUT_FRAMES
    requires m1.streams[h].synackSent && !Ending(m1.streams[h])
    requires f.owner == Some(h) && f.frame.cmd == FIN && Proper(f)
    ensures Later(c, true, m, CloseStream(Accept(c, m1, f), h))
  {
    FinAcceptedLater(c, m1, h, f);
    LaterChain(c, true, true, m, m1, CloseStream(Accept(c, m1, f), h));
  }

  lemma ReadEndLater(c: Conf, m: Mux, h: Handle)
    requires Sound(c, m) && h < |m.streams| && Readable(m.streams[h]) && ReadFits(c, m.streams[h])
    ensures Later(c, true, m, EndOfUpstream(c, m, h))
  {
    var s1 := m.streams[h].(conn := false);
    var m1 := Set(m, h, s1);
    assert Life(m.streams[h]);
    SetOk(c, m, h, s1);
    SetLater(c, m, m1, h);
    FinLater(c, m1, h);
    LaterChain(c, true, true, m, m1, SendFinAndClose(c, m1, h));
  }

  /** The read is an empty datagram. */
  predicate EmptyDatagram(s: Stream, bytes: Bytes) {
    s.uot && s.uotConnect && bytes == []
  }

  /** And its frame is queued. */
  predicate TakesEmpty(c: Conf, m: Mux, h: Handle, bytes: Bytes) {
    EmptyDatagram(Get(m, h), bytes) && ReadOne(c, m, h, bytes).1
  }

  lemma ReadFrameTruncated(h: Handle, s: Stream, bytes: Bytes)
    requires s.id < U32_LIMIT && |bytes| <= MAX_FRAME_DATA
    requires s.uot && s.uotConnect ==> |bytes| + 2 <= MAX_FRAME_DATA
    ensures Truncated(ReadFrame(h, s, bytes)) <==> EmptyDatagram(s, bytes)
  {
    var f := ReadFrame(h, s, bytes);
    if !EmptyDatagram(s, bytes) {
      PlainIsWhole(Some(h), f.frame);
    }
  }

  lemma PshAllowed(c: Conf, m: Mux, h: Handle, f: OutFrame)
    requires Sound(c, m) && h < |m.streams| && m.streams[h].synackSent && !Ending(m.streams[h])
    requires f.owner == Some(h) && f.frame.cmd == PSH && Proper(f) && Admits(m, f)
    requires m.count.pendingOutput + f.length <= c.maxPendingOutput
    ensures Allowed(c, m, f)
  {
    PshOk(c, m, h, f);
  }

  lemma ReadOneLater(c: Conf, m: Mux, h: Handle, bytes: Bytes)
    requires Sound(c, m) && h < |m.streams| && Readable(m.streams[h]) && ReadFits(c, m.streams[h])
    requires HasRoom(c, m, ReadSize(c, m.streams[h]))
    ensures Later(c, !TakesEmpty(c, m, h, bytes), m, ReadOne(c, m, h, bytes).0)
  {
    var s := m.streams[h];
    var got := bytes[..Min(|bytes|, ReadLimit(c, s))];
    assert s.id < U32_LIMIT by { assert StreamAt(m, h); }
    assert Life(s);
    if s.uot && s.uotConnect && ReadSize(c, s) <= 2 {
      CloseLater(c, m, h);
    } else if got == [] && !(s.uot && s.uotConnect) {
      ReadEndLater(c, m, h);
    } else {
      var f := ReadFrame(h, s, got);
      ReadFrameShape(h, s, got);
      ReadFrameTruncated(h, s, got);
      assert EmptyDatagram(s, got) <==> EmptyDatagram(s, bytes);
      if Admits(m, f) {
        PshAllowed(c, m, h, f);
        AcceptLater(c, m, f);
      } else {
        CloseLater(c, m, h);
      }
    }
  }

  /** Some read of the loop is an empty datagram, and its frame is queued. */
  predicate LoopTakesEmpty(c: Conf, m: Mux, h: Handle, done: nat, script: seq<Read>)
    decreases READ_FRAME_BUDGET - done
  {
    && done < READ_FRAME_BUDGET && !m.pressure && HasRoom(c, m, ReadSize(c, Get(m, h)))
    && script != [] && script[0].Got?
    && var (m1, more) := ReadOne(c, m, h, script[0].bytes);
       TakesEmpty(c, m, h, script[0].bytes) || (more && LoopTakesEmpty(c, m1, h, done + 1, script[1..]))
  }

  lemma {:induction false} ReadLoopLater(c: Conf, m: Mux, h: Handle, done: nat, script: seq<Read>)
    requires Sound(c, m) && h < |m.streams| && Readable(m.streams[h])
    ensures Later(c, !LoopTakesEmpty(c, m, h, done, script), m, ReadLoop(c, m, h, done, script).0)
    decreases READ_FRAME_BUDGET - done
  {
    if done >= READ_FRAME_BUDGET {
      RequeueLater(c, m, h);
    } else if m.pressure || !HasRoom(c, m, ReadSize(c, Get(m, h))) {
      BlockLater(c, m, h);
    } else if script == [] || script[0] == Again {
      GoesNowhere(c, m, m);
    } else if script[0] == Failed {
      CloseLater(c, m, h);
    } else {
      ReadOneLater(c, m, h, script[0].bytes);
      ReadOneOk(c, m, h, script[0].bytes);
      var (m1, more) := ReadOne(c, m, h, script[0].bytes);
      if more {
        ReadLoopLater(c, m1, h, done + 1, script[1..]);
        LaterChain(c, !TakesEmpty(c, m, h, script[0].bytes), !LoopTakesEmpty(c, m1, h, done + 1, script[1..]),
                   m, m1, ReadLoop(c, m1, h, done + 1, script[1..]).0);
      }
    }
  }

  predicate VisitTakesEmpty(c: Conf, m: Mux, done: nat, script: seq<Read>)
    requires m.lists.readReady != []
  {
    var h := m.lists.readReady[0];
    Readable(Get(m, h)) && LoopTakesEmpty(c, PopRead(m), h, done, script)
  }

  predicate DrainTakesEmpty(c: Conf, m: Mux, visited: nat, done: nat, script: seq<Read>)
    decreases Minus(READ_STREAM_BUDGET, visited), |m.lists.readReady|
  {
    && m.lists.readReady != [] && visited < READ_STREAM_BUDGET
    && var (m1, done1, script1, read) := VisitReader(c, m, done, script);
       VisitTakesEmpty(c, m, done, script)
       || (|m.lists.readReady| != 1
           && DrainTakesEmpty(c, m1, if read then visited + 1 else visited, done1, script1))
  }

  lemma VisitLater(c: Conf, m: Mux, done: nat, script: seq<Read>)
    requires Sound(c, m) && m.lists.readReady != []
    ensures Later(c, !VisitTakesEmpty(c, m, done, script), m, VisitReader(c, m, done, script).0)
  {
    var h := m.lists.readReady[0]; var m1 := PopRead(m);
    PopReadOk(c, m);
    PopReadLater(c, m);
    if Readable(Get(m, h)) {
      ReadLoopLater(c, m1, h, done, script);
      LaterChain(c, true, !LoopTakesEmpty(c, m1, h, done, script), m, m1, ReadLoop(c, m1, h, done, script).0);
    }
  }

  lemma {:induction false} DrainReadsLater(c: Conf, m: Mux, visited: nat, done: nat, script: seq<Read>)
    requires Sound(c, m)
    ensures Later(c, !DrainTakesEmpty(c, m, visited, done, script), m, DrainReads(c, m, visited, done, script))
    decreases Minus(READ_STREAM_BUDGET, visited), |m.lists.readReady|
  {
    if m.lists.readReady == [] || visited >= READ_STREAM_BUDGET {
      GoesNowhere(c, m, m);
    } else {
      var (m1, done1, script1, read) := VisitReader(c, m, done, script);
      VisitLater(c, m, done, script);
      VisitOk(c, m, done, script);
      if |m.lists.readReady| != 1 {
        var visited1 := if read then visited + 1 else visited;
        DrainReadsLater(c, m1, visited1, done1, script1);
        LaterChain(c, !VisitTakesEmpty(c, m, done, script), !DrainTakesEmpty(c, m1, visited1, done1, script1),
                   m, m1, DrainReads(c, m1, visited1, done1, script1));
      }
    }
  }

  lemma ReadReadyLater(c: Conf, m: Mux, h: Handle, script: seq<Read>)
    requires Sound(c, m) && h < |m.streams|
    ensures Later(c, !(Readable(m.streams[h]) && DrainTakesEmpty(c, Requeue(m, h), 0, 0, script)), m,
            OnReadReady(c, m, h, script))
  {
    if Readable(m.streams[h]) {
      var m1 := Requeue(m, h);
      RequeueOk(c, m, h);
      RequeueLater(c, m, h);
      DrainReadsLater(c, m1, 0, 0, script);
      LaterChain(c, true, !DrainTakesEmpty(c, m1, 0, 0, script), m, m1, DrainReads(c, m1, 0, 0, script));
    } else {
      GoesNowhere(c, m, m);
    }
  }

  ghost predicate Fed(c: Conf, m: Mux, n: Mux, h: Handle) {
    Ok(c, m, n) && Feeding(Get(n, h)) && Later(c, true, m, n)
  }

  lemma DatagramFed(c: Conf, m: Mux, n: Mux, h: Handle, f: Frame)
    requires Sound(c, m) && h < |m.streams| && Fed(c, m, n, h)
    requires f.cmd == PSH && f.Encodable() && HasRoom(c, n, |f.data|) && Admits(n, Plain(Some(h), f))
    ensures Fed(c, m, Accept(c, n, Plain(Some(h), f)), h)
  {
    var g := Plain(Some(h), f);
    PlainIsProper(Some(h), f);
    PlainIsWhole(Some(h), f);
    FrameFed(c, m, n, h, g);
  }

  lemma FrameFed(c: Conf, m: Mux, n: Mux, h: Handle, g: OutFrame)
    requires Sound(c, m) && h < |m.streams| && Fed(c, m, n, h)
    requires g.owner == Some(h) && g.frame.cmd == PSH && Proper(g) && !Truncated(g) && Admits(n, g)
    requires n.count.pendingOutput + g.length <= c.maxPendingOutput
    ensures Fed(c, m, Accept(c, n, g), h)
  {
    PshOk(c, n, h, g);
    OkChain(c, m, n, Accept(c, n, g));
    PshAllowed(c, n, h, g);
    AcceptLater(c, n, g);
    LaterChain(c, true, true, m, n, Accept(c, n, g));
  }

  lemma DatagramsLater(c: Conf, m: Mux, h: Handle, dgrams: seq<SocksAddr.Packet>)
    requires Sound(c, m) && h < |m.streams| && Feeding(m.streams[h])
    ensures Later(c, true, m, ReadDatagrams(c, m, h, dgrams))
  {
    GoesNowhere(c, m, m);
    var keep := n => Fed(c, m, n, h);
    forall n: Mux, f: Frame ensures PshKeeps(c, keep, n, h, f) {
      if keep(n) && f.cmd == PSH && f.Encodable() && HasRoom(c, n, |f.data|) && Admits(n, Plain(Some(h), f)) {
        DatagramFed(c, m, n, h, f);
      }
    }
    ReadDatagramsKeeps(c, m, h, dgrams, keep);
  }

  lemma RefuseLater(c: Conf, m: Mux, h: Handle, msg: Bytes)
    requires Core(m) && Calm(c, m) && !m.finalized && h < |m.streams| && !Ending(m.streams[h])
    ensures Later(c, true, m, Refuse(c, m, h, msg))
  {
    var m1 := SendSynack(c, m, h, msg).0;
    SynackLater(c, m, h, msg);
    SynackShape(c, m, h, msg);
    CloseLater(c, m1, h);
    LaterChain(c, true, true, m, m1, CloseStream(m1, h));
  }

  lemma EstablishLater(c: Conf, m: Mux, h: Handle)
    requires h < |m.streams|
    ensures Later(c, true, m, Establish(c, m, h))
  {
    var s := m.streams[h];
    if s.state == Connecting && s.conn {
      var m1 := Set(m, h, s.(state := Connected));
      SetLater(c, m, m1, h);
      SynackLater(c, m1, h, []);
      LaterChain(c, true, true, m, m1, SendSynack(c, m1, h, []).0);
    } else {
      GoesNowhere(c, m, m);
    }
  }

  lemma WelcomeLater(c: Conf, m: Mux, h: Handle)
    requires Core(m) && Calm(c, m) && !m.finalized && h < |m.streams| && !Ending(m.streams[h])
    ensures Later(c, true, m, Welcome(c, m, h))
  {
    var m1 := SendSynack(c, m, h, []).0;
    SynackLater(c, m, h, []);
    if !SendSynack(c, m, h, []).1 {
      SynackShape(c, m, h, []);
      CloseLater(c, m1, h);
      LaterChain(c, true, true, m, m1, CloseStream(m1, h));
    }
  }

  lemma StartUotLater(c: Conf, m: Mux, h: Handle, connectMode: bool)
    requires Sound(c, m) && h < |m.streams|
    ensures Later(c, true, m, StartUot(c, m, h, connectMode))
  {
    var s := m.streams[h];
    if s.closedByProtocol || s.state != Init {
      GoesNowhere(c, m, m);
    } else if m.count.uotStreams >= c.maxUotStreams {
      RefuseLater(c, m, h, UOT_LIMIT);
    } else {
      var m1 := TakeSlot(m, h, connectMode);
      SlotCalm(c, m, h, connectMode);
      SetLater(c, m, m1, h);
      WelcomeLater(c, m1, h);
      LaterChain(c, true, true, m, m1, Welcome(c, m1, h));
    }
  }

  lemma SetAndCloseLater(c: Conf, m: Mux, m1: Mux, h: Handle)
    requires Core(m1) && !m1.finalized && h < |m1.streams| && Later(c, true, m, m1)
    ensures Later(c, true, m, CloseStream(m1, h))
  {
    CloseLater(c, m1, h);
    LaterChain(c, true, true, m, m1, CloseStream(m1, h));
  }

  lemma EndInputLater(c: Conf, m: Mux, h: Handle, flushFailed: bool)
    requires Sound(c, m) && h < |m.streams|
    ensures Later(c, true, m, EndInput(m, h, flushFailed))
  {
    var s := m.streams[h];
    var s1 := s.(closedByProtocol := true);
    var m1 := Set(m, h, s1);
    assert Life(s);
    if s.closedByProtocol {
      GoesNowhere(c, m, m);
    } else if s.conn && s.state == Connected && !flushFailed && !s.uot {
      SetLater(c, m, Set(m, h, s1.(state := HalfClosed)), h);
    } else {
      SetLater(c, m, m1, h);
      SetOk(c, m, h, s1);
      if s.uot {
        UotCloseOk(c, m1, h);
        UotCloseLater(c, m1, h);
        LaterChain(c, true, true, m, m1, UotClose(m1, h));
        SetAndCloseLater(c, m, UotClose(m1, h), h);
      } else {
        SetAndCloseLater(c, m, m1, h);
      }
    }
  }

  lemma UotIdleLater(c: Conf, m: Mux, h: Handle)
    requires Sound(c, m) && h < |m.streams| && m.streams[h].uot && m.streams[h].conn
    ensures Later(c, true, m, SendFinAndClose(c, UotClose(m, h), h))
  {
    var m1 := UotClose(m, h);
    assert Life(m.streams[h]);
    UotCloseOk(c, m, h);
    UotCloseLater(c, m, h);
    FinLater(c, m1, h);
    LaterChain(c, true, true, m, m1, SendFinAndClose(c, m1, h));
  }

  /** In this event an empty datagram of a connected UDP stream is read and its frame queued. */
  predicate TakesEmptyDatagram(c: Conf, m: Mux, e: Event) {
    && e.OnStream? && e.what.UpstreamReadable? && e.h < |m.streams| && Readable(m.streams[e.h])
    && DrainTakesEmpty(c, Requeue(m, e.h), 0, 0, e.what.script)
  }

  lemma StreamStepLater(c: Conf, m: Mux, h: Handle, e: StreamEvent)
    requires Sound(c, m) && h < |m.streams|
    ensures Later(c, !TakesEmptyDatagram(c, m, OnStream(h, e)), m, StreamStep(c, m, h, e))
  {
    match e {
      case Dial(_) => FlagsLater(c, m, h, e);
      case Established => EstablishLater(c, m, h);
      case Refused(reason) => RefusedLater(c, m, h, reason);
      case OpenUot(connectMode) => StartUotLater(c, m, h, connectMode);
      case PacketRequest => FlagsLater(c, m, h, e);
      case UdpSocket => FlagsLater(c, m, h, e);
      case ClientFin(flushFailed) => EndInputLater(c, m, h, flushFailed);
      case CloseOne => CloseLater(c, m, h);
      case UotIdle => IdleLater(c, m, h);
      case UpstreamReadable(script) => ReadReadyLater(c, m, h, script);
      case Datagrams(dgrams) => DatagramsEventLater(c, m, h, dgrams);
    }
  }

  lemma FlagsLater(c: Conf, m: Mux, h: Handle, e: StreamEvent)
    requires Sound(c, m) && h < |m.streams| && (e.Dial? || e.PacketRequest? || e.UdpSocket?)
    ensures Later(c, true, m, StreamStep(c, m, h, e))
  {
    assert Life(m.streams[h]);
    SetLater(c, m, StreamStep(c, m, h, e), h);
  }

  lemma RefusedLater(c: Conf, m: Mux, h: Handle, reason: Bytes)
    requires Sound(c, m) && h < |m.streams|
    ensures Later(c, true, m, StreamStep(c, m, h, Refused(reason)))
  {
    if m.streams[h].state == Connecting {
      RefuseLater(c, m, h, reason);
    } else {
      GoesNowhere(c, m, m);
    }
  }

  lemma IdleLater(c: Conf, m: Mux, h: Handle)
    requires Sound(c, m) && h < |m.streams|
    ensures Later(c, true, m, StreamStep(c, m, h, UotIdle))
  {
    if m.streams[h].uot && m.streams[h].conn {
      UotIdleLater(c, m, h);
    } else {
      GoesNowhere(c, m, m);
    }
  }

  lemma DatagramsEventLater(c: Conf, m: Mux, h: Handle, dgrams: seq<SocksAddr.Packet>)
    requires Sound(c, m) && h < |m.streams|
    ensures Later(c, true, m, StreamStep(c, m, h, Datagrams(dgrams)))
  {
    var s := m.streams[h];
    assert Life(s);
    if !(s.uot && s.conn && !s.uotConnect) {
      GoesNowhere(c, m, m);
    } else if m.pressure || !HasRoom(c, m, 0) {
      BlockLater(c, m, h);
    } else {
      DatagramsLater(c, m, h, dgrams);
    }
  }

  // ---------------------------------------------------------------------------------------
  // A drain

  lemma MoveOnward(c: Conf, s: Stream, s': Stream)
    requires s.flow.out != [] && s' == s.(flow := s.flow.(out := s.flow.out[1..], onReady := s'.flow.onReady))
    ensures Onward(c, true, s, s') && Scheduled(s') == Scheduled(s) + 1
  {
    assert s.flow.accepted[|s.flow.accepted|..] == [];
  }

  lemma MoveGoes(c: Conf, m: Mux)
    requires Core(m) && m.lists.ready != []
    ensures Goes(c, true, m, MoveOne(m))
  {
    ReadyHasOutput(m);
    var h := m.lists.ready[0];
    MoveOnward(c, m.streams[h], MoveOne(m).streams[h]);
    MovePushing(m);
    GoesOne(c, true, m, MoveOne(m), h);
  }

  lemma ScheduleGoes(c: Conf, m: Mux)
    requires Core(m)
    ensures Goes(c, true, m, Schedule(c, m, 0, 0)) && Core(Schedule(c, m, 0, 0))
  {
    GoesNowhere(c, m, m);
    var keep := n => Core(n) && Goes(c, true, m, n);
    forall n: Mux ensures MoveKeeps(keep, n) {
      if keep(n) && n.lists.ready != [] {
        MoveOneCore(n);
        MoveGoes(c, n);
        GoesChain(c, true, true, m, n, MoveOne(n));
      }
    }
    ScheduleKeeps(c, m, 0, 0, keep);
  }

  /** Streams go on, and the ready list stays as it is. */
  ghost predicate Still(c: Conf, m: Mux, m': Mux) {
    Goes(c, true, m, m') && m'.lists.ready == m.lists.ready
  }

  lemma StillChain(c: Conf, a: Mux, b: Mux, d: Mux)
    requires Still(c, a, b) && Still(c, b, d)
    ensures Still(c, a, d)
  {
    GoesChain(c, true, true, a, b, d);
  }

  lemma DischargedOnward(c: Conf, s: Stream, f: OutFrame)
    ensures Onward(c, true, s, s.(flow := Discharged(s.flow, f)))
  {
    assert s.flow.accepted[|s.flow.accepted|..] == [];
  }

  lemma DischargeRecord(m: Mux)
    requires Core(m) && HeadWritten(m.wire) && m.wire.sending[0].owner.Some?
    ensures var f := m.wire.sending[0]; var h := f.owner.value;
            && h < |m.streams| && OnlyStream(m, Discharge(m), h)
            && Discharge(m).streams[h] == m.streams[h].(flow := Discharged(m.streams[h].flow, f))
  {
    assert m.wire.sending[0] in Outstanding(m);
  }

  lemma DischargeStill(c: Conf, m: Mux)
    requires Core(m) && HeadWritten(m.wire)
    ensures Still(c, m, Discharge(m))
  {
    var f := m.wire.sending[0];
    DischargePushing(m);
    if f.owner.Some? {
      var h := f.owner.value;
      DischargeRecord(m);
      DischargedOnward(c, m.streams[h], f);
      GoesOne(c, true, m, Discharge(m), h);
    } else {
      GoesOne(c, true, m, Discharge(m), |m.streams|);
    }
  }

  lemma RetireStill(c: Conf, m: Mux)
    requires Steady(c, m) && HeadWritten(m.wire)
    ensures Still(c, m, Retire(m))
  {
    var f := m.wire.sending[0]; var m1 := Discharge(m);
    DischargeStill(c, m);
    DischargeCore(m);
    assert f in Outstanding(m);
    if f.owner.Some? {
      var h := f.owner.value;
      if m1.streams[h].state == Closing && m1.streams[h].flow.queuedFrames == 0 {
        CloseRecordOnward(c, m1, h);
        CloseShrinks(m1, h);
        ClosePushing(m1, h);
        GoesOne(c, true, m1, CloseStream(m1, h), h);
        StillChain(c, m, m1, CloseStream(m1, h));
      }
    }
  }

  lemma RecycleStill(c: Conf, m: Mux)
    requires Steady(c, m)
    ensures Still(c, m, Recycle(m)) && Steady(c, Recycle(m))
  {
    GoesNowhere(c, m, m);
    var keep := n => Steady(c, n) && Still(c, m, n);
    forall n: Mux ensures RetireKeeps(keep, n) {
      if keep(n) && HeadWritten(n.wire) {
        RetireSteady(c, n);
        RetireStill(c, n);
        StillChain(c, m, n, Retire(n));
      }
    }
    RecycleKeeps(m, keep);
  }

  lemma UnblockStill(c: Conf, m: Mux, h: Handle)
    requires Steady(c, m) && h < |m.streams| && (Readable(m.streams[h]) ==> HasRoom(c, m, ReadSize(c, m.streams[h])))
    ensures Still(c, m, Unblock(m, h)) && Steady(c, Unblock(m, h))
  {
    assert Life(m.streams[h]);
    UnblockLater(c, m, h);
    assert Woken(c, m, m);
    UnblockWakes(c, m, m, h);
  }

  lemma {:induction false} ProcessBlockedStill(c: Conf, m: Mux, todo: seq<Handle>)
    requires Steady(c, m) && forall h :: h in todo ==> h < |m.streams|
    ensures Still(c, m, ProcessBlocked(c, m, todo))
    decreases |todo|
  {
    GoesNowhere(c, m, m);
    if todo != [] {
      var h := todo[0];
      assert h in todo;
      if !(Readable(Get(m, h)) && (m.pressure || !HasRoom(c, m, ReadSize(c, Get(m, h))))) {
        UnblockStill(c, m, h);
        assert forall k :: k in todo[1..] ==> k in todo;
        ProcessBlockedStill(c, Unblock(m, h), todo[1..]);
        StillChain(c, m, Unblock(m, h), ProcessBlocked(c, Unblock(m, h), todo[1..]));
      }
    }
  }

  lemma ResumeStill(c: Conf, m: Mux)
    requires Steady(c, m)
    ensures Still(c, m, Resume(c, m)) && Steady(c, Resume(c, m))
  {
    ProcessBlockedStill(c, m, m.lists.blocked);
    ResumeWakes(c, m);
  }

  ghost predicate WokenStill(c: Conf, m: Mux, n: Mux) {
    Woken(c, m, n) && Still(c, m, n)
  }

  lemma PopReadStill(c: Conf, m: Mux, n: Mux)
    requires WokenStill(c, m, n) && n.lists.readReady != []
    ensures n.lists.readReady[0] < |n.streams| && WokenStill(c, m, PopRead(n))
  {
    PopReadWakes(c, m, n);
    PopReadLater(c, n);
    StillChain(c, m, n, PopRead(n));
  }

  lemma BlockStill(c: Conf, m: Mux, n: Mux, h: Handle)
    requires WokenStill(c, m, n) && h < |n.streams| && !Ending(n.streams[h])
    ensures WokenStill(c, m, Block(n, h))
  {
    BlockWakes(c, m, n, h);
    BlockLater(c, n, h);
    StillChain(c, m, n, Block(n, h));
  }

  lemma SuspendTurnStill(c: Conf, m: Mux, n: Mux)
    requires WokenStill(c, m, n) && n.lists.readReady != []
    ensures var h := n.lists.readReady[0]; var s := Get(n, h); var n1 := PopRead(n);
            WokenStill(c, m, if s.conn && s.state != Closed && s.state != Closing then Block(n1, h) else n1)
  {
    var h := n.lists.readReady[0];
    PopReadStill(c, m, n);
    if Get(n, h).conn && Get(n, h).state != Closed && Get(n, h).state != Closing {
      BlockStill(c, m, PopRead(n), h);
    }
  }

  lemma SuspendStill(c: Conf, m: Mux)
    requires Steady(c, m)
    ensures Still(c, m, SuspendReads(m)) && Steady(c, SuspendReads(m))
  {
    GoesNowhere(c, m, m);
    var keep := n => WokenStill(c, m, n);
    forall n: Mux ensures SuspendKeeps(keep, n) {
      if keep(n) && n.lists.readReady != [] {
        SuspendTurnStill(c, m, n);
      }
    }
    SuspendReadsKeeps(m, keep);
  }

  lemma SameStreamsStill(c: Conf, m: Mux, n: Mux, n': Mux)
    requires Still(c, m, n) && n'.streams == n.streams && n'.lists.ready == n.lists.ready
    requires Outstanding(n') == Outstanding(n)
    ensures Still(c, m, n')
  {
    GoesNowhere(c, n, n');
    StillChain(c, m, n, n');
  }

  lemma PushedStill(c: Conf, m: Mux, k: nat)
    requires Steady(c, m)
    ensures Still(c, m, Pushed(c, m, k).0)
  {
    var m0 := m.(wire := Write(m.wire, k));
    var m1 := Recycle(m0);
    GoesNowhere(c, m, m0);
    WriteSteady(c, m, k);
    RecycleStill(c, m0);
    StillChain(c, m, m0, m1);
    var m2 := if m1.pressure then m1 else Resume(c, m1);
    if !m1.pressure {
      ResumeStill(c, m1);
      StillChain(c, m, m1, m2);
    }
    if m2.wire.unsent == [] {
      var m3 := m2.(armed := false);
      SignalsSteady(c, m2, m3);
      NothingToClose(m3, m3.lists.closing);
    }
    SameStreamsStill(c, m, m2, Pushed(c, m, k).0);
  }

  lemma FlushStill(c: Conf, m: Mux, k: nat)
    requires Steady(c, m) && HeadOpen(m.wire)
    ensures Still(c, Schedule(c, m, 0, 0), Flush(c, m, k).0)
  {
    var m0, m1 := Schedule(c, m, 0, 0), Chained(c, m);
    GoesNowhere(c, m0, m1);
    ChainedSteady(c, m);
    if m1.wire.unsent != [] {
      PushedStill(c, m1, k);
      StillChain(c, m0, m1, Flush(c, m, k).0);
    }
  }

  /** All that a drain changes of the order of the streams is what its schedule call changes. */
  lemma DrainStill(c: Conf, m: Mux, k: nat)
    requires Steady(c, m) && HeadOpen(m.wire)
    ensures Still(c, Schedule(c, m, 0, 0), Drain(c, m, k))
  {
    NothingToClose(m, m.lists.closing);
    var m0 := Schedule(c, m, 0, 0);
    var (m1, all) := Flush(c, m, k);
    FlushStill(c, m, k);
    FlushFlushed(c, m, k);
    var m2 := m1.(pressure := !all);
    SignalsSteady(c, m1, m2);
    SameStreamsStill(c, m0, m1, m2);
    if all {
      ResumedStill(c, m0, m2);
      if m.pressure {
        ResumedStill(c, m0, Resume(c, m2));
      }
    } else if m1.pressure {
      ResumedStill(c, m0, m1);
    } else {
      SuspendStill(c, m2);
      StillChain(c, m0, m2, SuspendReads(m2));
      ResumedStill(c, m0, SuspendReads(m2));
    }
  }

  lemma ResumedStill(c: Conf, m: Mux, n: Mux)
    requires Still(c, m, n) && Steady(c, n)
    ensures Still(c, m, Resume(c, n)) && Steady(c, Resume(c, n))
  {
    ResumeStill(c, n);
    StillChain(c, m, n, Resume(c, n));
  }

  lemma DrainGoes(c: Conf, m: Mux, k: nat)
    requires Steady(c, m) && HeadOpen(m.wire)
    ensures Goes(c, true, m, Drain(c, m, k))
  {
    ScheduleGoes(c, m);
    DrainStill(c, m, k);
    GoesChain(c, true, true, m, Schedule(c, m, 0, 0), Drain(c, m, k));
  }

  // ---------------------------------------------------------------------------------------
  // Runs

  lemma QuietEventLater(c: Conf, m: Mux, e: Event)
    requires Between(c, m) && !e.Writable? && !e.Abort? && !e.Finalize?
    ensures Later(c, !TakesEmptyDatagram(c, m, e), m, Step(c, m, e))
  {
    match e {
      case Open(id) =>
        GoesNowhere(c, m, m);
        OpenLater(c, m, id);
      case PeerVersion(v) => GoesNowhere(c, m, Step(c, m, e));
      case Control(cmd, sid, payload) =>
        ControlLater(c, m, cmd, sid, payload);
      case OnStream(h, what) =>
        if h < |m.streams| {
          StreamStepLater(c, m, h, what);
        } else {
          GoesNowhere(c, m, m);
        }
      case Writable(_) =>
      case Abort(_) =>
      case Finalize =>
    }
  }

  lemma ControlLater(c: Conf, m: Mux, cmd: byte, sid: nat, payload: Bytes)
    requires !m.finalized
    ensures Later(c, true, m, Step(c, m, Control(cmd, sid, payload)))
  {
    var f := Frame(cmd, sid, payload);
    GoesNowhere(c, m, m);
    if cmd != PSH && cmd != FIN && cmd <= SERVER_SETTINGS && f.Encodable() && Admits(m, Plain(None, f)) {
      PlainIsWhole(None, f);
      AcceptLater(c, m, Plain(None, f));
    }
  }

  lemma OpenLater(c: Conf, m: Mux, id: nat)
    ensures Later(c, true, m, Opened(m, id))
  {
    OpenPushing(m, id);
    forall h: nat | h < |m.streams| ensures Onward(c, true, m.streams[h], Opened(m, id).streams[h]) {
      OnwardSame(c, m.streams[h], m.streams[h]);
    }
  }

  /** Every event but the end of the connection only moves streams on. */
  lemma StepGoes(c: Conf, m: Mux, e: Event)
    requires Between(c, m) && !Step(c, m, e).finalized
    ensures Goes(c, !TakesEmptyDatagram(c, m, e), m, Step(c, m, e))
  {
    match e {
      case Writable(k) =>
        var m1 := m.(writePending := false);
        SignalsSteady(c, m, m1);
        DrainGoes(c, m1, k);
        GoesNowhere(c, m, m1);
        GoesChain(c, true, true, m, m1, Drain(c, m1, k));
      case Abort(k) => CloseAllFinal(Drain(c, m, k).(finalized := true), 0);
      case Finalize => CloseAllFinal(m.(finalized := true), 0);
      case Open(_) => QuietEventLater(c, m, e);
      case PeerVersion(_) => QuietEventLater(c, m, e);
      case Control(_, _, _) => QuietEventLater(c, m, e);
      case OnStream(_, _) => QuietEventLater(c, m, e);
    }
  }

  lemma {:induction false} CloseAllFinal(m: Mux, h: Handle)
    requires m.finalized
    ensures CloseAll(m, h).finalized
    decreases Minus(|m.streams|, h)
  {
    if h < |m.streams| {
      CloseAllFinal(CloseStream(m, h), h + 1);
    }
  }

  /** Some event of the run is one. */
  predicate RunTakesEmptyDatagram(c: Conf, m: Mux, es: seq<Event>)
    decreases |es|
  {
    es != [] && (TakesEmptyDatagram(c, m, es[0]) || RunTakesEmptyDatagram(c, Step(c, m, es[0]), es[1..]))
  }

  // ---------------------------------------------------------------------------------------
  // Frames that stand for empty datagrams

  /** No stream has accepted one. */
  ghost predicate Clean(m: Mux) {
    forall h: nat :: h < |m.streams| ==> NoneTruncated(m.streams[h].flow.accepted)
  }

  lemma DirtyStays(c: Conf, pure: bool, m: Mux, m': Mux)
    requires Goes(c, pure, m, m') && !Clean(m)
    ensures !Clean(m')
  {
    var h: nat :| h < |m.streams| && !NoneTruncated(m.streams[h].flow.accepted);
    var f :| f in m.streams[h].flow.accepted && Truncated(f);
    assert Onward(c, pure, m.streams[h], m'.streams[h]);
    assert f in m'.streams[h].flow.accepted;
    assert !NoneTruncated(m'.streams[h].flow.accepted);
  }

  lemma TakenIsDirty(c: Conf, m: Mux, h: Handle, bytes: Bytes)
    requires h < |m.streams| && TakesEmpty(c, m, h, bytes)
    ensures !Clean(ReadOne(c, m, h, bytes).0)
  {
    var s := m.streams[h]; var f := ReadFrame(h, s, []);
    assert bytes[..Min(|bytes|, ReadLimit(c, s))] == [];
    ReadFrameTruncated(h, s, []);
    AcceptRecord(c, m, f, h);
    assert f in Accept(c, m, f).streams[h].flow.accepted;
    assert !NoneTruncated(Accept(c, m, f).streams[h].flow.accepted);
  }

  lemma LoopStaysDirty(c: Conf, m: Mux, h: Handle, done: nat, script: seq<Read>)
    requires Sound(c, m) && h < |m.streams| && Readable(m.streams[h]) && !Clean(m)
    ensures !Clean(ReadLoop(c, m, h, done, script).0)
  {
    ReadLoopLater(c, m, h, done, script);
    DirtyStays(c, !LoopTakesEmpty(c, m, h, done, script), m, ReadLoop(c, m, h, done, script).0);
  }

  lemma LoopTurn(c: Conf, m: Mux, h: Handle, done: nat, script: seq<Read>)
    requires LoopTakesEmpty(c, m, h, done, script)
    ensures done < READ_FRAME_BUDGET && script != [] && script[0].Got?
    ensures var (m1, more) := ReadOne(c, m, h, script[0].bytes);
            && more && ReadLoop(c, m, h, done, script) == ReadLoop(c, m1, h, done + 1, script[1..])
            && (TakesEmpty(c, m, h, script[0].bytes) || LoopTakesEmpty(c, m1, h, done + 1, script[1..]))
  {
  }

  lemma {:induction false} LoopDirties(c: Conf, m: Mux, h: Handle, done: nat, script: seq<Read>)
    requires Sound(c, m) && h < |m.streams| && Readable(m.streams[h]) && LoopTakesEmpty(c, m, h, done, script)
    ensures !Clean(ReadLoop(c, m, h, done, script).0)
    decreases READ_FRAME_BUDGET - done
  {
    LoopTurn(c, m, h, done, script);
    var bytes := script[0].bytes;
    var m1 := ReadOne(c, m, h, bytes).0;
    ReadOneOk(c, m, h, bytes);
    if TakesEmpty(c, m, h, bytes) {
      TakenIsDirty(c, m, h, bytes);
      LoopStaysDirty(c, m1, h, done + 1, script[1..]);
    } else {
      LoopDirties(c, m1, h, done + 1, script[1..]);
    }
  }

  lemma VisitDirties(c: Conf, m: Mux, done: nat, script: seq<Read>)
    requires Sound(c, m) && m.lists.readReady != [] && VisitTakesEmpty(c, m, done, script)
    ensures !Clean(VisitReader(c, m, done, script).0)
  {
    PopReadOk(c, m);
    LoopDirties(c, PopRead(m), m.lists.readReady[0], done, script);
  }

  lemma {:induction false} DrainDirties(c: Conf, m: Mux, visited: nat, done: nat, script: seq<Read>)
    requires Sound(c, m) && DrainTakesEmpty(c, m, visited, done, script)
    ensures !Clean(DrainReads(c, m, visited, done, script))
    decreases Minus(READ_STREAM_BUDGET, visited), |m.lists.readReady|
  {
    var (m1, done1, script1, read) := VisitReader(c, m, done, script);
    var visited1 := if read then visited + 1 else visited;
    VisitOk(c, m, done, script);
    if VisitTakesEmpty(c, m, done, script) {
      VisitDirties(c, m, done, script);
      if |m.lists.readReady| != 1 {
        DrainReadsLater(c, m1, visited1, done1, script1);
        DirtyStays(c, !DrainTakesEmpty(c, m1, visited1, done1, script1), m1,
                   DrainReads(c, m1, visited1, done1, script1));
      }
    } else {
      DrainDirties(c, m1, visited1, done1, script1);
    }
  }

  lemma ReadReadyDirties(c: Conf, m: Mux, h: Handle, script: seq<Read>)
    requires Sound(c, m) && h < |m.streams| && Readable(m.streams[h])
    requires DrainTakesEmpty(c, Requeue(m, h), 0, 0, script)
    ensures !Clean(OnReadReady(c, m, h, script))
  {
    RequeueOk(c, m, h);
    DrainDirties(c, Requeue(m, h), 0, 0, script);
  }

  lemma ReadReadyStep(c: Conf, m: Mux, h: Handle, script: seq<Read>)
    requires !m.finalized && h < |m.streams|
    ensures Step(c, m, OnStream(h, UpstreamReadable(script))) == OnReadReady(c, m, h, script)
  {
  }

  lemma StepDirties(c: Conf, m: Mux, e: Event)
    requires Between(c, m) && !m.finalized && TakesEmptyDatagram(c, m, e)
    ensures !Clean(Step(c, m, e))
  {
    assert e == OnStream(e.h, UpstreamReadable(e.what.script));
    ReadReadyStep(c, m, e.h, e.what.script);
    ReadReadyDirties(c, m, e.h, e.what.script);
  }
}
