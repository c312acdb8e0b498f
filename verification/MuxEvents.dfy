/** Every event but a drain keeps the output multiplexer sound. */
module MuxEvents {
  import opened Bytes
  import opened Protocol
  import opened Mux
  import opened MuxLists
  import opened MuxInvariant
  import opened MuxMoves
  import opened MuxLife
  import opened Wrappers
  import SocksAddr

  ghost predicate Ok(c: Conf, m: Mux, m': Mux) {
    Sound(c, m') && Quiet(m, m') && |m'.streams| == |m.streams|
  }

  lemma OkChain(c: Conf, a: Mux, b: Mux, d: Mux)
    requires Ok(c, a, b) && Ok(c, b, d)
    ensures Ok(c, a, d)
  {
    QuietChain(a, b, d);
  }

  // ---------------------------------------------------------------------------------------
  // Small steps

  lemma SetOk(c: Conf, m: Mux, h: Handle, s: Stream)
    requires Sound(c, m) && h < |m.streams| && SameFrames(m.streams[h], s) && Life(s)
    requires s.readReady == m.streams[h].readReady && s.readBlocked == m.streams[h].readBlocked
    requires s.closing == m.streams[h].closing && s.uotCounted == m.streams[h].uotCounted
    requires LiveOne(s) == LiveOne(m.streams[h]) && s.uot == m.streams[h].uot
    ensures Ok(c, m, Set(m, h, s))
  {
    SetCore(m, h, s);
    RecordOk(c, m, Set(m, h, s), h);
  }

  /** A change of one record and of the lists it is on. */
  ghost predicate Rerecorded(m: Mux, m': Mux, h: Handle) {
    && h < |m.streams| && OnlyStream(m, m', h) && m'.streams[h].uot == m.streams[h].uot
    && m' == m.(streams := m'.streams, lists := m'.lists, count := m.count.(uotStreams := m'.count.uotStreams))
    && m'.lists.ready == m.lists.ready && m'.count.uotStreams <= m.count.uotStreams
  }

  lemma RecordOk(c: Conf, m: Mux, m': Mux, h: Handle)
    requires Sound(c, m) && Core(m') && Rerecorded(m, m', h) && Life(m'.streams[h])
    requires Roomy(c) && m'.lists.blocked != [] ==> m.count.pendingOutput > 0
    ensures Ok(c, m, m')
  {
    KindKept(c, m, m', h);
  }

  lemma BlockRecord(m: Mux, h: Handle)
    requires h < |m.streams| && Life(m.streams[h]) && !Ending(m.streams[h])
    ensures Rerecorded(m, Block(m, h), h) && Life(Block(m, h).streams[h])
  {
  }

  /** Where reads that are permitted fit, one that does not finds output pending. */
  lemma FullIsPending(c: Conf, m: Mux, s: Stream, len: nat)
    requires Sound(c, m) && Roomy(c) && Permitted(c, s) && len <= ReadSize(c, s)
    requires m.pressure || !HasRoom(c, m, len)
    ensures m.count.pendingOutput > 0
  {
    PermittedFits(c, s);
  }

  lemma BlockOk(c: Conf, m: Mux, h: Handle, len: nat)
    requires Sound(c, m) && h < |m.streams| && !Ending(m.streams[h])
    requires m.pressure || !HasRoom(c, m, len)
    requires len <= ReadSize(c, m.streams[h])
    ensures Ok(c, m, Block(m, h))
  {
    if Roomy(c) {
      FullIsPending(c, m, m.streams[h], len);
    }
    assert Life(m.streams[h]);
    var m' := Block(m, h);
    assert Core(m') by { BlockCore(m, h); }
    assert Rerecorded(m, m', h) && Life(m'.streams[h]) by { BlockRecord(m, h); }
    RecordOk(c, m, m', h);
  }

  lemma RequeueRecord(m: Mux, h: Handle)
    requires h < |m.streams| && Life(m.streams[h]) && !Ending(m.streams[h])
    ensures var m' := Requeue(m, h);
            && Rerecorded(m, m', h) && m'.lists.blocked == m.lists.blocked
            && Life(m'.streams[h]) && SameFrames(m.streams[h], m'.streams[h])
  {
  }

  lemma RequeueOk(c: Conf, m: Mux, h: Handle)
    requires Sound(c, m) && h < |m.streams| && !Ending(m.streams[h])
    ensures Ok(c, m, Requeue(m, h)) && SameFrames(m.streams[h], Requeue(m, h).streams[h])
  {
    assert Life(m.streams[h]);
    var m' := Requeue(m, h);
    assert Core(m') by { RequeueCore(m, h); }
    RequeueRecord(m, h);
    RecordOk(c, m, m', h);
  }

  lemma PopReadOk(c: Conf, m: Mux)
    requires Sound(c, m) && m.lists.readReady != []
    ensures m.lists.readReady[0] < |m.streams| && Ok(c, m, PopRead(m))
  {
    PopReadCore(m);
  }

  lemma UotCloseOk(c: Conf, m: Mux, h: Handle)
    requires Sound(c, m) && h < |m.streams|
    ensures Ok(c, m, UotClose(m, h))
    ensures UotClose(m, h).streams[h] == m.streams[h].(uotCounted := false, conn := false)
  {
    UotCloseCore(m, h);
  }

  lemma CloseOk(c: Conf, m: Mux, h: Handle)
    requires Sound(c, m) && h < |m.streams|
    ensures Ok(c, m, CloseStream(m, h))
  {
    CloseSound(c, m, h);
  }

  // ---------------------------------------------------------------------------------------
  // End of a stream towards the client

  lemma FinAccepted(c: Conf, m: Mux, h: Handle, f: OutFrame)
    requires Sound(c, m) && h < |m.streams| && m.streams[h].synackSent && !Ending(m.streams[h])
    requires f.owner == Some(h) && f.frame.cmd == FIN && Proper(f) && Admits(m, f)
    ensures Ok(c, m, CloseStream(Accept(c, m, f), h))
  {
    var m1 := Accept(c, m, f);
    AcceptCore(c, m, f);
    AcceptTook(c, m, f);
    AcceptGrew(c, m, f, h);
    CloseSound(c, m1, h);
    QuietChain(m, m1, CloseStream(m1, h));
  }

  lemma FinOk(c: Conf, m: Mux, h: Handle) returns (m': Mux)
    requires Sound(c, m) && h < |m.streams| && m.streams[h].synackSent && !Ending(m.streams[h])
    ensures m' == SendFinAndClose(c, m, h)
    ensures Ok(c, m, m')
  {
    m' := SendFinAndClose(c, m, h);
    var s := m.streams[h];
    var m1 := Set(m, h, s.(closedByProtocol := true));
    assert !s.flow.finQueued && !s.flow.finSent by { assert StreamAt(m, h); }
    SetOk(c, m, h, s.(closedByProtocol := true));
    var f := Frame(FIN, s.id, []);
    if f.Encodable() && Admits(m1, Plain(Some(h), f)) {
      FinAccepted(c, m1, h, Plain(Some(h), f));
      OkChain(c, m, m1, SendFinAndClose(c, m, h));
    }
  }

  // ---------------------------------------------------------------------------------------
  // Reading

  lemma PshOk(c: Conf, m: Mux, h: Handle, f: OutFrame)
    requires Sound(c, m) && h < |m.streams| && m.streams[h].synackSent && !Ending(m.streams[h])
    requires f.owner == Some(h) && f.frame.cmd == PSH && Proper(f) && Admits(m, f)
    ensures var m' := Accept(c, m, f); Ok(c, m, m') && m'.streams[h] == m.streams[h].(flow := m'.streams[h].flow)
  {
    AcceptSound(c, m, f);
    AcceptGrew(c, m, f, h);
  }

  lemma ReadEndOk(c: Conf, m: Mux, h: Handle)
    requires Sound(c, m) && h < |m.streams| && Readable(m.streams[h])
    ensures Ok(c, m, EndOfUpstream(c, m, h))
  {
    var s1 := m.streams[h].(conn := false);
    var m1 := Set(m, h, s1);
    SetOk(c, m, h, s1);
    var m2 := FinOk(c, m1, h);
    OkChain(c, m, m1, m2);
  }

  lemma ReadFrameShape(h: Handle, s: Stream, bytes: Bytes)
    requires s.id < U32_LIMIT && |bytes| <= MAX_FRAME_DATA
    requires s.uot && s.uotConnect ==> |bytes| + 2 <= MAX_FRAME_DATA
    ensures var f := ReadFrame(h, s, bytes); f.owner == Some(h) && f.frame.cmd == PSH && Proper(f)
  {
  }

  lemma ReadOneOk(c: Conf, m: Mux, h: Handle, bytes: Bytes)
    requires Sound(c, m) && h < |m.streams| && Readable(m.streams[h])
    ensures Ok(c, m, ReadOne(c, m, h, bytes).0)
    ensures ReadOne(c, m, h, bytes).1 ==> Readable(ReadOne(c, m, h, bytes).0.streams[h])
  {
    var s := m.streams[h];
    var got := bytes[..Min(|bytes|, ReadLimit(c, s))];
    assert s.id < U32_LIMIT by { assert StreamAt(m, h); }
    if s.uot && s.uotConnect && ReadSize(c, s) <= 2 {
      CloseOk(c, m, h);
    } else if got == [] && !(s.uot && s.uotConnect) {
      ReadEndOk(c, m, h);
    } else {
      ReadFrameShape(h, s, got);
      OfferOk(c, m, h, ReadFrame(h, s, got));
    }
  }

  lemma OfferOk(c: Conf, m: Mux, h: Handle, f: OutFrame)
    requires Sound(c, m) && h < |m.streams| && Readable(m.streams[h])
    requires f.owner == Some(h) && f.frame.cmd == PSH && Proper(f)
    ensures Ok(c, m, if Admits(m, f) then Accept(c, m, f) else CloseStream(m, h))
    ensures Admits(m, f) ==> Readable(Accept(c, m, f).streams[h])
  {
    assert Life(m.streams[h]);
    if Admits(m, f) {
      PshOk(c, m, h, f);
    } else {
      CloseOk(c, m, h);
    }
  }

  lemma {:induction false} ReadLoopOk(c: Conf, m: Mux, h: Handle, done: nat, script: seq<Read>) returns (r: Mux)
    requires Sound(c, m) && h < |m.streams| && Readable(m.streams[h])
    ensures r == ReadLoop(c, m, h, done, script).0
    ensures Ok(c, m, r)
    decreases READ_FRAME_BUDGET - done
  {
    r := ReadLoop(c, m, h, done, script).0;
    if done >= READ_FRAME_BUDGET {
      RequeueOk(c, m, h);
    } else if m.pressure || !HasRoom(c, m, ReadSize(c, Get(m, h))) {
      BlockOk(c, m, h, ReadSize(c, m.streams[h]));
    } else if script == [] || script[0] == Again {
    } else if script[0] == Failed {
      CloseOk(c, m, h);
    } else {
      ReadOneOk(c, m, h, script[0].bytes);
      var (m1, more) := ReadOne(c, m, h, script[0].bytes);
      if more {
        r := ReadLoopOk(c, m1, h, done + 1, script[1..]);
        OkChain(c, m, m1, r);
      }
    }
  }

  ghost predicate VisitKeeps(c: Conf, keep: Mux -> bool, n: Mux, done: nat, script: seq<Read>) {
    keep(n) && n.lists.readReady != [] ==> keep(VisitReader(c, n, done, script).0)
  }

  /** Visiting the readable streams keeps whatever visiting one of them keeps. */
  lemma {:induction false} DrainReadsKeeps(c: Conf, m: Mux, visited: nat, done: nat, script: seq<Read>,
                                           keep: Mux -> bool)
    requires keep(m)
    requires forall n: Mux, d: nat, r: seq<Read> :: VisitKeeps(c, keep, n, d, r)
    ensures keep(DrainReads(c, m, visited, done, script))
    decreases Minus(READ_STREAM_BUDGET, visited), |m.lists.readReady|
  {
    if m.lists.readReady != [] && visited < READ_STREAM_BUDGET {
      assert VisitKeeps(c, keep, m, done, script);
      var (m1, done1, script1, read) := VisitReader(c, m, done, script);
      if |m.lists.readReady| != 1 {
        DrainReadsKeeps(c, m1, if read then visited + 1 else visited, done1, script1, keep);
      }
    }
  }

  lemma VisitOk(c: Conf, m: Mux, done: nat, script: seq<Read>)
    requires Sound(c, m) && m.lists.readReady != []
    ensures Ok(c, m, VisitReader(c, m, done, script).0)
  {
    var h := m.lists.readReady[0]; var m1 := PopRead(m);
    PopReadOk(c, m);
    if Readable(Get(m, h)) {
      var m2 := ReadLoopOk(c, m1, h, done, script);
      OkChain(c, m, m1, m2);
    }
  }

  lemma DrainReadsOk(c: Conf, m: Mux, script: seq<Read>)
    requires Sound(c, m)
    ensures Ok(c, m, DrainReads(c, m, 0, 0, script))
  {
    var keep := n => Ok(c, m, n);
    forall n: Mux, d: nat, r: seq<Read> ensures VisitKeeps(c, keep, n, d, r) {
      if keep(n) && n.lists.readReady != [] {
        VisitOk(c, n, d, r);
        OkChain(c, m, n, VisitReader(c, n, d, r).0);
      }
    }
    DrainReadsKeeps(c, m, 0, 0, script, keep);
  }

  lemma OnReadReadyOk(c: Conf, m: Mux, h: Handle, script: seq<Read>)
    requires Sound(c, m) && h < |m.streams|
    ensures Ok(c, m, OnReadReady(c, m, h, script))
  {
    if Readable(m.streams[h]) {
      RequeueOk(c, m, h);
      DrainReadsOk(c, Requeue(m, h), script);
      OkChain(c, m, Requeue(m, h), DrainReads(c, Requeue(m, h), 0, 0, script));
    }
  }

  ghost predicate PshKeeps(c: Conf, keep: Mux -> bool, n: Mux, h: Handle, f: Frame) {
    keep(n) && f.cmd == PSH && f.Encodable() && HasRoom(c, n, |f.data|) && Admits(n, Plain(Some(h), f)) ==>
      keep(Accept(c, n, Plain(Some(h), f)))
  }

  /** Reading datagrams keeps whatever accepting one of them keeps. */
  lemma {:induction false} ReadDatagramsKeeps(c: Conf, m: Mux, h: Handle, dgrams: seq<SocksAddr.Packet>,
                                              keep: Mux -> bool)
    requires keep(m) && forall n: Mux, f: Frame :: PshKeeps(c, keep, n, h, f)
    ensures keep(ReadDatagrams(c, m, h, dgrams))
    decreases |dgrams|
  {
    if dgrams != [] {
      var p := dgrams[0];
      if !p.Valid() || p.peer.Domain? || |p.payload| > (if p.peer.V4? then 65527 else 65515) {
        ReadDatagramsKeeps(c, m, h, dgrams[1..], keep);
      } else {
        var f := Frame(PSH, Get(m, h).id, SocksAddr.EncodePacket(p));
        assert PshKeeps(c, keep, m, h, f);
        if f.Encodable() && HasRoom(c, m, |f.data|) && Admits(m, Plain(Some(h), f)) {
          ReadDatagramsKeeps(c, Accept(c, m, Plain(Some(h), f)), h, dgrams[1..], keep);
        }
      }
    }
  }

  ghost predicate Feeding(s: Stream) {
    s.synackSent && !Ending(s)
  }

  lemma ReadDatagramsOk(c: Conf, m: Mux, h: Handle, dgrams: seq<SocksAddr.Packet>)
    requires Sound(c, m) && h < |m.streams| && Feeding(m.streams[h])
    ensures Ok(c, m, ReadDatagrams(c, m, h, dgrams))
  {
    var keep := n => Ok(c, m, n) && Feeding(Get(n, h));
    forall n: Mux, f: Frame ensures PshKeeps(c, keep, n, h, f) {
      if keep(n) && f.cmd == PSH && f.Encodable() && Admits(n, Plain(Some(h), f)) {
        PshOk(c, n, h, Plain(Some(h), f));
        OkChain(c, m, n, Accept(c, n, Plain(Some(h), f)));
      }
    }
    ReadDatagramsKeeps(c, m, h, dgrams, keep);
  }

  // ---------------------------------------------------------------------------------------
  // Opening and ending

  lemma AnsweredOk(c: Conf, m: Mux, h: Handle, msg: Bytes)
    requires Core(m) && Calm(c, m) && !m.finalized && h < |m.streams| && LivesBut(m, h)
    requires m.streams[h].state == Connected && !m.streams[h].flow.finQueued && !m.streams[h].closing
    requires m.streams[h].uotCounted ==> m.streams[h].uot
    ensures Ok(c, m, SendSynack(c, m, h, msg).0)
  {
    SynackShape(c, m, h, msg);
  }

  lemma AnsweredAndClosedOk(c: Conf, m: Mux, h: Handle, msg: Bytes)
    requires Core(m) && Calm(c, m) && !m.finalized && h < |m.streams| && LivesBut(m, h)
    requires m.streams[h].state != Closed
    ensures Ok(c, m, CloseStream(SendSynack(c, m, h, msg).0, h))
  {
    var m1 := SendSynack(c, m, h, msg).0;
    SynackShape(c, m, h, msg);
    CloseSound(c, m1, h);
    QuietChain(m, m1, CloseStream(m1, h));
  }

  lemma EstablishOk(c: Conf, m: Mux, h: Handle) returns (m': Mux)
    requires Sound(c, m) && h < |m.streams|
    ensures m' == Establish(c, m, h)
    ensures Ok(c, m, m')
  {
    var s := m.streams[h];
    if s.state == Connecting && s.conn {
      var m1 := Set(m, h, s.(state := Connected));
      m' := SendSynack(c, m1, h, []).0;
      SetCore(m, h, s.(state := Connected));
      AnsweredOk(c, m1, h, []);
      QuietChain(m, m1, m');
    } else {
      m' := m;
    }
  }

  lemma SlotCore(m: Mux, h: Handle, connectMode: bool)
    requires Core(m) && h < |m.streams| && !m.streams[h].uotCounted && m.streams[h].state == Init
    ensures Core(TakeSlot(m, h, connectMode))
  {
    var m' := TakeSlot(m, h, connectMode);
    var s := m'.streams[h];
    TracksKeep(m.lists.readReady, m.streams, h, s, OnRead);
    TracksKeep(m.lists.blocked, m.streams, h, s, OnBlocked);
    TracksKeep(m.lists.closing, m.streams, h, s, OnClosing);
    ChangeCore(m, m', h, s);
  }

  lemma SlotCalm(c: Conf, m: Mux, h: Handle, connectMode: bool)
    requires Sound(c, m) && h < |m.streams| && m.streams[h].state == Init && m.count.uotStreams < c.maxUotStreams
    ensures var m' := TakeSlot(m, h, connectMode);
            && Core(m') && Calm(c, m') && LivesBut(m', h) && Quiet(m, m') && !m'.finalized
              && |m'.streams| == |m.streams|
            && Life(m.streams[h])
            && m'.streams[h] == m.streams[h].(uot := true, uotConnect := connectMode, uotCounted := true,
              state := Connected)
  {
    assert Life(m.streams[h]);
    SlotCore(m, h, connectMode);
    var m' := TakeSlot(m, h, connectMode);
    assert OnlyStream(m, m', h);
    assert Limited(c, m');
  }

  lemma WelcomeOk(c: Conf, m: Mux, h: Handle)
    requires Core(m) && Calm(c, m) && !m.finalized && h < |m.streams| && LivesBut(m, h)
    requires m.streams[h].state == Connected && !m.streams[h].flow.finQueued && !m.streams[h].closing
             && m.streams[h].uot
    ensures Ok(c, m, Welcome(c, m, h))
  {
    if SendSynack(c, m, h, []).1 {
      AnsweredOk(c, m, h, []);
    } else {
      AnsweredAndClosedOk(c, m, h, []);
    }
  }

  lemma StartUotOk(c: Conf, m: Mux, h: Handle, connectMode: bool)
    requires Sound(c, m) && h < |m.streams|
    ensures Ok(c, m, StartUot(c, m, h, connectMode))
  {
    var s := m.streams[h];
    if s.closedByProtocol || s.state != Init {
    } else if m.count.uotStreams >= c.maxUotStreams {
      AnsweredAndClosedOk(c, m, h, UOT_LIMIT);
    } else {
      var m1 := TakeSlot(m, h, connectMode);
      SlotCalm(c, m, h, connectMode);
      WelcomeOk(c, m1, h);
      QuietChain(m, m1, Welcome(c, m1, h));
    }
  }

  lemma MarkAndCloseOk(c: Conf, m: Mux, h: Handle)
    requires Sound(c, m) && h < |m.streams|
    ensures Ok(c, m, CloseStream(Set(m, h, m.streams[h].(closedByProtocol := true)), h))
  {
    var s1 := m.streams[h].(closedByProtocol := true);
    SetOk(c, m, h, s1);
    CloseOk(c, Set(m, h, s1), h);
    OkChain(c, m, Set(m, h, s1), CloseStream(Set(m, h, s1), h));
  }

  lemma UotEndOk(c: Conf, m: Mux, h: Handle)
    requires Sound(c, m) && h < |m.streams|
    ensures Ok(c, m, CloseStream(UotClose(Set(m, h, m.streams[h].(closedByProtocol := true)), h), h))
  {
    var s1 := m.streams[h].(closedByProtocol := true);
    var m1 := Set(m, h, s1); var m2 := UotClose(m1, h);
    SetOk(c, m, h, s1);
    UotCloseOk(c, m1, h);
    OkChain(c, m, m1, m2);
    CloseOk(c, m2, h);
    OkChain(c, m, m2, CloseStream(m2, h));
  }

  lemma EndInputOk(c: Conf, m: Mux, h: Handle, flushFailed: bool)
    requires Sound(c, m) && h < |m.streams|
    ensures Ok(c, m, EndInput(m, h, flushFailed))
  {
    var s := m.streams[h];
    if s.closedByProtocol {
    } else if s.uot {
      UotEndOk(c, m, h);
    } else if s.conn && s.state == Connected && !flushFailed {
      SetOk(c, m, h, s.(closedByProtocol := true, state := HalfClosed));
    } else {
      MarkAndCloseOk(c, m, h);
    }
  }

  lemma UotIdleOk(c: Conf, m: Mux, h: Handle)
    requires Sound(c, m) && h < |m.streams| && m.streams[h].uot && m.streams[h].conn
    ensures Ok(c, m, SendFinAndClose(c, UotClose(m, h), h))
  {
    UotCloseOk(c, m, h);
    var m' := FinOk(c, UotClose(m, h), h);
    OkChain(c, m, UotClose(m, h), m');
  }

  lemma DatagramsOk(c: Conf, m: Mux, h: Handle, dgrams: seq<SocksAddr.Packet>)
    requires Sound(c, m) && h < |m.streams|
    ensures Ok(c, m, StreamStep(c, m, h, Datagrams(dgrams)))
  {
    var s := m.streams[h];
    assert Life(s);
    if s.uot && s.conn && !s.uotConnect {
      if m.pressure || !HasRoom(c, m, 0) {
        BlockOk(c, m, h, 0);
      } else {
        ReadDatagramsOk(c, m, h, dgrams);
      }
    }
  }

  lemma StreamStepOk(c: Conf, m: Mux, h: Handle, e: StreamEvent)
    requires Sound(c, m) && h < |m.streams|
    ensures Ok(c, m, StreamStep(c, m, h, e))
  {
    var s := m.streams[h];
    match e {
      case Dial(socket) =>
        if !(s.closedByProtocol || s.uot || (s.state != Init && s.state != Connecting)) {
          SetOk(c, m, h, s.(state := Connecting, conn := socket));
        }
      case Established => var _ := EstablishOk(c, m, h);
      case Refused(reason) =>
        if s.state == Connecting {
          AnsweredAndClosedOk(c, m, h, reason);
        }
      case OpenUot(connectMode) => StartUotOk(c, m, h, connectMode);
      case PacketRequest =>
        if s.uotCounted && !s.conn {
          SetOk(c, m, h, s.(uotConnect := false));
        }
      case UdpSocket =>
        if s.uotCounted {
          SetOk(c, m, h, s.(conn := true));
        }
      case ClientFin(flushFailed) => EndInputOk(c, m, h, flushFailed);
      case CloseOne => CloseOk(c, m, h);
      case UotIdle =>
        if s.uot && s.conn {
          UotIdleOk(c, m, h);
        }
      case UpstreamReadable(script) => OnReadReadyOk(c, m, h, script);
      case Datagrams(dgrams) => DatagramsOk(c, m, h, dgrams);
    }
  }
}
