/**
  What every reachable state of the output multiplexer satisfies, and why accepting a frame
  keeps it.

  `Core` holds between any two primitive operations, even in the middle of an event; the
  conditions that tie the queues to wakeups hold between events and are in MuxRuns.
  */
module MuxInvariant {
  import opened Bytes
  import opened Protocol
  import opened Mux
  import opened MuxLists
  import opened Wrappers

  function OnReady(s: Stream): bool { s.flow.onReady }
  function OnRead(s: Stream): bool { s.readReady }
  function OnBlocked(s: Stream): bool { s.readBlocked }
  function OnClosing(s: Stream): bool { s.closing }

  function OutBytes(s: Stream): nat { Total(s.flow.out) }
  function OutCount(s: Stream): nat { |s.flow.out| }
  function LiveOne(s: Stream): nat { if s.state == Closed then 0 else 1 }
  function UotOne(s: Stream): nat { if s.uotCounted then 1 else 0 }

  function One(b: bool): nat { if b then 1 else 0 }

  /** The one frame whose buffer is shorter than its header says: an empty datagram. */
  predicate Truncated(f: OutFrame) {
    && f.frame.cmd == PSH && f.frame.data == [0, 0] && f.frame.sid < U32_LIMIT
    && f.wire == Header(PSH, f.frame.sid, 2)
  }

  /** A frame that is charged with its encoded length and, but for that case, is its encoding. */
  predicate Proper(f: OutFrame) {
    && f.frame.Encodable() && f.frame.cmd <= SERVER_SETTINGS && f.length == HEADER_LEN + |f.frame.data|
    && (f.wire == Encode(f.frame) || Truncated(f))
  }

  /** Scheduled but not completely written, in the order in which they will be written. */
  function Outstanding(m: Mux): seq<OutFrame> {
    m.wire.sending + m.control + m.data
  }

  /** The frames of a stream form SYNACK? PSH* FIN?. */
  ghost predicate Grammar(w: Flow) {
    && (forall i :: 0 <= i < |w.accepted| ==>
          var cmd := w.accepted[i].frame.cmd;
          && (cmd == SYNACK || cmd == PSH || cmd == FIN)
          && (cmd == SYNACK ==> i == 0)
          && (cmd == FIN ==> i == |w.accepted| - 1))
    && (w.finQueued <==> w.accepted != [] && w.accepted[|w.accepted| - 1].frame.cmd == FIN)
    && (w.finSent ==> w.finQueued)
  }

  /** A stream's frames are, in acceptance order: written, on their way, unscheduled. Its
      counters are exact, and it is on the ready list when it has something to schedule. */
  ghost predicate FlowOk(w: Flow, h: Handle, done: seq<OutFrame>, flight: seq<OutFrame>) {
    && w.accepted == done + flight + w.out
    && w.queuedFrames == |flight| + |w.out|
    && w.pendingOut == Total(flight) + Total(w.out)
    && (forall f :: f in w.accepted ==> f.owner == Some(h) && Proper(f))
    && (w.onReady <==> w.out != [])
    && Grammar(w)
  }

  /** The per-stream guard, with room for one SYNACK and one FIN beyond it. */
  ghost predicate Bounded(s: Stream) {
    && s.flow.queuedFrames <= MAX_STREAM_FRAMES + One(s.synackSent) + One(s.flow.finQueued)
    && (s.flow.accepted != [] ==> s.synackSent)
    && s.id < U32_LIMIT
  }

  ghost predicate StreamAt(m: Mux, h: Handle) {
    var s := Get(m, h);
    Bounded(s) && FlowOk(s.flow, h, Owned(m.wire.sent, h), Owned(Outstanding(m), h))
  }

  ghost predicate Streams(m: Mux) {
    forall h: nat :: h < |m.streams| ==> StreamAt(m, h)
  }

  ghost predicate Tracked(m: Mux) {
    && Tracks(m.lists.ready, m.streams, OnReady)
    && Tracks(m.lists.readReady, m.streams, OnRead)
    && Tracks(m.lists.blocked, m.streams, OnBlocked)
    && Tracks(m.lists.closing, m.streams, OnClosing)
  }

  /** The connection's counters are the sums they stand for. */
  ghost predicate Balanced(n: Counts, o: seq<OutFrame>, ss: seq<Stream>) {
    && n.pendingOutput == Total(o) + SumBy(OutBytes, ss)
    && n.frames == |o| + SumBy(OutCount, ss)
    && n.active == SumBy(LiveOne, ss)
    && n.uotStreams == SumBy(UotOne, ss)
  }

  ghost predicate Books(m: Mux) {
    Balanced(m.count, Outstanding(m), m.streams) && m.count.frames <= MAX_OUT_FRAMES
  }

  ghost predicate Named(f: OutFrame, n: nat) {
    Proper(f) && (if f.owner.Some? then f.owner.value < n && Strong(f) else f.frame.cmd != PSH)
  }

  /** Frames that name a stream name an existing one and are counted there. */
  ghost predicate Addressed(m: Mux) {
    && (forall f :: f in Outstanding(m) ==> Named(f, |m.streams|))
    && (forall f :: f in m.wire.sent ==> Named(f, |m.streams|))
  }

  /** The bytes taken by the socket followed by those it has not taken are whole frames. */
  ghost predicate Wires(w: Wire) {
    && WireBytes(w.sent) + WireBytes(w.sending) == w.taken + w.unsent
    && w.written + |w.unsent| == |WireBytes(w.sending)|
  }

  ghost predicate Core(m: Mux) {
    Streams(m) && Tracked(m) && Books(m) && Addressed(m) && Wires(m.wire)
  }

  // ---------------------------------------------------------------------------------------
  // Changing one stream's record

  lemma SumsPut(ss: seq<Stream>, h: Handle, s: Stream)
    requires h < |ss|
    ensures SumBy(OutBytes, Put(ss, h, s)) + Total(ss[h].flow.out) == SumBy(OutBytes, ss) + Total(s.flow.out)
    ensures SumBy(OutCount, Put(ss, h, s)) + |ss[h].flow.out| == SumBy(OutCount, ss) + |s.flow.out|
    ensures SumBy(LiveOne, Put(ss, h, s)) + LiveOne(ss[h]) == SumBy(LiveOne, ss) + LiveOne(s)
    ensures SumBy(UotOne, Put(ss, h, s)) + UotOne(ss[h]) == SumBy(UotOne, ss) + UotOne(s)
    ensures SumBy(OutBytes, ss) >= Total(ss[h].flow.out) && SumBy(OutCount, ss) >= |ss[h].flow.out|
    ensures SumBy(LiveOne, ss) >= LiveOne(ss[h]) && SumBy(UotOne, ss) >= UotOne(ss[h])
  {
    SumPut(OutBytes, ss, h, s);
    SumPut(OutCount, ss, h, s);
    SumPut(LiveOne, ss, h, s);
    SumPut(UotOne, ss, h, s);
  }

  lemma StreamElsewhere(m: Mux, m': Mux, k: Handle)
    requires StreamAt(m, k) && Get(m', k) == Get(m, k) && m'.wire.sent == m.wire.sent
    requires Owned(Outstanding(m'), k) == Owned(Outstanding(m), k)
    ensures StreamAt(m', k)
  {
  }

  /** A new record that owns the same frames. */
  ghost predicate SameFrames(s: Stream, s': Stream) {
    s'.flow == s.flow && s'.id == s.id && (s.synackSent ==> s'.synackSent)
  }

  lemma SameFramesAt(m: Mux, m': Mux, k: Handle)
    requires StreamAt(m, k) && SameFrames(Get(m, k), Get(m', k)) && m'.wire == m.wire
    requires m'.control == m.control && m'.data == m.data
    ensures StreamAt(m', k)
  {
  }

  /** A change of one record that leaves its frames alone, with the lists and sums to match. */
  lemma ChangeCore(m: Mux, m': Mux, h: Handle, s: Stream)
    requires Core(m) && h < |m.streams| && SameFrames(m.streams[h], s)
    requires m'.streams == Put(m.streams, h, s) && m'.wire == m.wire && m'.control == m.control && m'.data == m.data
    requires m'.lists.ready == m.lists.ready && Tracks(m'.lists.readReady, m'.streams, OnRead)
    requires Tracks(m'.lists.blocked, m'.streams, OnBlocked) && Tracks(m'.lists.closing, m'.streams, OnClosing)
    requires m'.count.pendingOutput == m.count.pendingOutput && m'.count.frames == m.count.frames
    requires m'.count.active + LiveOne(m.streams[h]) == m.count.active + LiveOne(s)
    requires m'.count.uotStreams + UotOne(m.streams[h]) == m.count.uotStreams + UotOne(s)
    ensures Core(m')
  {
    forall k: nat | k < |m'.streams| ensures StreamAt(m', k) {
      assert StreamAt(m, k);
      SameFramesAt(m, m', k);
    }
    SumsPut(m.streams, h, s);
    TracksKeep(m.lists.ready, m.streams, h, s, OnReady);
  }

  /** Flags, states and sockets that no list or sum depends on may change freely. */
  lemma SetCore(m: Mux, h: Handle, s: Stream)
    requires Core(m) && h < |m.streams| && SameFrames(m.streams[h], s)
    requires s.readReady == m.streams[h].readReady && s.readBlocked == m.streams[h].readBlocked
    requires s.closing == m.streams[h].closing && s.uotCounted == m.streams[h].uotCounted
    requires LiveOne(s) == LiveOne(m.streams[h])
    ensures Core(Set(m, h, s))
  {
    TracksKeep(m.lists.readReady, m.streams, h, s, OnRead);
    TracksKeep(m.lists.blocked, m.streams, h, s, OnBlocked);
    TracksKeep(m.lists.closing, m.streams, h, s, OnClosing);
    ChangeCore(m, Set(m, h, s), h, s);
  }

  // ---------------------------------------------------------------------------------------
  // Accepting a frame

  /** What the callers of the queue guarantee of a frame that names a stream. */
  ghost predicate Fits(m: Mux, f: OutFrame) {
    && Named(f, |m.streams|)
    && (f.owner.Some? ==>
          var s := Get(m, f.owner.value);
          s.synackSent && !s.flow.finQueued && (f.frame.cmd == SYNACK ==> s.flow.accepted == []))
  }

  lemma OwnedInsert(a: seq<OutFrame>, f: OutFrame, b: seq<OutFrame>, h: Handle)
    ensures Owned(a + [f] + b, h) == Owned(a, h) + (if f.owner == Some(h) then [f] else []) + Owned(b, h)
    ensures Owned(a + b, h) == Owned(a, h) + Owned(b, h)
  {
    OwnedAppend(a + [f], b, h);
    OwnedAppend(a, [f], h);
    OwnedOne(f, h);
    OwnedAppend(a, b, h);
  }

  lemma OwnedElsewhere(a: seq<OutFrame>, f: OutFrame, b: seq<OutFrame>, k: Handle)
    requires f.owner != Some(k)
    ensures Owned(a + [f] + b, k) == Owned(a + b, k)
  {
    OwnedInsert(a, f, b, k);
  }

  lemma OwnedLast(a: seq<OutFrame>, f: OutFrame, k: Handle)
    ensures Owned(a + [f], k) == if f.owner == Some(k) then Owned(a, k) + [f] else Owned(a, k)
  {
    OwnedAppend(a, [f], k);
    OwnedOne(f, k);
  }

  lemma TotalInsert(a: seq<OutFrame>, f: OutFrame, b: seq<OutFrame>)
    ensures Total(a + [f] + b) == Total(a + b) + f.length
  {
    TotalAppend(a + [f], b);
    TotalAppend(a, [f]);
    TotalAppend(a, b);
    assert [f][1..] == [];
  }

  lemma ChargedGrammar(w: Flow, w': Flow, f: OutFrame)
    requires Grammar(w) && !w.finQueued && Strong(f) && (f.frame.cmd == SYNACK ==> w.accepted == [])
    requires w'.accepted == w.accepted + [f] && w'.finQueued == (f.frame.cmd == FIN) && w'.finSent == w.finSent
    ensures Grammar(w')
  {
  }

  /** The accepted frame is the last of its stream on its way. */
  lemma ChargeFlight(w: Flow, w': Flow, h: Handle, done: seq<OutFrame>, flight: seq<OutFrame>, f: OutFrame)
    requires FlowOk(w, h, done, flight) && w.out == [] && Strong(f) && f.owner == Some(h) && Proper(f)
    requires !w.finQueued && (f.frame.cmd == SYNACK ==> w.accepted == [])
    requires w' == Charged(w, f).(directCount := w'.directCount)
    ensures FlowOk(w', h, done, flight + [f])
  {
    ChargedGrammar(w, w', f);
    assert w'.accepted == done + (flight + [f]) + [];
    TotalAppend(flight, [f]);
    assert [f][1..] == [];
  }

  /** The accepted frame is the last unscheduled one of its stream. */
  lemma ChargeOut(w: Flow, w': Flow, h: Handle, done: seq<OutFrame>, flight: seq<OutFrame>, f: OutFrame)
    requires FlowOk(w, h, done, flight) && Strong(f) && f.owner == Some(h) && Proper(f)
    requires !w.finQueued && f.frame.cmd != SYNACK
    requires w' == Charged(w, f).(out := w.out + [f], onReady := true, directCount := 0)
    ensures FlowOk(w', h, done, flight)
  {
    ChargedGrammar(w, w', f);
    assert w'.accepted == done + flight + (w.out + [f]);
    TotalAppend(w.out, [f]);
    assert [f][1..] == [];
  }

  lemma ToControlOutstanding(m: Mux, f: OutFrame)
    ensures Outstanding(ToControl(m, f)) == m.wire.sending + m.control + [f] + m.data
  {
    assert m.wire.sending + (m.control + [f]) + m.data == m.wire.sending + m.control + [f] + m.data;
  }

  lemma ToControlOther(m: Mux, f: OutFrame, k: Handle)
    requires StreamAt(m, k) && f.owner != Some(k)
    ensures StreamAt(ToControl(m, f), k)
  {
    ToControlOutstanding(m, f);
    OwnedElsewhere(m.wire.sending + m.control, f, m.data, k);
    StreamElsewhere(m, ToControl(m, f), k);
  }

  lemma ToControlOwner(m: Mux, f: OutFrame, k: Handle)
    requires k < |m.streams| && StreamAt(m, k) && Fits(m, f) && f.owner == Some(k) && f.frame.cmd == SYNACK
    ensures StreamAt(ToControl(m, f), k)
  {
    var m' := ToControl(m, f); var flight := Owned(Outstanding(m), k);
    assert Owned(Outstanding(m'), k) == flight + [f] by {
      ToControlOutstanding(m, f);
      OwnedInsert(m.wire.sending + m.control, f, m.data, k);
      assert flight == [];
    }
    ChargeFlight(m.streams[k].flow, m'.streams[k].flow, k, Owned(m.wire.sent, k), flight, f);
  }

  lemma ToControlStreams(m: Mux, f: OutFrame)
    requires Streams(m) && Fits(m, f) && (f.owner.Some? ==> f.frame.cmd == SYNACK)
    ensures Streams(ToControl(m, f))
  {
    forall k: nat | k < |m.streams| ensures StreamAt(ToControl(m, f), k) {
      assert StreamAt(m, k);
      if f.owner == Some(k) { ToControlOwner(m, f, k); } else { ToControlOther(m, f, k); }
    }
  }

  lemma ToDataOutstanding(m: Mux, h: Handle, f: OutFrame)
    ensures Outstanding(ToData(m, h, f)) == Outstanding(m) + [f]
  {
  }

  lemma ToDataAt(m: Mux, h: Handle, f: OutFrame, k: Handle)
    requires h < |m.streams| && k < |m.streams| && StreamAt(m, k) && Fits(m, f) && Admits(m, f)
    requires f.owner == Some(h) && f.frame.cmd == PSH && m.streams[h].flow.out == []
    ensures StreamAt(ToData(m, h, f), k)
  {
    var m' := ToData(m, h, f);
    ToDataOutstanding(m, h, f);
    OwnedLast(Outstanding(m), f, k);
    if k == h {
      ChargeFlight(m.streams[k].flow, m'.streams[k].flow, k, Owned(m.wire.sent, k), Owned(Outstanding(m), k), f);
    } else {
      StreamElsewhere(m, m', k);
    }
  }

  lemma ToStreamOwner(m: Mux, h: Handle, f: OutFrame)
    requires h < |m.streams| && StreamAt(m, h) && Fits(m, f) && Admits(m, f)
    requires f.owner == Some(h) && f.frame.cmd != SYNACK
    ensures StreamAt(ToStream(m, h, f), h)
  {
    var m' := ToStream(m, h, f);
    assert Outstanding(m') == Outstanding(m);
    ChargeOut(m.streams[h].flow, m'.streams[h].flow, h, Owned(m.wire.sent, h), Owned(Outstanding(m), h), f);
  }

  /** The lists other than the ready list, when the change does not concern them. */
  lemma KeepOthers(m: Mux, m': Mux, h: Handle, s: Stream)
    requires Tracked(m) && h < |m.streams| && m'.streams == Put(m.streams, h, s)
    requires m'.lists == m.lists.(ready := m'.lists.ready) && Tracks(m'.lists.ready, m'.streams, OnReady)
    requires s == m.streams[h].(flow := s.flow)
    ensures Tracked(m')
  {
    TracksKeep(m.lists.readReady, m.streams, h, s, OnRead);
    TracksKeep(m.lists.blocked, m.streams, h, s, OnBlocked);
    TracksKeep(m.lists.closing, m.streams, h, s, OnClosing);
  }

  lemma KeepLists(m: Mux, m': Mux, h: Handle, s: Stream)
    requires Tracked(m) && h < |m.streams| && m'.streams == Put(m.streams, h, s) && m'.lists == m.lists
    requires s == m.streams[h].(flow := s.flow) && s.flow.onReady == m.streams[h].flow.onReady
    ensures Tracked(m')
  {
    TracksKeep(m.lists.ready, m.streams, h, s, OnReady);
    KeepOthers(m, m', h, s);
  }

  lemma ToControlCore(m: Mux, f: OutFrame)
    requires Core(m) && Fits(m, f) && Admits(m, f) && (f.owner.Some? ==> f.frame.cmd == SYNACK)
    ensures Core(ToControl(m, f))
  {
    var m' := ToControl(m, f);
    ToControlStreams(m, f);
    ToControlOutstanding(m, f);
    TotalInsert(m.wire.sending + m.control, f, m.data);
    if f.owner.Some? {
      var h := f.owner.value;
      KeepLists(m, m', h, m'.streams[h]);
      SumsPut(m.streams, h, m'.streams[h]);
    }
  }

  lemma ToDataCore(m: Mux, h: Handle, f: OutFrame) returns (m': Mux)
    requires Core(m) && Fits(m, f) && Admits(m, f) && f.owner == Some(h) && f.frame.cmd == PSH
    requires m.streams[h].flow.out == []
    ensures m' == ToData(m, h, f)
    ensures Core(m')
  {
    m' := ToData(m, h, f);
    forall k: nat | k < |m.streams| ensures StreamAt(m', k) {
      assert StreamAt(m, k);
      ToDataAt(m, h, f, k);
    }
    ToDataOutstanding(m, h, f);
    TotalInsert(Outstanding(m), f, []);
    assert Outstanding(m) + [] == Outstanding(m) && Outstanding(m) + [f] + [] == Outstanding(m) + [f];
    KeepLists(m, m', h, m'.streams[h]);
    SumsPut(m.streams, h, m'.streams[h]);
  }

  lemma ToStreamLists(m: Mux, h: Handle, f: OutFrame)
    requires Tracked(m) && h < |m.streams|
    ensures Tracked(ToStream(m, h, f))
  {
    var m' := ToStream(m, h, f); var s := m'.streams[h];
    if m.streams[h].flow.onReady {
      TracksKeep(m.lists.ready, m.streams, h, s, OnReady);
    } else {
      TracksAdd(m.lists.ready, m.streams, h, s, s.uot, OnReady);
    }
    KeepOthers(m, m', h, s);
  }

  lemma ToStreamCore(m: Mux, h: Handle, f: OutFrame)
    requires Core(m) && Fits(m, f) && Admits(m, f) && f.owner == Some(h) && f.frame.cmd != SYNACK
    ensures Core(ToStream(m, h, f))
  {
    var m' := ToStream(m, h, f);
    forall k: nat | k < |m.streams| ensures StreamAt(m', k) {
      assert StreamAt(m, k);
      if k == h { ToStreamOwner(m, h, f); } else { StreamElsewhere(m, m', k); }
    }
    ToStreamLists(m, h, f);
    TotalAppend(m.streams[h].flow.out, [f]);
    assert [f][1..] == [];
    SumsPut(m.streams, h, m'.streams[h]);
  }

  lemma AcceptCore(c: Conf, m: Mux, f: OutFrame)
    requires Core(m) && Fits(m, f) && Admits(m, f)
    ensures Core(Accept(c, m, f))
  {
    if f.owner.None? || (f.frame.cmd != PSH && f.frame.cmd != FIN) {
      ToControlCore(m, f);
    } else if GoesDirect(c, m, m.streams[f.owner.value].flow, f) {
      var _ := ToDataCore(m, f.owner.value, f);
    } else {
      ToStreamCore(m, f.owner.value, f);
    }
  }
}
