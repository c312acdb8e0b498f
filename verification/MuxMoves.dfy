/** The invariant of the output multiplexer under everything but accepting a frame. */
module MuxMoves {
  import opened Bytes
  import opened Protocol
  import opened Mux
  import opened MuxLists
  import opened MuxInvariant
  import opened Wrappers

  // ---------------------------------------------------------------------------------------
  // Scheduling one frame

  lemma Shift<T>(a: seq<T>, b: seq<T>, d: seq<T>)
    requires d != []
    ensures a + b + d == a + (b + [d[0]]) + d[1..]
  {
  }

  lemma MoveHead(w: Flow, w': Flow, h: Handle, done: seq<OutFrame>, flight: seq<OutFrame>)
    returns (flying: seq<OutFrame>)
    requires FlowOk(w, h, done, flight) && w.out != []
    requires w' == w.(out := w.out[1..], onReady := |w.out| > 1)
    ensures flying == flight + [w.out[0]]
    ensures FlowOk(w', h, done, flying)
  {
    flying := flight + [w.out[0]];
    Shift(done, flight, w.out);
    assert Total(flight + [w.out[0]]) == Total(flight) + w.out[0].length by {
      TotalAppend(flight, [w.out[0]]);
      assert [w.out[0]][1..] == [];
    }
  }

  /** The head of the ready list has a frame to schedule, and it is the stream's own. */
  lemma ReadyHasOutput(m: Mux)
    requires Streams(m) && Tracked(m) && m.lists.ready != []
    ensures var h := m.lists.ready[0];
            && h < |m.streams| && m.streams[h].flow.out != []
            && var f := m.streams[h].flow.out[0]; Named(f, |m.streams|) && f.owner == Some(h)
  {
    var h := m.lists.ready[0];
    assert h in m.lists.ready;
    assert StreamAt(m, h);
    var w := m.streams[h].flow;
    assert w.accepted[|w.accepted| - |w.out|] == w.out[0];
  }

  lemma MoveOneOutstanding(m: Mux)
    requires m.lists.ready != [] && Get(m, m.lists.ready[0]).flow.out != []
    ensures Outstanding(MoveOne(m)) == Outstanding(m) + [Get(m, m.lists.ready[0]).flow.out[0]]
  {
  }

  lemma MoveOneAt(m: Mux, h: Handle, k: Handle)
    requires m.lists.ready != [] && m.lists.ready[0] == h < |m.streams| && k < |m.streams| && StreamAt(m, k)
    requires m.streams[h].flow.out != [] && m.streams[h].flow.out[0].owner == Some(h)
    ensures StreamAt(MoveOne(m), k)
  {
    var m' := MoveOne(m);
    MoveOneOutstanding(m);
    OwnedLast(Outstanding(m), m.streams[h].flow.out[0], k);
    if k == h {
      var _ := MoveHead(m.streams[h].flow, m'.streams[h].flow, k, Owned(m.wire.sent, k), Owned(Outstanding(m), k));
    } else {
      StreamElsewhere(m, m', k);
    }
  }

  /** The head of the ready list leaves it, and comes back at its place if it has more. */
  lemma ReadyRotates(q: seq<Handle>, ss: seq<Stream>, s': Stream)
    requires Tracks(q, ss, OnReady) && q != [] && q[0] < |ss|
    ensures Tracks(if s'.flow.onReady then Enlist(q[1..], q[0], s'.uot) else q[1..], Put(ss, q[0], s'), OnReady)
  {
    var h := q[0]; var off := s'.(flow := s'.flow.(onReady := false));
    assert h in q;
    assert Tracks(q[1..], Put(ss, h, off), OnReady) by {
      TracksDrop(q, ss, h, off, OnReady);
      RemoveHead(q);
    }
    if s'.flow.onReady {
      TracksAdd(q[1..], Put(ss, h, off), h, s', s'.uot, OnReady);
      assert Put(Put(ss, h, off), h, s') == Put(ss, h, s');
    } else {
      assert s' == off;
    }
  }

  lemma MoveOneCore(m: Mux)
    requires Core(m) && m.lists.ready != []
    ensures Core(MoveOne(m))
  {
    var h := m.lists.ready[0]; var m' := MoveOne(m);
    ReadyHasOutput(m);
    var f := m.streams[h].flow.out[0];
    forall k: nat | k < |m.streams| ensures StreamAt(m', k) {
      assert StreamAt(m, k);
      MoveOneAt(m, h, k);
    }
    ReadyRotates(m.lists.ready, m.streams, m'.streams[h]);
    KeepOthers(m, m', h, m'.streams[h]);
    MoveOneOutstanding(m);
    TotalAppend(Outstanding(m), [f]);
    assert [f][1..] == [];
    SumsPut(m.streams, h, m'.streams[h]);
  }

  ghost predicate MoveKeeps(keep: Mux -> bool, n: Mux) {
    keep(n) && n.lists.ready != [] ==> keep(MoveOne(n))
  }

  /** Scheduling keeps whatever moving one frame keeps. */
  lemma {:induction false} ScheduleKeeps(c: Conf, m: Mux, frames: nat, bytes: nat, keep: Mux -> bool)
    requires frames <= DRAIN_FRAMES && keep(m)
    requires forall n: Mux :: MoveKeeps(keep, n)
    ensures keep(Schedule(c, m, frames, bytes))
    decreases DRAIN_FRAMES - frames, |m.lists.ready|
  {
    if !(m.lists.ready == [] || frames >= DRAIN_FRAMES || bytes >= ByteBudget(c)) {
      assert MoveKeeps(keep, m);
      var out := Get(m, m.lists.ready[0]).flow.out;
      if out == [] {
        ScheduleKeeps(c, MoveOne(m), frames, bytes, keep);
      } else {
        ScheduleKeeps(c, MoveOne(m), frames + 1, bytes + out[0].length, keep);
      }
    }
  }

  // ---------------------------------------------------------------------------------------
  // Chaining, writing, retiring

  /** Nothing at the head of the write queue is completely written. */
  ghost predicate HeadOpen(w: Wire) {
    w.sending != [] ==> w.written < |w.sending[0].wire|
  }

  /** The socket has taken everything exactly when nothing is being sent. */
  lemma UnsentMeansSending(w: Wire)
    requires Wires(w) && HeadOpen(w)
    ensures w.unsent == [] <==> w.sending == []
  {
  }

  /** Frames and records are as they were; only bytes moved. */
  lemma SameOutstanding(m: Mux, m': Mux)
    requires Core(m) && Outstanding(m') == Outstanding(m) && m'.streams == m.streams && m'.lists == m.lists
    requires m'.count == m.count && m'.wire.sent == m.wire.sent && Wires(m'.wire)
    ensures Core(m')
  {
    forall k: nat | k < |m.streams| ensures StreamAt(m', k) {
      assert StreamAt(m, k);
      StreamElsewhere(m, m', k);
    }
  }

  lemma MoveAllCore(m: Mux)
    requires Core(m) && m.wire.sending == []
    ensures Core(MoveAll(m)) && Outstanding(MoveAll(m)) == Outstanding(m)
  {
    var m' := MoveAll(m); var w := m.wire;
    assert m'.wire.sending == m.control + m.data;
    assert w.unsent == [] && w.taken + [] == w.taken && WireBytes(w.sent) + [] == WireBytes(w.sent);
    SameOutstanding(m, m');
  }

  lemma WriteCore(m: Mux, k: nat)
    requires Core(m)
    ensures Core(m.(wire := Write(m.wire, k)))
  {
    var w, w' := m.wire, Write(m.wire, k);
    assert w'.taken + w'.unsent == w.taken + w.unsent;
    SameOutstanding(m, m.(wire := w'));
  }

  lemma DischargeHead(w: Flow, h: Handle, done: seq<OutFrame>, flight: seq<OutFrame>)
    requires FlowOk(w, h, done, flight) && flight != []
    ensures FlowOk(Discharged(w, flight[0]), h, done + [flight[0]], flight[1..])
  {
    var f := flight[0];
    assert flight == [f] + flight[1..];
    assert w.accepted == (done + [f]) + flight[1..] + w.out;
    assert w.accepted[|done|] == f;
  }

  lemma DischargeOutstanding(m: Mux)
    requires HeadWritten(m.wire)
    ensures Outstanding(m) == [m.wire.sending[0]] + Outstanding(Discharge(m))
  {
    assert m.wire.sending == [m.wire.sending[0]] + m.wire.sending[1..];
  }

  lemma OwnedFirst(f: OutFrame, rest: seq<OutFrame>, k: Handle)
    ensures Owned([f] + rest, k) == if f.owner == Some(k) then [f] + Owned(rest, k) else Owned(rest, k)
  {
    OwnedAppend([f], rest, k);
    OwnedOne(f, k);
  }

  lemma DischargeOther(m: Mux, k: Handle)
    requires HeadWritten(m.wire) && StreamAt(m, k) && m.wire.sending[0].owner != Some(k)
    ensures StreamAt(Discharge(m), k)
  {
    var m' := Discharge(m);
    assert Owned(m'.wire.sent, k) == Owned(m.wire.sent, k) by { OwnedLast(m.wire.sent, m.wire.sending[0], k); }
    assert Owned(Outstanding(m'), k) == Owned(Outstanding(m), k) by {
      DischargeOutstanding(m);
      OwnedFirst(m.wire.sending[0], Outstanding(m'), k);
    }
  }

  lemma DischargeOwner(m: Mux, k: Handle)
    requires HeadWritten(m.wire) && k < |m.streams| && StreamAt(m, k) && m.wire.sending[0].owner == Some(k)
    ensures StreamAt(Discharge(m), k)
  {
    var f := m.wire.sending[0]; var m' := Discharge(m);
    var flight, flight' := Owned(Outstanding(m), k), Owned(Outstanding(m'), k);
    assert flight == [f] + flight' by {
      DischargeOutstanding(m);
      OwnedFirst(f, Outstanding(m'), k);
    }
    assert Owned(m'.wire.sent, k) == Owned(m.wire.sent, k) + [f] by { OwnedLast(m.wire.sent, f, k); }
    DischargeHead(m.streams[k].flow, k, Owned(m.wire.sent, k), flight);
    assert flight[1..] == flight';
  }

  lemma PopHeadWires(w: Wire)
    requires Wires(w) && HeadWritten(w)
    ensures Wires(PopHead(w))
  {
    var f := w.sending[0];
    WireAppend(w.sent, [f]);
    assert [f][1..] == [];
    assert WireBytes([f]) == f.wire;
    assert WireBytes(w.sent) + (f.wire + WireBytes(w.sending[1..]))
      == WireBytes(w.sent + [f]) + WireBytes(w.sending[1..]);
  }

  lemma DischargeBooks(m: Mux)
    requires Books(m) && HeadWritten(m.wire) && Named(m.wire.sending[0], |m.streams|)
    ensures Books(Discharge(m))
  {
    var f := m.wire.sending[0]; var m' := Discharge(m);
    DischargeOutstanding(m);
    TotalAppend([f], Outstanding(m'));
    assert [f][1..] == [];
    if f.owner.Some? {
      SumsPut(m.streams, f.owner.value, m'.streams[f.owner.value]);
    }
  }

  lemma DischargeCore(m: Mux)
    requires Core(m) && HeadWritten(m.wire)
    ensures Core(Discharge(m))
  {
    var f := m.wire.sending[0]; var m' := Discharge(m);
    DischargeOutstanding(m);
    assert f in Outstanding(m);
    forall k: nat | k < |m.streams| ensures StreamAt(m', k) {
      assert StreamAt(m, k);
      if f.owner == Some(k) { DischargeOwner(m, k); } else { DischargeOther(m, k); }
    }
    DischargeBooks(m);
    PopHeadWires(m.wire);
    if f.owner.Some? {
      KeepLists(m, m', f.owner.value, m'.streams[f.owner.value]);
    }
  }

  /** The clamps of the frame handler never act: every counter holds at least what the head
      frame was charged with. */
  lemma NothingIsClamped(m: Mux)
    requires Core(m) && m.wire.sending != []
    ensures var f := m.wire.sending[0];
            && m.count.pendingOutput >= f.length && m.count.frames >= 1
            && (f.owner.Some? ==>
                  var w := Get(m, f.owner.value).flow; w.queuedFrames >= 1 && w.pendingOut >= f.length)
  {
    var f := m.wire.sending[0]; var rest := Outstanding(m)[1..];
    assert Outstanding(m) == [f] + rest;
    TotalAppend([f], rest);
    assert [f][1..] == [];
    if f.owner.Some? {
      var h := f.owner.value;
      assert f in Outstanding(m) && StreamAt(m, h);
      OwnedFirst(f, rest, h);
      TotalAppend([f], Owned(rest, h));
    }
  }

  // ---------------------------------------------------------------------------------------
  // List memberships and closing

  lemma UnblockCore(m: Mux, h: Handle)
    requires Core(m) && h < |m.streams|
    ensures Core(Unblock(m, h))
  {
    var s := m.streams[h].(readBlocked := false);
    if m.streams[h].readBlocked {
      TracksDrop(m.lists.blocked, m.streams, h, s, OnBlocked);
      TracksKeep(m.lists.readReady, m.streams, h, s, OnRead);
      TracksKeep(m.lists.closing, m.streams, h, s, OnClosing);
      ChangeCore(m, Unblock(m, h), h, s);
    }
  }

  lemma BlockCore(m: Mux, h: Handle)
    requires Core(m) && h < |m.streams|
    ensures Core(Block(m, h))
  {
    var s := m.streams[h].(readBlocked := true);
    if !m.streams[h].readBlocked {
      TracksAdd(m.lists.blocked, m.streams, h, s, false, OnBlocked);
      TracksKeep(m.lists.readReady, m.streams, h, s, OnRead);
      TracksKeep(m.lists.closing, m.streams, h, s, OnClosing);
      ChangeCore(m, Block(m, h), h, s);
    }
  }

  lemma RequeueCore(m: Mux, h: Handle)
    requires Core(m) && h < |m.streams|
    ensures Core(Requeue(m, h))
  {
    var s := m.streams[h].(readReady := true);
    if !m.streams[h].readReady && !m.streams[h].readBlocked {
      TracksAdd(m.lists.readReady, m.streams, h, s, false, OnRead);
      TracksKeep(m.lists.blocked, m.streams, h, s, OnBlocked);
      TracksKeep(m.lists.closing, m.streams, h, s, OnClosing);
      ChangeCore(m, Requeue(m, h), h, s);
    }
  }

  lemma PopReadCore(m: Mux)
    requires Core(m) && m.lists.readReady != []
    ensures m.lists.readReady[0] < |m.streams| && Core(PopRead(m))
  {
    var h := m.lists.readReady[0];
    assert h in m.lists.readReady;
    var s := m.streams[h].(readReady := false);
    TracksDrop(m.lists.readReady, m.streams, h, s, OnRead);
    RemoveHead(m.lists.readReady);
    TracksKeep(m.lists.blocked, m.streams, h, s, OnBlocked);
    TracksKeep(m.lists.closing, m.streams, h, s, OnClosing);
    ChangeCore(m, PopRead(m), h, s);
  }

  lemma UotCloseCore(m: Mux, h: Handle)
    requires Core(m) && h < |m.streams|
    ensures Core(UotClose(m, h))
  {
    var s := UotClose(m, h).streams[h];
    TracksKeep(m.lists.readReady, m.streams, h, s, OnRead);
    TracksKeep(m.lists.blocked, m.streams, h, s, OnBlocked);
    TracksKeep(m.lists.closing, m.streams, h, s, OnClosing);
    SumsPut(m.streams, h, s);
    ChangeCore(m, UotClose(m, h), h, s);
  }

  lemma DelayCloseCore(m: Mux, h: Handle)
    requires Core(m) && h < |m.streams| && m.streams[h].state != Closed
    ensures Core(DelayClose(m, h))
  {
    var s := DelayClose(m, h).streams[h];
    if m.streams[h].closing {
      TracksKeep(m.lists.closing, m.streams, h, s, OnClosing);
    } else {
      TracksAdd(m.lists.closing, m.streams, h, s, false, OnClosing);
    }
    TracksDrop(m.lists.readReady, m.streams, h, s, OnRead);
    TracksDrop(m.lists.blocked, m.streams, h, s, OnBlocked);
    SumsPut(m.streams, h, s);
    ChangeCore(m, DelayClose(m, h), h, s);
  }

  /** A stream with no frame left anywhere has nothing to give back. */
  lemma EmptiedFlow(w: Flow, h: Handle, done: seq<OutFrame>, flight: seq<OutFrame>)
    requires FlowOk(w, h, done, flight) && w.queuedFrames == 0
    ensures Emptied(w) == w && w.out == []
  {
  }

  /** A stream with no frame left anywhere closes without touching the output counters. */
  lemma CompleteCloseCore(m: Mux, h: Handle)
    requires Core(m) && h < |m.streams| && m.streams[h].state != Closed && m.streams[h].flow.queuedFrames == 0
    ensures Core(CompleteClose(m, h))
  {
    var s := CompleteClose(m, h).streams[h];
    assert StreamAt(m, h);
    EmptiedFlow(m.streams[h].flow, h, Owned(m.wire.sent, h), Owned(Outstanding(m), h));
    TracksDrop(m.lists.closing, m.streams, h, s, OnClosing);
    TracksDrop(m.lists.readReady, m.streams, h, s, OnRead);
    TracksDrop(m.lists.blocked, m.streams, h, s, OnBlocked);
    SumsPut(m.streams, h, s);
    ChangeCore(m, CompleteClose(m, h), h, s);
  }

  lemma CloseStreamCore(m: Mux, h: Handle)
    requires Core(m) && h < |m.streams| && !m.finalized
    ensures Core(CloseStream(m, h))
  {
    if m.streams[h].state != Closed {
      if m.streams[h].flow.queuedFrames != 0 {
        DelayCloseCore(m, h);
      } else {
        CompleteCloseCore(m, h);
      }
    }
  }

  lemma NewStreamCore(m: Mux, id: nat)
    requires Core(m) && id < U32_LIMIT
    ensures Core(Opened(m, id))
  {
    var s := NewStream(id); var h := |m.streams|; var m' := Opened(m, id);
    forall k: nat | k < |m'.streams| ensures StreamAt(m', k) {
      if k < h {
        assert StreamAt(m, k);
        StreamElsewhere(m, m', k);
      } else {
        OwnedNone(m.wire.sent, h);
        OwnedNone(Outstanding(m), h);
      }
    }
    TracksNew(m.lists.ready, m.streams, s, OnReady);
    TracksNew(m.lists.readReady, m.streams, s, OnRead);
    TracksNew(m.lists.blocked, m.streams, s, OnBlocked);
    TracksNew(m.lists.closing, m.streams, s, OnClosing);
    SumNew(OutBytes, m.streams, s);
    SumNew(OutCount, m.streams, s);
    SumNew(LiveOne, m.streams, s);
    SumNew(UotOne, m.streams, s);
  }
}
