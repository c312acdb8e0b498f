/** How much stream payload is on its way to the client. */
module MuxPressure {
  import opened Mux
  import opened MuxLists
  import opened MuxInvariant
  import opened MuxMoves
  import opened MuxLife
  import opened Protocol
  import opened Wrappers

  function PushLength(f: OutFrame): nat {
    if f.frame.cmd == PSH then f.length else 0
  }

  function PushBytes(fs: seq<OutFrame>): nat {
    if fs == [] then 0 else PushLength(fs[0]) + PushBytes(fs[1..])
  }

  lemma {:induction false} PushBytesAppend(a: seq<OutFrame>, b: seq<OutFrame>)
    ensures PushBytes(a + b) == PushBytes(a) + PushBytes(b)
  {
    if a == [] {
      assert a + b == b;
    } else {
      assert (a + b)[1..] == a[1..] + b;
      PushBytesAppend(a[1..], b);
    }
  }

  lemma PushBytesOne(f: OutFrame)
    ensures PushBytes([f]) == PushLength(f)
  {
    assert [f][1..] == [];
  }

  lemma {:induction false} PushBytesBelow(fs: seq<OutFrame>)
    ensures PushBytes(fs) <= Total(fs)
  {
    if fs != [] {
      PushBytesBelow(fs[1..]);
    }
  }

  function OutPushes(s: Stream): nat {
    PushBytes(s.flow.out)
  }

  lemma {:induction false} OutPushesBelow(ss: seq<Stream>)
    ensures SumBy(OutPushes, ss) <= SumBy(OutBytes, ss)
  {
    if ss != [] {
      PushBytesBelow(ss[0].flow.out);
      OutPushesBelow(ss[1..]);
    }
  }

  /** The bytes of all payload frames that are accepted and not completely written. */
  function Pushing(m: Mux): nat {
    PushBytes(Outstanding(m)) + SumBy(OutPushes, m.streams)
  }

  lemma PushingBelow(m: Mux)
    requires Books(m)
    ensures Pushing(m) <= m.count.pendingOutput
  {
    PushBytesBelow(Outstanding(m));
    OutPushesBelow(m.streams);
  }

  /** The payload does not grow, unless to something within the limit. */
  ghost predicate Within(c: Conf, m: Mux, m': Mux) {
    Pushing(m') <= Pushing(m) || Pushing(m') <= c.maxPendingOutput
  }

  // ---------------------------------------------------------------------------------------
  // What the primitive operations do to it

  /** One record changes and keeps its frames. */
  lemma SamePushing(m: Mux, m': Mux, h: Handle)
    requires OnlyStream(m, m', h) && Outstanding(m') == Outstanding(m)
    requires h < |m.streams| ==> OutPushes(m'.streams[h]) == OutPushes(m.streams[h])
    ensures Pushing(m') == Pushing(m)
  {
    if h < |m.streams| {
      RecordPushing(m, m', h);
    } else {
      assert m'.streams == m.streams;
    }
  }

  lemma RecordPushing(m: Mux, m': Mux, h: Handle)
    requires OnlyStream(m, m', h) && h < |m.streams|
    ensures SumBy(OutPushes, m'.streams) + OutPushes(m.streams[h])
            == SumBy(OutPushes, m.streams) + OutPushes(m'.streams[h])
  {
    assert m'.streams == Put(m.streams, h, m'.streams[h]);
    SumPut(OutPushes, m.streams, h, m'.streams[h]);
  }

  lemma InsertPushing(a: seq<OutFrame>, f: OutFrame, b: seq<OutFrame>)
    ensures PushBytes(a + [f] + b) == PushBytes(a + b) + PushLength(f)
  {
    PushBytesAppend(a + [f], b);
    PushBytesAppend(a, [f]);
    PushBytesAppend(a, b);
    PushBytesOne(f);
  }

  lemma LastPushing(a: seq<OutFrame>, f: OutFrame)
    ensures PushBytes(a + [f]) == PushBytes(a) + PushLength(f)
  {
    PushBytesAppend(a, [f]);
    PushBytesOne(f);
  }

  /** One more frame on its way; what is left with the streams stays. */
  ghost predicate Sends(m: Mux, m': Mux, h: Handle) {
    OnlyStream(m, m', h) && (h < |m.streams| ==> m'.streams[h].flow.out == m.streams[h].flow.out)
  }

  lemma SendsPushing(m: Mux, m': Mux, h: Handle, f: OutFrame)
    requires Sends(m, m', h) && PushBytes(Outstanding(m')) == PushBytes(Outstanding(m)) + PushLength(f)
    ensures Pushing(m') == Pushing(m) + PushLength(f)
  {
    if h < |m.streams| {
      RecordPushing(m, m', h);
    } else {
      assert m'.streams == m.streams;
    }
  }

  function OwnerOf(m: Mux, f: OutFrame): Handle {
    if f.owner.Some? then f.owner.value else |m.streams|
  }

  lemma ToControlPushing(m: Mux, f: OutFrame)
    ensures Pushing(ToControl(m, f)) == Pushing(m) + PushLength(f)
  {
    ToControlOutstanding(m, f);
    InsertPushing(m.wire.sending + m.control, f, m.data);
    ToControlSends(m, f);
    SendsPushing(m, ToControl(m, f), OwnerOf(m, f), f);
  }

  lemma ToControlSends(m: Mux, f: OutFrame)
    ensures Sends(m, ToControl(m, f), OwnerOf(m, f))
  {
  }

  lemma ToDataPushing(m: Mux, h: Handle, f: OutFrame)
    ensures Pushing(ToData(m, h, f)) == Pushing(m) + PushLength(f)
  {
    ToDataOutstanding(m, h, f);
    LastPushing(Outstanding(m), f);
    ToDataSends(m, h, f);
    SendsPushing(m, ToData(m, h, f), h, f);
  }

  lemma ToDataSends(m: Mux, h: Handle, f: OutFrame)
    ensures Sends(m, ToData(m, h, f), h)
  {
  }

  lemma ToStreamPushing(m: Mux, h: Handle, f: OutFrame)
    requires h < |m.streams|
    ensures Pushing(ToStream(m, h, f)) == Pushing(m) + PushLength(f)
  {
    var m' := ToStream(m, h, f);
    LastPushing(m.streams[h].flow.out, f);
    RecordPushing(m, m', h);
  }

  lemma AcceptPushing(c: Conf, m: Mux, f: OutFrame)
    requires f.owner.Some? ==> f.owner.value < |m.streams|
    ensures Pushing(Accept(c, m, f)) == Pushing(m) + PushLength(f)
  {
    ToControlPushing(m, f);
    if f.owner.Some? {
      ToDataPushing(m, f.owner.value, f);
      ToStreamPushing(m, f.owner.value, f);
    }
  }

  /** Within the limit, if a payload frame was accepted to within the limit. */
  lemma AcceptWithin(c: Conf, m: Mux, f: OutFrame)
    requires f.owner.Some? ==> f.owner.value < |m.streams|
    requires f.frame.cmd == PSH ==> Books(Accept(c, m, f)) && m.count.pendingOutput + f.length <= c.maxPendingOutput
    ensures Within(c, m, Accept(c, m, f))
  {
    if f.frame.cmd == PSH {
      AcceptTook(c, m, f);
      PushingBelow(Accept(c, m, f));
    } else {
      AcceptPushing(c, m, f);
    }
  }

  lemma MovePushing(m: Mux)
    requires m.lists.ready != [] && m.lists.ready[0] < |m.streams| && m.streams[m.lists.ready[0]].flow.out != []
    ensures Pushing(MoveOne(m)) == Pushing(m)
  {
    var h := m.lists.ready[0]; var m' := MoveOne(m); var out := m.streams[h].flow.out;
    MoveOneOutstanding(m);
    LastPushing(Outstanding(m), out[0]);
    MoveRecord(m);
    RecordPushing(m, m', h);
  }

  lemma MoveRecord(m: Mux)
    requires m.lists.ready != [] && m.lists.ready[0] < |m.streams| && m.streams[m.lists.ready[0]].flow.out != []
    ensures var h := m.lists.ready[0];
            OnlyStream(m, MoveOne(m), h) && MoveOne(m).streams[h].flow.out == m.streams[h].flow.out[1..]
  {
  }

  lemma DischargePushing(m: Mux)
    requires HeadWritten(m.wire)
    ensures Pushing(Discharge(m)) <= Pushing(m)
  {
    var f := m.wire.sending[0]; var m' := Discharge(m);
    DischargeOutstanding(m);
    PushBytesAppend([f], Outstanding(m'));
    DischargeKeepsOut(m);
    var h := OwnerOf(m, f);
    if h < |m.streams| {
      RecordPushing(m, m', h);
    } else {
      assert m'.streams == m.streams;
    }
  }

  lemma DischargeKeepsOut(m: Mux)
    requires HeadWritten(m.wire)
    ensures Sends(m, Discharge(m), OwnerOf(m, m.wire.sending[0]))
  {
  }

  lemma ClosePushing(m: Mux, h: Handle)
    requires Core(m) && !m.finalized && h < |m.streams|
    ensures Pushing(CloseStream(m, h)) == Pushing(m)
  {
    CloseShrinks(m, h);
    CloseKeepsFrames(m, h);
    SamePushing(m, CloseStream(m, h), h);
  }

  lemma CloseKeepsFrames(m: Mux, h: Handle)
    requires Core(m) && !m.finalized && h < |m.streams|
    ensures Outstanding(CloseStream(m, h)) == Outstanding(m)
    ensures |CloseStream(m, h).streams| == |m.streams|
            && CloseStream(m, h).streams[h].flow.out == m.streams[h].flow.out
  {
    assert StreamAt(m, h);
    if m.streams[h].state != Closed {
      CloseRecord(m, h);
    }
  }

  lemma OpenPushing(m: Mux, id: nat)
    ensures Pushing(Opened(m, id)) == Pushing(m)
  {
    SumNew(OutPushes, m.streams, NewStream(id));
  }
}
