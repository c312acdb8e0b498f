/** Draining, finalizing, and what holds after every run of the output multiplexer. */
module MuxRuns {
  import opened Bytes
  import opened Protocol
  import opened Mux
  import opened MuxLists
  import opened MuxInvariant
  import opened MuxMoves
  import opened MuxLife
  import opened MuxEvents
  import opened Wrappers

  /** Between events somebody will look at whatever is still to be written: either the write
      event is posted, or the socket holds back bytes and the write event is armed. Output
      pressure is on exactly while the socket holds back bytes. */
  ghost predicate Awake(m: Mux) {
    && HeadOpen(m.wire)
    && (m.pressure <==> m.wire.unsent != [])
    && (m.wire.unsent != [] ==> m.armed)
    && (Outstanding(m) != [] || m.lists.ready != [] ==> m.writePending || m.wire.unsent != [])
  }

  ghost predicate Between(c: Conf, m: Mux) {
    Sound(c, m) && Awake(m)
  }

  /** What survives in the middle of a drain. */
  ghost predicate Steady(c: Conf, m: Mux) {
    Core(m) && Lives(m) && !m.finalized && Limited(c, m)
  }

  /** Signals are not part of the core. */
  lemma SignalsCore(m: Mux, m': Mux)
    requires Core(m) && m'.wire == m.wire && m'.control == m.control && m'.data == m.data
    requires m'.streams == m.streams && m'.lists == m.lists && m'.count == m.count
    ensures Core(m')
  {
    SameOutstanding(m, m');
  }

  lemma QuietAwake(m: Mux, m': Mux)
    requires Awake(m) && Quiet(m, m') && Tracked(m) && Tracked(m')
    ensures Awake(m')
  {
  }

  // ---------------------------------------------------------------------------------------
  // The pieces of a drain

  /** The closing list never holds a stream that could be closed already. */
  lemma {:induction false} NothingToClose(m: Mux, todo: seq<Handle>)
    requires Lives(m) && Tracked(m) && forall h :: h in todo ==> h in m.lists.closing
    ensures DrainClosing(m, todo) == m
    decreases |todo|
  {
    if todo != [] {
      assert todo[0] in m.lists.closing;
      NothingToClose(m, todo[1..]);
    }
  }

  /** What scheduling leaves alone. */
  ghost predicate Shifted(c: Conf, m: Mux, n: Mux) {
    && Steady(c, n) && n.wire == m.wire && n.control == m.control && n.count == m.count
    && n.pressure == m.pressure && n.armed == m.armed && n.writePending == m.writePending
    && n.lists == m.lists.(ready := n.lists.ready)
  }

  lemma MoveOneShifts(c: Conf, m: Mux, n: Mux)
    requires Shifted(c, m, n) && n.lists.ready != []
    ensures Shifted(c, m, MoveOne(n))
  {
    MoveOneCore(n);
    ReadyHasOutput(n);
  }

  lemma ScheduleShifts(c: Conf, m: Mux)
    requires Steady(c, m)
    ensures Shifted(c, m, Schedule(c, m, 0, 0))
  {
    var keep := n => Shifted(c, m, n);
    forall n: Mux ensures MoveKeeps(keep, n) {
      if keep(n) && n.lists.ready != [] {
        MoveOneShifts(c, m, n);
      }
    }
    ScheduleKeeps(c, m, 0, 0, keep);
  }

  /** One turn of the schedule. */
  lemma ScheduleTurn(c: Conf, m: Mux, frames: nat, bytes: nat)
    requires m.lists.ready != [] && frames < DRAIN_FRAMES && bytes < ByteBudget(c)
    ensures var out := Get(m, m.lists.ready[0]).flow.out;
            Schedule(c, m, frames, bytes) == if out == [] then Schedule(c, MoveOne(m), frames, bytes)
                                             else Schedule(c, MoveOne(m), frames + 1, bytes + out[0].length)
  {
  }

  /** A schedule call moves at least one frame if any stream is ready. */
  lemma ScheduleProgresses(c: Conf, m: Mux)
    requires Core(m) && m.lists.ready != []
    ensures |Schedule(c, m, 0, 0).data| > |m.data|
  {
    ReadyHasOutput(m);
    var f := m.streams[m.lists.ready[0]].flow.out[0];
    var keep := (n: Mux) => |n.data| > |m.data|;
    forall n: Mux ensures MoveKeeps(keep, n) {
    }
    ScheduleKeeps(c, MoveOne(m), 1, f.length, keep);
  }

  /** A chain without bytes is a chain without frames. */
  lemma {:induction false} NoBytesNoFrames(fs: seq<OutFrame>)
    requires forall f :: f in fs ==> Proper(f)
    ensures WireBytes(fs) == [] <==> fs == []
  {
    if fs != [] {
      assert fs[0] in fs;
    }
  }

  // ---------------------------------------------------------------------------------------
  // Retiring written frames

  lemma DischargeLives(m: Mux, h: Handle)
    requires HeadWritten(m.wire) && h < |m.streams| && m.wire.sending[0].owner == Some(h) && Lives(m)
    ensures LivesBut(Discharge(m), h) && Discharge(m).streams[h].state == m.streams[h].state
    ensures var s := Discharge(m).streams[h];
            (s.state != Closing || s.flow.queuedFrames != 0) ==> Life(s)
  {
  }

  lemma RetireSteady(c: Conf, m: Mux)
    requires Steady(c, m) && HeadWritten(m.wire)
    ensures Steady(c, Retire(m)) && Retire(m).wire == PopHead(m.wire)
    ensures var m' := Retire(m); m'.pressure == m.pressure && m'.control == m.control && m'.data == m.data
  {
    var f := m.wire.sending[0]; var m1 := Discharge(m);
    DischargeCore(m);
    assert f in Outstanding(m);
    if f.owner.Some? {
      var h := f.owner.value;
      DischargeLives(m, h);
      KindKept(c, m, m1, h);
      if m1.streams[h].state == Closing && m1.streams[h].flow.queuedFrames == 0 {
        ClosedSteady(c, m1, h);
      }
    }
  }

  lemma ClosedSteady(c: Conf, m: Mux, h: Handle)
    requires Core(m) && LivesBut(m, h) && Limited(c, m) && !m.finalized && h < |m.streams|
             && m.streams[h].state != Closed
    ensures var m' := CloseStream(m, h);
            Steady(c, m') && m'.wire == m.wire && m'.pressure == m.pressure && m'.control == m.control
              && m'.data == m.data
  {
    CloseStreamCore(m, h);
    CloseShrinks(m, h);
    CloseLives(m, h);
    KindKept(c, m, CloseStream(m, h), h);
  }

  ghost predicate Retired(c: Conf, m: Mux, n: Mux) {
    && Steady(c, n) && n.wire.unsent == m.wire.unsent && n.pressure == m.pressure
    && n.control == m.control && n.data == m.data
  }

  ghost predicate RetireKeeps(keep: Mux -> bool, n: Mux) {
    keep(n) && HeadWritten(n.wire) ==> keep(Retire(n))
  }

  lemma {:induction false} RecycleKeeps(m: Mux, keep: Mux -> bool)
    requires keep(m) && forall n: Mux :: RetireKeeps(keep, n)
    ensures keep(Recycle(m)) && HeadOpen(Recycle(m).wire)
    decreases |m.wire.sending|
  {
    if HeadWritten(m.wire) {
      assert RetireKeeps(keep, m);
      RecycleKeeps(Retire(m), keep);
    }
  }

  lemma RecycleRetires(c: Conf, m: Mux)
    requires Steady(c, m)
    ensures Retired(c, m, Recycle(m)) && HeadOpen(Recycle(m).wire)
  {
    var keep := n => Retired(c, m, n);
    forall n: Mux ensures RetireKeeps(keep, n) {
      if keep(n) && HeadWritten(n.wire) {
        RetireSteady(c, n);
      }
    }
    RecycleKeeps(m, keep);
  }

  // ---------------------------------------------------------------------------------------
  // Blocked readers

  /** Only the membership in the list of blocked reads has changed. */
  ghost predicate Woken(c: Conf, m: Mux, n: Mux) {
    && Steady(c, n) && |n.streams| == |m.streams|
    && n == m.(streams := n.streams, lists := m.lists.(blocked := n.lists.blocked, readReady := n.lists.readReady))
  }

  ghost predicate UnblockKeeps(keep: Mux -> bool, n: Mux, h: Handle) {
    keep(n) && h < |n.streams| ==> keep(Unblock(n, h))
  }

  lemma {:induction false} ProcessBlockedKeeps(c: Conf, m: Mux, todo: seq<Handle>, keep: Mux -> bool)
    requires keep(m) && forall h :: h in todo ==> h < |m.streams|
    requires forall n: Mux, h: Handle :: UnblockKeeps(keep, n, h)
    ensures keep(ProcessBlocked(c, m, todo))
    decreases |todo|
  {
    if todo != [] {
      assert todo[0] in todo;
      assert UnblockKeeps(keep, m, todo[0]);
      assert forall h :: h in todo[1..] ==> h in todo;
      ProcessBlockedKeeps(c, Unblock(m, todo[0]), todo[1..], keep);
    }
  }

  /** A reader is put on the blocked list or taken from it; nothing else happens. */
  ghost predicate Reblocked(n: Mux, n': Mux, h: Handle) {
    && h < |n.streams| && OnlyStream(n, n', h) && n'.streams[h].uot == n.streams[h].uot
    && n' == n.(streams := n'.streams, lists := n.lists.(blocked := n'.lists.blocked))
  }

  lemma ReblockedWakes(c: Conf, m: Mux, n: Mux, n': Mux, h: Handle)
    requires Woken(c, m, n) && Reblocked(n, n', h) && Core(n') && Life(n'.streams[h])
    ensures Woken(c, m, n')
  {
    KindKept(c, n, n', h);
  }

  lemma UnblockRecord(n: Mux, h: Handle)
    requires h < |n.streams| && Life(n.streams[h])
    ensures Reblocked(n, Unblock(n, h), h) && Life(Unblock(n, h).streams[h])
  {
  }

  lemma UnblockWakes(c: Conf, m: Mux, n: Mux, h: Handle)
    requires Woken(c, m, n) && h < |n.streams|
    ensures Woken(c, m, Unblock(n, h))
  {
    var n' := Unblock(n, h);
    assert Life(n.streams[h]);
    assert Core(n') by { UnblockCore(n, h); }
    assert Reblocked(n, n', h) && Life(n'.streams[h]) by { UnblockRecord(n, h); }
    ReblockedWakes(c, m, n, n', h);
  }

  lemma ResumeWakes(c: Conf, m: Mux)
    requires Steady(c, m)
    ensures Woken(c, m, Resume(c, m))
  {
    var keep := n => Woken(c, m, n);
    forall n: Mux, h: Handle ensures UnblockKeeps(keep, n, h) {
      if keep(n) && h < |n.streams| {
        UnblockWakes(c, m, n, h);
      }
    }
    ProcessBlockedKeeps(c, m, m.lists.blocked, keep);
  }

  /** With room for any read and nothing left to write, every blocked reader is resumed. */
  lemma {:induction false} ResumeEmpties(c: Conf, m: Mux)
    requires Steady(c, m) && Roomy(c) && !m.pressure && m.count.pendingOutput == 0
    ensures Resume(c, m).lists.blocked == []
    decreases |m.lists.blocked|
  {
    var q := m.lists.blocked;
    if q != [] {
      assert q[0] in q;
      PermittedFits(c, m.streams[q[0]]);
      UnblockCore(m, q[0]);
      RemoveHead(q);
      ResumeEmpties(c, Unblock(m, q[0]));
    }
  }

  ghost predicate SuspendKeeps(keep: Mux -> bool, n: Mux) {
    keep(n) && n.lists.readReady != [] ==>
      var h := n.lists.readReady[0]; var s := Get(n, h); var n1 := PopRead(n);
      keep(if s.conn && s.state != Closed && s.state != Closing then Block(n1, h) else n1)
  }

  lemma {:induction false} SuspendReadsKeeps(m: Mux, keep: Mux -> bool)
    requires keep(m) && forall n: Mux :: SuspendKeeps(keep, n)
    ensures keep(SuspendReads(m))
    decreases |m.lists.readReady|
  {
    if m.lists.readReady != [] {
      assert SuspendKeeps(keep, m);
      var h := m.lists.readReady[0]; var s := Get(m, h); var m1 := PopRead(m);
      SuspendReadsKeeps(if s.conn && s.state != Closed && s.state != Closing then Block(m1, h) else m1, keep);
    }
  }

  lemma PopReadWakes(c: Conf, m: Mux, n: Mux)
    requires Woken(c, m, n) && n.lists.readReady != []
    ensures n.lists.readReady[0] < |n.streams| && Woken(c, m, PopRead(n))
  {
    PopReadCore(n);
  }

  lemma BlockReblocks(n: Mux, h: Handle)
    requires h < |n.streams| && Life(n.streams[h]) && !Ending(n.streams[h])
    ensures Reblocked(n, Block(n, h), h) && Life(Block(n, h).streams[h])
  {
  }

  lemma BlockWakes(c: Conf, m: Mux, n: Mux, h: Handle)
    requires Woken(c, m, n) && h < |n.streams| && !Ending(n.streams[h])
    ensures Woken(c, m, Block(n, h))
  {
    var n' := Block(n, h);
    assert Life(n.streams[h]);
    assert Core(n') by { BlockCore(n, h); }
    assert Reblocked(n, n', h) && Life(n'.streams[h]) by { BlockReblocks(n, h); }
    ReblockedWakes(c, m, n, n', h);
  }

  lemma SuspendWakes(c: Conf, m: Mux)
    requires Steady(c, m)
    ensures Woken(c, m, SuspendReads(m))
  {
    var keep := n => Woken(c, m, n);
    forall n: Mux ensures SuspendKeeps(keep, n) {
      if keep(n) && n.lists.readReady != [] {
        var h := n.lists.readReady[0];
        PopReadWakes(c, m, n);
        if Get(n, h).conn && Get(n, h).state != Closed && Get(n, h).state != Closing {
          BlockWakes(c, m, PopRead(n), h);
        }
      }
    }
    SuspendReadsKeeps(m, keep);
  }

  // ---------------------------------------------------------------------------------------
  // The drain as a whole

  lemma MoveAllChains(c: Conf, m: Mux)
    requires Steady(c, m) && m.wire.sending == []
    ensures Steady(c, MoveAll(m)) && Outstanding(MoveAll(m)) == Outstanding(m)
    ensures MoveAll(m).wire.unsent == [] ==> Outstanding(m) == []
  {
    MoveAllCore(m);
    var fs := m.control + m.data;
    assert Outstanding(m) == fs;
    NoBytesNoFrames(fs);
  }

  lemma ChainedSteady(c: Conf, m: Mux)
    requires Steady(c, m) && HeadOpen(m.wire)
    ensures Steady(c, Chained(c, m)) && Chained(c, m).pressure == m.pressure
  {
    ScheduleShifts(c, m);
    UnsentMeansSending(m.wire);
    if m.wire.unsent == [] {
      MoveAllChains(c, Schedule(c, m, 0, 0));
    }
  }

  lemma IdleSchedule(c: Conf, m: Mux)
    requires Core(m) && Schedule(c, m, 0, 0).data == []
    ensures Schedule(c, m, 0, 0) == m && m.lists.ready == []
  {
    if m.lists.ready != [] {
      ScheduleProgresses(c, m);
      assert false;
    }
  }

  /** A flush that finds no byte to offer has nothing to write anywhere. */
  lemma NothingChained(c: Conf, m: Mux)
    requires Steady(c, m) && HeadOpen(m.wire) && Chained(c, m).wire.unsent == []
    ensures Outstanding(Chained(c, m)) == [] && Chained(c, m).lists.ready == []
  {
    var m1 := Schedule(c, m, 0, 0);
    assert Outstanding(Chained(c, m)) == [] && m1.data == [] by { EmptyChain(c, m); }
    IdleSchedule(c, m);
  }

  lemma EmptyChain(c: Conf, m: Mux)
    requires Steady(c, m) && HeadOpen(m.wire) && Chained(c, m).wire.unsent == []
    ensures Outstanding(Chained(c, m)) == [] && Schedule(c, m, 0, 0).data == []
  {
    assert Shifted(c, m, Schedule(c, m, 0, 0)) by { ScheduleShifts(c, m); }
    ChainIsEmpty(c, Schedule(c, m, 0, 0));
  }

  lemma ChainIsEmpty(c: Conf, m: Mux)
    requires Steady(c, m) && HeadOpen(m.wire)
    requires (if m.wire.unsent == [] then MoveAll(m) else m).wire.unsent == []
    ensures m.wire.unsent == [] && Outstanding(MoveAll(m)) == [] && m.data == []
  {
    assert Wires(m.wire);
    UnsentMeansSending(m.wire);
    MoveAllChains(c, m);
    assert Outstanding(m) == [];
  }

  /** What a flush establishes. */
  ghost predicate Flushed(c: Conf, n: Mux, all: bool) {
    && Steady(c, n) && HeadOpen(n.wire) && (all <==> n.wire.unsent == [])
    && (!all ==> n.armed)
    && (all && (Outstanding(n) != [] || n.lists.ready != []) ==> n.writePending)
  }

  lemma SignalsSteady(c: Conf, m: Mux, m': Mux)
    requires Steady(c, m) && m' == m.(pressure := m'.pressure, armed := m'.armed, writePending := m'.writePending)
    ensures Steady(c, m')
  {
    SignalsCore(m, m');
  }

  lemma WriteSteady(c: Conf, m: Mux, k: nat)
    requires Steady(c, m)
    ensures Steady(c, m.(wire := Write(m.wire, k)))
  {
    WriteCore(m, k);
  }

  /** With everything taken, what the flush leaves behind is exactly what it looked at. */
  lemma PostedFlushed(c: Conf, m: Mux)
    requires Steady(c, m) && HeadOpen(m.wire) && m.wire.unsent == []
    ensures Flushed(c, PostIfMore(m), true)
  {
    UnsentMeansSending(m.wire);
    SignalsSteady(c, m, PostIfMore(m));
    assert Outstanding(m) == m.control + m.data;
  }

  lemma PushedFlushed(c: Conf, m: Mux, k: nat)
    requires Steady(c, m)
    ensures Flushed(c, Pushed(c, m, k).0, Pushed(c, m, k).1) && Pushed(c, m, k).0.pressure == m.pressure
  {
    var m0 := m.(wire := Write(m.wire, k));
    WriteSteady(c, m, k);
    var m1 := Recycle(m0);
    assert Retired(c, m0, m1) && HeadOpen(m1.wire) by { RecycleRetires(c, m0); }
    var m2 := if m1.pressure then m1 else Resume(c, m1);
    assert Steady(c, m2) && m2.wire == m1.wire && m2.pressure == m1.pressure by {
      if !m1.pressure { ResumeWakes(c, m1); }
    }
    if m2.wire.unsent != [] {
      SignalsSteady(c, m2, m2.(armed := true));
    } else {
      var m3 := m2.(armed := false);
      SignalsSteady(c, m2, m3);
      NothingToClose(m3, m3.lists.closing);
      PostedFlushed(c, m3);
    }
  }

  lemma FlushFlushed(c: Conf, m: Mux, k: nat)
    requires Steady(c, m) && HeadOpen(m.wire)
    ensures Flushed(c, Flush(c, m, k).0, Flush(c, m, k).1) && Flush(c, m, k).0.pressure == m.pressure
  {
    var m1 := Chained(c, m);
    assert Steady(c, m1) && m1.pressure == m.pressure by { ChainedSteady(c, m); }
    if m1.wire.unsent == [] {
      NothingChained(c, m);
    } else {
      PushedFlushed(c, m1, k);
    }
  }

  /** The socket holding back bytes means that there is output pending. */
  lemma UnsentIsPending(m: Mux)
    requires Core(m) && m.wire.sending != []
    ensures m.count.pendingOutput > 0
  {
    NothingIsClamped(m);
    assert m.wire.sending[0] in Outstanding(m);
  }

  /** The end of a drain when the socket has taken everything. */
  lemma ReleasedBetween(c: Conf, m: Mux)
    requires Flushed(c, m, true) && !m.pressure
    ensures Between(c, Resume(c, m)) && Steady(c, Resume(c, m)) && Flushed(c, Resume(c, m), true)
    ensures Roomy(c) && m.count.pendingOutput == 0 ==> Resume(c, m).lists.blocked == []
  {
    ResumeWakes(c, m);
    if Roomy(c) && m.count.pendingOutput == 0 {
      ResumeEmpties(c, m);
    }
  }

  /** The end of a drain when the socket holds back bytes. */
  lemma PressedBetween(c: Conf, m: Mux)
    requires Flushed(c, m, false) && m.pressure
    ensures Between(c, Resume(c, m))
  {
    UnsentMeansSending(m.wire);
    UnsentIsPending(m);
    ResumeWakes(c, m);
  }

  lemma DrainBetween(c: Conf, m: Mux, k: nat)
    requires Steady(c, m) && HeadOpen(m.wire)
    ensures Between(c, Drain(c, m, k))
    ensures Roomy(c) && Drain(c, m, k).count.pendingOutput == 0 ==> Drain(c, m, k).lists.blocked == []
  {
    NothingToClose(m, m.lists.closing);
    var (m1, all) := Flush(c, m, k);
    assert Flushed(c, m1, all) && m1.pressure == m.pressure by { FlushFlushed(c, m, k); }
    if all {
      var m2 := m1.(pressure := false);
      SignalsSteady(c, m1, m2);
      ReleasedBetween(c, m2);
      if m.pressure {
        ReleasedBetween(c, Resume(c, m2));
      }
    } else if m1.pressure {
      PressedBetween(c, m1);
    } else {
      var m2 := m1.(pressure := true);
      SignalsSteady(c, m1, m2);
      SuspendWakes(c, m2);
      PressedBetween(c, SuspendReads(m2));
    }
  }
}
