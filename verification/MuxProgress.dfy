/** What becomes of the streams of the output multiplexer over whole runs. */
module MuxProgress {
  import opened Bytes
  import opened StreamDecoder
  import opened Protocol
  import opened Mux
  import opened MuxLists
  import opened MuxInvariant
  import opened MuxMoves
  import opened MuxLife
  import opened MuxEvents
  import opened MuxRuns
  import opened MuxHistory
  import opened MuxPressure
  import opened MuxTheorems
  import opened Wrappers

  // ---------------------------------------------------------------------------------------
  // Runs only move streams on

  lemma {:induction false} FinalStays(c: Conf, m: Mux, es: seq<Event>)
    requires m.finalized
    ensures Run(c, m, es) == m
    decreases |es|
  {
    if es != [] {
      FinalStays(c, m, es[1..]);
    }
  }

  lemma StepStays(c: Conf, m: Mux, es: seq<Event>) returns (m1: Mux)
    requires Between(c, m) && es != [] && !Run(c, m, es).finalized
    ensures m1 == Step(c, m, es[0])
    ensures Between(c, m1) && !m1.finalized
  {
    m1 := StepInv(c, m, es[0]);
    if m1.finalized {
      FinalStays(c, m1, es[1..]);
    }
  }

  lemma {:induction false} RunGoes(c: Conf, m: Mux, es: seq<Event>)
    requires Between(c, m) && !Run(c, m, es).finalized
    ensures Goes(c, !RunTakesEmptyDatagram(c, m, es), m, Run(c, m, es)) && Between(c, Run(c, m, es))
    decreases |es|
  {
    if es == [] {
      GoesNowhere(c, m, m);
    } else {
      var m1 := StepStays(c, m, es);
      StepGoes(c, m, es[0]);
      RunGoes(c, m1, es[1..]);
      GoesChain(c, !TakesEmptyDatagram(c, m, es[0]), !RunTakesEmptyDatagram(c, m1, es[1..]), m, m1, Run(c, m, es));
    }
  }

  /** Backpressure over every run: the payload frames that are accepted and not completely written never
      exceed the output limit, whatever the client lets the socket take. */
  lemma PayloadStaysWithinLimit(c: Conf, es: seq<Event>)
    requires !Run(c, Start(), es).finalized
    ensures Pushing(Run(c, Start(), es)) <= c.maxPendingOutput
  {
    StartInv(c);
    RunGoes(c, Start(), es);
    assert Pushing(Start()) == 0;
  }

  // ---------------------------------------------------------------------------------------
  // The end of a stream

  /** What a stream that was ending as `s` has come to. */
  ghost predicate EndedSince(s: Stream, m: Mux, h: Handle)
    requires h < |m.streams|
  {
    var t := m.streams[h];
    && t.flow.accepted == s.flow.accepted && t.flow.queuedFrames <= s.flow.queuedFrames
    && (if Owned(Outstanding(m), h) + t.flow.out == [] then t.state == Closed else t.state == Closing)
    && (s.state == Closed ==> t.state == Closed)
  }

  lemma OnwardEnded(c: Conf, pure: bool, s: Stream, m: Mux, h: Handle)
    requires Core(m) && Lives(m) && h < |m.streams| && Ending(s) && Onward(c, pure, s, m.streams[h])
    ensures EndedSince(s, m, h)
  {
    assert StreamAt(m, h) && Life(m.streams[h]);
  }

  /** A stream ends once and for good: whatever happens later, it accepts no frame, only loses the
      ones it has, and is closed exactly when the last of them has been written. */
  lemma EndedForGood(c: Conf, m: Mux, es: seq<Event>, h: Handle)
    requires Reached(c, m) && h < |m.streams| && Ending(m.streams[h]) && !Run(c, m, es).finalized
    ensures h < |Run(c, m, es).streams| && EndedSince(m.streams[h], Run(c, m, es), h)
    ensures Run(c, m, es).count.active == SumBy(LiveOne, Run(c, m, es).streams)
  {
    var m' := Run(c, m, es);
    ReachedIsBetween(c, m);
    RunGoes(c, m, es);
    OnwardEnded(c, !RunTakesEmptyDatagram(c, m, es), m.streams[h], m', h);
  }

  /** The end of file of a readable stream ends it if and only if there is a place for its FIN. */
  lemma EofEndsIff(c: Conf, m: Mux, h: Handle)
    requires Reached(c, m) && h < |m.streams| && Readable(m.streams[h])
    ensures var m' := EndOfUpstream(c, m, h);
            && h < |m'.streams| && (Ending(m'.streams[h]) <==> m.count.frames < MAX_OUT_FRAMES)
            && (m.count.frames == MAX_OUT_FRAMES ==>
                  m'.streams[h].state == m.streams[h].state && !m'.streams[h].conn && m'.count.active == m.count.active)
  {
    assert OpenEnded(m.streams[h]) by {
      ReachedIsBetween(c, m);
      assert Life(m.streams[h]) && StreamAt(m, h);
    }
    FinEndsIff(c, Set(m, h, m.streams[h].(conn := false)), h);
    assert m.count.frames <= MAX_OUT_FRAMES by { ReachedIsBetween(c, m); }
    assert !m.finalized;
  }

  ghost predicate OpenEnded(s: Stream) {
    !Ending(s) && !s.flow.finQueued && !s.flow.finSent && s.id < U32_LIMIT
  }

  lemma FinEndsIff(c: Conf, m: Mux, h: Handle)
    requires !m.finalized && h < |m.streams| && OpenEnded(m.streams[h])
    ensures var m' := SendFinAndClose(c, m, h);
            && |m'.streams| == |m.streams| && (Ending(m'.streams[h]) <==> m.count.frames < MAX_OUT_FRAMES)
            && (m.count.frames >= MAX_OUT_FRAMES ==> m'.streams[h] == Marked(m.streams[h]) && m'.count == m.count)
  {
    FinShape(c, m, h);
    FinFrameProper(h, m.streams[h].id);
    if m.count.frames < MAX_OUT_FRAMES {
      FinEnds(c, Set(m, h, Marked(m.streams[h])), h, FinFrame(h, m.streams[h].id));
    }
  }

  lemma FinEnds(c: Conf, m: Mux, h: Handle, f: OutFrame)
    requires h < |m.streams| && f.owner == Some(h) && f.frame.cmd == FIN && !m.finalized
    ensures var m' := CloseStream(Accept(c, m, f), h); |m'.streams| == |m.streams| && Ending(m'.streams[h])
  {
    AcceptGrew(c, m, f, h);
  }

  // ---------------------------------------------------------------------------------------
  // Fairness

  predicate Among(q: seq<Handle>, h: Handle, k: int) {
    k >= 0 && h in q[..Min(k + 1, |q|)]
  }

  /** More than `j` frames of the stream have been scheduled, or exactly `j` and at most `k` streams
      are before it. */
  predicate Waits(m: Mux, h: Handle, j: int, k: int) {
    h < |m.streams| && (Scheduled(m.streams[h]) > j || (Scheduled(m.streams[h]) == j && Among(m.lists.ready, h, k)))
  }

  lemma MoveWaits(c: Conf, m: Mux, h: Handle, j: int, k: int)
    requires Core(m) && NoUdp(m) && m.lists.ready != [] && Waits(m, h, j, k)
    ensures Waits(MoveOne(m), h, j, k - 1) && NoUdp(MoveOne(m))
  {
    ReadyHasOutput(m);
    MoveNoUdp(m);
    var q := m.lists.ready; var g := q[0]; var n := MoveOne(m);
    MoveOnward(c, m.streams[g], n.streams[g]);
    MoveGoes(c, m);
    assert Onward(c, true, m.streams[h], n.streams[h]);
    if g != h && Scheduled(m.streams[h]) == j {
      var i :| 0 <= i < Min(k + 1, |q|) && q[i] == h;
      assert n.lists.ready[i - 1] == h;
    }
  }

  lemma MoveNoUdp(m: Mux)
    requires Core(m) && NoUdp(m) && m.lists.ready != []
    ensures NoUdp(MoveOne(m))
  {
    ReadyHasOutput(m);
    var n := MoveOne(m);
    forall x: nat | x < |n.streams| && n.streams[x].flow.onReady ensures !n.streams[x].uot {
      assert m.streams[x].flow.onReady && !m.streams[x].uot;
    }
  }

  lemma WaitsLess(m: Mux, h: Handle, j: int, k: int)
    requires Waits(m, h, j, k - 1)
    ensures Waits(m, h, j, k)
  {
  }

  /** A schedule call takes at least one stream off the way. */
  lemma ScheduleWaits(c: Conf, m: Mux, h: Handle, j: int, k: int)
    requires Core(m) && NoUdp(m) && Waits(m, h, j, k)
    ensures Waits(Schedule(c, m, 0, 0), h, j, k - 1)
  {
    if m.lists.ready != [] {
      ReadyHasOutput(m);
      var n := MoveOne(m);
      MoveWaits(c, m, h, j, k);
      MoveOneCore(m);
      var keep := (x: Mux) => Core(x) && NoUdp(x) && Waits(x, h, j, k - 1);
      forall x: Mux ensures MoveKeeps(keep, x) {
        if keep(x) && x.lists.ready != [] {
          MoveOneCore(x);
          MoveWaits(c, x, h, j, k - 1);
          WaitsLess(MoveOne(x), h, j, k - 1);
        }
      }
      ScheduleKeeps(c, n, 1, m.streams[m.lists.ready[0]].flow.out[0].length, keep);
    }
  }

  lemma StillWaits(c: Conf, m: Mux, m': Mux, h: Handle, j: int, k: int)
    requires Still(c, m, m') && Waits(m, h, j, k)
    ensures Waits(m', h, j, k)
  {
    assert Onward(c, true, m.streams[h], m'.streams[h]);
  }

  lemma LaterWaits(c: Conf, pure: bool, m: Mux, m': Mux, h: Handle, j: int, k: int)
    requires Later(c, pure, m, m') && NoUdp(m') && Waits(m, h, j, k)
    ensures Waits(m', h, j, k)
  {
    assert Onward(c, pure, m.streams[h], m'.streams[h]);
    var q, q' := m.lists.ready, m'.lists.ready;
    if Scheduled(m.streams[h]) == j {
      var i :| 0 <= i < Min(k + 1, |q|) && q[i] == h;
      assert q'[i] == h;
    }
  }

  lemma DrainWaits(c: Conf, m: Mux, bytes: nat, h: Handle, j: int, k: int)
    requires Steady(c, m) && HeadOpen(m.wire) && NoUdp(m) && Waits(m, h, j, k)
    ensures Waits(Drain(c, m, bytes), h, j, k - 1)
  {
    ScheduleWaits(c, m, h, j, k);
    DrainStill(c, m, bytes);
    StillWaits(c, Schedule(c, m, 0, 0), Drain(c, m, bytes), h, j, k - 1);
  }

  function Turns(e: Event): nat {
    if e.Writable? then 1 else 0
  }

  lemma WritableWaits(c: Conf, m: Mux, bytes: nat, h: Handle, j: int, k: int)
    requires Between(c, m) && !m.finalized && NoUdp(m) && Waits(m, h, j, k)
    ensures Waits(Drain(c, m.(writePending := false), bytes), h, j, k - 1)
  {
    var m1 := m.(writePending := false);
    SignalsSteady(c, m, m1);
    DrainWaits(c, m1, bytes, h, j, k);
  }

  lemma QuietWaits(c: Conf, m: Mux, e: Event, h: Handle, j: int, k: int)
    requires Between(c, m) && !e.Writable? && !e.Abort? && !e.Finalize?
    requires NoUdp(Step(c, m, e)) && Waits(m, h, j, k)
    ensures Waits(Step(c, m, e), h, j, k)
  {
    QuietEventLater(c, m, e);
    LaterWaits(c, !TakesEmptyDatagram(c, m, e), m, Step(c, m, e), h, j, k);
  }

  lemma StepWaits(c: Conf, m: Mux, e: Event, h: Handle, j: int, k: int) returns (m1: Mux)
    requires Between(c, m) && !Step(c, m, e).finalized && NoUdp(m) && NoUdp(Step(c, m, e)) && Waits(m, h, j, k)
    ensures m1 == Step(c, m, e)
    ensures Waits(m1, h, j, k - Turns(e))
  {
    m1 := Step(c, m, e);
    if e.Writable? {
      WritableWaits(c, m, e.k, h, j, k);
    } else {
      GoesOnOnly(c, m, e);
      QuietWaits(c, m, e, h, j, k);
    }
  }

  /** An event that does not end the connection is none of those that do. */
  lemma GoesOnOnly(c: Conf, m: Mux, e: Event)
    requires !m.finalized && !Step(c, m, e).finalized
    ensures !e.Finalize? && !e.Abort?
  {
    if e.Finalize? || e.Abort? {
      CloseAllFinal((if e.Abort? then Drain(c, m, e.k) else m).(finalized := true), 0);
    }
  }

  /** How often the socket was writable. */
  function Drains(es: seq<Event>): nat {
    if es == [] then 0 else Turns(es[0]) + Drains(es[1..])
  }

  /** No UDP stream is ever on the ready list. */
  ghost predicate NoUdpAlong(c: Conf, m: Mux, es: seq<Event>)
    decreases |es|
  {
    NoUdp(m) && (es != [] ==> NoUdpAlong(c, Step(c, m, es[0]), es[1..]))
  }

  /** A run ahead of a waiting stream. */
  ghost predicate Ahead(c: Conf, m: Mux, es: seq<Event>, h: Handle, j: int, k: int) {
    Between(c, m) && !Run(c, m, es).finalized && NoUdpAlong(c, m, es) && Waits(m, h, j, k)
  }

  lemma StepAhead(c: Conf, m: Mux, es: seq<Event>, h: Handle, j: int, k: int) returns (m1: Mux)
    requires Ahead(c, m, es, h, j, k) && es != []
    ensures m1 == Step(c, m, es[0])
    ensures Ahead(c, m1, es[1..], h, j, k - Turns(es[0]))
  {
    m1 := StepStays(c, m, es);
    assert NoUdpAlong(c, m1, es[1..]);
    m1 := StepWaits(c, m, es[0], h, j, k);
  }

  /** What a step carries on to the rest of the run. */
  ghost predicate Carries(c: Conf, p: (Mux, seq<Event>) -> bool, m: Mux, es: seq<Event>) {
    p(m, es) && es != [] ==> p(Step(c, m, es[0]), es[1..])
  }

  lemma {:induction false} RunCarries(c: Conf, p: (Mux, seq<Event>) -> bool, m: Mux, es: seq<Event>)
    requires p(m, es) && forall x, fs :: Carries(c, p, x, fs)
    ensures p(Run(c, m, es), [])
    decreases |es|
  {
    if es != [] {
      assert Carries(c, p, m, es);
      RunCarries(c, p, Step(c, m, es[0]), es[1..]);
    }
  }

  /** By the end of `es` the stream will have waited to place `k`. */
  ghost predicate AheadTo(c: Conf, m: Mux, es: seq<Event>, h: Handle, j: int, k: int) {
    Ahead(c, m, es, h, j, k + Drains(es))
  }

  lemma StepAheadTo(c: Conf, m: Mux, es: seq<Event>, h: Handle, j: int, k: int)
    requires AheadTo(c, m, es, h, j, k) && es != []
    ensures AheadTo(c, Step(c, m, es[0]), es[1..], h, j, k)
  {
    var n := k + Drains(es);
    assert n - Turns(es[0]) == k + Drains(es[1..]);
    var _ := StepAhead(c, m, es, h, j, n);
  }

  lemma RunWaits(c: Conf, m: Mux, es: seq<Event>, h: Handle, j: int, k: int)
    requires AheadTo(c, m, es, h, j, k)
    ensures Waits(Run(c, m, es), h, j, k)
  {
    var p := (x: Mux, fs: seq<Event>) => AheadTo(c, x, fs, h, j, k);
    forall x, fs ensures Carries(c, p, x, fs) {
      if p(x, fs) && fs != [] {
        StepAheadTo(c, x, fs, h, j, k);
      }
    }
    RunCarries(c, p, m, es);
  }

  lemma ScheduledFrame(c: Conf, m: Mux, h: Handle, j: nat)
    requires Between(c, m) && h < |m.streams| && Scheduled(m.streams[h]) > j
    ensures j < |m.streams[h].flow.accepted|
    ensures m.streams[h].flow.accepted[j] in Owned(m.wire.sent + Outstanding(m), h)
  {
    assert StreamAt(m, h);
    OwnedAppend(m.wire.sent, Outstanding(m), h);
    var on := Owned(m.wire.sent, h) + Owned(Outstanding(m), h);
    assert m.streams[h].flow.accepted == on + m.streams[h].flow.out;
    assert on[j] == m.streams[h].flow.accepted[j];
  }

  /** Fairness across all events, as long as no UDP stream is on the ready list: the head frame of the
      stream with `k` others before it on that list is with the connection, or already written, after any
      run in which the socket was writable more than `k` times. */
  lemma Fairness(c: Conf, m: Mux, es: seq<Event>, k: nat)
    requires Reached(c, m) && k < |m.lists.ready|
    requires !Run(c, m, es).finalized && NoUdpAlong(c, m, es) && Drains(es) > k
    ensures var h := m.lists.ready[k]; var m' := Run(c, m, es);
            && h < |m.streams| && m.streams[h].flow.out != []
            && m.streams[h].flow.out[0] in Owned(m'.wire.sent + Outstanding(m'), h)
  {
    ReachedIsBetween(c, m);
    var h := m.lists.ready[k]; var m' := Run(c, m, es);
    assert h in m.lists.ready;
    assert StreamAt(m, h);
    var w := m.streams[h].flow; var j := |w.accepted| - |w.out|;
    assert w.accepted[j] == w.out[0];
    RunWaits(c, m, es, h, j, k - Drains(es));
    RunGoes(c, m, es);
    assert Onward(c, !RunTakesEmptyDatagram(c, m, es), m.streams[h], m'.streams[h]);
    ScheduledFrame(c, m', h, j);
    assert m'.streams[h].flow.accepted[j] == w.accepted[j];
  }

  // ---------------------------------------------------------------------------------------
  // Framing

  lemma {:induction false} OwnedIn(fs: seq<OutFrame>, f: OutFrame, h: Handle)
    requires f in fs && f.owner == Some(h)
    ensures f in Owned(fs, h)
    decreases |fs|
  {
    if fs[0] != f {
      OwnedIn(fs[1..], f, h);
    }
  }

  /** A connection's frames that name a stream are among those the stream accepted. */
  lemma CleanFrames(c: Conf, m: Mux)
    requires Between(c, m) && Clean(m)
    ensures NoneTruncated(m.wire.sent) && NoneTruncated(Outstanding(m))
  {
    forall f | f in m.wire.sent || f in Outstanding(m) ensures !Truncated(f) {
      assert Named(f, |m.streams|);
      if f.owner.Some? {
        var h := f.owner.value;
        assert StreamAt(m, h);
        if f in m.wire.sent {
          OwnedIn(m.wire.sent, f, h);
        } else {
          OwnedIn(Outstanding(m), f, h);
        }
        assert f in m.streams[h].flow.accepted;
      }
    }
  }

  lemma {:induction false} RunDirties(c: Conf, m: Mux, es: seq<Event>)
    requires Between(c, m) && !Run(c, m, es).finalized && RunTakesEmptyDatagram(c, m, es)
    ensures !Clean(Run(c, m, es))
    decreases |es|
  {
    var m1 := StepStays(c, m, es);
    if m.finalized {
      FinalStays(c, m, es);
    } else if TakesEmptyDatagram(c, m, es[0]) {
      StepDirties(c, m, es[0]);
      RunGoes(c, m1, es[1..]);
      DirtyStays(c, !RunTakesEmptyDatagram(c, m1, es[1..]), m1, Run(c, m, es));
    } else {
      RunDirties(c, m1, es[1..]);
    }
  }

  /** The frames of all streams are whole after a run exactly if it took no empty datagram. */
  lemma RunIsCleanIff(c: Conf, es: seq<Event>)
    requires !Run(c, Start(), es).finalized
    ensures Between(c, Run(c, Start(), es))
    ensures Clean(Run(c, Start(), es)) <==> !RunTakesEmptyDatagram(c, Start(), es)
  {
    StartInv(c);
    RunGoes(c, Start(), es);
    if RunTakesEmptyDatagram(c, Start(), es) {
      RunDirties(c, Start(), es);
    }
  }

  lemma {:induction false} CleanCount(fs: seq<OutFrame>)
    requires NoneTruncated(fs)
    ensures TruncatedIn(fs) == 0
    decreases |fs|
  {
    if fs != [] {
      assert fs[0] in fs;
      assert forall f :: f in fs[1..] ==> f in fs;
      CleanCount(fs[1..]);
    }
  }

  /** The client's view: after any run in which no empty datagram of a connected UDP stream was queued,
      decoding everything the client has got yields exactly the frames that were written completely,
      and the beginning of one more. */
  lemma ClientDecodes(c: Conf, es: seq<Event>)
    requires !Run(c, Start(), es).finalized && !RunTakesEmptyDatagram(c, Start(), es)
    ensures var w := Run(c, Start(), es).wire;
            exists partial :: Decode(ParseFrame, w.taken) == Decoded(Frames(w.sent), partial, false)
  {
    var m := Run(c, Start(), es);
    RunIsCleanIff(c, es);
    CleanFrames(c, m);
    CleanCount(m.wire.sent);
    if m.wire.sending != [] {
      assert m.wire.sending[0] in Outstanding(m);
    }
    assert Reached(c, m);
    WrittenDecodes(c, m);
  }
}
