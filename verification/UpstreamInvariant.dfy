/**
  What every step of the upstream side keeps: bytes are neither lost, repeated nor reordered, the
  counters are exact, and a half-close comes after all of the payload.
  */
module UpstreamInvariant {
  import opened Bytes
  import opened Protocol
  import opened Upstream

  function Unsent(fifo: seq<Buf>): Bytes
    requires Sized(fifo)
  {
    if fifo == [] then [] else fifo[0].data[fifo[0].sent..] + Unsent(fifo[1..])
  }

  function Total(fifo: seq<Buf>): nat {
    if fifo == [] then 0 else |fifo[0].data| + Total(fifo[1..])
  }

  /** Every buffer of a FIFO has something left to write. */
  predicate Unfinished(fifo: seq<Buf>) {
    forall i :: 0 <= i < |fifo| ==> fifo[i].sent < |fifo[i].data|
  }

  function One(b: bool): nat {
    if b then 1 else 0
  }

  /** The bytes of a live stream: what was taken is what was written and what is queued. */
  ghost predicate Flowing(max: nat, s: Stream) {
    && Unfinished(s.fifo)
    && s.bytes == Total(s.fifo)
    && s.accepted == s.written + Unsent(s.fifo)
    && (s.blocked ==> s.bytes > max / 2)
  }

  /** The shared counters, given what the other streams hold. */
  ghost predicate Counted(max: nat, p: Pair, rest: nat, restBlocked: nat) {
    && p.c.pending == rest + p.s.bytes
    && p.c.blocked == restBlocked + One(p.s.blocked)
    && (!p.c.paused ==> p.c.pending <= max)
    && (p.c.paused ==> p.c.readBlocked)
  }

  ghost predicate Mid(max: nat, p: Pair, rest: nat, restBlocked: nat) {
    !p.c.closing && Flowing(max, p.s) && Counted(max, p, rest, restBlocked)
  }

  /** Writing changes neither the life of a stream nor what it accepted. */
  predicate SameLife(s: Stream, t: Stream) {
    && t.status == s.status && t.inClosed == s.inClosed && t.pendingShutdown == s.pendingShutdown
    && t.shutdowns == s.shutdowns && t.eof == s.eof && t.dispatched == s.dispatched && t.accepted == s.accepted
  }

  lemma AdvanceKeeps(max: nat, p: Pair, rest: nat, rb: nat, k: nat)
    requires Mid(max, p, rest, rb) && p.s.fifo != [] && k < |p.s.fifo[0].data| - p.s.fifo[0].sent
    ensures Mid(max, Advance(p, k), rest, rb) && SameLife(p.s, Advance(p, k).s)
  {
    var b, tail := p.s.fifo[0], p.s.fifo[1..];
    var q := Advance(p, k);
    assert q.s.fifo[0] == b.(sent := b.sent + k) && q.s.fifo[1..] == tail;
    CutUnsent(p.s.written, b.data, b.sent, k, Unsent(tail));
  }

  lemma CutUnsent(written: Bytes, data: Bytes, sent: nat, k: nat, tail: Bytes)
    requires sent + k <= |data|
    ensures written + (data[sent..] + tail) == written + data[sent..sent + k] + (data[sent + k..] + tail)
  {
    assert data[sent..] == data[sent..sent + k] + data[sent + k..];
  }

  /** The first buffer is written completely and leaves the FIFO. */
  function Popped(max: nat, p: Pair): Pair
    requires p.s.fifo != [] && Sized(p.s.fifo)
  {
    UpdateInput(max, Release(Advance(p, |p.s.fifo[0].data| - p.s.fifo[0].sent)))
  }

  lemma PopBytes(max: nat, p: Pair)
    requires Flowing(max, p.s) && p.s.fifo != []
    ensures var q := Popped(max, p);
            && q.s.fifo == p.s.fifo[1..] && q.s.accepted == q.s.written + Unsent(q.s.fifo)
            && q.s.bytes == p.s.bytes - |p.s.fifo[0].data| == Total(q.s.fifo)
            && SameLife(p.s, q.s) && q.c.closing == p.c.closing
  {
    var b, tail := p.s.fifo[0], p.s.fifo[1..];
    var left := |b.data| - b.sent;
    assert Advance(p, left).s.fifo[1..] == tail;
    assert b.data[b.sent..b.sent + left] == b.data[b.sent..];
    assert p.s.written + (b.data[b.sent..] + Unsent(tail)) == p.s.written + b.data[b.sent..] + Unsent(tail);
  }

  lemma PopKeeps(max: nat, p: Pair, rest: nat, rb: nat)
    requires Mid(max, p, rest, rb) && p.s.fifo != []
    ensures Mid(max, Popped(max, p), rest, rb) && SameLife(p.s, Popped(max, p).s)
  {
    PopBytes(max, p);
  }

  lemma {:induction false} SettleKeeps(max: nat, p: Pair, n: nat, rest: nat, rb: nat)
    requires Mid(max, p, rest, rb)
    ensures Mid(max, Settle(max, p, n), rest, rb) && SameLife(p.s, Settle(max, p, n).s)
    ensures Settle(max, p, n).s.bytes <= p.s.bytes
    decreases |p.s.fifo|
  {
    if n != 0 && p.s.fifo != [] {
      var left := |p.s.fifo[0].data| - p.s.fifo[0].sent;
      if n < left {
        AdvanceKeeps(max, p, rest, rb, n);
      } else {
        PopBytes(max, p);
        PopKeeps(max, p, rest, rb);
        SettleKeeps(max, Popped(max, p), n - left, rest, rb);
      }
    }
  }

  lemma {:induction false} WriteLoopKeeps(max: nat, p: Pair, budget: Budget, script: seq<Write>, rest: nat, rb: nat)
    requires Mid(max, p, rest, rb)
    ensures var r := WriteLoop(max, p, budget, script).p;
            Mid(max, r, rest, rb) && SameLife(p.s, r.s) && r.s.bytes <= p.s.bytes
    decreases |script|
  {
    if !(p.s.fifo == [] || budget == AtMost(0) || script == []) && script[0].Wrote? {
      var n := Min(script[0].n, Offered(p.s.fifo, 0, CHAIN_LIMIT, budget));
      SettleKeeps(max, p, n, rest, rb);
      WriteLoopKeeps(max, Settle(max, p, n), Spent(budget, n), script[1..], rest, rb);
    }
  }

  /** Where a half-close stands: it is deferred exactly while there is a backlog, happens once, and
      nothing is accepted any more. */
  ghost predicate Life(s: Stream) {
    match s.status
    case Connecting => s.shutdowns == 0 && !s.pendingShutdown
    case Connected => s.shutdowns == 0 && !s.pendingShutdown
    case HalfClosed =>
      && s.inClosed
      && (if s.fifo == [] then s.shutdowns == 1 && !s.pendingShutdown else s.shutdowns == 0 && s.pendingShutdown)
    case Gone => s.inClosed && s.shutdowns <= 1 && (s.shutdowns == 1 ==> s.written == s.accepted)
  }

  /** Nothing is taken that was not handed over; as long as no byte is missing, all of it. */
  predicate Share(s: Stream) {
    |s.accepted| <= |s.dispatched| && (|s.accepted| == |s.dispatched| ==> s.accepted == s.dispatched)
  }

  ghost predicate StreamInv(max: nat, s: Stream) {
    && Life(s) && Share(s)
    && (s.inClosed <==> s.status in {HalfClosed, Gone} || s.eof)
    && (s.eof ==> !s.status.Connecting?)
    && if s.status.Gone? then s.fifo == [] && s.bytes == 0 && !s.blocked && IsPrefix(s.written, s.accepted)
       else Flowing(max, s)
  }

  /** Input stays paused only while something is queued. */
  ghost predicate Settled(max: nat, p: Pair, rest: nat, restBlocked: nat) {
    Mid(max, p, rest, restBlocked) && Life(p.s) && (p.c.paused ==> p.c.pending > 0)
  }

  lemma BacklogCounts(fifo: seq<Buf>)
    requires Unfinished(fifo)
    ensures fifo != [] ==> Total(fifo) > 0
  {
  }

  /** A write fails only with something left to write. */
  lemma {:induction false} FailedHolds(max: nat, p: Pair, budget: Budget, script: seq<Write>)
    requires Sized(p.s.fifo)
    ensures var r := WriteLoop(max, p, budget, script); r.failed ==> r.p.s.fifo != []
    decreases |script|
  {
    if !(p.s.fifo == [] || budget == AtMost(0) || script == []) && script[0].Wrote? {
      var n := Min(script[0].n, Offered(p.s.fifo, 0, CHAIN_LIMIT, budget));
      FailedHolds(max, Settle(max, p, n), Spent(budget, n), script[1..]);
    }
  }

  lemma SendKeeps(max: nat, p: Pair, budget: Budget, script: seq<Write>, rest: nat, rb: nat)
    requires Settled(max, p, rest, rb) && (rb > 0 ==> rest > 0) && !p.s.status.Gone?
    ensures var r := SendPending(max, p, budget, script);
            && Mid(max, r.p, rest, rb) && r.p.s.bytes <= p.s.bytes
            && (!r.failed || p.s.status.Connected? ==> Settled(max, r.p, rest, rb))
            && r.p.s.status == p.s.status && r.p.s.inClosed == p.s.inClosed && r.p.s.accepted == p.s.accepted
            && r.p.s.eof == p.s.eof && r.p.s.dispatched == p.s.dispatched
            && r.p.s.shutdowns <= 1 && (r.p.s.shutdowns == 1 ==> p.s.status.HalfClosed? && r.p.s.fifo == [])
  {
    if p.s.status in {Connected, HalfClosed} {
      WriteLoopKeeps(max, p, budget, script, rest, rb);
      FailedHolds(max, p, budget, script);
      var r := WriteLoop(max, p, budget, script);
      BacklogCounts(r.p.s.fifo);
      if p.s.fifo == [] {
        EmptyStays(max, p, budget, script);
      }
    }
  }

  lemma EmptyStays(max: nat, p: Pair, budget: Budget, script: seq<Write>)
    requires Sized(p.s.fifo) && p.s.fifo == []
    ensures WriteLoop(max, p, budget, script).p == p
  {
  }

  // ----- Closing -----

  /** What a close needs of a stream, also in the middle of a failed write. */
  ghost predicate Closable(p: Pair, rest: nat, rb: nat) {
    && p.s.bytes == Total(p.s.fifo) && IsPrefix(p.s.written, p.s.accepted)
    && p.c.pending == rest + p.s.bytes && p.c.blocked == rb + One(p.s.blocked)
    && p.s.shutdowns <= 1 && (p.s.shutdowns == 1 ==> p.s.written == p.s.accepted) && Share(p.s)
    && (p.s.eof ==> !p.s.status.Connecting?) && (p.c.paused ==> p.c.readBlocked)
  }

  lemma MidIsClosable(max: nat, p: Pair, rest: nat, rb: nat)
    requires Mid(max, p, rest, rb) && p.s.shutdowns <= 1 && (p.s.shutdowns == 1 ==> p.s.fifo == [])
    requires Share(p.s) && (p.s.eof ==> !p.s.status.Connecting?)
    ensures Closable(p, rest, rb)
  {
  }

  /** A closed stream holds nothing and blocks nobody. */
  lemma CloseKeeps(max: nat, p: Pair, rest: nat, rb: nat)
    requires Closable(p, rest, rb) && !p.s.status.Gone?
    ensures var q := Close(max, p);
            && StreamInv(max, q.s) && q.s.status.Gone? && q.c.pending == rest && q.c.blocked == rb
            && q.c.closing == p.c.closing
            && (q.c.paused ==> p.c.paused) && (q.c.paused ==> q.c.readBlocked)
  {
  }

  lemma CloseSettles(max: nat, p: Pair, rest: nat, rb: nat)
    requires Closable(p, rest, rb) && !p.s.status.Gone? && !p.c.closing
    requires (!p.c.paused ==> p.c.pending <= max) && (rb > 0 ==> rest > 0)
    ensures var q := Close(max, p); Counted(max, q, rest, rb) && (q.c.paused ==> q.c.pending > 0)
  {
  }

  // ----- Payload -----

  lemma {:induction false} AppendUnsent(fifo: seq<Buf>, data: Bytes)
    requires Unfinished(fifo) && data != []
    ensures var f := fifo + [Buf(data, 0)];
            Unfinished(f) && Unsent(f) == Unsent(fifo) + data && Total(f) == Total(fifo) + |data|
    decreases |fifo|
  {
    var f := fifo + [Buf(data, 0)];
    assert data[0..] == data;
    if fifo == [] {
      assert f[1..] == [];
    } else {
      assert f[1..] == fifo[1..] + [Buf(data, 0)];
      AppendUnsent(fifo[1..], data);
    }
  }

  /** A stream that has accepted `data` but not yet queued or written it. */
  ghost predicate Holding(max: nat, p: Pair, data: Bytes, rest: nat, rb: nat) {
    && !p.c.closing && Unfinished(p.s.fifo) && p.s.bytes == Total(p.s.fifo)
    && p.s.accepted == p.s.written + Unsent(p.s.fifo) + data
    && (p.s.blocked ==> p.s.bytes > max / 2)
    && Counted(max, p, rest, rb)
  }

  lemma EnqueueKeeps(max: nat, p: Pair, data: Bytes, rest: nat, rb: nat)
    requires Holding(max, p, data, rest, rb) && data != []
    ensures var q := Enqueue(max, p, data);
            Mid(max, q, rest, rb) && SameLife(p.s, q.s) && q.c.pending == p.c.pending + |data|
  {
    AppendUnsent(p.s.fifo, data);
    var u := Unsent(p.s.fifo);
    assert p.s.written + u + data == p.s.written + (u + data);
  }

  predicate IsSuffix(rest: Bytes, data: Bytes) {
    |rest| <= |data| && rest == data[|data| - |rest|..]
  }

  lemma SuffixOfDrop(rest: Bytes, data: Bytes, k: nat)
    requires k <= |data| && IsSuffix(rest, data[k..])
    ensures IsSuffix(rest, data)
  {
  }

  lemma {:induction false} DirectIsSuffix(data: Bytes, script: seq<Write>)
    ensures IsSuffix(SendDirect(data, script).rest, data)
    decreases |script|
  {
    if !(data == [] || script == []) && script[0].Wrote? && script[0].n != 0 {
      var k := Min(script[0].n, |data|);
      DirectIsSuffix(data[k..], script[1..]);
      var later := SendDirect(data[k..], script[1..]);
      assert SendDirect(data, script) == later;
      SuffixOfDrop(later.rest, data, k);
    }
  }

  lemma WrittenKeeps(max: nat, p: Pair, data: Bytes, k: nat, rest: nat, rb: nat)
    requires Holding(max, p, data, rest, rb) && p.s.fifo == [] && k <= |data|
    ensures Holding(max, Written(p, data[..k]), data[k..], rest, rb)
  {
    assert p.s.written + Unsent(p.s.fifo) == p.s.written;
    assert p.s.written + data[..k] + Unsent(p.s.fifo) == p.s.written + data[..k];
    assert p.s.written + data == p.s.written + data[..k] + data[k..];
  }

  lemma AcceptHolds(max: nat, p: Pair, data: Bytes, rest: nat, rb: nat)
    requires Mid(max, p, rest, rb)
    ensures Holding(max, Accept(p, data), data, rest, rb)
  {
  }

  lemma {:induction false} FailureIsShort(data: Bytes, script: seq<Write>)
    ensures SendDirect(data, script).failed ==> SendDirect(data, script).rest != []
    decreases |script|
  {
    if !(data == [] || script == []) && script[0].Wrote? && script[0].n != 0 {
      FailureIsShort(data[Min(script[0].n, |data|)..], script[1..]);
    }
  }

  /** A direct attempt that fails has taken what it wrote. */
  lemma FailedDirect(max: nat, p: Pair, sent: Bytes, rest: nat, rb: nat)
    requires Mid(max, p, rest, rb) && p.s.fifo == []
    ensures Mid(max, Written(Accept(p, sent), sent), rest, rb)
  {
    AcceptHolds(max, p, sent, rest, rb);
    WrittenKeeps(max, Accept(p, sent), sent, |sent|, rest, rb);
    var q := Written(Accept(p, sent), sent);
    assert sent[..|sent|] == sent && sent[|sent|..] == [];
    assert q.s.written + Unsent(q.s.fifo) + [] == q.s.written + Unsent(q.s.fifo);
  }

  /** What the stream has taken of `data`: all of it, or on a failure the beginning. */
  predicate TookOf(s: Stream, t: Stream, data: Bytes, failed: bool) {
    var k := |t.accepted| - |s.accepted|;
    && 0 <= k <= |data| && (failed <==> k < |data|)
    && t.accepted == s.accepted + data[..k]
  }

  lemma Took(s: Stream, t: Stream, data: Bytes, failed: bool, k: nat)
    requires if failed then k < |data| else k == |data|
    requires t.accepted == s.accepted + data[..k]
    ensures TookOf(s, t, data, failed)
  {
  }

  lemma DirectKeeps(max: nat, p: Pair, data: Bytes, script: seq<Write>, rest: nat, rb: nat)
    requires Mid(max, p, rest, rb) && data != [] && p.s.fifo == []
    ensures var r := Remainder(max, p, data, script);
            && SameLife(p.s.(accepted := r.p.s.accepted), r.p.s) && r.p.c.pending <= p.c.pending + |data|
            && Mid(max, r.p, rest, rb) && TookOf(p.s, r.p.s, data, r.failed)
  {
    var r := Remainder(max, p, data, script);
    DirectIsSuffix(data, script);
    FailureIsShort(data, script);
    var d := SendDirect(data, script);
    var k := |data| - |d.rest|;
    if d.failed {
      FailedDirect(max, p, data[..k], rest, rb);
      Took(p.s, r.p.s, data, true, k);
    } else {
      assert data[..|data|] == data;
      AcceptHolds(max, p, data, rest, rb);
      WrittenKeeps(max, Accept(p, data), data, k, rest, rb);
      var q := Written(Accept(p, data), data[..k]);
      if d.rest == [] {
        assert q.s.written + Unsent(q.s.fifo) + d.rest == q.s.written + Unsent(q.s.fifo);
      } else {
        EnqueueKeeps(max, q, d.rest, rest, rb);
      }
      Took(p.s, r.p.s, data, false, |data|);
    }
  }

  /** The direct attempt and the queue together take the payload, in order. */
  lemma RemainderKeeps(max: nat, p: Pair, data: Bytes, script: seq<Write>, rest: nat, rb: nat)
    requires Mid(max, p, rest, rb) && data != []
    ensures var r := Remainder(max, p, data, script);
            && SameLife(p.s.(accepted := r.p.s.accepted), r.p.s) && r.p.c.pending <= p.c.pending + |data|
            && Mid(max, r.p, rest, rb) && TookOf(p.s, r.p.s, data, r.failed)
  {
    var r := Remainder(max, p, data, script);
    AcceptHolds(max, p, data, rest, rb);
    assert data[..|data|] == data;
    if p.s.fifo != [] {
      EnqueueKeeps(max, Accept(p, data), data, rest, rb);
      Took(p.s, r.p.s, data, false, |data|);
    } else {
      DirectKeeps(max, p, data, script, rest, rb);
    }
  }

  lemma TakeKeeps(max: nat, p: Pair, data: Bytes, direct: seq<Write>, rest: nat, rb: nat)
    requires Settled(max, p, rest, rb) && p.s.status.Connected? && data != []
    ensures var r := Remainder(max, p, data, direct);
            && r.p.c.pending <= p.c.pending + |data| && Settled(max, r.p, rest, rb)
            && SameLife(p.s.(accepted := r.p.s.accepted), r.p.s) && TookOf(p.s, r.p.s, data, r.failed)
  {
    RemainderKeeps(max, p, data, direct, rest, rb);
    var r := Remainder(max, p, data, direct);
    StillPaused(max, p, data, direct);
    QueuedSettles(max, p, r.p, rest, rb);
  }

  lemma StillPaused(max: nat, p: Pair, data: Bytes, direct: seq<Write>)
    requires (p.c.paused ==> p.c.pending > 0) && data != []
    ensures var r := Remainder(max, p, data, direct); r.p.c.paused ==> r.p.c.pending > 0
  {
  }

  /** What a payload frame does to the life of its stream: nothing. */
  predicate FedBy(s: Stream, t: Stream, data: Bytes, failed: bool) {
    && SameLife(s.(accepted := t.accepted, dispatched := s.dispatched + data), t)
    && TookOf(s, t, data, failed)
  }

  /** A payload frame for a stream that accepts payload. */
  lemma QueueKeeps(max: nat, p: Pair, data: Bytes, ready: bool, flush: seq<Write>, direct: seq<Write>, rest: nat,
                   rb: nat)
    requires Settled(max, p, rest, rb) && (rb > 0 ==> rest > 0) && p.s.status in {Connecting, Connected} && !p.s.eof
    ensures var r := Queue(max, p, data, ready, flush, direct);
            && r.p.c.pending <= p.c.pending + |data| && Settled(max, r.p, rest, rb)
            && FedBy(p.s, r.p.s, data, r.failed)
  {
    var r := Queue(max, p, data, ready, flush, direct);
    if data == [] {
      NothingFed(p.s);
    } else {
      var q := Handed(p, data);
      if p.s.status.Connecting? {
        WaitingKeeps(max, p, data, rest, rb);
      } else if p.s.fifo != [] && ready {
        FlushedKeeps(max, q, data, flush, direct, rest, rb);
      } else {
        TakeKeeps(max, q, data, direct, rest, rb);
      }
    }
  }

  lemma NothingFed(s: Stream)
    ensures FedBy(s, s, [], false)
  {
    var none: Bytes := [];
    assert s.accepted + none[..0] == s.accepted && s.dispatched + none == s.dispatched;
    Took(s, s, none, false, 0);
  }

  lemma WaitingKeeps(max: nat, p: Pair, data: Bytes, rest: nat, rb: nat)
    requires Settled(max, p, rest, rb) && (rb > 0 ==> rest > 0) && p.s.status.Connecting? && !p.s.eof && data != []
    ensures var r := Enqueue(max, Accept(Handed(p, data), data), data);
            && r.c.pending <= p.c.pending + |data| && Settled(max, r, rest, rb)
            && FedBy(p.s, r.s, data, false)
  {
    var q := Handed(p, data);
    var r := Enqueue(max, Accept(q, data), data);
    AcceptHolds(max, q, data, rest, rb);
    EnqueueKeeps(max, Accept(q, data), data, rest, rb);
    QueuedSettles(max, q, r, rest, rb);
    assert data[..|data|] == data;
    Took(p.s, r.s, data, false, |data|);
  }

  lemma FlushedKeeps(max: nat, q: Pair, data: Bytes, flush: seq<Write>, direct: seq<Write>, rest: nat, rb: nat)
    requires Settled(max, q, rest, rb) && (rb > 0 ==> rest > 0) && q.s.status.Connected? && !q.s.eof && data != []
    ensures var f := SendPending(max, q, Unlimited, flush);
            var r := if f.failed then f else Remainder(max, f.p, data, direct);
            && r.p.c.pending <= q.c.pending + |data| && Settled(max, r.p, rest, rb)
            && SameLife(q.s.(accepted := r.p.s.accepted), r.p.s) && TookOf(q.s, r.p.s, data, r.failed)
  {
    SendKeeps(max, q, Unlimited, flush, rest, rb);
    var f := SendPending(max, q, Unlimited, flush);
    if f.failed {
      assert q.s.accepted + data[..0] == q.s.accepted;
      Took(q.s, f.p.s, data, true, 0);
    } else {
      TakeKeeps(max, f.p, data, direct, rest, rb);
    }
  }

  lemma QueuedSettles(max: nat, p: Pair, q: Pair, rest: nat, rb: nat)
    requires Mid(max, q, rest, rb) && Life(p.s) && p.s.status in {Connecting, Connected}
    requires SameLife(p.s.(accepted := q.s.accepted), q.s) && (q.c.paused ==> q.c.pending > 0)
    ensures Settled(max, q, rest, rb)
  {
  }

  /** The client's FIN: a half-close, at once or deferred, or a close. */
  lemma FinKeeps(max: nat, p: Pair, script: seq<Write>, rest: nat, rb: nat)
    requires Settled(max, p, rest, rb) && (rb > 0 ==> rest > 0) && p.s.status in {Connecting, Connected}
    requires Share(p.s) && !p.s.eof
    ensures var q := ClientFin(max, p, script);
            && StreamInv(max, q.s) && q.s.inClosed && !q.c.closing && q.c.pending <= p.c.pending
            && Counted(max, q, rest, rb) && (q.c.paused ==> q.c.pending > 0)
  {
    var c := p.(s := p.s.(inClosed := true));
    if !p.s.status.Connected? {
      MidIsClosable(max, c, rest, rb);
      CloseKeeps(max, c, rest, rb);
      CloseSettles(max, c, rest, rb);
    } else {
      SendKeeps(max, c, Unlimited, script, rest, rb);
      var r := SendPending(max, c, Unlimited, script);
      if r.failed {
        MidIsClosable(max, r.p, rest, rb);
        CloseKeeps(max, r.p, rest, rb);
        CloseSettles(max, r.p, rest, rb);
      }
    }
  }
}
