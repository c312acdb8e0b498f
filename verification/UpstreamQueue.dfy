/**
  The upstream side in place: a stream's FIFO as a linked list of buffers, and the flow control fields
  its connection shares.
  */
module UpstreamQueue {
  import opened Bytes
  import opened Upstream
  import opened LinkedQueue

  class Flow {
    const max: nat
    var pending: nat
    var blocked: nat
    var paused: bool
    var readBlocked: bool
    var closing: bool

    function State(): Shared
      reads this
    {
      Shared(pending, blocked, paused, readBlocked, closing)
    }

    constructor (max: nat)
      ensures this.max == max && State() == Shared(0, 0, false, false, false)
    {
      this.max := max;
      pending, blocked, paused, readBlocked, closing := 0, 0, false, false, false;
    }

    /** Take input up again if there is little enough of it. */
    method Resume()
      modifies this`paused, this`readBlocked
      ensures State() == Resumed(max, old(State()))
    {
      if closing || pending > max / 2 || blocked > 0 {
        return;
      }
      paused, readBlocked := false, false;
    }
  }

  /** One buffer of the walk. */
  lemma OfferedNext(fifo: seq<Buf>, i: nat, slots: nat, budget: Budget, size: nat)
    requires i < |fifo| && Sized(fifo) && slots > 0 && size == |fifo[i].data| - fifo[i].sent
    ensures Offered(fifo, i, slots, budget)
         == if budget.AtMost? && budget.n <= size then budget.n
            else size + Offered(fifo, i + 1, if size == 0 then slots else slots - 1, Spent(budget, size))
  {
  }

  /** One write of the loop. */
  lemma WriteTurn(max: nat, p: Pair, left: Budget, script: seq<Write>, i: nat)
    requires Sized(p.s.fifo) && p.s.fifo != [] && left != AtMost(0) && i < |script| && script[i].Wrote?
    ensures var offered := Offered(p.s.fifo, 0, CHAIN_LIMIT, left); var n := Min(script[i].n, offered);
            WriteLoop(max, p, left, script[i..])
            == if n < offered || Spent(left, n) == AtMost(0) then Sending(Settle(max, p, n), false)
               else WriteLoop(max, Settle(max, p, n), Spent(left, n), script[i + 1..])
  {
    assert script[i..][0] == script[i] && script[i..][1..] == script[i + 1..];
  }

  class StreamQueue {
    const flow: Flow
    const fifo: Queue<Buf>
    var bytes: nat
    var status: Status
    var inClosed: bool
    var inputBlocked: bool
    var pendingShutdown: bool
    var eof: bool
    ghost var shutdowns: nat
    ghost var dispatched: Bytes
    ghost var accepted: Bytes
    ghost var written: Bytes

    ghost predicate Valid()
      reads this, fifo, fifo.repr
    {
      fifo.Valid() && Sized(fifo.contents)
    }

    ghost function State(): Pair
      reads this, flow, fifo
    {
      Pair(Stream(fifo.contents, bytes, status, inClosed, inputBlocked, pendingShutdown, eof, shutdowns, dispatched,
                  accepted, written),
           flow.State())
    }

    constructor (flow: Flow)
      ensures this.flow == flow && Valid() && fresh(fifo) && fifo.repr == {}
      ensures State() == Pair(Stream([], 0, Connecting, false, false, false, false, 0, [], [], []), flow.State())
    {
      this.flow := flow;
      fifo := new Queue<Buf>();
      bytes, status, inClosed, inputBlocked := 0, Connecting, false, false;
      pendingShutdown, eof, shutdowns, dispatched, accepted, written := false, false, 0, [], [], [];
    }

    method UpdateInputState()
      requires Valid()
      modifies this`inputBlocked, flow`blocked, flow`paused, flow`readBlocked
      ensures Valid() && State() == UpdateInput(flow.max, old(State()))
    {
      if !inputBlocked || bytes > flow.max / 2 {
        return;
      }
      inputBlocked := false;
      flow.blocked := Minus(flow.blocked, 1);
      flow.Resume();
    }

    /** Unlink the first buffer; its length leaves both counters only now. */
    method ReleaseHead()
      requires Valid() && fifo.contents != []
      modifies this`bytes, flow`pending, fifo, fifo.repr
      ensures Valid() && State() == Release(old(State())) && fifo.repr <= old(fifo.repr)
    {
      var p := fifo.Pop();
      var n := |p.value.data|;
      bytes := Minus(bytes, n);
      flow.pending := Minus(flow.pending, n);
    }

    method AdvanceHead(k: nat)
      requires Valid() && fifo.contents != [] && fifo.contents[0].sent + k <= |fifo.contents[0].data|
      modifies this`written, fifo, fifo.repr
      ensures Valid() && State() == Advance(old(State()), k) && fifo.repr == old(fifo.repr)
    {
      var b := fifo.head.value;
      fifo.ReplaceHead(b.(sent := b.sent + k));
      written := written + b.data[b.sent..b.sent + k];
    }

    /** The first buffer is written to its end. */
    method FinishHead(left: nat)
      requires Valid() && fifo.contents != [] && left == |fifo.contents[0].data| - fifo.contents[0].sent
      modifies this`bytes, this`written, this`inputBlocked, flow`pending, flow`blocked, flow`paused, flow`readBlocked
      modifies fifo, fifo.repr
      ensures Valid() && fifo.repr <= old(fifo.repr) && |fifo.contents| < |old(fifo.contents)|
      ensures State() == UpdateInput(flow.max, Release(Advance(old(State()), left)))
    {
      AdvanceHead(left);
      ReleaseHead();
      UpdateInputState();
    }

    /** Account for `n` written bytes. */
    method SettleBytes(n: nat)
      requires Valid()
      modifies this`bytes, this`written, this`inputBlocked, flow`pending, flow`blocked, flow`paused, flow`readBlocked
      modifies fifo, fifo.repr
      ensures Valid() && fifo.repr <= old(fifo.repr) && State() == Settle(flow.max, old(State()), n)
    {
      var left: nat := n;
      while left > 0 && fifo.head != null
        invariant Valid() && fifo.repr <= old(fifo.repr)
        invariant Settle(flow.max, State(), left) == Settle(flow.max, old(State()), n)
        decreases |fifo.contents|
      {
        var b := fifo.head.value;
        var size := |b.data| - b.sent;
        if left < size {
          AdvanceHead(left);
          return;
        }
        FinishHead(size);
        left := left - size;
      }
    }

    /** Walk the list and build the chain for one write: at most 64 buffers with something left, and
        at most the budget. */
    method BuildChain(budget: Budget) returns (offered: nat)
      requires Valid() && budget != AtMost(0)
      ensures offered == Offered(fifo.contents, 0, CHAIN_LIMIT, budget)
    {
      offered := 0;
      var slots: nat, remaining := CHAIN_LIMIT, budget;
      var p := fifo.head;
      ghost var i: nat := 0;
      ghost var all := fifo.contents;
      while p != null && slots > 0
        invariant i <= |all| && p == At(fifo.nodes, i) && (p == null ==> i == |all|)
        invariant Sized(all)
        invariant offered + Offered(all, i, slots, remaining) == Offered(all, 0, CHAIN_LIMIT, budget)
        decreases |all| - i
      {
        assert p.value == all[i] && p.next == At(fifo.nodes, i + 1);
        var b := p.value;
        var size := |b.data| - b.sent;
        OfferedNext(all, i, slots, remaining, size);
        if remaining.AtMost? && remaining.n <= size {
          offered := offered + remaining.n;
          return;
        }
        offered, remaining := offered + size, Spent(remaining, size);
        slots := if size == 0 then slots else slots - 1;
        p, i := p.next, i + 1;
      }
    }

    /** One write of a chain, of which the socket takes up to `k` bytes. */
    method WriteOnce(budget: Budget, k: nat) returns (n: nat, whole: bool)
      requires Valid() && budget != AtMost(0)
      modifies this`bytes, this`written, this`inputBlocked, flow`pending, flow`blocked, flow`paused, flow`readBlocked
      modifies fifo, fifo.repr
      ensures Valid() && fifo.repr <= old(fifo.repr)
      ensures n == Min(k, Offered(old(fifo.contents), 0, CHAIN_LIMIT, budget))
      ensures whole <==> n == Offered(old(fifo.contents), 0, CHAIN_LIMIT, budget)
      ensures State() == Settle(flow.max, old(State()), n)
    {
      var offered := BuildChain(budget);
      n := Min(k, offered);
      whole := n == offered;
      SettleBytes(n);
    }

    /** Write batch after batch while each is taken whole. */
    method WriteBatches(budget: Budget, script: seq<Write>) returns (failed: bool)
      requires Valid()
      modifies this`bytes, this`written, this`inputBlocked, flow`pending, flow`blocked, flow`paused, flow`readBlocked
      modifies fifo, fifo.repr
      ensures Valid() && fresh(fifo.repr - old(fifo.repr))
              && Sending(State(), failed) == WriteLoop(flow.max, old(State()), budget, script)
    {
      ghost var result := WriteLoop(flow.max, State(), budget, script);
      var i, left := 0, budget;
      while fifo.head != null && left != AtMost(0) && i < |script|
        invariant i <= |script| && Valid() && fresh(fifo.repr - old(fifo.repr))
        invariant WriteLoop(flow.max, State(), left, script[i..]) == result
        decreases |script| - i
      {
        if script[i].WriteError? {
          assert script[i..][0] == script[i];
          return true;
        }
        WriteTurn(flow.max, State(), left, script, i);
        var n, whole := WriteOnce(left, script[i].n);
        if !whole || Spent(left, n) == AtMost(0) {
          return false;
        }
        i, left := i + 1, Spent(left, n);
      }
      return false;
    }

    /** Write what is queued; when all of it is through, do the half-close that waited for it. */
    method SendPending(budget: Budget, script: seq<Write>) returns (failed: bool)
      requires Valid()
      modifies this`bytes, this`written, this`inputBlocked, this`pendingShutdown, this`shutdowns
      modifies flow`pending, flow`blocked, flow`paused, flow`readBlocked, fifo, fifo.repr
      ensures Valid() && fresh(fifo.repr - old(fifo.repr))
              && Sending(State(), failed) == Upstream.SendPending(flow.max, old(State()), budget, script)
    {
      if eof || status !in {Connected, HalfClosed} {
        return false;
      }
      failed := WriteBatches(budget, script);
      if failed || fifo.head != null {
        return;
      }
      if pendingShutdown {
        pendingShutdown := false;
        shutdowns := shutdowns + 1;
      }
      flow.Resume();
    }

    method Link(data: Bytes)
      requires Valid()
      modifies fifo, fifo.repr
      ensures Valid() && fresh(fifo.repr - old(fifo.repr)) && fifo.contents == old(fifo.contents) + [Buf(data, 0)]
    {
      var p := new Node(Buf(data, 0));
      fifo.Append(p);
    }

    /** Too much of this stream's payload is queued, or too much of all streams'. */
    method ThrottleInput()
      requires Valid()
      modifies this`inputBlocked, flow`blocked, flow`paused, flow`readBlocked
      ensures Valid() && State() == Throttle(flow.max, old(State()))
    {
      if bytes > flow.max {
        if !inputBlocked {
          inputBlocked := true;
          flow.blocked := flow.blocked + 1;
        }
        flow.paused, flow.readBlocked := true, true;
      } else if flow.pending > flow.max {
        flow.paused, flow.readBlocked := true, true;
      }
    }

    /** Link a buffer behind what is queued, and stop input when there is too much of it. */
    method Append(data: Bytes)
      requires Valid()
      modifies this`bytes, this`inputBlocked, flow`pending, flow`blocked, flow`paused, flow`readBlocked, fifo, fifo.repr
      ensures Valid() && fresh(fifo.repr - old(fifo.repr)) && State() == Enqueue(flow.max, old(State()), data)
    {
      Link(data);
      bytes := bytes + |data|;
      flow.pending := flow.pending + |data|;
      assert State() == Linked(old(State()), data);
      ThrottleInput();
    }

    /** Try the socket first. */
    method SendNow(data: Bytes, script: seq<Write>) returns (rest: Bytes, failed: bool)
      ensures Direct(rest, failed) == SendDirect(data, script)
    {
      rest := data;
      var i := 0;
      while rest != [] && i < |script|
        invariant i <= |script| && SendDirect(rest, script[i..]) == SendDirect(data, script)
      {
        assert script[i..][0] == script[i] && script[i..][1..] == script[i + 1..];
        if script[i].WriteError? || script[i].n == 0 {
          return rest, true;
        }
        rest := rest[Min(script[i].n, |rest|)..];
        i := i + 1;
      }
      return rest, false;
    }

    method TakeRemainder(data: Bytes, direct: seq<Write>) returns (failed: bool)
      requires Valid()
      modifies this`bytes, this`accepted, this`written, this`inputBlocked
      modifies flow`pending, flow`blocked, flow`paused, flow`readBlocked, fifo, fifo.repr
      ensures Valid() && fresh(fifo.repr - old(fifo.repr))
              && Sending(State(), failed) == Remainder(flow.max, old(State()), data, direct)
    {
      if fifo.head != null {
        accepted := accepted + data;
        Append(data);
        return false;
      }
      failed := TakeDirect(data, direct);
    }

    method TakeDirect(data: Bytes, direct: seq<Write>) returns (failed: bool)
      requires Valid() && fifo.contents == []
      modifies this`bytes, this`accepted, this`written, this`inputBlocked
      modifies flow`pending, flow`blocked, flow`paused, flow`readBlocked, fifo, fifo.repr
      ensures Valid() && fresh(fifo.repr - old(fifo.repr))
              && Sending(State(), failed) == Remainder(flow.max, old(State()), data, direct)
    {
      var rest;
      rest, failed := SendNow(data, direct);
      ghost var sent := data[..|data| - Min(|rest|, |data|)];
      accepted := accepted + if failed then sent else data;
      written := written + sent;
      if !failed && rest != [] {
        Append(rest);
      }
    }

    /** Payload of one frame. */
    method QueuePayload(data: Bytes, ready: bool, flush: seq<Write>, direct: seq<Write>) returns (failed: bool)
      requires Valid()
      modifies this, flow`pending, flow`blocked, flow`paused, flow`readBlocked, fifo, fifo.repr
      ensures Valid() && fresh(fifo.repr - old(fifo.repr))
              && Sending(State(), failed) == Upstream.Queue(flow.max, old(State()), data, ready, flush, direct)
    {
      if data == [] {
        return false;
      }
      if !eof && status.Connected? {
        failed := FlushAndTake(data, ready, flush, direct);
      } else {
        dispatched, accepted := dispatched + data, accepted + data;
        Append(data);
        failed := false;
      }
    }

    method FlushBacklog(ready: bool, flush: seq<Write>) returns (failed: bool)
      requires Valid()
      modifies this`bytes, this`written, this`inputBlocked, this`pendingShutdown, this`shutdowns
      modifies flow`pending, flow`blocked, flow`paused, flow`readBlocked, fifo, fifo.repr
      ensures Valid() && fresh(fifo.repr - old(fifo.repr))
      ensures Sending(State(), failed) == Flushed(flow.max, old(State()), ready, flush)
    {
      failed := false;
      if fifo.head != null && ready {
        failed := SendPending(Unlimited, flush);
      }
    }

    /** A backlog goes first when the socket is writable. */
    method FlushAndTake(data: Bytes, ready: bool, flush: seq<Write>, direct: seq<Write>) returns (failed: bool)
      requires Valid() && status.Connected? && !eof && data != []
      modifies this, flow`pending, flow`blocked, flow`paused, flow`readBlocked, fifo, fifo.repr
      ensures Valid() && fresh(fifo.repr - old(fifo.repr))
      ensures Sending(State(), failed) == Upstream.Queue(flow.max, old(State()), data, ready, flush, direct)
    {
      dispatched := dispatched + data;
      failed := FlushBacklog(ready, flush);
      if failed {
        return;
      }
      failed := TakeRemainder(data, direct);
    }

    /** Give up what is queued. */
    method DiscardPending()
      requires Valid()
      modifies this`bytes, this`inputBlocked, flow`pending, flow`blocked, flow`paused, flow`readBlocked, fifo, fifo.repr
      ensures Valid() && fifo.repr <= old(fifo.repr) && State() == Discard(flow.max, old(State()))
    {
      fifo.Clear();
      flow.pending := Minus(flow.pending, bytes);
      bytes := 0;
      if inputBlocked {
        inputBlocked := false;
        flow.blocked := Minus(flow.blocked, 1);
      }
      flow.Resume();
    }

    method CloseStream()
      requires Valid()
      modifies this, flow`pending, flow`blocked, flow`paused, flow`readBlocked, fifo, fifo.repr
      ensures Valid() && fresh(fifo.repr - old(fifo.repr)) && State() == Close(flow.max, old(State()))
    {
      if status.Gone? {
        return;
      }
      status, inClosed := Gone, true;
      DiscardPending();
    }

    /** The client's FIN. */
    method OnClientFin(script: seq<Write>)
      requires Valid()
      modifies this, flow`pending, flow`blocked, flow`paused, flow`readBlocked, fifo, fifo.repr
      ensures Valid() && fresh(fifo.repr - old(fifo.repr)) && State() == ClientFin(flow.max, old(State()), script)
    {
      inClosed := true;
      if !eof && status.Connected? {
        HalfClose(script);
      } else {
        CloseStream();
      }
    }

    method HalfClose(script: seq<Write>)
      requires Valid() && status.Connected? && !eof && inClosed
      modifies this, flow`pending, flow`blocked, flow`paused, flow`readBlocked, fifo, fifo.repr
      ensures Valid() && fresh(fifo.repr - old(fifo.repr)) && State() == ClientFin(flow.max, old(State()), script)
    {
      var failed := SendPending(Unlimited, script);
      Conclude(failed);
    }

    method Conclude(failed: bool)
      requires Valid()
      modifies this, flow`pending, flow`blocked, flow`paused, flow`readBlocked, fifo, fifo.repr
      ensures Valid() && fresh(fifo.repr - old(fifo.repr))
      ensures State() == AfterFin(flow.max, Sending(old(State()), failed))
    {
      if failed {
        CloseStream();
      } else if fifo.head == null {
        status, shutdowns := HalfClosed, shutdowns + 1;
      } else {
        status, pendingShutdown := HalfClosed, true;
      }
    }
  }
}
