/**
  Client payload on its way upstream: one FIFO per stream, written in batches, and the flow control
  that pauses the whole client connection. Resuming input is modelled by its effect on the flag;
  the frames a resume dispatches are later steps of a run.
  */
module Upstream {
  import opened Bytes
  import opened Protocol

  const CHAIN_LIMIT: nat := 64

  datatype Buf = Buf(data: Bytes, sent: nat)

  datatype Status = Connecting | Connected | HalfClosed | Gone

  /** `eof`: the upstream has closed and the stream is kept without a socket, because its FIN was
      refused. `dispatched`, `accepted` and `written` are histories: the payload of the frames handled
      for this stream, what was taken of it, and the bytes its socket took. `shutdowns` counts write
      shutdowns of the socket. */
  datatype Stream = Stream(
    fifo: seq<Buf>, bytes: nat, status: Status, inClosed: bool, blocked: bool,
    pendingShutdown: bool, eof: bool, shutdowns: nat, dispatched: Bytes, accepted: Bytes, written: Bytes)

  /** What the streams of a connection share; `readBlocked` keeps the client's socket from being read. */
  datatype Shared = Shared(pending: nat, blocked: nat, paused: bool, readBlocked: bool, closing: bool)

  datatype Pair = Pair(s: Stream, c: Shared)

  datatype Budget = Unlimited | AtMost(n: nat)

  datatype Write = Wrote(n: nat) | WriteError

  // ----- Flow control -----

  /** Input is taken up again below half the limit, once no stream is blocked. (If a frame it then
      handles is refused, reading stays blocked after all.) */
  function Resumed(max: nat, c: Shared): Shared {
    if c.closing || c.pending > max / 2 || c.blocked > 0 then c else c.(paused := false, readBlocked := false)
  }

  function UpdateInput(max: nat, p: Pair): Pair {
    if !p.s.blocked || p.s.bytes > max / 2 then p
    else Pair(p.s.(blocked := false), Resumed(max, p.c.(blocked := Minus(p.c.blocked, 1))))
  }

  /** The first buffer of the FIFO has been written. */
  function Release(p: Pair): Pair
    requires p.s.fifo != []
  {
    var n := |p.s.fifo[0].data|;
    Pair(p.s.(fifo := p.s.fifo[1..], bytes := Minus(p.s.bytes, n)), p.c.(pending := Minus(p.c.pending, n)))
  }

  function Discard(max: nat, p: Pair): Pair {
    var c := p.c.(pending := Minus(p.c.pending, p.s.bytes),
                  blocked := if p.s.blocked then Minus(p.c.blocked, 1) else p.c.blocked);
    Pair(p.s.(fifo := [], bytes := 0, blocked := false), Resumed(max, c))
  }

  function Close(max: nat, p: Pair): Pair {
    if p.s.status.Gone? then p else Discard(max, Pair(p.s.(status := Gone, inClosed := true), p.c))
  }

  // ----- Writing -----

  /** Bytes offered to the socket from the i-th buffer on: so many buffers and no more than the budget. */
  function Offered(fifo: seq<Buf>, i: nat, slots: nat, budget: Budget): nat
    requires Sized(fifo)
    decreases |fifo| - i
  {
    if i >= |fifo| || slots == 0 then 0
    else
      var size := |fifo[i].data| - fifo[i].sent;
      if budget.AtMost? && budget.n <= size then budget.n
      else size + Offered(fifo, i + 1, slots - (if size == 0 then 0 else 1), Spent(budget, size))
  }

  function Spent(budget: Budget, n: nat): Budget {
    if budget.Unlimited? then budget else AtMost(Minus(budget.n, n))
  }

  function Advance(p: Pair, k: nat): Pair
    requires p.s.fifo != [] && p.s.fifo[0].sent + k <= |p.s.fifo[0].data|
  {
    var b := p.s.fifo[0];
    p.(s := p.s.(fifo := [b.(sent := b.sent + k)] + p.s.fifo[1..], written := p.s.written + b.data[b.sent..b.sent + k]))
  }

  predicate Sized(fifo: seq<Buf>) {
    forall i :: 0 <= i < |fifo| ==> fifo[i].sent <= |fifo[i].data|
  }

  /** Account for `n` written bytes, buffer by buffer. */
  function Settle(max: nat, p: Pair, n: nat): (q: Pair)
    requires Sized(p.s.fifo)
    ensures Sized(q.s.fifo)
    decreases |p.s.fifo|
  {
    if n == 0 || p.s.fifo == [] then p
    else
      var left := |p.s.fifo[0].data| - p.s.fifo[0].sent;
      if n < left then Advance(p, n)
      else Settle(max, UpdateInput(max, Release(Advance(p, left))), n - left)
  }

  datatype Sending = Sending(p: Pair, failed: bool)

  function WriteLoop(max: nat, p: Pair, budget: Budget, script: seq<Write>): (r: Sending)
    requires Sized(p.s.fifo)
    ensures Sized(r.p.s.fifo)
    decreases |script|
  {
    if p.s.fifo == [] || budget == AtMost(0) || script == [] then Sending(p, false)
    else if script[0].WriteError? then Sending(p, true)
    else
      var offered := Offered(p.s.fifo, 0, CHAIN_LIMIT, budget);
      var n := Min(script[0].n, offered);
      var q := Settle(max, p, n);
      if n < offered || Spent(budget, n) == AtMost(0) then Sending(q, false)
      else WriteLoop(max, q, Spent(budget, n), script[1..])
  }

  /** When everything is written a deferred half-close is due, and input may be resumed. */
  function AfterWriting(max: nat, p: Pair): Pair {
    if p.s.fifo != [] then p
    else
      var s := if p.s.pendingShutdown then p.s.(pendingShutdown := false, shutdowns := p.s.shutdowns + 1) else p.s;
      Pair(s, Resumed(max, p.c))
  }

  function SendPending(max: nat, p: Pair, budget: Budget, script: seq<Write>): Sending
    requires Sized(p.s.fifo)
  {
    if p.s.eof || p.s.status !in {Connected, HalfClosed} then Sending(p, false)
    else
      var r := WriteLoop(max, p, budget, script);
      if r.failed then r else Sending(AfterWriting(max, r.p), false)
  }

  // ----- Payload -----

  datatype Direct = Direct(rest: Bytes, failed: bool)

  /** Payload for a stream without a backlog goes to the socket at once. */
  function SendDirect(data: Bytes, script: seq<Write>): Direct
    decreases |script|
  {
    if data == [] || script == [] then Direct(data, false)
    else if script[0].WriteError? || script[0].n == 0 then Direct(data, true)
    else SendDirect(data[Min(script[0].n, |data|)..], script[1..])
  }

  /** Queue payload behind what is queued. */
  function Linked(p: Pair, data: Bytes): Pair {
    Pair(p.s.(fifo := p.s.fifo + [Buf(data, 0)], bytes := p.s.bytes + |data|), p.c.(pending := p.c.pending + |data|))
  }

  function Paused(c: Shared): Shared {
    c.(paused := true, readBlocked := true)
  }

  /** Stop input when there is too much of it. */
  function Throttle(max: nat, p: Pair): Pair {
    if p.s.bytes > max then
      Pair(p.s.(blocked := true),
           Paused(p.c.(blocked := if p.s.blocked then p.c.blocked else p.c.blocked + 1)))
    else if p.c.pending > max then p.(c := Paused(p.c))
    else p
  }

  function Enqueue(max: nat, p: Pair, data: Bytes): Pair {
    Throttle(max, Linked(p, data))
  }

  function Accept(p: Pair, data: Bytes): Pair {
    p.(s := p.s.(accepted := p.s.accepted + data))
  }

  function Written(p: Pair, data: Bytes): Pair {
    p.(s := p.s.(written := p.s.written + data))
  }

  /** What the socket does not take at once is queued; if it fails, that is lost. */
  function Remainder(max: nat, p: Pair, data: Bytes, script: seq<Write>): Sending {
    if p.s.fifo != [] then Sending(Enqueue(max, Accept(p, data), data), false)
    else
      var d := SendDirect(data, script);
      var sent := data[..|data| - Min(|d.rest|, |data|)];
      if d.failed then Sending(Written(Accept(p, sent), sent), true)
      else if d.rest == [] then Sending(Written(Accept(p, data), sent), false)
      else Sending(Enqueue(max, Written(Accept(p, data), sent), d.rest), false)
  }

  function Handed(p: Pair, data: Bytes): Pair {
    p.(s := p.s.(dispatched := p.s.dispatched + data))
  }

  /** The backlog, if the socket is writable. */
  function Flushed(max: nat, p: Pair, ready: bool, flush: seq<Write>): Sending
    requires Sized(p.s.fifo)
  {
    if p.s.fifo != [] && ready then SendPending(max, p, Unlimited, flush) else Sending(p, false)
  }

  /** A backlog is flushed first when the socket is writable, so that nothing overtakes it. */
  function Queue(max: nat, p: Pair, data: Bytes, ready: bool, flush: seq<Write>, direct: seq<Write>): Sending
    requires Sized(p.s.fifo)
  {
    if data == [] then Sending(p, false)
    else if p.s.eof || !p.s.status.Connected? then Sending(Enqueue(max, Accept(Handed(p, data), data), data), false)
    else
      var r := Flushed(max, Handed(p, data), ready, flush);
      if r.failed then r else Remainder(max, r.p, data, direct)
  }

  /** The upstream closes and there is no place for the FIN: the stream stays, without a socket. */
  function Lost(p: Pair): Pair {
    if p.s.status in {Connected, HalfClosed} then p.(s := p.s.(eof := true, inClosed := true)) else p
  }

  /** The client's FIN: half-close now, or when the backlog is through, or give up. */
  function ClientFin(max: nat, p: Pair, script: seq<Write>): Pair
    requires Sized(p.s.fifo)
  {
    var q := p.(s := p.s.(inClosed := true));
    if q.s.eof || !q.s.status.Connected? then Close(max, q)
    else
      AfterFin(max, SendPending(max, q, Unlimited, script))
  }

  function AfterFin(max: nat, r: Sending): Pair {
    if r.failed then Close(max, r.p)
    else if r.p.s.fifo == [] then r.p.(s := r.p.s.(status := HalfClosed, shutdowns := r.p.s.shutdowns + 1))
    else r.p.(s := r.p.s.(status := HalfClosed, pendingShutdown := true))
  }
}
