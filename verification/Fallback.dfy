/**
  The transparent fallback: what the client sent before it was turned away is replayed to the
  fallback server behind an optional PROXY header, then both directions are relayed.
  */
module Fallback {
  import opened Bytes
  import opened StreamDecoder
  import opened Auth
  import opened ClientInput

  const BUDGET_BYTES: nat := 1024 * 1024
  const BUDGET_LOOPS: nat := 16

  /** What a send of some bytes comes to. */
  datatype Sent = Accept(n: nat) | WouldBlock | Broken

  datatype Flush = Flushed | Again | Failed

  /** `out` went to the socket, `rest` is still to be sent. */
  datatype Flushing = Flushing(flush: Flush, out: Bytes, rest: Bytes)

  function FlushBytes(pending: Bytes, script: seq<Sent>, budget: nat): Flushing
    decreases |script|
  {
    if pending == [] then Flushing(Flushed, [], [])
    else if script == [] || script[0].WouldBlock? then Flushing(Again, [], pending)
    else if script[0].Broken? || script[0].n == 0 then Flushing(Failed, [], pending)
    else
      var k := Min(script[0].n, Min(|pending|, budget));
      if k == budget && k < |pending| then Flushing(Again, pending[..k], pending[k..])
      else
        var later := FlushBytes(pending[k..], script[1..], budget - k);
        later.(out := pending[..k] + later.out)
  }

  lemma Regroup(a: Bytes, b: Bytes, c: Bytes)
    ensures a + (b + c) == a + b + c
  {
  }

  lemma {:induction false} FlushKeepsBytes(pending: Bytes, script: seq<Sent>, budget: nat)
    ensures var f := FlushBytes(pending, script, budget);
            && pending == f.out + f.rest && |f.out| <= budget
            && (f.flush.Flushed? <==> f.rest == [])
    decreases |script|
  {
    if pending != [] && script != [] && script[0].Accept? && script[0].n > 0 {
      var k := Min(script[0].n, Min(|pending|, budget));
      if !(k == budget && k < |pending|) {
        FlushKeepsBytes(pending[k..], script[1..], budget - k);
        var later := FlushBytes(pending[k..], script[1..], budget - k);
        assert FlushBytes(pending, script, budget) == later.(out := pending[..k] + later.out);
        Regroup(pending[..k], later.out, later.rest);
        assert pending == pending[..k] + pending[k..];
      }
    }
  }

  /** One direction of the relay. `taken` is everything it took in, from the replay on. */
  datatype Side = Side(replaying: bool, replay: Bytes, pending: Bytes, delivered: Bytes, taken: Bytes, failed: bool)

  datatype Chunk = Chunk(data: Bytes, script: seq<Sent>)

  datatype Event = Writable(first: seq<Sent>, second: seq<Sent>) | Readable(flush: seq<Sent>, chunks: seq<Chunk>)

  function FlushReplay(s: Side, script: seq<Sent>): Side {
    var f := FlushBytes(s.replay, script, BUDGET_BYTES);
    s.(replaying := !f.flush.Flushed?, replay := f.rest, delivered := s.delivered + f.out, failed := f.flush.Failed?)
  }

  function FlushPending(s: Side, script: seq<Sent>): Side {
    var f := FlushBytes(s.pending, script, BUDGET_BYTES);
    s.(pending := f.rest, delivered := s.delivered + f.out, failed := f.flush.Failed?)
  }

  /** The replay goes first, and the relay's own buffer only when the replay is through. */
  function OnWritable(s: Side, first: seq<Sent>, second: seq<Sent>): Side {
    var r := if s.replaying then FlushReplay(s, first) else s;
    if r.replaying then r else FlushPending(r, second)
  }

  function Take(s: Side, data: Bytes): Side {
    s.(pending := s.pending + data, taken := s.taken + data)
  }

  /** Read, send, read again, while everything read was sent and the budget lasts. */
  function ReadLoop(s: Side, chunks: seq<Chunk>, loops: nat, bytes: nat): Side
    decreases |chunks|
  {
    if chunks == [] then s
    else
      var r := FlushPending(Take(s, chunks[0].data), chunks[0].script);
      var n := |chunks[0].data|;
      if r.pending != [] || bytes + n >= BUDGET_BYTES || loops + 1 >= BUDGET_LOOPS then r
      else ReadLoop(r, chunks[1..], loops + 1, bytes + n)
  }

  function OnReadable(s: Side, flush: seq<Sent>, chunks: seq<Chunk>): Side {
    if s.replaying then s
    else if s.pending != [] then FlushPending(s, flush)
    else ReadLoop(s, chunks, 0, 0)
  }

  function Step(s: Side, e: Event): Side {
    if s.failed then s
    else
      match e
      case Writable(first, second) => OnWritable(s, first, second)
      case Readable(flush, chunks) => OnReadable(s, flush, chunks)
  }

  function Run(s: Side, es: seq<Event>): Side
    decreases |es|
  {
    if es == [] then s else Run(Step(s, es[0]), es[1..])
  }

  /** Every byte taken in is delivered, in the replay, or in the buffer, in this order. */
  ghost predicate Conserved(s: Side) {
    && s.taken == s.delivered + s.replay + s.pending
    && (s.replaying ==> s.pending == [])
    && (!s.replaying ==> s.replay == [])
  }

  lemma FlushPendingConserves(s: Side, script: seq<Sent>)
    requires Conserved(s) && !s.replaying
    ensures Conserved(FlushPending(s, script))
  {
    FlushKeepsBytes(s.pending, script, BUDGET_BYTES);
    var f := FlushBytes(s.pending, script, BUDGET_BYTES);
    Regroup(s.delivered, f.out, f.rest);
    assert s.delivered + s.replay == s.delivered;
    assert s.delivered + f.out + s.replay == s.delivered + f.out;
  }

  lemma FlushReplayConserves(s: Side, script: seq<Sent>)
    requires Conserved(s) && s.replaying
    ensures Conserved(FlushReplay(s, script))
  {
    FlushKeepsBytes(s.replay, script, BUDGET_BYTES);
    var f := FlushBytes(s.replay, script, BUDGET_BYTES);
    Regroup(s.delivered, f.out, f.rest);
  }

  lemma TakeConserves(s: Side, data: Bytes)
    requires Conserved(s) && !s.replaying
    ensures Conserved(Take(s, data))
  {
    assert s.delivered + s.replay + s.pending + data == s.delivered + s.replay + (s.pending + data);
  }

  lemma {:induction false} ReadLoopConserves(s: Side, chunks: seq<Chunk>, loops: nat, bytes: nat)
    requires Conserved(s) && !s.replaying
    ensures Conserved(ReadLoop(s, chunks, loops, bytes))
    decreases |chunks|
  {
    if chunks != [] {
      TakeConserves(s, chunks[0].data);
      FlushPendingConserves(Take(s, chunks[0].data), chunks[0].script);
      var r := FlushPending(Take(s, chunks[0].data), chunks[0].script);
      ReadLoopConserves(r, chunks[1..], loops + 1, bytes + |chunks[0].data|);
    }
  }

  /** Whatever the sockets do, in every run the bytes delivered are a prefix of those taken in. */
  lemma {:induction false} RunConserves(s: Side, es: seq<Event>)
    requires Conserved(s)
    ensures Conserved(Run(s, es)) && IsPrefix(Run(s, es).delivered, Run(s, es).taken)
    decreases |es|
  {
    if es != [] {
      if !s.failed {
        match es[0]
        case Writable(first, second) =>
          var r := if s.replaying then FlushReplay(s, first) else s;
          if s.replaying {
            FlushReplayConserves(s, first);
          }
          if !r.replaying {
            FlushPendingConserves(r, second);
          }
        case Readable(flush, chunks) =>
          if !s.replaying {
            FlushPendingConserves(s, flush);
            ReadLoopConserves(s, chunks, 0, 0);
          }
      }
      RunConserves(Step(s, es[0]), es[1..]);
    }
  }

  /** Toward the server the relay starts with the PROXY header and what authentication kept. */
  function Start(header: Bytes, held: Bytes): Side {
    Side(true, header + held, [], [], header + held, false)
  }

  function StartDown(): Side {
    Side(false, [], [], [], [], false)
  }

  /** What was taken in after the start. */
  lemma {:induction false} TakenExtends(s: Side, es: seq<Event>)
    ensures IsPrefix(s.taken, Run(s, es).taken)
    decreases |es|
  {
    if es != [] {
      if !s.failed && es[0].Readable? {
        ReadLoopExtends(s, es[0].chunks, 0, 0);
      }
      TakenExtends(Step(s, es[0]), es[1..]);
    }
  }

  lemma {:induction false} ReadLoopExtends(s: Side, chunks: seq<Chunk>, loops: nat, bytes: nat)
    ensures IsPrefix(s.taken, ReadLoop(s, chunks, loops, bytes).taken)
    decreases |chunks|
  {
    if chunks != [] {
      var r := FlushPending(Take(s, chunks[0].data), chunks[0].script);
      ReadLoopExtends(r, chunks[1..], loops + 1, bytes + |chunks[0].data|);
    }
  }

  /** All reads of the run are at most `readSize` bytes long. */
  predicate Bounded(es: seq<ClientInput.Event>, readSize: nat) {
    forall i :: 0 <= i < |es| && es[i].Received? ==> |es[i].chunk| <= readSize
  }

  /** The client was turned away and nothing it sent was dropped on the way to the replay. */
  ghost predicate NoLoss(s: Input) {
    s.phase.FallenBack? ==> s.held == s.received
  }

  lemma MatchedStaysMatched(users: seq<User>, held: Bytes, chunk: Bytes)
    requires ParseAuth(users, held).More?
    ensures PREFIX_LEN <= |held| ==> !ParseAuth(users, held + chunk).Bad?
  {
    if PREFIX_LEN <= |held| {
      assert (held + chunk)[..HASH_LEN] == held[..HASH_LEN];
    }
  }

  /** Bytes are dropped exactly when a read overruns the authentication buffer. */
  lemma DroppedIff(users: seq<User>, outcome: nat -> Outcome, s: Input, chunk: Bytes)
    requires Faithful(users, s) && s.phase.Authenticating?
    requires ClientInput.Step(users, outcome, s, Received(chunk)).phase.FallenBack?
    ensures NoLoss(ClientInput.Step(users, outcome, s, Received(chunk))) <==> |s.held| + |chunk| <= AUTH_BUF_SIZE
    ensures |s.held| < PREFIX_LEN
  {
    var all := s.held + chunk;
    MatchedStaysMatched(users, s.held, chunk);
    assert |all| <= AUTH_BUF_SIZE ==> all[..|all|] == all;
  }

  /** Every hash is some user's: nobody is turned away. */
  ghost predicate Everybody(users: seq<User>) {
    forall hash: Bytes :: |hash| == HASH_LEN ==> FirstUser(users, hash).Somebody?
  }

  lemma TurnedAwayIsNobody(users: seq<User>, outcome: nat -> Outcome, s: Input, chunk: Bytes)
    requires s.phase.Authenticating? && ClientInput.Step(users, outcome, s, Received(chunk)).phase.FallenBack?
    ensures !Everybody(users)
  {
    var hash := (s.held + chunk)[..HASH_LEN];
    assert FirstUser(users, hash).Nobody?;
  }

  lemma {:induction false} BoundedRunsLoseNothing(users: seq<User>, outcome: nat -> Outcome, s: Input,
                                                  es: seq<ClientInput.Event>, readSize: nat)
    requires s.phase.Authenticating? ==> Faithful(users, s)
    requires NoLoss(s) && Bounded(es, readSize) && (readSize <= 65536 || Everybody(users))
    ensures NoLoss(ClientInput.Run(users, outcome, s, es))
    decreases |es|
  {
    if es != [] {
      var r := ClientInput.Step(users, outcome, s, es[0]);
      if s.phase.Authenticating? && es[0].Received? {
        GrantedIsFaithful(users, outcome, s, es[0].chunk);
        if r.phase.FallenBack? {
          TurnedAwayIsNobody(users, outcome, s, es[0].chunk);
          DroppedIff(users, outcome, s, es[0].chunk);
        }
      }
      BoundedRunsLoseNothing(users, outcome, r, es[1..], readSize);
    }
  }

  ghost predicate Lossless(users: seq<User>, readSize: nat) {
    forall outcome, es :: Bounded(es, readSize) ==> NoLoss(ClientInput.Run(users, outcome, Initial(), es))
  }

  /** A hash that is nobody's and one more byte, then a read of 65537: its last byte is not replayed. */
  lemma LargeReadLoses(users: seq<User>, hash: Bytes, readSize: nat)
    requires |hash| == HASH_LEN && FirstUser(users, hash).Nobody? && readSize > 65536
    ensures !Lossless(users, readSize)
  {
    var a, b := hash + [0], Zeros(65537);
    var outcome: nat -> Outcome := _ => Continue;
    var s1 := ClientInput.Step(users, outcome, Initial(), Received(a));
    var s2 := ClientInput.Step(users, outcome, s1, Received(b));
    assert s1 == Initial().(received := a, held := a) by {
      assert [] + a == a;
    }
    assert |s2.received| == 65570 && s2.phase.FallenBack? && |s2.held| <= AUTH_BUF_SIZE by {
      assert (a + b)[..HASH_LEN] == hash;
    }
    var es := [Received(a), Received(b)];
    assert es[1..] == [Received(b)] && [Received(b)][1..] == [];
    assert ClientInput.Run(users, outcome, Initial(), es) == s2 by {
      assert ClientInput.Run(users, outcome, s1, [Received(b)]) == s2;
    }
    assert Bounded(es, readSize);
  }

  /** The fallback is lossless for every client exactly when no read exceeds 65536 bytes, or nobody is
      ever turned away. */
  lemma LosslessIff(users: seq<User>, readSize: nat)
    ensures Lossless(users, readSize) <==> readSize <= 65536 || Everybody(users)
  {
    if readSize <= 65536 || Everybody(users) {
      forall outcome, es | Bounded(es, readSize) ensures NoLoss(ClientInput.Run(users, outcome, Initial(), es)) {
        BoundedRunsLoseNothing(users, outcome, Initial(), es, readSize);
      }
    } else {
      var hash: Bytes :| |hash| == HASH_LEN && !FirstUser(users, hash).Somebody?;
      LargeReadLoses(users, hash, readSize);
    }
  }

  /** Transparency over a whole connection: what has reached the fallback server is a prefix of the
      header followed by every byte the client sent since it connected, those of the handshake
      included; nothing is missing between what was delivered and what is on its way. */
  lemma Transparent(users: seq<User>, outcome: nat -> Outcome, es: seq<ClientInput.Event>, bufferSize: nat,
                    header: Bytes, relay: seq<Event>)
    requires bufferSize <= 65536 && Bounded(es, Min(bufferSize, 65542))
    requires ClientInput.Run(users, outcome, Initial(), es).phase.FallenBack?
    ensures var start := ClientInput.Run(users, outcome, Initial(), es);
            var s := Run(Start(header, start.held), relay);
            && IsPrefix(header + start.received, s.taken)
            && s.taken == s.delivered + s.replay + s.pending
            && IsPrefix(s.delivered, s.taken)
  {
    var start := ClientInput.Run(users, outcome, Initial(), es);
    BoundedRunsLoseNothing(users, outcome, Initial(), es, bufferSize);
    var first := Start(header, start.held);
    assert first.taken == first.delivered + first.replay + first.pending;
    RunConserves(first, relay);
    TakenExtends(first, relay);
  }

  /** The way back has no replay; all the client gets is a prefix of what the server sent. */
  lemma TransparentBack(relay: seq<Event>)
    ensures var s := Run(StartDown(), relay);
            s.taken == s.delivered + s.replay + s.pending && IsPrefix(s.delivered, s.taken)
  {
    RunConserves(StartDown(), relay);
  }

  class TempBuf {
    const data: array<byte>
    var pos: nat
    var last: nat

    /** An empty buffer is always rewound, so that a read always finds all its room. */
    ghost predicate Valid()
      reads this
    {
      pos <= last <= data.Length && (pos == last ==> last == 0)
    }

    ghost function Pending(): Bytes
      requires pos <= last <= data.Length
      reads this, data
    {
      data[pos..last]
    }

    constructor (size: nat)
      ensures Valid() && fresh(data) && data.Length == size && Pending() == []
    {
      data := new byte[size](_ => 0);
      pos, last := 0, 0;
    }

    method Append(chunk: Bytes)
      requires Valid() && last + |chunk| <= data.Length && 0 < |chunk|
      modifies this`last, data
      ensures Valid() && Pending() == old(Pending()) + chunk && last == old(last) + |chunk|
    {
      ghost var before := Pending();
      var at := last;
      for k := 0 to |chunk|
        invariant last == at && data[pos..at + k] == before + chunk[..k]
      {
        data[at + k] := chunk[k];
        assert data[pos..at + k + 1] == data[pos..at + k] + [chunk[k]];
        assert chunk[..k + 1] == chunk[..k] + [chunk[k]];
      }
      last := at + |chunk|;
    }

    /** The socket took `k` bytes. */
    method Advance(k: nat) returns (sent: Bytes)
      requires pos <= last <= data.Length && k <= last - pos
      modifies this`pos
      ensures pos == old(pos) + k && sent == old(Pending())[..k] && Pending() == old(Pending())[k..]
    {
      sent := data[pos..pos + k];
      pos := pos + k;
    }

    /** One send of the loop. */
    method SendOnce(ghost out: Bytes, ghost script: seq<Sent>, ghost i: nat, left: nat, k: nat) returns (sent: Bytes)
      requires pos < last <= data.Length && i < |script| && script[i].Accept? && script[i].n > 0
      requires k == Min(script[i].n, Min(last - pos, left))
      modifies this`pos
      ensures pos == old(pos) + k <= last
      ensures Prefixed(out, FlushBytes(old(Pending()), script[i..], left))
           == if k == left && pos < last then Flushing(Again, out + sent, Pending())
              else Prefixed(out + sent, FlushBytes(Pending(), script[i + 1..], left - k))
    {
      NextSend(out, Pending(), script, i, left);
      sent := Advance(k);
    }

    /** Send until the buffer is empty, the socket is full, or the budget is used up. */
    method FlushTo(script: seq<Sent>, budget: nat) returns (flush: Flush, out: Bytes)
      requires Valid()
      modifies this`pos, this`last
      ensures Valid() && Flushing(flush, out, Pending()) == FlushBytes(old(Pending()), script, budget)
    {
      out := [];
      ghost var result := FlushBytes(Pending(), script, budget);
      var i, left := 0, budget;
      while pos < last
        invariant pos <= last <= data.Length && i <= |script|
        invariant Prefixed(out, FlushBytes(Pending(), script[i..], left)) == result
        decreases |script| - i
      {
        assert i < |script| ==> script[i..][0] == script[i];
        if i == |script| || script[i].WouldBlock? {
          return Again, out;
        }
        if script[i].Broken? || script[i].n == 0 {
          return Failed, out;
        }
        var k := Min(script[i].n, Min(last - pos, left));
        var sent := SendOnce(out, script, i, left, k);
        out := out + sent;
        if k == left && pos < last {
          return Again, out;
        }
        i, left := i + 1, left - k;
      }
      assert Pending() == [];
      pos, last := 0, 0;
      return Flushed, out;
    }
  }

  function Prefixed(out: Bytes, f: Flushing): Flushing {
    f.(out := out + f.out)
  }

  /** One send of the loop. */
  lemma NextSend(out: Bytes, pending: Bytes, script: seq<Sent>, i: nat, left: nat)
    requires pending != [] && i < |script| && script[i].Accept? && script[i].n > 0
    ensures var k := Min(script[i].n, Min(|pending|, left));
            Prefixed(out, FlushBytes(pending, script[i..], left))
            == if k == left && k < |pending| then Flushing(Again, out + pending[..k], pending[k..])
               else Prefixed(out + pending[..k], FlushBytes(pending[k..], script[i + 1..], left - k))
  {
    var k := Min(script[i].n, Min(|pending|, left));
    assert script[i..][1..] == script[i + 1..] && script[i..][0] == script[i];
    if !(k == left && k < |pending|) {
      PrefixedTwice(out, pending[..k], FlushBytes(pending[k..], script[i + 1..], left - k));
    }
  }

  lemma PrefixedTwice(a: Bytes, b: Bytes, f: Flushing)
    ensures Prefixed(a, Prefixed(b, f)) == Prefixed(a + b, f)
  {
    Regroup(a, b, f.out);
  }

  class RelaySide {
    const buf: TempBuf
    var replay: TempBuf?
    var delivered: Bytes
    var failed: bool
    ghost var taken: Bytes

    ghost predicate Valid()
      reads this, buf, replay
    {
      && buf.Valid()
      && (replay != null ==> replay != buf && replay.data != buf.data && replay.Valid())
    }

    ghost function State(): Side
      requires Valid()
      reads this, buf, buf.data, replay, if replay == null then null else replay.data
    {
      Side(replay != null, if replay == null then [] else replay.Pending(), buf.Pending(), delivered, taken, failed)
    }

    /** The relay toward the fallback server. */
    constructor (header: Bytes, raw: Bytes, bufferSize: nat)
      requires 0 < |raw|
      ensures Valid() && State() == Start(header, raw) && buf.data.Length == bufferSize
      ensures fresh(buf) && fresh(buf.data) && fresh(replay)
    {
      var r := new TempBuf(|header| + |raw|);
      if header != [] {
        r.Append(header);
      }
      r.Append(raw);
      assert r.Pending() == header + raw;
      buf := new TempBuf(bufferSize);
      replay, delivered, failed, taken := r, [], false, header + raw;
    }

    method FlushBuf(script: seq<Sent>)
      requires Valid()
      modifies this`delivered, this`failed, buf`pos, buf`last
      ensures Valid() && State() == FlushPending(old(State()), script)
    {
      var flush, out := buf.FlushTo(script, BUDGET_BYTES);
      delivered, failed := delivered + out, flush.Failed?;
    }

    /** The socket of this side is writable. */
    method Write(first: seq<Sent>, second: seq<Sent>)
      requires Valid() && !failed
      modifies this`delivered, this`failed, this`replay, replay, buf`pos, buf`last
      ensures Valid() && State() == OnWritable(old(State()), first, second)
    {
      if replay != null {
        FlushKeepsBytes(replay.Pending(), first, BUDGET_BYTES);
        var flush, out := replay.FlushTo(first, BUDGET_BYTES);
        delivered, failed := delivered + out, flush.Failed?;
        if !flush.Flushed? {
          return;
        }
        replay := null;
      }
      FlushBuf(second);
    }

    method ReadChunk(chunk: Chunk)
      requires Valid() && replay == null && buf.Pending() == [] && 0 < |chunk.data| <= buf.data.Length
      modifies this`delivered, this`failed, this`taken, buf`pos, buf`last, buf.data
      ensures Valid() && State() == FlushPending(Take(old(State()), chunk.data), chunk.script)
    {
      buf.Append(chunk.data);
      taken := taken + chunk.data;
      FlushBuf(chunk.script);
    }

    /** The socket on the other side is readable. A read is never offered an empty buffer. */
    method Read(flush: seq<Sent>, chunks: seq<Chunk>)
      requires Valid() && !failed
      requires forall i :: 0 <= i < |chunks| ==> 0 < |chunks[i].data| <= buf.data.Length
      modifies this`delivered, this`failed, this`taken, buf`pos, buf`last, buf.data
      ensures Valid() && State() == OnReadable(old(State()), flush, chunks)
    {
      if replay != null {
        return;
      }
      if buf.pos < buf.last {
        FlushBuf(flush);
        return;
      }
      ReadAll(chunks);
    }

    method ReadAll(chunks: seq<Chunk>)
      requires Valid() && replay == null && buf.Pending() == []
      requires forall i :: 0 <= i < |chunks| ==> 0 < |chunks[i].data| <= buf.data.Length
      modifies this`delivered, this`failed, this`taken, buf`pos, buf`last, buf.data
      ensures Valid() && State() == ReadLoop(old(State()), chunks, 0, 0)
    {
      ghost var result := ReadLoop(State(), chunks, 0, 0);
      var i, bytes: nat := 0, 0;
      while i < |chunks|
        invariant Valid() && replay == null && i <= |chunks| && buf.Pending() == []
        invariant ReadLoop(State(), chunks[i..], i, bytes) == result
      {
        assert chunks[i..][0] == chunks[i] && chunks[i..][1..] == chunks[i + 1..];
        ReadChunk(chunks[i]);
        bytes, i := bytes + |chunks[i].data|, i + 1;
        if buf.pos < buf.last || bytes >= BUDGET_BYTES || i >= BUDGET_LOOPS {
          return;
        }
      }
    }
  }
}
