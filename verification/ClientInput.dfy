/**
  Client bytes on their way to the session: authentication first, then whole frames, with one
  buffer that is both the target of reads and the store of what is left over. What the session
  makes of a frame is a parameter.

  A frame the session rejects makes the loop throw away what is left over and report an error. Who
  hears of it matters: the read handler ends the connection, but a resume that was called by an
  upstream writer or by a discard only ends a stream, or nothing, and the connection reads on.
  */
module ClientInput {
  import opened Auth
  import opened Bytes
  import opened Callers
  import opened Protocol
  import opened StreamDecoder

  const READ_BUDGET_BYTES: nat := 1024 * 1024
  const READ_BUDGET_LOOPS: nat := 16

  /** What handling a frame comes to: go on, stop reading, an error for the caller, or the end of the
      connection on the spot (an alert, or SYN before SETTINGS). */
  datatype Outcome = Continue | Pause | Reject | Finish

  datatype Phase = Authenticating | Dispatching | FallenBack | Dead

  datatype Result = Fine | Rejected | Finished

  /** `dropped` is what a rejected frame made the loop throw away. */
  datatype Loop = Loop(dispatched: seq<Frame>, remnant: Bytes, paused: bool, result: Result, dropped: Bytes)

  /** `outcome(k)` is what handling the k-th frame of the connection leads to; a frame is handled
      at most once, so every behaviour of the session is such a function. */
  function DispatchFrames(outcome: nat -> Outcome, done: seq<Frame>, data: Bytes): Loop {
    DispatchWith(ParseFrame, outcome, done, data)
  }

  /** The loop, for any parser. */
  function DispatchWith(parse: Bytes -> Parsed<Frame>, outcome: nat -> Outcome, done: seq<Frame>, data: Bytes): Loop
    decreases |data|
  {
    match parse(data)
    case More => Loop(done, data, false, Fine, [])
    case Bad => Loop(done, [], false, Rejected, data)
    case Item(f, n) =>
      if !(0 < n <= |data|) then Loop(done, [], false, Rejected, data)
      else
        match outcome(|done|)
        case Reject => Loop(done + [f], [], false, Rejected, data[n..])
        case Finish => Loop(done + [f], [], false, Finished, data[n..])
        case Pause => Loop(done + [f], data[n..], true, Fine, [])
        case Continue => DispatchWith(parse, outcome, done + [f], data[n..])
  }

  /** `readBlocked`: the client's socket is not to be read. */
  datatype Input = Input(
    phase: Phase, received: Bytes, held: Bytes, user: Bytes,
    dispatched: seq<Frame>, remnant: Bytes, paused: bool, readBlocked: bool)

  datatype Event = Received(chunk: Bytes) | Resume(who: Caller)

  function Initial(): Input {
    Input(Authenticating, [], [], [], [], [], false, false)
  }

  /** After the loop, for a caller that ends the connection on an error. */
  function AfterRead(s: Input, l: Loop): Input {
    s.(phase := if l.result.Fine? then Dispatching else Dead, dispatched := l.dispatched, remnant := l.remnant,
       paused := l.paused, readBlocked := s.readBlocked || l.paused)
  }

  /** After the loop of a resume. Only success enables reading again. */
  function AfterResume(s: Input, l: Loop, who: Caller): Input {
    var t := s.(dispatched := l.dispatched, remnant := l.remnant, paused := l.paused);
    match l.result
    case Fine => t.(readBlocked := l.paused)
    case Finished => t.(phase := Dead)
    case Rejected => if who.Reader? then t.(phase := Dead) else t
  }

  /** A first read of the connection's bytes. */
  function Authenticate(users: seq<User>, outcome: nat -> Outcome, s: Input, data: Bytes): Input {
    var all := s.held + data;
    match ParseAuth(users, all)
    case More => s.(held := all)
    case Bad => s.(phase := FallenBack, held := Kept(users, all))
    case Item(name, need) =>
      var granted := s.(phase := Dispatching, held := all[..need], user := name);
      AfterRead(granted, DispatchFrames(outcome, s.dispatched, all[need..]))
  }

  predicate MayRead(s: Input) {
    (s.phase.Authenticating? || s.phase.Dispatching?) && !s.paused && !s.readBlocked
  }

  predicate Flows(s: Input) {
    !s.phase.Dead? && !s.paused && !s.readBlocked
  }

  /** Reads happen only while input flows; a resume processes what a pause left behind, on behalf of
      whoever called it. */
  function Step(users: seq<User>, outcome: nat -> Outcome, s: Input, e: Event): Input {
    match e
    case Received(chunk) =>
      if !MayRead(s) then s
      else
        var r := s.(received := s.received + chunk);
        if s.phase.Authenticating? then Authenticate(users, outcome, r, chunk)
        else AfterRead(r, DispatchFrames(outcome, r.dispatched, r.remnant + chunk))
    case Resume(who) =>
      if s.phase.Dispatching? then AfterResume(s, DispatchFrames(outcome, s.dispatched, s.remnant), who) else s
  }

  function Run(users: seq<User>, outcome: nat -> Outcome, s: Input, es: seq<Event>): Input
    decreases |es|
  {
    if es == [] then s else Run(users, outcome, Step(users, outcome, s, es[0]), es[1..])
  }

  /** Bytes are lost: a frame is rejected in a resume whose caller does not end the connection, and
      there was something behind it. */
  predicate Drops(outcome: nat -> Outcome, s: Input, e: Event) {
    && e.Resume? && !e.who.Reader? && s.phase.Dispatching?
    && var l := DispatchFrames(outcome, s.dispatched, s.remnant); l.result.Rejected? && l.dropped != []
  }

  // ----- What the loop does -----

  /** Nothing is lost, repeated or reordered between what was dispatched and what is left over;
      while input flows nothing decodable is left over. */
  ghost predicate InOrder(dispatched: seq<Frame>, remnant: Bytes, paused: bool, d: Decoded<Frame>) {
    var left := Decode(ParseFrame, remnant);
    && d.items == dispatched + left.items
    && d.rest == left.rest
    && (!paused ==> dispatched == d.items && remnant == d.rest && |remnant| < HEADER_LEN + MAX_FRAME_DATA)
  }

  /** The loop over `d`, up to where it stops. */
  ghost predicate LoopInOrder(l: Loop, d: Decoded<Frame>) {
    if l.result.Fine? then InOrder(l.dispatched, l.remnant, l.paused, d)
    else
      var left := Decode(ParseFrame, l.dropped);
      l.remnant == [] && !l.paused && d.items == l.dispatched + left.items && d.rest == left.rest
  }

  lemma {:induction false} DispatchIsDecode(outcome: nat -> Outcome, done: seq<Frame>, data: Bytes)
    ensures LoopInOrder(DispatchFrames(outcome, done, data), Join(Decoded(done, [], false), Decode(ParseFrame, data)))
    decreases |data|
  {
    ParseFrameIsIncremental();
    assert Sized(ParseFrame, data);
    var whole := Decode(ParseFrame, data);
    match ParseFrame(data)
    case More =>
      WaitingIsShort(data);
      assert done + whole.items == done;
    case Item(f, n) =>
      var rest := Decode(ParseFrame, data[n..]);
      assert done + ([f] + rest.items) == (done + [f]) + rest.items;
      if outcome(|done|).Continue? {
        DispatchIsDecode(outcome, done + [f], data[n..]);
      }
  }

  /** No byte string is a malformed sequence of frames. */
  lemma {:induction false} NothingBad(s: Bytes)
    ensures !Decode(ParseFrame, s).bad
    decreases |s|
  {
    ParseFrameIsIncremental();
    assert Sized(ParseFrame, s);
    if ParseFrame(s).Item? {
      NothingBad(s[ParseFrame(s).consumed..]);
    }
  }

  /** Bytes that hold no frame are a rest. */
  lemma SomethingLeft(s: Bytes)
    requires s != []
    ensures Decode(ParseFrame, s).items != [] || Decode(ParseFrame, s).rest != []
  {
    ParseFrameIsIncremental();
    assert Sized(ParseFrame, s);
  }

  // ----- What a run keeps -----

  /** In terms of all bytes received so far. */
  ghost predicate Faithful(users: seq<User>, s: Input) {
    match ParseAuth(users, s.received)
    case More => s == Initial().(received := s.received, held := s.received)
    case Bad => s == Initial().(phase := FallenBack, received := s.received, held := Kept(users, s.received))
    case Item(name, need) =>
      && s.user == name && s.held == s.received[..need]
      && (s.phase.Dispatching? || s.phase.Dead?)
      && var d := Decode(ParseFrame, s.received[need..]);
         if s.phase.Dead? then IsPrefix(s.dispatched, d.items) else InOrder(s.dispatched, s.remnant, s.paused, d)
  }

  /** The bytes behind the handshake. */
  function Body(users: seq<User>, s: Input): Bytes
    requires ParseAuth(users, s.received).Item?
  {
    s.received[ParseAuth(users, s.received).consumed..]
  }

  lemma AfterReadIsFaithful(users: seq<User>, s: Input, l: Loop)
    requires ParseAuth(users, s.received).Item?
    requires s.user == ParseAuth(users, s.received).value
             && s.held == s.received[..ParseAuth(users, s.received).consumed]
    requires LoopInOrder(l, Decode(ParseFrame, Body(users, s)))
    ensures Faithful(users, AfterRead(s, l))
  {
  }

  lemma JoinNothing(d: Decoded<Frame>)
    ensures Join(Decoded([], [], false), d) == d
  {
    assert [] + d.items == d.items;
  }

  lemma GrantedIsFaithful(users: seq<User>, outcome: nat -> Outcome, s: Input, chunk: Bytes)
    requires Faithful(users, s) && s.phase.Authenticating?
    ensures Faithful(users, Step(users, outcome, s, Received(chunk)))
  {
    var all := s.received + chunk;
    assert all == s.held + chunk;
    var r := ParseAuth(users, all);
    if r.Item? {
      var granted := s.(received := all, phase := Dispatching, held := all[..r.consumed], user := r.value);
      DispatchIsDecode(outcome, [], all[r.consumed..]);
      JoinNothing(Decode(ParseFrame, all[r.consumed..]));
      AfterReadIsFaithful(users, granted, DispatchFrames(outcome, [], all[r.consumed..]));
    }
  }

  /** The loop of a read, in terms of all bytes. */
  lemma ReadLoopInOrder(outcome: nat -> Outcome, s: Input, body: Bytes, chunk: Bytes)
    requires InOrder(s.dispatched, s.remnant, false, Decode(ParseFrame, body))
    ensures LoopInOrder(DispatchFrames(outcome, s.dispatched, s.remnant + chunk), Decode(ParseFrame, body + chunk))
  {
    ParseFrameIsIncremental();
    DecodeAppend(ParseFrame, body, chunk);
    NothingBad(body);
    DispatchIsDecode(outcome, s.dispatched, s.remnant + chunk);
  }

  lemma ReadingIsFaithful(users: seq<User>, outcome: nat -> Outcome, s: Input, chunk: Bytes)
    requires Faithful(users, s) && s.phase.Dispatching? && MayRead(s)
    ensures Faithful(users, Step(users, outcome, s, Received(chunk)))
  {
    var need := ParseAuth(users, s.received).consumed;
    var body := s.received[need..];
    var r := s.(received := s.received + chunk);
    AuthSettles(users, s.received, chunk);
    assert r.received[need..] == body + chunk && r.received[..need] == s.received[..need];
    ReadLoopInOrder(outcome, s, body, chunk);
    AfterReadIsFaithful(users, r, DispatchFrames(outcome, s.dispatched, s.remnant + chunk));
  }

  /** The loop of a resume, in terms of all bytes. */
  lemma ResumedLoop(users: seq<User>, outcome: nat -> Outcome, s: Input)
    requires Faithful(users, s) && s.phase.Dispatching?
    ensures ParseAuth(users, s.received).Item?
    ensures LoopInOrder(DispatchFrames(outcome, s.dispatched, s.remnant), Decode(ParseFrame, Body(users, s)))
  {
    DispatchIsDecode(outcome, s.dispatched, s.remnant);
    NothingBad(Body(users, s));
    NothingBad(s.remnant);
    assert Join(Decoded(s.dispatched, [], false), Decode(ParseFrame, s.remnant)) == Decode(ParseFrame, Body(users, s));
  }

  /** A resume keeps the order unless it loses bytes, and then it does not. */
  lemma ResumeIsFaithfulIff(users: seq<User>, outcome: nat -> Outcome, s: Input, who: Caller)
    requires Faithful(users, s) && s.phase.Dispatching?
    ensures Faithful(users, Step(users, outcome, s, Resume(who))) <==> !Drops(outcome, s, Resume(who))
  {
    ResumedLoop(users, outcome, s);
    var l := DispatchFrames(outcome, s.dispatched, s.remnant);
    if l.result.Rejected? && !who.Reader? {
      if l.dropped == [] {
        assert Decode(ParseFrame, l.dropped) == Decoded([], [], false);
        assert l.dispatched + [] == l.dispatched;
      } else {
        SomethingLeft(l.dropped);
      }
    }
  }

  lemma StepIsFaithfulIff(users: seq<User>, outcome: nat -> Outcome, s: Input, e: Event)
    requires Faithful(users, s)
    ensures Faithful(users, Step(users, outcome, s, e)) <==> !Drops(outcome, s, e)
  {
    if s.phase.Authenticating? {
      if e.Received? {
        GrantedIsFaithful(users, outcome, s, e.chunk);
      }
    } else if s.phase.Dispatching? {
      if e.Resume? {
        ResumeIsFaithfulIff(users, outcome, s, e.who);
      } else if MayRead(s) {
        ReadingIsFaithful(users, outcome, s, e.chunk);
      }
    }
  }

  /** Every state along the run is faithful. */
  ghost predicate FaithfulAlong(users: seq<User>, outcome: nat -> Outcome, s: Input, es: seq<Event>)
    decreases |es|
  {
    Faithful(users, s) && (es != [] ==> FaithfulAlong(users, outcome, Step(users, outcome, s, es[0]), es[1..]))
  }

  predicate NothingDropped(users: seq<User>, outcome: nat -> Outcome, s: Input, es: seq<Event>)
    decreases |es|
  {
    es != [] ==> !Drops(outcome, s, es[0]) && NothingDropped(users, outcome, Step(users, outcome, s, es[0]), es[1..])
  }

  /** Over every run: authentication and dispatch are at every moment those of the bytes received,
      whatever the chunks and the schedule of pauses were, if and only if no frame with bytes behind
      it is rejected in a resume called by a writer or a discard. */
  lemma {:induction false} RunIsFaithfulIff(users: seq<User>, outcome: nat -> Outcome, s: Input, es: seq<Event>)
    requires Faithful(users, s)
    ensures FaithfulAlong(users, outcome, s, es) <==> NothingDropped(users, outcome, s, es)
    ensures NothingDropped(users, outcome, s, es) ==> Faithful(users, Run(users, outcome, s, es))
    decreases |es|
  {
    if es != [] {
      StepIsFaithfulIff(users, outcome, s, es[0]);
      if !Drops(outcome, s, es[0]) {
        RunIsFaithfulIff(users, outcome, Step(users, outcome, s, es[0]), es[1..]);
      }
    }
  }

  /** Two connections that received the same bytes, lost none and are both alive and unblocked, are in the same
      state, however differently those bytes were cut and input was paused. */
  lemma CutsAndPausesDoNotMatter(users: seq<User>, o1: nat -> Outcome, o2: nat -> Outcome, es1: seq<Event>,
                                 es2: seq<Event>)
    requires NothingDropped(users, o1, Initial(), es1) && NothingDropped(users, o2, Initial(), es2)
    requires var s1, s2 := Run(users, o1, Initial(), es1), Run(users, o2, Initial(), es2);
             s1.received == s2.received && Flows(s1) && Flows(s2)
    ensures Run(users, o1, Initial(), es1) == Run(users, o2, Initial(), es2)
  {
    RunIsFaithfulIff(users, o1, Initial(), es1);
    RunIsFaithfulIff(users, o2, Initial(), es2);
  }

  /** While reads may happen, what is left over is less than one frame of the largest size. */
  lemma ReadingState(users: seq<User>, s: Input)
    requires Faithful(users, s) && MayRead(s)
    ensures |s.remnant| < HEADER_LEN + MAX_FRAME_DATA
    ensures s.phase.Authenticating? ==> s == Initial().(received := s.received, held := s.held)
  {
  }

  // ----- The buffer -----

  /** Enough to know that the next read fits behind what is left over. */
  predicate Short(s: Input) {
    && (!s.paused ==> |s.remnant| < HEADER_LEN + MAX_FRAME_DATA)
    && (s.phase.Authenticating? ==> s == Initial().(received := s.received, held := s.held))
  }

  lemma LoopIsShort(outcome: nat -> Outcome, done: seq<Frame>, data: Bytes)
    ensures var l := DispatchFrames(outcome, done, data); !l.paused ==> |l.remnant| < HEADER_LEN + MAX_FRAME_DATA
  {
    DispatchIsDecode(outcome, done, data);
  }

  /** Every state of every run is short, also where bytes were lost. */
  lemma StepIsShort(users: seq<User>, outcome: nat -> Outcome, s: Input, e: Event)
    requires Short(s)
    ensures Short(Step(users, outcome, s, e))
  {
    if e.Resume? {
      LoopIsShort(outcome, s.dispatched, s.remnant);
    } else if s.phase.Dispatching? {
      LoopIsShort(outcome, s.dispatched, s.remnant + e.chunk);
    } else {
      var all := s.held + e.chunk;
      var r := ParseAuth(users, all);
      if r.Item? {
        LoopIsShort(outcome, s.dispatched, all[r.consumed..]);
      }
    }
  }

  function Reads(chunks: seq<Bytes>): seq<Event> {
    seq(|chunks|, i requires 0 <= i < |chunks| => Received(chunks[i]))
  }

  lemma {:induction false} RunOneMore(users: seq<User>, outcome: nat -> Outcome, s: Input, es: seq<Event>, e: Event)
    ensures Run(users, outcome, s, es + [e]) == Step(users, outcome, Run(users, outcome, s, es), e)
    decreases |es|
  {
    if es == [] {
      assert es + [e] == [e] && [e][1..] == [];
      assert Run(users, outcome, s, [e]) == Run(users, outcome, Step(users, outcome, s, e), []);
    } else {
      assert (es + [e])[0] == es[0] && (es + [e])[1..] == es[1..] + [e];
      RunOneMore(users, outcome, Step(users, outcome, s, es[0]), es[1..], e);
    }
  }

  class ClientReader {
    const users: seq<User>
    const outcome: nat -> Outcome
    const readSize: nat
    const buf: array<byte>
    const auth: AuthBuffer
    var phase: Phase
    var dispatched: seq<Frame>
    var remnantLen: nat
    var paused: bool
    var readBlocked: bool
    ghost var received: Bytes

    /** What holds of the fields themselves. */
    ghost predicate Shaped()
      reads this, auth, auth.buf, buf
    {
      && auth.buf != buf && auth.users == users && auth.Valid()
      && buf.Length == readSize + HEADER_LEN + MAX_FRAME_DATA && remnantLen <= buf.Length
      && (phase.Authenticating? ==> auth.Undecided())
    }

    ghost predicate Valid()
      reads this, auth, auth.buf, buf
    {
      Shaped() && Short(State())
    }

    ghost function State(): Input
      requires auth.Valid() && remnantLen <= buf.Length
      reads this, auth, auth.buf, buf
    {
      Input(phase, received, auth.Held(), if phase.Dispatching? || phase.Dead? then auth.user else [],
            dispatched, buf[..remnantLen], paused, readBlocked)
    }

    /** `bufferSize` is the configured size; no read asks for more than one frame. */
    constructor (users: seq<User>, outcome: nat -> Outcome, bufferSize: nat)
      requires ValidUsers(users)
      ensures Valid() && this.users == users && this.outcome == outcome && State() == Initial()
      ensures readSize == Min(bufferSize, HEADER_LEN + MAX_FRAME_DATA)
      ensures fresh(buf) && fresh(auth) && fresh(auth.buf)
    {
      this.users, this.outcome := users, outcome;
      readSize := Min(bufferSize, HEADER_LEN + MAX_FRAME_DATA);
      buf := new byte[Min(bufferSize, HEADER_LEN + MAX_FRAME_DATA) + HEADER_LEN + MAX_FRAME_DATA](_ => 0);
      auth := new AuthBuffer(users);
      phase, dispatched, remnantLen, paused, readBlocked, received := Authenticating, [], 0, false, false, [];
    }

    /** Move `buf[pos..last]` to the front. */
    method Compact(pos: nat, last: nat)
      requires pos <= last <= buf.Length
      modifies this`remnantLen, buf
      ensures remnantLen == last - pos && buf[..remnantLen] == old(buf[pos..last])
    {
      remnantLen := last - pos;
      var n := last - pos;
      for k := 0 to n
        invariant remnantLen == n
        invariant forall i :: 0 <= i < k ==> buf[i] == old(buf[pos + i])
        invariant forall i :: k <= i < buf.Length ==> buf[i] == old(buf[i])
      {
        buf[k] := buf[pos + k];
      }
    }

    /** Hand frames of `data` to the session until one is incomplete, input is paused or a frame is
        rejected; `used` bytes are done with. */
    method HandFrames(parse: Bytes -> Parsed<Frame>, data: Bytes) returns (used: nat, result: Result)
      requires !paused && Incremental(parse)
      modifies this`dispatched, this`paused
      ensures used <= |data|
      ensures DispatchWith(parse, outcome, old(dispatched), data)
           == if result.Fine? then Loop(dispatched, data[used..], paused, Fine, [])
              else Loop(dispatched, [], paused, result, data[used..])
    {
      used, result := 0, Fine;
      while true
        invariant used <= |data| && result.Fine? && !paused
        invariant DispatchWith(parse, outcome, dispatched, data[used..])
                  == DispatchWith(parse, outcome, old(dispatched), data)
        decreases |data| - used
      {
        assert Sized(parse, data[used..]);
        var parsed := parse(data[used..]);
        if parsed.More? {
          return;
        }
        if parsed.Bad? {
          result := Rejected;
          return;
        }
        var verdict := outcome(|dispatched|);
        dispatched := dispatched + [parsed.value];
        assert data[used..][parsed.consumed..] == data[used + parsed.consumed..];
        used := used + parsed.consumed;
        match verdict
        case Continue =>
        case Pause =>
          paused := true;
          return;
        case Reject =>
          result := Rejected;
          return;
        case Finish =>
          result := Finished;
          return;
      }
    }

    /** What the loop over `data` leaves in the fields. */
    ghost predicate After(l: Loop, result: Result)
      requires remnantLen <= buf.Length
      reads this, buf
    {
      dispatched == l.dispatched && buf[..remnantLen] == l.remnant && paused == l.paused && result == l.result
    }

    /** The frame loop over `buf[from..last]`, then the leftover to the front of the buffer. */
    method ProcessFrames(from: nat, last: nat) returns (result: Result)
      requires from <= last <= buf.Length && !paused
      modifies this`dispatched, this`remnantLen, this`paused, buf
      ensures remnantLen <= buf.Length
      ensures After(DispatchFrames(outcome, old(dispatched), old(buf[from..last])), result)
    {
      ghost var data := buf[from..last];
      ParseFrameIsIncremental();
      var used;
      used, result := HandFrames(ParseFrame, buf[from..last]);
      if result.Fine? {
        assert data[used..] == buf[from + used..last];
        Compact(from + used, last);
      } else {
        remnantLen := 0;
      }
    }

    /** The transport puts a chunk behind what is left over. */
    method Fill(chunk: Bytes)
      requires remnantLen + |chunk| <= buf.Length
      modifies buf
      ensures buf[..remnantLen + |chunk|] == old(buf[..remnantLen]) + chunk
    {
      for k := 0 to |chunk|
        invariant buf[..remnantLen + k] == old(buf[..remnantLen]) + chunk[..k]
      {
        buf[remnantLen + k] := chunk[k];
        assert buf[..remnantLen + k + 1] == buf[..remnantLen + k] + [chunk[k]];
        assert chunk[..k + 1] == chunk[..k] + [chunk[k]];
      }
    }

    /** One read of at most the read size: the leftover is short, so it fits. */
    method Read(chunk: Bytes)
      requires Valid() && |chunk| <= readSize && MayRead(State())
      modifies this, buf, auth, auth.buf
      ensures Valid() && State() == Step(users, outcome, old(State()), Received(chunk))
    {
      ghost var before := State();
      StepIsShort(users, outcome, before, Received(chunk));
      if phase.Authenticating? {
        Fill(chunk);
        received := received + chunk;
        assert buf[..|chunk|] == chunk;
        ReadHandshake(before, chunk);
      } else {
        ReadFrames(before, chunk);
      }
    }

    /** What a read leads to: the frame loop, and the end of the connection on an error. */
    method Dispatch(from: nat, last: nat)
      requires from <= last <= buf.Length && phase.Dispatching? && !paused
      requires auth.Valid() && auth.buf != buf && remnantLen <= buf.Length
      modifies this`phase, this`dispatched, this`remnantLen, this`paused, this`readBlocked, buf
      ensures remnantLen <= buf.Length && phase in {Dispatching, Dead}
      ensures State() == AfterRead(old(State()), DispatchFrames(outcome, old(dispatched), old(buf[from..last])))
    {
      var result := ProcessFrames(from, last);
      readBlocked := readBlocked || paused;
      if !result.Fine? {
        phase := Dead;
      }
    }

    method ReadFrames(ghost before: Input, chunk: Bytes)
      requires Shaped() && before == State() && phase.Dispatching? && MayRead(before)
      requires remnantLen + |chunk| <= buf.Length
      modifies this`phase, this`dispatched, this`remnantLen, this`paused, this`readBlocked, this`received, buf
      ensures Shaped() && State() == Step(users, outcome, before, Received(chunk))
    {
      Fill(chunk);
      received := received + chunk;
      assert buf[0..remnantLen + |chunk|] == before.remnant + chunk;
      Dispatch(0, remnantLen + |chunk|);
    }

    method ReadHandshake(ghost before: Input, chunk: Bytes)
      requires auth.buf != buf && auth.users == users && auth.Valid() && auth.Undecided() && phase.Authenticating?
      requires |chunk| <= buf.Length && buf[..|chunk|] == chunk && !paused && !readBlocked && remnantLen == 0
      requires received == before.received + chunk && before.held == auth.Held()
      requires before == Initial().(received := before.received, held := before.held)
      requires dispatched == []
      modifies this`phase, this`dispatched, this`remnantLen, this`paused, this`readBlocked, buf, auth, auth.buf
      ensures auth.Valid() && remnantLen <= buf.Length && (phase.Authenticating? ==> auth.Undecided())
      ensures State() == Step(users, outcome, before, Received(chunk))
    {
      var verdict, consumed := auth.Process(buf[..|chunk|]);
      match verdict
      case NeedMore =>
      case Fallback =>
        phase := FallenBack;
      case Granted =>
        phase := Dispatching;
        assert buf[consumed..|chunk|] == chunk[consumed..];
        ghost var all := before.held + chunk;
        assert all[auth.len..] == chunk[consumed..];
        Dispatch(consumed, |chunk|);
    }

    /** Take input up again: what the pause left behind is decoded first. */
    method ResumeInput(who: Caller)
      requires Valid() && phase.Dispatching?
      modifies this, buf
      ensures Valid() && State() == Step(users, outcome, old(State()), Resume(who))
    {
      StepIsShort(users, outcome, State(), Resume(who));
      paused := false;
      assert buf[0..remnantLen] == buf[..remnantLen];
      var result := ProcessFrames(0, remnantLen);
      match result
      case Fine =>
        readBlocked := paused;
      case Rejected =>
        if who.Reader? {
          phase := Dead;
        }
      case Finished =>
        phase := Dead;
    }

    method ReadNext(ghost start: Input, chunks: seq<Bytes>, k: nat)
      requires Valid() && MayRead(State())
      requires k < |chunks| && |chunks[k]| <= readSize
      requires State() == Run(users, outcome, start, Reads(chunks[..k]))
      modifies this, buf, auth, auth.buf
      ensures Valid() && State() == Run(users, outcome, start, Reads(chunks[..k + 1]))
      ensures |Concat(chunks[..k + 1])| == |Concat(chunks[..k])| + |chunks[k]|
    {
      OneMoreChunk(chunks, k);
      RunOneMore(users, outcome, start, Reads(chunks[..k]), Received(chunks[k]));
      Read(chunks[k]);
    }

    /** A readable client: read after read until there is nothing more to read, input pauses, the
        session or authentication ends, or the budget of this turn is used up. */
    method OnReadable(chunks: seq<Bytes>) returns (taken: nat, exhausted: bool)
      requires Valid() && MayRead(State())
      requires forall i :: 0 <= i < |chunks| ==> 0 < |chunks[i]| <= readSize
      modifies this, buf, auth, auth.buf
      ensures Valid() && taken <= |chunks| && taken <= READ_BUDGET_LOOPS
      ensures State() == Run(users, outcome, old(State()), Reads(chunks[..taken]))
      ensures taken < |chunks| ==> exhausted || !MayRead(State())
      ensures exhausted ==> taken == READ_BUDGET_LOOPS || |Concat(chunks[..taken])| >= READ_BUDGET_BYTES
    {
      taken, exhausted := 0, false;
      ghost var start := State();
      var bytes := 0;
      while taken < |chunks|
        invariant Valid() && MayRead(State())
        invariant taken <= |chunks| && taken < READ_BUDGET_LOOPS && bytes == |Concat(chunks[..taken])|
        invariant State() == Run(users, outcome, start, Reads(chunks[..taken]))
      {
        ReadNext(start, chunks, taken);
        bytes := bytes + |chunks[taken]|;
        taken := taken + 1;
        if paused || readBlocked || phase !in {Authenticating, Dispatching} {
          return;
        }
        if bytes >= READ_BUDGET_BYTES || taken >= READ_BUDGET_LOOPS {
          exhausted := true;
          return;
        }
      }
    }
  }

  lemma OneMoreChunk(chunks: seq<Bytes>, k: nat)
    requires k < |chunks|
    ensures Reads(chunks[..k + 1]) == Reads(chunks[..k]) + [Received(chunks[k])]
    ensures |Concat(chunks[..k + 1])| == |Concat(chunks[..k])| + |chunks[k]|
  {
    assert chunks[..k + 1] == chunks[..k] + [chunks[k]];
    ConcatOneMore(chunks[..k], chunks[k]);
  }

  lemma {:induction false} ConcatOneMore(chunks: seq<Bytes>, c: Bytes)
    ensures Concat(chunks + [c]) == Concat(chunks) + c
    decreases |chunks|
  {
    if chunks == [] {
      assert chunks + [c] == [c];
    } else {
      assert (chunks + [c])[0] == chunks[0] && (chunks + [c])[1..] == chunks[1..] + [c];
      ConcatOneMore(chunks[1..], c);
    }
  }
}
