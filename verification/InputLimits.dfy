/**
  Client bytes whose meaning depends on a pause: a frame is refused in a resume called by a writer, the
  bytes behind it are thrown away, and the connection goes on.
  */
module InputLimits {
  import opened Auth
  import opened Bytes
  import opened Callers
  import opened ClientInput
  import opened Protocol
  import opened StreamDecoder
  import opened Serving
  import FirstPsh
  import Session
  import SocksAddr
  import Streams = UpstreamRuns
  import Up = Upstream

  /** Bytes that are one frame, whatever follows them. */
  datatype Piece = Piece(s: Bytes, f: Frame) {
    ghost predicate Reads() {
      s != [] && forall rest :: ParseFrame(s + rest) == Item(f, |s|)
    }
  }

  /** Six frames, and bytes `t` that are sent with the first five. */
  datatype Talk = Talk(g: Piece, n: Piece, a: Piece, p: Piece, y: Piece, x: Piece, t: Bytes) {
    ghost predicate Reads() {
      g.Reads() && n.Reads() && a.Reads() && p.Reads() && y.Reads() && x.Reads()
    }

    function Body(): Bytes {
      g.s + (n.s + (a.s + (p.s + (y.s + t))))
    }

    function Three(): seq<Frame> {
      [g.f, n.f, a.f]
    }

    function Five(): seq<Frame> {
      [g.f, n.f, a.f, p.f, y.f]
    }

    function Six(): seq<Frame> {
      [g.f, n.f, a.f, p.f, y.f, x.f]
    }
  }

  // ----- The connection -----

  lemma NextOf(outcome: nat -> Outcome, done: seq<Frame>, q: Piece, rest: Bytes)
    requires q.Reads()
    ensures DispatchFrames(outcome, done, q.s + rest)
         == match outcome(|done|)
            case Continue => DispatchFrames(outcome, done + [q.f], rest)
            case Pause => Loop(done + [q.f], rest, true, Fine, [])
            case Reject => Loop(done + [q.f], [], false, Rejected, rest)
            case Finish => Loop(done + [q.f], [], false, Finished, rest)
  {
    assert (q.s + rest)[|q.s|..] == rest;
  }

  /** All frames but the fourth and fifth are taken, and the fifth is refused. */
  ghost predicate Refuses(o: nat -> Outcome) {
    o(0).Continue? && o(1).Continue? && o(2).Continue? && o(4).Reject? && o(5).Continue?
  }

  lemma Growing(k: Talk)
    ensures [] + [k.g.f] == [k.g.f] && [k.g.f] + [k.n.f] == [k.g.f, k.n.f] && [k.g.f, k.n.f] + [k.a.f] == k.Three()
    ensures k.Three() + [k.p.f] + [k.y.f] == k.Five() && k.Five() + [k.x.f] == k.Six()
  {
  }

  lemma ThreeTaken(o: nat -> Outcome, k: Talk)
    requires k.Reads() && Refuses(o)
    ensures DispatchFrames(o, [], k.Body()) == DispatchFrames(o, k.Three(), k.p.s + (k.y.s + k.t))
  {
    var rest := k.p.s + (k.y.s + k.t);
    Growing(k);
    NextOf(o, [], k.g, k.n.s + (k.a.s + rest));
    NextOf(o, [k.g.f], k.n, k.a.s + rest);
    NextOf(o, [k.g.f, k.n.f], k.a, rest);
  }

  /** A connection whose first read is the handshake `hs` and `body`. */
  lemma FirstRead(users: seq<User>, o: nat -> Outcome, hs: Bytes, body: Bytes, name: Bytes)
    requires ParseAuth(users, hs + body) == Item(name, |hs|)
    ensures var l := DispatchFrames(o, [], body);
            Step(users, o, Initial(), Received(hs + body))
            == AfterRead(Initial().(received := hs + body, phase := Dispatching, held := hs, user := name), l)
  {
    assert [] + (hs + body) == hs + body && (hs + body)[|hs|..] == body && (hs + body)[..|hs|] == hs;
  }

  ghost predicate Ends(users: seq<User>, o: nat -> Outcome, first: Bytes, fs: seq<Frame>) {
    var s := Step(users, o, Initial(), Received(first));
    s.phase == Dead && s.dispatched == fs
  }

  ghost predicate GoesOn(users: seq<User>, o: nat -> Outcome, first: Bytes, next: Bytes, fs: seq<Frame>) {
    var s := Run(users, o, Initial(), [Received(first), Resume(Writer(0)), Resume(Discard), Received(next)]);
    s.phase == Dispatching && s.received == first + next && s.dispatched == fs
  }

  /** Without a pause the refused frame ends the connection. */
  lemma EndsWithoutPause(users: seq<User>, o: nat -> Outcome, hs: Bytes, name: Bytes, k: Talk)
    requires k.Reads() && Refuses(o) && o(3).Continue? && ParseAuth(users, hs + k.Body()) == Item(name, |hs|)
    ensures Ends(users, o, hs + k.Body(), k.Five())
  {
    ThreeTaken(o, k);
    NextOf(o, k.Three(), k.p, k.y.s + k.t);
    NextOf(o, k.Three() + [k.p.f], k.y, k.t);
    Growing(k);
    FirstRead(users, o, hs, k.Body(), name);
  }

  /** A writer resumes: the refused frame is handled and `t` lost. The writer's stream is closed, and its
      discard enables reading. */
  lemma Loses(users: seq<User>, o: nat -> Outcome, s: Input, k: Talk)
    requires k.Reads() && Refuses(o) && |s.dispatched| == 4 && s.phase == Dispatching && s.remnant == k.y.s + k.t
    ensures Step(users, o, Step(users, o, s, Resume(Writer(0))), Resume(Discard))
            == s.(dispatched := s.dispatched + [k.y.f], remnant := [], paused := false, readBlocked := false)
  {
    NextOf(o, s.dispatched, k.y, k.t);
    var done := s.dispatched + [k.y.f];
    assert DispatchFrames(o, done, []) == Loop(done, [], false, Fine, []);
  }

  /** The bytes of the sixth frame are read as if a frame began there. */
  lemma ReadsOn(users: seq<User>, o: nat -> Outcome, s: Input, k: Talk)
    requires k.Reads() && Refuses(o) && |s.dispatched| == 5
    requires s.phase == Dispatching && s.remnant == [] && MayRead(s)
    ensures var r := Step(users, o, s, Received(k.x.s));
            r.phase == Dispatching && r.received == s.received + k.x.s && r.dispatched == s.dispatched + [k.x.f]
  {
    var done := s.dispatched + [k.x.f];
    assert [] + k.x.s == k.x.s && k.x.s + [] == k.x.s;
    NextOf(o, s.dispatched, k.x, []);
    assert DispatchFrames(o, done, []) == Loop(done, [], false, Fine, []);
  }

  lemma FourSteps(users: seq<User>, o: nat -> Outcome, first: Bytes, next: Bytes, fs: seq<Frame>, s: Input, t: Input)
    requires s == Step(users, o, Initial(), Received(first))
    requires t == Step(users, o, Step(users, o, s, Resume(Writer(0))), Resume(Discard))
    requires var r := Step(users, o, t, Received(next));
             r.phase == Dispatching && r.received == first + next && r.dispatched == fs
    ensures GoesOn(users, o, first, next, fs)
  {
    var a, b, e, d := Received(first), Resume(Writer(0)), Resume(Discard), Received(next);
    var s2 := Step(users, o, s, b);
    assert [a, b, e, d][1..] == [b, e, d] && [b, e, d][1..] == [e, d] && [e, d][1..] == [d] && [d][1..] == [];
    assert Run(users, o, t, [d]) == Step(users, o, t, d);
    assert Run(users, o, s2, [e, d]) == Run(users, o, t, [d]);
    assert Run(users, o, s, [b, e, d]) == Run(users, o, s2, [e, d]);
  }

  /** The state between the first read and the resume. */
  function PausedState(hs: Bytes, name: Bytes, k: Talk): Input {
    Input(Dispatching, hs + k.Body(), hs, name, k.Three() + [k.p.f], k.y.s + k.t, true, true)
  }

  lemma PausesBehind(users: seq<User>, o: nat -> Outcome, hs: Bytes, name: Bytes, k: Talk)
    requires k.Reads() && Refuses(o) && o(3).Pause? && ParseAuth(users, hs + k.Body()) == Item(name, |hs|)
    ensures Step(users, o, Initial(), Received(hs + k.Body())) == PausedState(hs, name, k)
  {
    ThreeTaken(o, k);
    NextOf(o, k.Three(), k.p, k.y.s + k.t);
    FirstRead(users, o, hs, k.Body(), name);
  }

  lemma TakenUp(users: seq<User>, o: nat -> Outcome, s: Input, k: Talk) returns (t: Input)
    requires k.Reads() && Refuses(o) && |s.dispatched| == 4 && s.phase == Dispatching && s.remnant == k.y.s + k.t
    ensures t == Step(users, o, Step(users, o, s, Resume(Writer(0))), Resume(Discard))
    ensures var r := Step(users, o, t, Received(k.x.s));
            && r.phase == Dispatching && r.received == s.received + k.x.s
            && r.dispatched == s.dispatched + [k.y.f] + [k.x.f]
  {
    t := s.(dispatched := s.dispatched + [k.y.f], remnant := [], paused := false, readBlocked := false);
    Loses(users, o, s, k);
    ReadsOn(users, o, t, k);
  }

  /** With a pause behind the payload, taken up by a writer, the connection goes on without `t`. */
  lemma GoesOnWithPause(users: seq<User>, o: nat -> Outcome, hs: Bytes, name: Bytes, k: Talk)
    requires k.Reads() && Refuses(o) && o(3).Pause? && ParseAuth(users, hs + k.Body()) == Item(name, |hs|)
    ensures GoesOn(users, o, hs + k.Body(), k.x.s, k.Six())
  {
    PausesBehind(users, o, hs, name, k);
    var s := PausedState(hs, name, k);
    var t := TakenUp(users, o, s, k);
    Growing(k);
    FourSteps(users, o, hs + k.Body(), k.x.s, k.Six(), s, t);
  }

  // ----- The session -----

  /** SETTINGS, a SYN, the address, payload, a SYN for stream 0, and a frame that asks for nothing. */
  ghost predicate Conversation(k: Talk, target: SocksAddr.Addr) {
    && k.g.f.cmd == SETTINGS && k.n.f.cmd == SYN && k.n.f.sid != 0
    && k.a.f.cmd == PSH && FirstPsh.Push(FirstPsh.Waiting([]), k.a.f.data) == FirstPsh.Open(target, [])
    && k.p.f.cmd == PSH && |k.p.f.data| == 5
    && k.y.f.cmd == SYN && k.y.f.sid == 0 && k.x.f.cmd == WASTE
  }

  /** The read handler's frames, about what the table has for them; no socket is written to. */
  function ByReader(f: Frame, found: Lookup): Move {
    Handle(f, Task(Reader, found, false, [], []))
  }

  function Opening(k: Talk): seq<Move> {
    [ByReader(k.g.f, Full), ByReader(k.n.f, Room), ByReader(k.a.f, Known(0)), ByReader(k.p.f, Known(0))]
  }

  function PlainMoves(k: Talk): seq<Move> {
    Opening(k) + [ByReader(k.y.f, Full)]
  }

  /** The socket of the stream is connected and takes all of the payload, and the fifth frame is handled on
      behalf of its writer. */
  function PausedMoves(k: Talk): seq<Move> {
    Opening(k)
    + [Upstream(Streams.ConnectDone(0, Up.Unlimited, [Up.Wrote(|k.p.f.data|)])),
       Handle(k.y.f, Task(Writer(0), Full, false, [], [])), ByReader(k.x.f, Full)]
  }

  /** What handling frames from the i-th move on leads to. */
  lemma MoveOf(conf: Conf, s: Served, ms: seq<Move>, i: nat)
    requires i < |ms| && Valid(s)
    ensures Outcomes(conf, s, ms[i..])
            == (if ms[i].Handle? then [Serve(conf, s, ms[i].f, ms[i].t).outcome] else [])
               + Outcomes(conf, Next(conf, s, ms[i]), ms[i + 1..])
    ensures Frames(ms[i..]) == (if ms[i].Handle? then [ms[i].f] else []) + Frames(ms[i + 1..])
  {
    assert ms[i..][1..] == ms[i + 1..];
  }

  const QUIET: Up.Shared := Up.Shared(0, 0, false, false, false)

  /** One stream whose address is known. */
  function Lone(conf: Conf, k: Talk, target: SocksAddr.Addr, s: Up.Stream, c: Up.Shared): Served {
    Served(Session.Core(true, conf.session.read(k.g.f.data).version), [FirstPsh.Open(target, [])], Streams.Input([s], c))
  }

  /** One stream whose address is still to come. */
  function Fresh(conf: Conf, k: Talk): Served {
    Served(Session.Core(true, conf.session.read(k.g.f.data).version), [FirstPsh.Waiting([])],
      Streams.Input([Streams.FRESH], QUIET))
  }

  lemma Asks(conf: Conf, k: Talk, target: SocksAddr.Addr)
    requires Conversation(k, target)
    ensures var s1 := Next(conf, Start(), Opening(k)[0]);
            && Valid(Start()) && Serve(conf, Start(), k.g.f, Opening(k)[0].t).outcome == Continue
            && Valid(s1) && Serve(conf, s1, k.n.f, Opening(k)[1].t) == Answer(Fresh(conf, k), Continue)
  {
    assert [] + [FirstPsh.Waiting([])] == [FirstPsh.Waiting([])] && [] + [Streams.FRESH] == [Streams.FRESH];
  }

  lemma Addresses(conf: Conf, k: Talk, target: SocksAddr.Addr)
    requires Conversation(k, target)
    ensures Valid(Fresh(conf, k))
    ensures Serve(conf, Fresh(conf, k), k.a.f, Opening(k)[2].t)
            == Answer(Lone(conf, k, target, Streams.FRESH, QUIET), Continue)
  {
    var s := Fresh(conf, k);
    assert s.openings[0 := FirstPsh.Open(target, [])] == [FirstPsh.Open(target, [])];
    assert s.up.streams[0 := Streams.FRESH] == s.up.streams;
  }

  function Filled(data: Bytes, blocked: bool): Up.Stream {
    Streams.FRESH.(fifo := [Up.Buf(data, 0)], bytes := |data|, blocked := blocked, dispatched := data, accepted := data)
  }

  /** Payload for a stream that is not connected yet: input pauses if it exceeds the limit. */
  lemma Pays(conf: Conf, k: Talk, target: SocksAddr.Addr)
    requires Conversation(k, target)
    ensures var s := Lone(conf, k, target, Streams.FRESH, QUIET); var data := k.p.f.data;
            && Valid(s)
            && Serve(conf, s, k.p.f, Opening(k)[3].t)
               == if conf.maxInput < 5 then
                    Answer(Lone(conf, k, target, Filled(data, true), Up.Shared(5, 1, true, true, false)), Pause)
                  else Answer(Lone(conf, k, target, Filled(data, false), Up.Shared(5, 0, false, false, false)), Continue)
  {
    var s := Lone(conf, k, target, Streams.FRESH, QUIET);
    assert [] + k.p.f.data == k.p.f.data && [] + [Up.Buf(k.p.f.data, 0)] == [Up.Buf(k.p.f.data, 0)];
    forall t: Up.Stream ensures s.up.streams[0 := t] == [t] {
    }
  }

  /** The first three frames. */
  lemma Begins(conf: Conf, k: Talk, target: SocksAddr.Addr, ms: seq<Move>)
    requires Conversation(k, target) && |ms| >= 3 && forall i :: 0 <= i < 3 ==> ms[i] == Opening(k)[i]
    ensures var lone := Lone(conf, k, target, Streams.FRESH, QUIET);
            Outcomes(conf, Start(), ms) == [Continue, Continue, Continue] + Outcomes(conf, lone, ms[3..])
    ensures Frames(ms) == k.Three() + Frames(ms[3..])
  {
    Asks(conf, k, target);
    Addresses(conf, k, target);
    assert ms[0..] == ms;
    MoveOf(conf, Start(), ms, 0);
    MoveOf(conf, Next(conf, Start(), ms[0]), ms, 1);
    MoveOf(conf, Fresh(conf, k), ms, 2);
    ThreeInARow(k.g.f, k.n.f, k.a.f, Frames(ms[3..]));
    ThreeInARow(Continue, Continue, Continue, Outcomes(conf, Lone(conf, k, target, Streams.FRESH, QUIET), ms[3..]));
  }

  lemma Fourth<T>(three: seq<T>, d: T, rest: seq<T>)
    ensures three + ([d] + rest) == three + [d] + rest
  {
  }

  lemma ThreeInARow<T>(a: T, b: T, c: T, rest: seq<T>)
    ensures [a] + ([b] + ([c] + rest)) == [a, b, c] + rest
  {
  }

  /** And the fourth. */
  lemma Opens(conf: Conf, k: Talk, target: SocksAddr.Addr, ms: seq<Move>, r: Answer)
    requires Conversation(k, target) && |ms| >= 4 && forall i :: 0 <= i < 4 ==> ms[i] == Opening(k)[i]
    requires Valid(Lone(conf, k, target, Streams.FRESH, QUIET))
    requires r == Serve(conf, Lone(conf, k, target, Streams.FRESH, QUIET), k.p.f, Opening(k)[3].t)
    ensures Outcomes(conf, Start(), ms) == [Continue, Continue, Continue] + [r.outcome] + Outcomes(conf, r.s, ms[4..])
    ensures Frames(ms) == k.Three() + [k.p.f] + Frames(ms[4..])
  {
    Begins(conf, k, target, ms);
    MoveOf(conf, Lone(conf, k, target, Streams.FRESH, QUIET), ms, 3);
    Fourth([Continue, Continue, Continue], r.outcome, Outcomes(conf, r.s, ms[4..]));
    Fourth(k.Three(), k.p.f, Frames(ms[4..]));
  }

  function Sent(data: Bytes): Up.Stream {
    Streams.FRESH.(status := Up.Connected, dispatched := data, accepted := data, written := data)
  }

  /** The socket takes all of it: input is taken up on behalf of this writer. */
  lemma Writes(max: nat, data: Bytes)
    requires max < |data| == 5
    ensures var x := Streams.Input([Filled(data, true)], Up.Shared(5, 1, true, true, false));
            && Streams.AllSized(x)
            && Streams.Step(max, x, Streams.ConnectDone(0, Up.Unlimited, [Up.Wrote(5)]))
               == Streams.Input([Sent(data)], QUIET)
  {
    var p := Up.Pair(Filled(data, true).(status := Up.Connected), Up.Shared(5, 1, true, true, false));
    var q := Up.Pair(Sent(data), QUIET);
    assert data[0..|data|] == data && [] + data == data;
    assert [Up.Buf(data, 0)][1..] == [] && [Up.Buf(data, |data|)] + [] == [Up.Buf(data, |data|)];
    assert Up.Offered([Up.Buf(data, 0)], 0, Up.CHAIN_LIMIT, Up.Unlimited) == |data|;
    assert Up.Settle(max, p, |data|) == q;
    assert Up.WriteLoop(max, p, Up.Unlimited, [Up.Wrote(|data|)]) == Up.Sending(q, false);
    assert [p.s][0 := q.s] == [q.s];
  }

  /** What the session makes of the frames: with room for the payload the SYN for stream 0 is refused by
      the read handler, and without it on behalf of the writer, and one more frame is handled. */
  ghost predicate Plays(conf: Conf, ms: seq<Move>, k: Talk) {
    var o := Script(Outcomes(conf, Start(), ms));
    && Refuses(o)
    && (if conf.maxInput >= 5 then o(3).Continue? && Frames(ms) == k.Five() else o(3).Pause? && Frames(ms) == k.Six())
  }

  /** The outcomes as a script. */
  lemma PlaysBy(conf: Conf, ms: seq<Move>, k: Talk, rest: seq<Outcome>)
    requires Outcomes(conf, Start(), ms)
             == [Continue, Continue, Continue] + [if conf.maxInput >= 5 then Continue else Pause] + rest
    requires if conf.maxInput >= 5 then rest == [Reject] && Frames(ms) == k.Three() + [k.p.f] + [k.y.f]
             else rest == [Reject, Continue] && Frames(ms) == k.Three() + [k.p.f] + [k.y.f, k.x.f]
    ensures Plays(conf, ms, k)
  {
  }

  lemma PlaysPlain(conf: Conf, k: Talk, target: SocksAddr.Addr)
    requires Conversation(k, target) && conf.maxInput >= 5
    ensures Plays(conf, PlainMoves(k), k)
  {
    var ms := PlainMoves(k);
    Pays(conf, k, target);
    var s := Lone(conf, k, target, Filled(k.p.f.data, false), Up.Shared(5, 0, false, false, false));
    Opens(conf, k, target, ms, Answer(s, Continue));
    RefusedByReader(conf, k, s, ms);
    PlaysBy(conf, ms, k, [Reject]);
  }

  lemma RefusedByReader(conf: Conf, k: Talk, s: Served, ms: seq<Move>)
    requires ms == PlainMoves(k) && Valid(s) && k.y.f.cmd == SYN && k.y.f.sid == 0 && s.core.settingsReceived
    ensures Outcomes(conf, s, ms[4..]) == [Reject] && Frames(ms[4..]) == [k.y.f]
  {
    MoveOf(conf, s, ms, 4);
    assert ms[5..] == [];
  }

  lemma RefusesZero(conf: Conf, k: Talk, target: SocksAddr.Addr)
    requires Conversation(k, target)
    ensures var s := Lone(conf, k, target, Sent(k.p.f.data), QUIET); var m := PausedMoves(k)[5];
            && Valid(s) && Serve(conf, s, k.y.f, m.t).outcome == Reject && Valid(Next(conf, s, m))
            && Next(conf, s, m).core.settingsReceived
  {
  }

  lemma RefusedByWriter(conf: Conf, k: Talk, s: Served, ms: seq<Move>)
    requires ms == PausedMoves(k) && Valid(s) && Valid(Next(conf, s, ms[5])) && k.x.f.cmd == WASTE
    requires Next(conf, s, ms[5]).core.settingsReceived && Serve(conf, s, k.y.f, ms[5].t).outcome == Reject
    ensures Outcomes(conf, s, ms[5..]) == [Reject, Continue] && Frames(ms[5..]) == [k.y.f, k.x.f]
  {
    MoveOf(conf, s, ms, 5);
    MoveOf(conf, Next(conf, s, ms[5]), ms, 6);
    assert ms[7..] == [];
  }

  lemma WritesOn(conf: Conf, k: Talk, target: SocksAddr.Addr, s: Served, ms: seq<Move>)
    requires conf.maxInput < 5 && |k.p.f.data| == 5 && ms == PausedMoves(k)
    requires s == Lone(conf, k, target, Filled(k.p.f.data, true), Up.Shared(5, 1, true, true, false))
    ensures Outcomes(conf, s, ms[4..]) == Outcomes(conf, Lone(conf, k, target, Sent(k.p.f.data), QUIET), ms[5..])
    ensures Frames(ms[4..]) == Frames(ms[5..])
  {
    Writes(conf.maxInput, k.p.f.data);
    assert Next(conf, s, ms[4]) == Lone(conf, k, target, Sent(k.p.f.data), QUIET);
    MoveOf(conf, s, ms, 4);
  }

  lemma PlaysPaused(conf: Conf, k: Talk, target: SocksAddr.Addr)
    requires Conversation(k, target) && conf.maxInput < 5
    ensures Plays(conf, PausedMoves(k), k)
  {
    var ms := PausedMoves(k);
    Pays(conf, k, target);
    var s := Lone(conf, k, target, Filled(k.p.f.data, true), Up.Shared(5, 1, true, true, false));
    Opens(conf, k, target, ms, Answer(s, Pause));
    WritesOn(conf, k, target, s, ms);
    RefusesZero(conf, k, target);
    RefusedByWriter(conf, k, Lone(conf, k, target, Sent(k.p.f.data), QUIET), ms);
    PlaysBy(conf, ms, k, [Reject, Continue]);
  }

  // ----- The bytes -----

  /** SETTINGS, SYN 1, the address 127.0.0.1:80, five bytes of payload, SYN 0, and the first three bytes
      of an empty payload frame; then its other four bytes and three zeros, which read as a frame of their
      own. */
  ghost predicate Literal(k: Talk) {
    && k.g.s == [4, 0, 0, 0, 0, 0, 3, 118, 61, 50] && k.n.s == [1, 0, 0, 0, 1, 0, 0]
    && k.a.s == [2, 0, 0, 0, 1, 0, 7, 1, 127, 0, 0, 1, 0, 80] && k.p.s == [2, 0, 0, 0, 1, 0, 5, 9, 9, 9, 9, 9]
    && k.y.s == [1, 0, 0, 0, 0, 0, 0] && k.t == [2, 0, 0] && k.x.s == [0, 1, 0, 0] + [0, 0, 0]
  }

  /** Bytes whose header announces exactly the rest of them. */
  lemma ReadBy(s: Bytes, n: nat) returns (q: Piece)
    requires |s| >= HEADER_LEN && s[0] <= SERVER_SETTINGS && Be16(s[5], s[6]) == n && |s| == HEADER_LEN + n
    ensures q.Reads() && q.s == s
    ensures q.f.cmd == s[0] && q.f.sid == Be32(s[1], s[2], s[3], s[4]) && q.f.data == s[HEADER_LEN..]
  {
    q := Piece(s, ParseFrame(s).value);
    ParseFrameIsIncremental();
    forall rest ensures ParseFrame(s + rest) == Item(q.f, |s|) {
      assert Settled(ParseFrame, s, rest);
    }
  }

  lemma AddressOpens(data: Bytes) returns (target: SocksAddr.Addr)
    requires data == [1, 127, 0, 0, 1, 0, 80]
    ensures FirstPsh.Push(FirstPsh.Waiting([]), data) == FirstPsh.Open(target, [])
  {
    target := SocksAddr.ParseAddr(data).value;
    assert data[7..] == [];
  }

  /** The six frames and what they say. */
  lemma TheTalk() returns (k: Talk, target: SocksAddr.Addr)
    ensures Literal(k) && k.Reads() && Conversation(k, target)
  {
    var g := ReadBy([4, 0, 0, 0, 0, 0, 3, 118, 61, 50], 3);
    var n := ReadBy([1, 0, 0, 0, 1, 0, 0], 0);
    var a := ReadBy([2, 0, 0, 0, 1, 0, 7, 1, 127, 0, 0, 1, 0, 80], 7);
    var p := ReadBy([2, 0, 0, 0, 1, 0, 5, 9, 9, 9, 9, 9], 5);
    var y := ReadBy([1, 0, 0, 0, 0, 0, 0], 0);
    var x := ReadBy([0, 1, 0, 0] + [0, 0, 0], 0);
    k := Talk(g, n, a, p, y, x, [2, 0, 0]);
    target := AddressOpens(a.f.data);
  }

  /** What becomes of a connection with these outcomes: it ends, or it goes on. */
  ghost predicate Diverges(conf: Conf, users: seq<User>, first: Bytes, next: Bytes, ms: seq<Move>) {
    var o := Script(Outcomes(conf, Start(), ms));
    (conf.maxInput >= 5 ==> Ends(users, o, first, Frames(ms)))
    && (conf.maxInput < 5 ==> GoesOn(users, o, first, next, Frames(ms)))
  }

  lemma PlayedApart(conf: Conf, users: seq<User>, hs: Bytes, name: Bytes, k: Talk, ms: seq<Move>)
    requires k.Reads() && Plays(conf, ms, k) && ParseAuth(users, hs + k.Body()) == Item(name, |hs|)
    ensures Diverges(conf, users, hs + k.Body(), k.x.s, ms)
  {
    var o := Script(Outcomes(conf, Start(), ms));
    if conf.maxInput >= 5 {
      EndsWithoutPause(users, o, hs, name, k);
    } else {
      GoesOnWithPause(users, o, hs, name, k);
    }
  }

  /** The failing input, behind any handshake. With an input limit of at least five bytes the session
      refuses the SYN for stream 0 and the connection ends. With a smaller one the payload pauses input, the
      same SYN is refused on behalf of the stream's own writer, the connection goes on, and the last frame it
      handles is one that the client never sent. */
  lemma PausesMatter(conf: Conf) returns (k: Talk, ms: seq<Move>)
    ensures Literal(k)
    ensures forall users, hs, name :: ParseAuth(users, hs + k.Body()) == Item(name, |hs|) ==>
              Diverges(conf, users, hs + k.Body(), k.x.s, ms)
    ensures conf.maxInput < 5 ==> |Frames(ms)| == 6 && Frames(ms)[4].cmd == SYN && Frames(ms)[5].cmd == WASTE
  {
    var target;
    k, target := TheTalk();
    if conf.maxInput >= 5 {
      ms := PlainMoves(k);
      PlaysPlain(conf, k, target);
    } else {
      ms := PausedMoves(k);
      PlaysPaused(conf, k, target);
    }
    forall users, hs, name | ParseAuth(users, hs + k.Body()) == Item(name, |hs|)
      ensures Diverges(conf, users, hs + k.Body(), k.x.s, ms)
    {
      PlayedApart(conf, users, hs, name, k, ms);
    }
  }

  /** Every user, without padding, opens such a connection. */
  lemma HandshakeIsGranted(users: seq<User>, hash: Bytes, rest: Bytes)
    requires |hash| == HASH_LEN && FirstUser(users, hash).Somebody?
    ensures ParseAuth(users, (hash + [0, 0]) + rest) == Item(FirstUser(users, hash).name, |hash + [0, 0]|)
  {
    var s := (hash + [0, 0]) + rest;
    assert s[..HASH_LEN] == hash && s[32] == 0 && s[33] == 0;
  }
}
