/**
  Datagrams inside a stream, client to server: payload of any size is collected in a buffer of
  64 KiB and cut into datagrams again.
  */
module UotStream {
  import opened Bytes
  import opened Callers
  import opened StreamDecoder
  import opened SocksAddr

  const RECV_LIMIT: nat := 65536

  // ----- One-shot deframing -----

  datatype Req = Req(connect: bool, target: Addr)

  /** The request in front of a version 2 stream: connect or not, and the target. */
  function ParseRequest(s: Bytes): (r: Parsed<Req>)
    ensures r.Item? ==> 0 < r.consumed <= |s|
  {
    if |s| < 1 then More
    else
      match ParseAddr(s[1..])
      case More => More
      case Bad => Bad
      case Item(a, n) => Item(Req(s[0] != 0, a), 1 + n)
  }

  lemma RequestSettles(s: Bytes, t: Bytes)
    ensures !ParseRequest(s).More? ==> ParseRequest(s + t) == ParseRequest(s)
  {
    if |s| >= 1 {
      assert (s + t)[1..] == s[1..] + t;
      ParseAddrSettles(s[1..], t);
    }
  }

  /** How a stream's bytes are read: request first, sized datagrams to one target, or packets that
      carry their own address. */
  datatype Framing = Request | Connect(target: Addr) | Packets

  function To(a: Addr, payloads: seq<Bytes>): (ps: seq<Packet>)
    ensures |ps| == |payloads| && forall i :: 0 <= i < |ps| ==> ps[i] == Packet(a, payloads[i])
  {
    seq(|payloads|, i requires 0 <= i < |payloads| => Packet(a, payloads[i]))
  }

  lemma ToAppend(a: Addr, x: seq<Bytes>, y: seq<Bytes>)
    ensures To(a, x + y) == To(a, x) + To(a, y)
  {
  }

  /** The datagrams of bytes that follow the request. */
  function Datagrams(f: Framing, s: Bytes): Decoded<Packet> {
    match f
    case Request => Decoded([], s, false)
    case Connect(a) => var d := Decode(ParseSized, s); Decoded(To(a, d.items), d.rest, d.bad)
    case Packets => Decode(ParsePacket, s)
  }

  lemma DatagramsAppend(f: Framing, s: Bytes, t: Bytes)
    requires !f.Request?
    ensures var d := Datagrams(f, s);
            Datagrams(f, s + t) == if d.bad then d.(rest := d.rest + t) else Join(d, Datagrams(f, d.rest + t))
  {
    if f.Packets? {
      ParsePacketIsIncremental();
      DecodeAppend(ParsePacket, s, t);
    } else {
      ParseSizedIsIncremental();
      DecodeAppend(ParseSized, s, t);
      var d := Decode(ParseSized, s);
      ToAppend(f.target, d.items, Decode(ParseSized, d.rest + t).items);
    }
  }

  datatype Reading = Reading(framing: Framing, d: Decoded<Packet>)

  /** What follows the request. */
  function Body(start: Framing, all: Bytes): Bytes {
    if start.Request? && ParseRequest(all).Item? then all[ParseRequest(all).consumed..] else all
  }

  /** Everything at once. */
  function ReadAll(start: Framing, all: Bytes): Reading {
    if !start.Request? then Reading(start, Datagrams(start, all))
    else
      match ParseRequest(all)
      case More => Reading(Request, Decoded([], all, false))
      case Bad => Reading(Request, Decoded([], all, true))
      case Item(req, _) =>
        var f := if req.connect then Connect(req.target) else Packets;
        Reading(f, Datagrams(f, Body(start, all)))
  }

  // ----- Payload by payload -----

  /** `held` is the receive buffer; `waiting` for the resolver to answer for a connect target; `failed`
      means that the stream is at its end. `taken`, the bytes done with, and `parsed`, how many of them
      the request took, are histories. */
  datatype Uot = Uot(
    framing: Framing, resolved: bool, waiting: bool, held: Bytes, out: seq<Packet>, failed: bool,
    taken: Bytes, parsed: nat)

  datatype Answer = Resolves | Waits | Fails

  datatype Event = Payload(data: Bytes, answer: Answer, who: Caller) | Answered(ok: bool)

  /** What an attempt to use the buffer leads to. */
  datatype Attempt = Attempt(u: Uot, failed: bool)

  function Advanced(u: Uot, n: nat): Uot
    requires n <= |u.held|
  {
    u.(held := u.held[n..], taken := u.taken + u.held[..n])
  }

  /** Take the datagrams behind the first `skip` bytes. The buffer is only advanced if none of them is
      malformed. */
  function Cut(u: Uot, skip: nat): Attempt
    requires skip <= |u.held|
  {
    Took(u, Datagrams(u.framing, u.held[skip..]))
  }

  function Took(u: Uot, d: Decoded<Packet>): Attempt
    requires |d.rest| <= |u.held|
  {
    var v := u.(out := u.out + d.items);
    if d.bad then Attempt(v, true) else Attempt(Advanced(v, |u.held| - |d.rest|), false)
  }

  /** A connect target given by name has to be resolved before datagrams are taken. */
  function Continue(u: Uot, skip: nat, answer: Answer): Attempt
    requires skip <= |u.held|
  {
    if u.framing.Connect? && u.framing.target.Domain? && !u.resolved then
      match answer
      case Waits => Attempt(Advanced(u, skip).(waiting := true), false)
      case Fails => Attempt(u, true)
      case Resolves => Cut(u.(resolved := true), skip)
    else Cut(u, skip)
  }

  function Adopted(u: Uot, req: Req, n: nat): Uot {
    u.(framing := if req.connect then Connect(req.target) else Packets, parsed := n)
  }

  function Deframe(u: Uot, answer: Answer): Attempt {
    if !u.framing.Request? then Continue(u, 0, answer)
    else
      match ParseRequest(u.held)
      case More => Attempt(u, false)
      case Bad => Attempt(u, true)
      case Item(req, n) => Continue(Adopted(u, req, n), n, answer)
  }

  predicate Overflows(u: Uot, data: Bytes) {
    |u.held| + |data| > RECV_LIMIT
  }

  function Receive(u: Uot, data: Bytes, answer: Answer): Attempt {
    if Overflows(u, data) then Attempt(u, true)
    else if u.waiting then Attempt(u.(held := u.held + data), false)
    else Deframe(u.(held := u.held + data), answer)
  }

  /** The resolver's answer. */
  function Resume(u: Uot, ok: bool): Uot {
    if !ok then u.(failed := true)
    else
      var a := Cut(u.(waiting := false, resolved := true), 0);
      if a.failed then a.u.(failed := true) else a.u
  }

  /** A failure ends the stream when it is met by the read handler or on the resolver's answer. */
  function Step(u: Uot, e: Event): Uot {
    if u.failed then u
    else
      match e
      case Payload(data, answer, who) =>
        var a := Receive(u, data, answer);
        if a.failed && who.Reader? then a.u.(failed := true) else a.u
      case Answered(ok) => if u.waiting then Resume(u, ok) else u
  }

  /** Event after event, with any step function. */
  function Fold<S, E>(step: (S, E) -> S, s: S, es: seq<E>): S
    decreases |es|
  {
    if es == [] then s else Fold(step, step(s, es[0]), es[1..])
  }

  function Run(u: Uot, es: seq<Event>): Uot {
    Fold(Step, u, es)
  }

  function Opened(start: Framing): Uot {
    Uot(start, false, false, [], [], false, [], 0)
  }

  function Data(e: Event): Bytes {
    if e.Payload? then e.data else []
  }

  /** All bytes pushed in a run. */
  function Pushed(es: seq<Event>): Bytes
    decreases |es|
  {
    if es == [] then [] else Data(es[0]) + Pushed(es[1..])
  }

  /** A failure that the stream survives: it was met in a resume called by a writer or a discard. */
  predicate Survives(u: Uot, e: Event) {
    !u.failed && e.Payload? && !e.who.Reader? && Receive(u, e.data, e.answer).failed
  }

  /** The surviving failure has lost bytes, or has used some without being done with them. */
  predicate Harms(u: Uot, e: Event) {
    && Survives(u, e)
    && var v := Receive(u, e.data, e.answer).u;
       Overflows(u, e.data) || v.out != u.out || v.framing != u.framing
  }

  /** On the way from `s` some event met `p`. */
  predicate Met<S, E>(step: (S, E) -> S, p: (S, E) -> bool, s: S, es: seq<E>)
    decreases |es|
  {
    es != [] && (p(s, es[0]) || Met(step, p, step(s, es[0]), es[1..]))
  }

  predicate HarmedIn(u: Uot, es: seq<Event>) {
    Met(Step, Harms, u, es)
  }

  predicate SurvivedIn(u: Uot, es: seq<Event>) {
    Met(Step, Survives, u, es)
  }

  // ----- Cuts do not matter -----

  lemma {:induction false} NoSizedIsBad(s: Bytes)
    ensures !Decode(ParseSized, s).bad
    decreases |s|
  {
    if ParseSized(s).Item? {
      NoSizedIsBad(s[ParseSized(s).consumed..]);
    }
  }

  /** What is in front of the rest yields the same datagrams, and the rest none. */
  lemma FrontOfDatagrams(f: Framing, s: Bytes)
    requires !f.Request?
    ensures var d := Datagrams(f, s); var m := |s| - |d.rest|;
            && m >= 0 && s[m..] == d.rest
            && (!d.bad ==> Datagrams(f, s[..m]) == Decoded(d.items, [], false)
                           && Datagrams(f, d.rest) == Decoded([], d.rest, false))
  {
    if f.Packets? {
      ParsePacketIsIncremental();
      forall t ensures Tight(ParsePacket, t) {
        PacketIsTight(t);
      }
      ConsumedDecodes(ParsePacket, s);
    } else {
      ParseSizedIsIncremental();
      forall t ensures Tight(ParseSized, t) {
        SizedIsTight(t);
      }
      ConsumedDecodes(ParseSized, s);
    }
  }

  lemma BodyAppend(start: Framing, all: Bytes, data: Bytes)
    requires !ReadAll(start, all).framing.Request?
    ensures Body(start, all + data) == Body(start, all) + data
    ensures ReadAll(start, all + data).framing == ReadAll(start, all).framing
    ensures var f := ReadAll(start, all).framing; ReadAll(start, all).d == Datagrams(f, Body(start, all))
    ensures var f := ReadAll(start, all).framing; ReadAll(start, all + data).d == Datagrams(f, Body(start, all + data))
  {
    if start.Request? {
      RequestSettles(all, data);
      var n := ParseRequest(all).consumed;
      assert (all + data)[n..] == all[n..] + data;
    }
  }

  /** Reading goes on where it stopped. */
  lemma ReadMore(start: Framing, all: Bytes, more: Bytes)
    requires !ReadAll(start, all).framing.Request? && !ReadAll(start, all).d.bad
    ensures var r := ReadAll(start, all);
            ReadAll(start, all + more) == Reading(r.framing, Join(r.d, Datagrams(r.framing, r.d.rest + more)))
  {
    BodyAppend(start, all, more);
    DatagramsAppend(ReadAll(start, all).framing, Body(start, all), more);
  }

  /** More bytes only add datagrams. */
  lemma ReadAllExtends(start: Framing, all: Bytes, more: Bytes)
    ensures IsPrefix(ReadAll(start, all).d.items, ReadAll(start, all + more).d.items)
  {
    var f := ReadAll(start, all).framing;
    if !f.Request? {
      BodyAppend(start, all, more);
      DatagramsAppend(f, Body(start, all), more);
    }
  }

  /** What was passed on stands for the bytes done with. */
  ghost predicate Done(start: Framing, u: Uot) {
    && ReadAll(start, u.taken) == Reading(u.framing, Decoded(u.out, [], false))
    && u.parsed + |Body(start, u.taken)| == |u.taken|
  }

  /** On track: no byte is lost, and the datagrams passed on are those of the bytes done with. */
  ghost predicate OnTrack(start: Framing, u: Uot, all: Bytes) {
    u.taken + u.held == all && Done(start, u)
  }

  /** While no name is being resolved, the buffer holds nothing that could be used. */
  ghost predicate Used(u: Uot) {
    !u.waiting ==>
      if u.framing.Request? then ParseRequest(u.held).More?
        else Datagrams(u.framing, u.held) == Decoded([], u.held, false)
  }

  lemma NothingTaken(start: Framing, u: Uot)
    requires Done(start, u) && u.framing.Request?
    ensures start.Request? && u.taken == [] && u.out == [] && u.parsed == 0
  {
  }

  /** The buffer holds what follows the bytes done with, or starts with the request, of `skip` bytes. */
  ghost predicate Ready(start: Framing, u: Uot, skip: nat) {
    && skip <= |u.held| && !u.framing.Request?
    && if skip == 0 then Done(start, u)
       else start.Request? && u.taken == [] && u.out == [] && u.parsed == skip
            && ParseRequest(u.held).Item? && ParseRequest(u.held).consumed == skip
            && u.framing == Adopted(u, ParseRequest(u.held).value, skip).framing
  }

  /** The next datagrams. */
  lemma MoreIsDone(start: Framing, u: Uot, front: Bytes, ps: seq<Packet>)
    requires Done(start, u) && !u.framing.Request? && Datagrams(u.framing, front) == Decoded(ps, [], false)
    ensures Done(start, u.(out := u.out + ps, taken := u.taken + front))
  {
    BodyAppend(start, u.taken, front);
    ReadMore(start, u.taken, front);
    assert [] + front == front;
  }

  /** The request and the first datagrams. */
  lemma FirstIsDone(start: Framing, u: Uot, front: Bytes, ps: seq<Packet>)
    requires start.Request? && u.taken == [] && u.out == [] && ParseRequest(front).Item?
    requires u.parsed == ParseRequest(front).consumed
    requires u.framing == Adopted(u, ParseRequest(front).value, u.parsed).framing
    requires Datagrams(u.framing, front[u.parsed..]) == Decoded(ps, [], false)
    ensures Done(start, u.(out := u.out + ps, taken := u.taken + front))
  {
    assert [] + front == front && [] + ps == ps;
  }

  /** The datagrams in front of the rest, taken behind a request of `skip` bytes or none. */
  lemma AdvanceIsDone(start: Framing, u: Uot, skip: nat, d: Decoded<Packet>)
    requires Ready(start, u, skip) && d == Datagrams(u.framing, u.held[skip..]) && !d.bad
    ensures var m := |u.held| - |d.rest|;
            skip <= m && Done(start, Advanced(u.(out := u.out + d.items), m))
              && Used(Advanced(u.(out := u.out + d.items), m))
  {
    var s := u.held[skip..];
    FrontOfDatagrams(u.framing, s);
    var m := |u.held| - |d.rest|;
    assert u.held[m..] == s[m - skip..] == d.rest;
    assert u.held[..m][skip..] == s[..m - skip];
    if skip == 0 {
      assert u.held[..m] == s[..m];
      MoreIsDone(start, u, u.held[..m], d.items);
    } else {
      RequestAlone(u.held, skip, m);
      FirstIsDone(start, u, u.held[..m], d.items);
    }
  }

  /** A request is read from its own bytes. */
  lemma RequestAlone(s: Bytes, n: nat, m: nat)
    requires ParseRequest(s).Item? && ParseRequest(s).consumed == n <= m <= |s|
    ensures ParseRequest(s[..m]) == ParseRequest(s)
  {
    AddrIsTight(s[1..]);
    assert s[..n][1..] == s[1..][..n - 1];
    assert ParseRequest(s[..n]) == ParseRequest(s);
    RequestSettles(s[..n], s[n..m]);
    assert s[..n] + s[n..m] == s[..m];
  }

  lemma Regroup(taken: Bytes, held: Bytes, n: nat)
    requires n <= |held|
    ensures taken + held[..n] + held[n..] == taken + held
  {
  }

  lemma CutOnTrack(start: Framing, u: Uot, skip: nat)
    requires Ready(start, u, skip)
    ensures var a := Cut(u, skip); !a.failed ==> OnTrack(start, a.u, u.taken + u.held) && Used(a.u)
  {
    var d := Datagrams(u.framing, u.held[skip..]);
    if !d.bad {
      var m := |u.held| - |d.rest|;
      var v := Advanced(u.(out := u.out + d.items), m);
      assert Cut(u, skip) == Attempt(v, false);
      AdvanceIsDone(start, u, skip, d);
      Regroup(u.taken, u.held, m);
    }
  }

  /** An attempt that succeeds stays on track and leaves nothing to use. */
  lemma ContinueOnTrack(start: Framing, u: Uot, skip: nat, answer: Answer)
    requires Ready(start, u, skip) && !u.waiting
    ensures var a := Continue(u, skip, answer); !a.failed ==> OnTrack(start, a.u, u.taken + u.held) && Used(a.u)
  {
    if !(u.framing.Connect? && u.framing.target.Domain? && !u.resolved) {
      CutOnTrack(start, u, skip);
    } else if answer.Resolves? {
      CutOnTrack(start, u.(resolved := true), skip);
    } else if answer.Waits? {
      Regroup(u.taken, u.held, skip);
      RequestTaken(start, u, skip);
    }
  }

  /** The request is done with and its target is being resolved. */
  lemma RequestTaken(start: Framing, u: Uot, skip: nat)
    requires Ready(start, u, skip) && u.framing.Connect?
    ensures Done(start, Advanced(u, skip).(waiting := true))
  {
    if skip == 0 {
      assert u.taken + u.held[..0] == u.taken;
    } else {
      RequestAlone(u.held, skip, skip);
      assert [] + u.held[..skip] == u.held[..skip] && u.held[..skip][skip..] == [];
    }
  }

  lemma PayloadOnTrack(start: Framing, u: Uot, data: Bytes, answer: Answer, all: Bytes)
    requires OnTrack(start, u, all)
    ensures var a := Receive(u, data, answer);
            !a.failed ==> OnTrack(start, a.u, all + data) && Used(a.u)
  {
    if !Overflows(u, data) {
      var v := u.(held := u.held + data);
      assert u.taken + v.held == all + data;
      if !u.waiting {
        if u.framing.Request? {
          NothingTaken(start, u);
          match ParseRequest(v.held)
          case Item(req, n) => ContinueOnTrack(start, Adopted(v, req, n), n, answer);
          case _ =>
        } else {
          ContinueOnTrack(start, v, 0, answer);
        }
      }
    }
  }

  lemma AnswerOnTrack(start: Framing, u: Uot, all: Bytes)
    requires OnTrack(start, u, all) && u.waiting && u.framing.Connect?
    ensures var a := Cut(u.(waiting := false, resolved := true), 0);
            !a.failed && OnTrack(start, a.u, all) && Used(a.u)
  {
    var v := u.(waiting := false, resolved := true);
    assert v.held[0..] == v.held;
    NoSizedIsBad(v.held);
    var d := Datagrams(v.framing, v.held);
    AdvanceIsDone(start, v, 0, d);
    Regroup(v.taken, v.held, |v.held| - |d.rest|);
  }

  // ----- Off track -----

  /** The bytes the datagrams of a framing took. */
  function WireSize(f: Framing): Packet -> nat {
    if f.Connect? then (p: Packet) => SizedSize(p.payload) else PacketSize
  }

  lemma {:induction false} PayloadSizes(a: Addr, payloads: seq<Bytes>)
    ensures SumOf(WireSize(Connect(a)), To(a, payloads)) == SumOf(SizedSize, payloads)
    decreases |payloads|
  {
    if payloads != [] {
      PayloadSizes(a, payloads[1..]);
      assert To(a, payloads)[1..] == To(a, payloads[1..]);
    }
  }

  lemma DatagramsTakeBytes(f: Framing, s: Bytes)
    requires !f.Request?
    ensures var d := Datagrams(f, s); |s| == SumOf(WireSize(f), d.items) + |d.rest|
  {
    if f.Packets? {
      ParsePacketIsIncremental();
      forall t ensures SizedBy(ParsePacket, PacketSize, t) {
        PacketIsTight(t);
      }
      ItemsTakeBytes(ParsePacket, PacketSize, s);
    } else {
      ParseSizedIsIncremental();
      forall t ensures SizedBy(ParseSized, SizedSize, t) {
        SizedIsTight(t);
      }
      ItemsTakeBytes(ParseSized, SizedSize, s);
      PayloadSizes(f.target, Decode(ParseSized, s).items);
    }
  }

  /** What was passed on and the request, in bytes. */
  function Spent(u: Uot): nat {
    u.parsed + SumOf(WireSize(u.framing), u.out)
  }

  /** Bytes are missing, or more was passed on than the buffer is done with. */
  predicate OffTrack(u: Uot, all: Bytes) {
    |u.taken| + |u.held| < |all| || |u.taken| < Spent(u)
  }

  /** Before the request is read nothing was passed on; only a connect target is waited for. */
  predicate Sane(u: Uot) {
    && |u.held| <= RECV_LIMIT && (u.waiting ==> u.framing.Connect?)
    && (u.framing.Request? ==> u.out == [] && u.parsed == 0)
  }

  lemma ContinueSane(u: Uot, skip: nat, answer: Answer)
    requires skip <= |u.held| && !u.framing.Request?
    ensures var v := Continue(u, skip, answer).u;
            |v.held| <= |u.held| && v.framing == u.framing && (v.waiting ==> u.waiting || u.framing.Connect?)
  {
  }

  lemma PayloadSane(u: Uot, data: Bytes, answer: Answer)
    requires Sane(u)
    ensures Sane(Receive(u, data, answer).u)
  {
    if !Overflows(u, data) && !u.waiting {
      var v := u.(held := u.held + data);
      if !v.framing.Request? {
        ContinueSane(v, 0, answer);
      } else if ParseRequest(v.held).Item? {
        var r := ParseRequest(v.held);
        ContinueSane(Adopted(v, r.value, r.consumed), r.consumed, answer);
      }
    }
  }

  lemma StepSane(u: Uot, e: Event)
    requires Sane(u)
    ensures Sane(Step(u, e))
  {
    if e.Payload? {
      PayloadSane(u, e.data, e.answer);
    }
  }

  lemma OffIsNotOn(start: Framing, u: Uot, all: Bytes)
    requires OffTrack(u, all)
    ensures !OnTrack(start, u, all)
  {
    if OnTrack(start, u, all) {
      if u.framing.Request? {
        NothingTaken(start, u);
      } else {
        BodyAppend(start, u.taken, []);
        DatagramsTakeBytes(u.framing, Body(start, u.taken));
      }
    }
  }

  /** Cutting passes on at most what it is done with, and keeps all bytes. */
  lemma CutSpends(u: Uot, skip: nat)
    requires skip <= |u.held| && !u.framing.Request?
    ensures var a := Cut(u, skip); var d := Datagrams(u.framing, u.held[skip..]);
            && |a.u.taken| + |a.u.held| == |u.taken| + |u.held| && a.u.parsed == u.parsed && a.u.framing == u.framing
            && Spent(a.u) == Spent(u) + SumOf(WireSize(u.framing), d.items)
            && (if a.failed then a.u.taken == u.taken
                else |a.u.taken| == |u.taken| + skip + SumOf(WireSize(u.framing), d.items))
  {
    var d := Datagrams(u.framing, u.held[skip..]);
    DatagramsTakeBytes(u.framing, u.held[skip..]);
    SumOfAppend(WireSize(u.framing), u.out, d.items);
  }

  /** What an attempt makes of the account. */
  ghost predicate Accounted(u: Uot, a: Attempt) {
    && |a.u.taken| + |a.u.held| == |u.taken| + |u.held|
    && Spent(a.u) - |a.u.taken| >= Spent(u) - |u.taken|
    && (a.failed && (a.u.out != u.out || a.u.framing != u.framing) ==>
          Spent(a.u) - |a.u.taken| > Spent(u) - |u.taken|)
  }

  lemma {:induction false} DatagramsWeigh(f: Framing, ps: seq<Packet>)
    ensures ps != [] ==> SumOf(WireSize(f), ps) > 0
    decreases |ps|
  {
  }

  lemma ContinueAccounted(u: Uot, skip: nat, answer: Answer)
    requires skip <= |u.held| && !u.framing.Request?
    ensures var a := Continue(u, skip, answer);
            && |a.u.taken| + |a.u.held| == |u.taken| + |u.held| && a.u.framing == u.framing
            && (if a.failed then Spent(a.u) - |a.u.taken| >= Spent(u) - |u.taken|
                else Spent(a.u) - |a.u.taken| == Spent(u) - |u.taken| - skip)
            && (a.failed && a.u.out != u.out ==> Spent(a.u) - |a.u.taken| > Spent(u) - |u.taken|)
  {
    if !(u.framing.Connect? && u.framing.target.Domain? && !u.resolved) {
      CutAccounted(u, skip);
    } else if answer.Resolves? {
      CutAccounted(u.(resolved := true), skip);
    }
  }

  lemma CutAccounted(u: Uot, skip: nat)
    requires skip <= |u.held| && !u.framing.Request?
    ensures var a := Cut(u, skip);
            && |a.u.taken| + |a.u.held| == |u.taken| + |u.held| && a.u.framing == u.framing
            && (if a.failed then Spent(a.u) - |a.u.taken| >= Spent(u) - |u.taken|
                else Spent(a.u) - |a.u.taken| == Spent(u) - |u.taken| - skip)
            && (a.failed && a.u.out != u.out ==> Spent(a.u) - |a.u.taken| > Spent(u) - |u.taken|)
  {
    CutSpends(u, skip);
    var ps := Datagrams(u.framing, u.held[skip..]).items;
    DatagramsWeigh(u.framing, ps);
    if ps == [] {
      assert u.out + [] == u.out;
    }
  }

  lemma DeframeAccounted(u: Uot, answer: Answer)
    requires Sane(u)
    ensures Accounted(u, Deframe(u, answer))
  {
    if !u.framing.Request? {
      ContinueAccounted(u, 0, answer);
    } else if ParseRequest(u.held).Item? {
      var r := ParseRequest(u.held);
      ContinueAccounted(Adopted(u, r.value, r.consumed), r.consumed, answer);
    }
  }

  lemma PayloadOff(u: Uot, data: Bytes, answer: Answer)
    requires Sane(u) && !Overflows(u, data)
    ensures Accounted(u.(held := u.held + data), Receive(u, data, answer))
  {
    if !u.waiting {
      DeframeAccounted(u.(held := u.held + data), answer);
    }
  }

  /** Off track is where a harmful failure leads, and there is no way back. */
  lemma StepOff(u: Uot, e: Event, all: Bytes)
    requires Sane(u) && !u.failed && !Step(u, e).failed
    requires OffTrack(u, all) || (Harms(u, e) && |u.taken| + |u.held| <= |all| && |u.taken| <= Spent(u))
    ensures OffTrack(Step(u, e), all + Data(e))
  {
    match e
    case Payload(data, answer, who) =>
      if !Overflows(u, data) {
        PayloadOff(u, data, answer);
      }
    case Answered(ok) =>
      if u.waiting && ok {
        CutSpends(u.(waiting := false, resolved := true), 0);
      }
  }

  // ----- Over every run -----

  /** What holds of a living stream. */
  ghost predicate Good(start: Framing, u: Uot, all: Bytes) {
    OnTrack(start, u, all) && Sane(u)
  }

  lemma OnTrackBalances(start: Framing, u: Uot, all: Bytes)
    requires OnTrack(start, u, all)
    ensures |u.taken| + |u.held| == |all| && |u.taken| == Spent(u)
  {
    if u.framing.Request? {
      NothingTaken(start, u);
    } else {
      BodyAppend(start, u.taken, []);
      DatagramsTakeBytes(u.framing, Body(start, u.taken));
    }
  }

  /** A surviving failure that does no harm leaves the stream on track. */
  lemma HarmlessOnTrack(start: Framing, u: Uot, e: Event, all: Bytes)
    requires Good(start, u, all) && !u.failed && Survives(u, e) && !Harms(u, e)
    ensures OnTrack(start, Step(u, e), all + Data(e))
  {
    assert u.taken + (u.held + e.data) == all + e.data;
    UnharmedState(u, e);
  }

  lemma UnharmedState(u: Uot, e: Event)
    requires !u.failed && Survives(u, e) && !Harms(u, e) && Sane(u)
    ensures var v := Step(u, e); v.held == u.held + e.data && v.taken == u.taken && v.parsed == u.parsed
    ensures Step(u, e).out == u.out && Step(u, e).framing == u.framing
  {
  }

  lemma StepGood(start: Framing, u: Uot, e: Event, all: Bytes)
    requires Good(start, u, all) && !u.failed && !Step(u, e).failed && !Harms(u, e)
    ensures Good(start, Step(u, e), all + Data(e)) && (Used(u) && !Survives(u, e) ==> Used(Step(u, e)))
  {
    StepSane(u, e);
    if e.Payload? {
      if Survives(u, e) {
        HarmlessOnTrack(start, u, e, all);
      } else {
        PayloadOnTrack(start, u, e.data, e.answer, all);
      }
    } else {
      assert all + [] == all;
      if u.waiting && e.ok {
        AnswerOnTrack(start, u, all);
      }
    }
  }

  ghost predicate KeptUnless<S>(step: (S, Event) -> S, keep: (S, Bytes) -> bool, harms: (S, Event) -> bool, s: S,
                                e: Event, all: Bytes)
  {
    keep(s, all) && !harms(s, e) ==> keep(step(s, e), all + Data(e))
  }

  lemma PushedNext(es: seq<Event>, all: Bytes)
    requires es != []
    ensures all + Data(es[0]) + Pushed(es[1..]) == all + Pushed(es)
  {
    Associates(all, Data(es[0]), Pushed(es[1..]));
  }

  lemma Associates(a: Bytes, b: Bytes, c: Bytes)
    ensures a + b + c == a + (b + c)
  {
  }

  lemma {:induction false} FoldUnharmed<S(!new)>(step: (S, Event) -> S, keep: (S, Bytes) -> bool,
                                                 harms: (S, Event) -> bool, s: S, es: seq<Event>, all: Bytes)
    requires keep(s, all) && !Met(step, harms, s, es)
    requires forall t, e, bytes :: KeptUnless(step, keep, harms, t, e, bytes)
    ensures keep(Fold(step, s, es), all + Pushed(es))
    decreases |es|
  {
    if es == [] {
      assert all + Pushed(es) == all;
    } else {
      assert KeptUnless(step, keep, harms, s, es[0], all);
      FoldUnharmed(step, keep, harms, step(s, es[0]), es[1..], all + Data(es[0]));
      PushedNext(es, all);
    }
  }

  /** Off the way there is no way back, and harm leads there. */
  ghost predicate LostBy<S>(step: (S, Event) -> S, keep: (S, Bytes) -> bool, off: (S, Bytes) -> bool,
                            harms: (S, Event) -> bool, s: S, e: Event, all: Bytes)
  {
    off(s, all) || (keep(s, all) && harms(s, e)) ==> off(step(s, e), all + Data(e))
  }

  lemma {:induction false} FoldOff<S(!new)>(step: (S, Event) -> S, keep: (S, Bytes) -> bool,
                                            off: (S, Bytes) -> bool, harms: (S, Event) -> bool, s: S, es: seq<Event>,
                                            all: Bytes)
    requires off(s, all) && forall t, e, bytes :: LostBy(step, keep, off, harms, t, e, bytes)
    ensures off(Fold(step, s, es), all + Pushed(es))
    decreases |es|
  {
    if es == [] {
      assert all + Pushed(es) == all;
    } else {
      assert LostBy(step, keep, off, harms, s, es[0], all);
      FoldOff(step, keep, off, harms, step(s, es[0]), es[1..], all + Data(es[0]));
      PushedNext(es, all);
    }
  }

  lemma {:induction false} FoldHarmed<S(!new)>(step: (S, Event) -> S, keep: (S, Bytes) -> bool,
                                               off: (S, Bytes) -> bool, harms: (S, Event) -> bool, s: S,
                                               es: seq<Event>, all: Bytes)
    requires keep(s, all) && Met(step, harms, s, es)
    requires forall t, e, bytes :: KeptUnless(step, keep, harms, t, e, bytes)
    requires forall t, e, bytes :: LostBy(step, keep, off, harms, t, e, bytes)
    ensures off(Fold(step, s, es), all + Pushed(es))
    decreases |es|
  {
    assert KeptUnless(step, keep, harms, s, es[0], all);
    assert LostBy(step, keep, off, harms, s, es[0], all);
    if harms(s, es[0]) {
      FoldOff(step, keep, off, harms, step(s, es[0]), es[1..], all + Data(es[0]));
    } else {
      FoldHarmed(step, keep, off, harms, step(s, es[0]), es[1..], all + Data(es[0]));
    }
    PushedNext(es, all);
  }

  lemma AttemptPrefix(start: Framing, u: Uot, data: Bytes, answer: Answer)
    requires Done(start, u) && Receive(u, data, answer).failed
    ensures IsPrefix(Receive(u, data, answer).u.out, ReadAll(start, u.taken + (u.held + data)).d.items)
  {
    if Overflows(u, data) {
      ReadAllExtends(start, u.taken, u.held + data);
    } else {
      var v := u.(held := u.held + data);
      assert Done(start, v) && Receive(u, data, answer) == Deframe(v, answer);
      DeframePrefix(start, v, answer);
    }
  }

  /** A failure at the end of the stream has passed on no more than the bytes hold. */
  lemma FailingPrefix(start: Framing, u: Uot, e: Event, all: Bytes)
    requires Good(start, u, all) && !u.failed && Step(u, e).failed
    ensures IsPrefix(Step(u, e).out, ReadAll(start, all + Data(e)).d.items)
  {
    Associates(u.taken, u.held, Data(e));
    match e
    case Payload(data, answer, _) => AttemptPrefix(start, u, data, answer);
    case Answered(ok) =>
      ReadAllExtends(start, u.taken, u.held);
      assert all + [] == all;
      if ok {
        AnswerOnTrack(start, u, all);
      }
  }

  lemma DeframePrefix(start: Framing, u: Uot, answer: Answer)
    requires Done(start, u) && !u.waiting && Deframe(u, answer).failed
    ensures IsPrefix(Deframe(u, answer).u.out, ReadAll(start, u.taken + u.held).d.items)
  {
    ReadAllExtends(start, u.taken, u.held);
    if u.framing.Request? {
      NothingTaken(start, u);
      assert [] + u.held == u.held;
      if ParseRequest(u.held).Item? {
        var r := ParseRequest(u.held);
        ContinuePrefix(start, Adopted(u, r.value, r.consumed), r.consumed, answer);
      }
    } else {
      ContinuePrefix(start, u, 0, answer);
    }
  }

  lemma ContinuePrefix(start: Framing, u: Uot, skip: nat, answer: Answer)
    requires Ready(start, u, skip) && Continue(u, skip, answer).failed
    ensures IsPrefix(Continue(u, skip, answer).u.out, ReadAll(start, u.taken + u.held).d.items)
  {
    ReadyReadsAll(start, u, skip);
    var d := Datagrams(u.framing, u.held[skip..]);
    assert IsPrefix(u.out, u.out + d.items);
  }

  /** All bytes hold what was passed on and what the buffer holds. */
  lemma ReadyReadsAll(start: Framing, u: Uot, skip: nat)
    requires Ready(start, u, skip)
    ensures ReadAll(start, u.taken + u.held).d.items == u.out + Datagrams(u.framing, u.held[skip..]).items
  {
    if skip == 0 {
      ReadMore(start, u.taken, u.held);
      assert [] + u.held == u.held && u.held[0..] == u.held;
    } else {
      assert [] + u.held == u.held;
      var d := Datagrams(u.framing, u.held[skip..]);
      assert [] + d.items == d.items;
    }
  }

  /** As long as nothing does harm: on track, or at the end with the first datagrams of all bytes. */
  ghost predicate Unharmed(start: Framing, u: Uot, all: Bytes) {
    if u.failed then IsPrefix(u.out, ReadAll(start, all).d.items) else Good(start, u, all)
  }

  lemma StepUnharmed(start: Framing, u: Uot, e: Event, all: Bytes)
    requires Unharmed(start, u, all) && !Harms(u, e)
    ensures Unharmed(start, Step(u, e), all + Data(e))
  {
    if u.failed {
      ReadAllExtends(start, all, Data(e));
    } else if Step(u, e).failed {
      FailingPrefix(start, u, e, all);
    } else {
      StepGood(start, u, e, all);
    }
  }

  /** After a failure that did harm. */
  predicate Harmed(u: Uot, all: Bytes) {
    u.failed || (Sane(u) && OffTrack(u, all))
  }

  lemma StepHarmed(start: Framing, u: Uot, e: Event, all: Bytes)
    requires Harmed(u, all) || (Unharmed(start, u, all) && Harms(u, e))
    ensures Harmed(Step(u, e), all + Data(e))
  {
    if !u.failed && !Step(u, e).failed {
      if OnTrack(start, u, all) {
        OnTrackBalances(start, u, all);
      }
      StepSane(u, e);
      StepOff(u, e, all);
    }
  }

  /** Without any surviving failure. */
  ghost predicate Smooth(start: Framing, u: Uot, all: Bytes) {
    u.failed || (Good(start, u, all) && Used(u))
  }

  lemma StepSmooth(start: Framing, u: Uot, e: Event, all: Bytes)
    requires Smooth(start, u, all) && !Survives(u, e)
    ensures Smooth(start, Step(u, e), all + Data(e))
  {
    if !u.failed && !Step(u, e).failed {
      StepGood(start, u, e, all);
    }
  }

  lemma RunUnharmed(start: Framing, es: seq<Event>, u: Uot)
    requires Unharmed(start, u, []) && !HarmedIn(u, es)
    ensures Unharmed(start, Run(u, es), [] + Pushed(es))
  {
    var keep := (v, bytes) => Unharmed(start, v, bytes);
    forall v, e, bytes ensures KeptUnless(Step, keep, Harms, v, e, bytes) {
      if Unharmed(start, v, bytes) && !Harms(v, e) {
        StepUnharmed(start, v, e, bytes);
      }
    }
    FoldUnharmed(Step, keep, Harms, u, es, []);
  }

  lemma RunHarmed(start: Framing, es: seq<Event>, u: Uot)
    requires Unharmed(start, u, []) && HarmedIn(u, es)
    ensures Harmed(Run(u, es), [] + Pushed(es))
  {
    var keep := (v, bytes) => Unharmed(start, v, bytes);
    forall v, e, bytes ensures KeptUnless(Step, keep, Harms, v, e, bytes) {
      if Unharmed(start, v, bytes) && !Harms(v, e) {
        StepUnharmed(start, v, e, bytes);
      }
    }
    forall v, e, bytes ensures LostBy(Step, keep, Harmed, Harms, v, e, bytes) {
      if Harmed(v, bytes) || (Unharmed(start, v, bytes) && Harms(v, e)) {
        StepHarmed(start, v, e, bytes);
      }
    }
    FoldHarmed(Step, keep, Harmed, Harms, u, es, []);
  }

  lemma RunSmooth(start: Framing, es: seq<Event>, u: Uot)
    requires Smooth(start, u, []) && !SurvivedIn(u, es)
    ensures Smooth(start, Run(u, es), [] + Pushed(es))
  {
    var keep := (v, bytes) => Smooth(start, v, bytes);
    forall v, e, bytes ensures KeptUnless(Step, keep, Survives, v, e, bytes) {
      if Smooth(start, v, bytes) && !Survives(v, e) {
        StepSmooth(start, v, e, bytes);
      }
    }
    FoldUnharmed(Step, keep, Survives, u, es, []);
  }

  lemma NothingLeft(start: Framing, u: Uot, all: Bytes)
    requires OnTrack(start, u, all) && Used(u) && !u.waiting
    ensures ReadAll(start, all) == Reading(u.framing, Decoded(u.out, u.held, false))
  {
    if u.framing.Request? {
      NothingTaken(start, u);
      assert [] + u.held == u.held;
    } else {
      ReadMore(start, u.taken, u.held);
      assert [] + u.held == u.held && u.out + [] == u.out;
    }
  }

  /** For every split of the client's bytes and whatever the resolver does. While the stream lives, no
      byte is lost and the datagrams passed on are those of the bytes done with, if and only if no
      failure with an effect was survived. Then they are the first datagrams of the unsplit bytes; and
      without any surviving failure, all of them. */
  lemma SplitsDoNotMatterIff(start: Framing, es: seq<Event>)
    requires start.Request? || start.Packets?
    ensures var u, all := Run(Opened(start), es), Pushed(es);
            var r := ReadAll(start, all);
            && (!u.failed ==> (OnTrack(start, u, all) <==> !HarmedIn(Opened(start), es)))
            && (!HarmedIn(Opened(start), es) ==> IsPrefix(u.out, r.d.items))
            && (!SurvivedIn(Opened(start), es) && !u.failed && !u.waiting ==>
                  u.out == r.d.items && u.held == r.d.rest && u.framing == r.framing)
  {
    var u := Run(Opened(start), es);
    assert [] + Pushed(es) == Pushed(es);
    OpenedIsGood(start);
    if HarmedIn(Opened(start), es) {
      RunHarmed(start, es, Opened(start));
      if !u.failed {
        OffIsNotOn(start, u, Pushed(es));
      }
    } else {
      RunUnharmed(start, es, Opened(start));
      if !u.failed {
        ReadAllExtends(start, u.taken, u.held);
      }
    }
    if !SurvivedIn(Opened(start), es) && !u.failed && !u.waiting {
      RunSmooth(start, es, Opened(start));
      NothingLeft(start, u, Pushed(es));
    }
  }

  lemma OpenedIsGood(start: Framing)
    requires start.Request? || start.Packets?
    ensures Good(start, Opened(start), []) && Used(Opened(start))
  {
    assert Decode(ParsePacket, []) == Decoded([], [], false);
  }

  // ----- The failing cases -----

  lemma RunTwo(u: Uot, d: Event, e: Event)
    ensures Run(u, [d, e]) == Step(Step(u, d), e)
  {
    assert [d, e][1..] == [e] && [e][1..] == [];
    assert Fold(Step, Step(u, d), [e]) == Step(Step(u, d), e);
  }

  /** A packet and an octet that begins none are in the buffer, on behalf of a writer. */
  lemma PassesOnAndFails(u: Uot, s: Bytes, p: Packet, bad: byte, who: Caller)
    requires u.framing.Packets? && !u.failed && !u.waiting && !who.Reader?
    requires p.Valid() && bad > UOT_ATYP_DOMAIN && u.held + s == EncodePacket(p) + [bad] && |u.held + s| <= RECV_LIMIT
    ensures Datagrams(Packets, u.held + s) == Decoded([p], [bad], true)
    ensures Step(u, Payload(s, Resolves, who)) == u.(held := u.held + s, out := u.out + [p])
  {
    var b := EncodePacket(p) + [bad];
    PacketRoundTrip(p, [bad]);
    ParsePacketIsIncremental();
    assert b[|EncodePacket(p)|..] == [bad] && b[0..] == b;
    assert Decode(ParsePacket, [bad]) == Decoded([], [bad], true);
    assert [p] + [] == [p];
    assert Datagrams(Packets, b) == Decoded([p], [bad], true);
  }

  /** The failing input of a malformed packet behind a good one, met on behalf of a writer: with the next
      frame, be it empty, the good one is sent again. */
  lemma SendsTwice(p: Packet, bad: byte)
    requires p.Valid() && bad > UOT_ATYP_DOMAIN && |EncodePacket(p)| < RECV_LIMIT
    ensures var es := [Payload(EncodePacket(p) + [bad], Resolves, Writer(0)), Payload([], Resolves, Discard)];
            Run(Opened(Packets), es).out == [p, p] && ReadAll(Packets, Pushed(es)).d.items == [p]
  {
    var s := EncodePacket(p) + [bad];
    var d, e := Payload(s, Resolves, Writer(0)), Payload([], Resolves, Discard);
    assert [] + s == s && s + [] == s;
    PassesOnAndFails(Opened(Packets), s, p, bad, Writer(0));
    var u := Step(Opened(Packets), d);
    PassesOnAndFails(u, [], p, bad, Discard);
    assert [] + [p] + [p] == [p, p];
    RunTwo(Opened(Packets), d, e);
    assert [d, e][1..] == [e] && [e][1..] == [];
    assert Pushed([e]) == [];
  }

  /** Packets are cut from whatever the buffer holds. */
  lemma CutsPackets(u: Uot, s: Bytes, who: Caller)
    requires u.framing.Packets? && !u.failed && !u.waiting && |u.held + s| <= RECV_LIMIT
    requires !Datagrams(Packets, u.held + s).bad
    ensures var d, v := Datagrams(Packets, u.held + s), Step(u, Payload(s, Resolves, who));
            v.held == d.rest && v.out == u.out + d.items && !v.failed && !v.waiting && v.framing.Packets?
  {
    var b := u.held + s;
    assert b[0..] == b;
    FrontOfDatagrams(Packets, b);
  }

  lemma RunThree(u: Uot, c: Event, d: Event, e: Event)
    ensures Run(u, [c, d, e]) == Step(Step(Step(u, c), d), e)
  {
    assert [c, d, e][1..] == [d, e];
    RunTwo(Step(u, c), d, e);
  }

  lemma PushedThree(a: Bytes, b: Bytes, c: Bytes)
    ensures Pushed([Payload(a, Resolves, Reader), Payload(b, Resolves, Discard), Payload(c, Resolves, Reader)])
            == a + (b + c)
  {
    var d, e := Payload(b, Resolves, Discard), Payload(c, Resolves, Reader);
    assert [Payload(a, Resolves, Reader), d, e][1..] == [d, e] && [d, e][1..] == [e] && [e][1..] == [];
    assert Pushed([e]) == c && Pushed([d, e]) == b + c;
  }

  /** Bytes that begin a packet wait, and payload that overflows with them leaves no trace. */
  lemma OverflowVanishes(a: Bytes, lost: Bytes)
    requires ParsePacket(a).More? && |a| + |lost| > RECV_LIMIT && |a| <= RECV_LIMIT
    ensures var u := Step(Opened(Packets), Payload(a, Resolves, Reader));
            && Step(u, Payload(lost, Resolves, Discard)) == u
            && u.framing.Packets? && !u.failed && !u.waiting && u.held == a && u.out == []
  {
    assert [] + a == a && Datagrams(Packets, a) == Decoded([], a, false);
    CutsPackets(Opened(Packets), a, Reader);
  }

  /** The failing input of an overflow: the frame `lost` vanishes, and what follows is cut into packets
      as if it had not been there. */
  lemma LeavesAHole(a: Bytes, lost: Bytes, b: Bytes) returns (es: seq<Event>, u: Uot)
    requires ParsePacket(a).More? && |a| + |lost| > RECV_LIMIT && |a| + |b| <= RECV_LIMIT
    requires !Datagrams(Packets, a + b).bad
    ensures es == [Payload(a, Resolves, Reader), Payload(lost, Resolves, Discard), Payload(b, Resolves, Reader)]
    ensures u == Run(Opened(Packets), es)
    ensures !u.failed && u.out == Datagrams(Packets, a + b).items && Pushed(es) == a + (lost + b)
  {
    es := [Payload(a, Resolves, Reader), Payload(lost, Resolves, Discard), Payload(b, Resolves, Reader)];
    u := Step(Step(Step(Opened(Packets), es[0]), es[1]), es[2]);
    RunThree(Opened(Packets), es[0], es[1], es[2]);
    PushedThree(a, lost, b);
    OverflowVanishes(a, lost);
    CutsPackets(Step(Opened(Packets), es[0]), b, Reader);
  }

  // ----- In place -----

  lemma TookAll(u: Uot, d: Decoded<Packet>, ps: seq<Packet>, used: nat)
    requires used <= |u.held| && d.items == ps && d.rest == u.held[used..]
    ensures var v := u.(out := u.out + ps);
            Took(u, d) == if d.bad then Attempt(v, true) else Attempt(Advanced(v, used), false)
  {
  }

  lemma DeframeItem(u: Uot, answer: Answer)
    requires u.framing.Request? && ParseRequest(u.held).Item?
    ensures var r := ParseRequest(u.held);
            Deframe(u, answer) == Continue(Adopted(u, r.value, r.consumed), r.consumed, answer)
  {
  }


  class Reassembler {
    var buf: array?<byte>
    var pos: nat
    var len: nat
    var framing: Framing
    var resolved: bool
    var waiting: bool
    var out: seq<Packet>
    var failed: bool
    ghost var taken: Bytes
    ghost var parsed: nat

    ghost predicate Valid()
      reads this
    {
      if buf == null then pos == 0 && len == 0 else buf.Length == RECV_LIMIT && pos + len <= buf.Length
    }

    ghost function Held(): Bytes
      requires Valid()
      reads this, buf
    {
      if buf == null then [] else buf[pos..pos + len]
    }

    ghost function State(): Uot
      requires Valid()
      reads this, buf
    {
      Uot(framing, resolved, waiting, Held(), out, failed, taken, parsed)
    }

    constructor (start: Framing)
      ensures Valid() && State() == Opened(start)
    {
      buf, pos, len, framing, resolved, waiting, out, failed := null, 0, 0, start, false, false, [], false;
      taken, parsed := [], 0;
    }

    /** Move the content to the front. */
    method Compact()
      requires Valid() && buf != null
      modifies this`pos, buf
      ensures Valid() && pos == 0 && Held() == old(Held())
    {
      ghost var before := Held();
      for k := 0 to len
        invariant pos == old(pos) && buf[..k] == before[..k] && buf[pos + k..pos + len] == before[k..]
      {
        assert buf[pos + k] == buf[pos + k..pos + len][0] == before[k];
        assert buf[pos + k + 1..pos + len] == buf[pos + k..pos + len][1..] == before[k + 1..];
        buf[k] := buf[pos + k];
        assert buf[..k + 1] == buf[..k] + [before[k]] == before[..k + 1];
      }
      pos := 0;
      assert Held() == buf[..len] == before[..len] == before;
    }

    /** Copy bytes behind the content. */
    method Extend(data: Bytes)
      requires Valid() && buf != null && pos + len + |data| <= buf.Length
      modifies this`len, buf
      ensures Valid() && Held() == old(Held()) + data
    {
      ghost var before := Held();
      var at := pos + len;
      for k := 0 to |data|
        invariant pos + len == at && buf[pos..at + k] == before + data[..k]
      {
        buf[at + k] := data[k];
        assert buf[pos..at + k + 1] == buf[pos..at + k] + [data[k]];
        assert data[..k + 1] == data[..k] + [data[k]];
      }
      len := len + |data|;
    }

    /** Append, compacting first if need be. It fails exactly when the content would exceed the
        buffer, so a larger buffer is never needed. */
    method Append(data: Bytes) returns (ok: bool)
      requires Valid()
      modifies this`buf, this`pos, this`len, buf
      ensures Valid() && (ok <==> |old(Held())| + |data| <= RECV_LIMIT)
      ensures Held() == if ok then old(Held()) + data else old(Held())
      ensures buf == old(buf) || fresh(buf)
    {
      if |data| == 0 {
        return true;
      }
      if buf == null {
        buf := new byte[RECV_LIMIT](_ => 0);
      }
      ghost var before := Held();
      if |data| > buf.Length - (pos + len) {
        if pos != 0 {
          Compact();
        }
        if len + |data| > RECV_LIMIT {
          return false;
        }
        assert |data| <= buf.Length - (pos + len);
      }
      assert Held() == before;
      Extend(data);
      return true;
    }

    /** Done with the first `n` bytes. */
    method Skip(n: nat)
      requires Valid() && n <= len
      modifies this`pos, this`len, this`taken
      ensures Valid() && State() == Advanced(old(State()), n)
    {
      taken := taken + Held()[..n];
      if buf != null {
        pos, len := pos + n, len - n;
      }
    }

    /** `ps` were sent; the first `used` bytes of the content are done with if nothing was malformed. */
    method Commit(ghost d: Decoded<Packet>, ps: seq<Packet>, used: nat, bad: bool)
      requires Valid() && used <= len && d == Decoded(ps, Held()[used..], bad)
      modifies this`pos, this`len, this`out, this`taken
      ensures Valid() && buf == old(buf) && Attempt(State(), bad) == Took(old(State()), d)
    {
      TookAll(State(), d, ps, used);
      out := out + ps;
      assert State() == old(State()).(out := old(out) + ps);
      if !bad {
        Skip(used);
      }
    }

    /** Datagrams to the connect target, or packets that carry their own address. */
    method TakeDatagrams(skip: nat) returns (bad: bool)
      requires Valid() && skip <= len && !framing.Request?
      modifies this`pos, this`len, this`out, this`taken
      ensures Valid() && buf == old(buf) && Attempt(State(), bad) == Cut(old(State()), skip)
    {
      var data := if buf == null then [] else buf[pos + skip..pos + len];
      assert data == Held()[skip..];
      ghost var d := Datagrams(framing, data);
      var ps, used;
      ps, used, bad := CutDatagrams(framing, data);
      assert data[used..] == Held()[skip + used..];
      Commit(d, ps, skip + used, bad);
    }

    /** Resolve a connect target if need be, then take what there is. */
    method Proceed(skip: nat, answer: Answer) returns (ok: bool)
      requires Valid() && skip <= len && !framing.Request?
      modifies this
      ensures Valid() && buf == old(buf) && Attempt(State(), !ok) == Continue(old(State()), skip, answer)
    {
      if framing.Connect? && framing.target.Domain? && !resolved {
        match answer
        case Waits =>
          Skip(skip);
          waiting, ok := true, true;
        case Fails =>
          ok := false;
        case Resolves =>
          ok := TakeResolved(skip);
      } else {
        var bad := TakeDatagrams(skip);
        ok := !bad;
      }
    }

    method TakeResolved(skip: nat) returns (ok: bool)
      requires Valid() && skip <= len && !framing.Request?
      modifies this
      ensures Valid() && buf == old(buf)
      ensures Attempt(State(), !ok) == Cut(old(State()).(resolved := true), skip)
    {
      resolved := true;
      assert State() == old(State()).(resolved := true);
      var bad := TakeDatagrams(skip);
      ok := !bad;
    }

    /** Read the request once it is complete. */
    method ReadRequest(answer: Answer) returns (ok: bool)
      requires Valid() && framing.Request?
      modifies this
      ensures Valid() && buf == old(buf) && Attempt(State(), !ok) == Deframe(old(State()), answer)
    {
      if buf == null {
        return true;
      }
      match ParseRequest(buf[pos..pos + len])
      case More =>
        ok := true;
      case Bad =>
        ok := false;
      case Item(req, n) =>
        DeframeItem(State(), answer);
        framing, parsed := if req.connect then Connect(req.target) else Packets, n;
        assert State() == Adopted(old(State()), req, n);
        ok := Proceed(n, answer);
    }

    method Use(answer: Answer) returns (ok: bool)
      requires Valid()
      modifies this
      ensures Valid() && buf == old(buf) && Attempt(State(), !ok) == Deframe(old(State()), answer)
    {
      if framing.Request? {
        ok := ReadRequest(answer);
      } else {
        ok := Proceed(0, answer);
      }
    }

    /** Payload of one frame. */
    method OnPayload(data: Bytes, answer: Answer, who: Caller)
      requires Valid() && !failed
      modifies this, buf
      ensures Valid() && State() == Step(old(State()), Payload(data, answer, who))
    {
      var ok := ReceivePayload(data, answer);
      if !ok && who.Reader? {
        failed := true;
      }
    }

    method ReceivePayload(data: Bytes, answer: Answer) returns (ok: bool)
      requires Valid()
      modifies this, buf
      ensures Valid() && Attempt(State(), !ok) == Receive(old(State()), data, answer)
    {
      ok := Append(data);
      assert State() == if ok then old(State()).(held := old(Held()) + data) else old(State());
      if ok && !waiting {
        ok := Use(answer);
      }
    }

    /** The resolver's answer for a connect target. */
    method OnAnswer(ok: bool)
      requires Valid() && !failed && waiting && framing.Connect?
      modifies this
      ensures Valid() && State() == Resume(old(State()), ok)
    {
      if ok {
        waiting := false;
        assert State() == old(State()).(waiting := false);
        var fine := TakeResolved(0);
        failed := !fine;
      } else {
        failed := true;
      }
    }
  }

  method CutDatagrams(f: Framing, data: Bytes) returns (ps: seq<Packet>, used: nat, bad: bool)
    requires !f.Request?
    ensures used <= |data| && Decoded(ps, data[used..], bad) == Datagrams(f, data)
  {
    match f
    case Packets =>
      ParsePacketIsIncremental();
      ps, used, bad := CutItems(ParsePacket, data);
    case Connect(a) =>
      ParseSizedIsIncremental();
      var payloads;
      payloads, used, bad := CutItems(ParseSized, data);
      ps := To(a, payloads);
  }
}
