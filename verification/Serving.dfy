/**
  What the server makes of a client's frames: the session, the opening of streams and their payload on
  the way upstream, taken together. What the stream table says and what sockets do are parameters; the
  targets are TCP.
  */
module Serving {
  import opened Bytes
  import opened Callers
  import opened Protocol
  import opened ClientInput
  import opened FirstPsh
  import opened Upstream
  import Session
  import Streams = UpstreamRuns

  datatype Conf = Conf(session: Session.Conf, maxInput: nat)

  /** The i-th stream's opening and, in `up`, its payload. */
  datatype Served = Served(core: Session.Core, openings: seq<Opening>, up: Streams.Input)

  /** What the table has for a frame's id: nothing and no room, room for a new stream, or the i-th. */
  datatype Lookup = Full | Room | Known(i: nat)

  datatype Task = Task(who: Caller, found: Lookup, ready: bool, flush: seq<Write>, direct: seq<Write>)

  datatype Answer = Answer(s: Served, outcome: Outcome)

  predicate Valid(s: Served) {
    && |s.openings| == |s.up.streams| && Streams.AllSized(s.up)
    && forall i :: 0 <= i < |s.openings| ==> s.openings[i].Valid()
  }

  function Start(): Served {
    Served(Session.Core(false, 1), [], Streams.Initial())
  }

  /** An error that the loop reports to whoever resumed it. */
  function Refused(conf: Conf, s: Served, who: Caller): Answer
    requires Valid(s)
  {
    Answer(s.(up := Streams.Step(conf.maxInput, s.up, Streams.Refused(who))), Reject)
  }

  function Ended(conf: Conf, s: Served): Answer
    requires Valid(s)
  {
    Answer(s.(up := Streams.Step(conf.maxInput, s.up, Streams.Finalize)), Finish)
  }

  /** Payload for an open stream. */
  function Deliver(conf: Conf, s: Served, i: nat, data: Bytes, t: Task): Answer
    requires Valid(s) && i < |s.openings|
  {
    var e := Streams.Payload(i, data, t.ready, t.flush, t.direct, t.who);
    var up := Streams.Step(conf.maxInput, s.up, e);
    var failed := Streams.Delivers(s.up, e, i) && Streams.Delivery(conf.maxInput, s.up, e).failed;
    Answer(s.(up := up), if failed then Reject else if up.c.paused then Pause else Continue)
  }

  /** A PSH frame: the address first, then payload. */
  function Push(conf: Conf, s: Served, i: nat, data: Bytes, t: Task): Answer
    requires Valid(s) && i < |s.openings|
  {
    if s.up.streams[i].inClosed then Answer(s, Continue)
    else if s.openings[i].Open? then Deliver(conf, s, i, data, t)
    else
      match FirstPsh.Push(s.openings[i], data)
      case Broken => Refused(conf, s.(openings := s.openings[i := Waiting([])]), t.who)
      case Waiting(acc) => Answer(s.(openings := s.openings[i := Waiting(acc)]), Continue)
      case Open(addr, payload) => Deliver(conf, s.(openings := s.openings[i := Open(addr, [])]), i, payload, t)
  }

  function Opens(s: Served, found: Lookup): Served {
    if found.Room? && !s.up.c.closing then
      s.(openings := s.openings + [Waiting([])], up := s.up.(streams := s.up.streams + [Streams.FRESH]))
    else s
  }

  function Finishes(conf: Conf, s: Served, t: Task): Answer
    requires Valid(s)
  {
    var up := if t.found.Known? then Streams.Step(conf.maxInput, s.up, Streams.Fin(t.found.i, t.flush)) else s.up;
    Answer(s.(up := up), if up.c.paused then Pause else Continue)
  }

  /** One frame. */
  function Serve(conf: Conf, s: Served, f: Frame, t: Task): Answer
    requires Valid(s)
  {
    var h := Session.HandleFrame(conf.session, s.core, f);
    var r := s.(core := h.core);
    if !h.ok then if h.actions == [] then Refused(conf, r, t.who) else Ended(conf, r)
    else if f.cmd == SYN then if t.found.Full? then Refused(conf, r, t.who) else Answer(Opens(r, t.found), Continue)
    else if f.cmd == PSH then
      if t.found.Known? && t.found.i < |s.openings| then Push(conf, r, t.found.i, f.data, t) else Answer(r, Continue)
    else if f.cmd == FIN then Finishes(conf, r, t)
    else Answer(r, Continue)
  }

  /** A frame is handled, or something happens upstream. */
  datatype Move = Handle(f: Frame, t: Task) | Upstream(e: Streams.Event)

  function Next(conf: Conf, s: Served, m: Move): Served {
    if !Valid(s) then s
    else
      match m
      case Handle(f, t) => Serve(conf, s, f, t).s
      case Upstream(e) => if e.Open? || e.Payload? || e.Refused? then s
        else s.(up := Streams.Step(conf.maxInput, s.up, e))
  }

  /** What handling the frames of a run leads to, one after the other. */
  function Outcomes(conf: Conf, s: Served, ms: seq<Move>): seq<Outcome>
    decreases |ms|
  {
    if ms == [] then []
    else
      (if ms[0].Handle? && Valid(s) then [Serve(conf, s, ms[0].f, ms[0].t).outcome] else [])
      + Outcomes(conf, Next(conf, s, ms[0]), ms[1..])
  }

  function Frames(ms: seq<Move>): seq<Frame>
    decreases |ms|
  {
    if ms == [] then [] else (if ms[0].Handle? then [ms[0].f] else []) + Frames(ms[1..])
  }

  /** As the loop asks for them. */
  function Script(outcomes: seq<Outcome>): nat -> Outcome {
    (k: nat) => if k < |outcomes| then outcomes[k] else Continue
  }

  // ----- Every run -----

  ghost predicate Sound(conf: Conf, s: Served) {
    Valid(s) && Streams.Inv(conf.maxInput, s.up)
  }

  lemma UpKeeps(conf: Conf, s: Served, up: Streams.Input)
    requires Valid(s) && Streams.Inv(conf.maxInput, up) && |up.streams| == |s.openings|
    ensures Sound(conf, s.(up := up))
  {
    Streams.InvIsSized(conf.maxInput, up);
  }

  lemma StepUp(conf: Conf, s: Served, e: Streams.Event)
    requires Sound(conf, s) && Streams.Framed(e) && !e.Open?
    ensures Sound(conf, s.(up := Streams.Step(conf.maxInput, s.up, e)))
  {
    Streams.StepKeeps(conf.maxInput, s.up, e);
    Streams.StepStreams(conf.maxInput, s.up, e);
    UpKeeps(conf, s, Streams.Step(conf.maxInput, s.up, e));
  }

  lemma PushKeeps(conf: Conf, s: Served, i: nat, data: Bytes, t: Task)
    requires Sound(conf, s) && i < |s.openings| && |data| <= MAX_FRAME_DATA
    ensures Sound(conf, Push(conf, s, i, data, t).s)
  {
    if !s.up.streams[i].inClosed {
      if s.openings[i].Open? {
        StepUp(conf, s, Streams.Payload(i, data, t.ready, t.flush, t.direct, t.who));
      } else {
        match FirstPsh.Push(s.openings[i], data)
        case Broken => StepUp(conf, s.(openings := s.openings[i := Waiting([])]), Streams.Refused(t.who));
        case Waiting(acc) =>
        case Open(addr, payload) =>
          PassedOnIsShort(s.openings[i], data);
          StepUp(conf, s.(openings := s.openings[i := Open(addr, [])]),
            Streams.Payload(i, payload, t.ready, t.flush, t.direct, t.who));
      }
    }
  }

  lemma PassedOnIsShort(o: Opening, data: Bytes)
    requires o.Valid() && !o.Open?
    ensures FirstPsh.Push(o, data).Open? ==> |FirstPsh.Push(o, data).payload| <= |data|
  {
  }

  lemma ServeKeeps(conf: Conf, s: Served, f: Frame, t: Task)
    requires Sound(conf, s) && |f.data| <= MAX_FRAME_DATA
    ensures Sound(conf, Serve(conf, s, f, t).s)
  {
    var h := Session.HandleFrame(conf.session, s.core, f);
    var r := s.(core := h.core);
    if !h.ok {
      StepUp(conf, r, if h.actions == [] then Streams.Refused(t.who) else Streams.Finalize);
    } else if f.cmd == SYN {
      if t.found.Full? {
        StepUp(conf, r, Streams.Refused(t.who));
      } else if t.found.Room? && !s.up.c.closing {
        Streams.OpenKeeps(conf.maxInput, s.up);
        UpKeeps(conf, Opens(r, t.found), Opens(r, t.found).up);
      }
    } else if f.cmd == PSH && t.found.Known? && t.found.i < |s.openings| {
      PushKeeps(conf, r, t.found.i, f.data, t);
    } else if f.cmd == FIN && t.found.Known? {
      StepUp(conf, r, Streams.Fin(t.found.i, t.flush));
    }
  }

  predicate AllShort(ms: seq<Move>) {
    forall i :: 0 <= i < |ms| && ms[i].Handle? ==> |ms[i].f.data| <= MAX_FRAME_DATA
  }

  function After(conf: Conf, s: Served, ms: seq<Move>): Served
    decreases |ms|
  {
    if ms == [] then s else After(conf, Next(conf, s, ms[0]), ms[1..])
  }

  /** Whatever frames a client sends, on whose behalf they are handled and whatever the sockets do, the
      invariant of the upstream side holds, and with it all that is proved of its runs. */
  lemma {:induction false} RunKeeps(conf: Conf, s: Served, ms: seq<Move>)
    requires Sound(conf, s) && AllShort(ms)
    ensures Sound(conf, After(conf, s, ms))
    decreases |ms|
  {
    if ms != [] {
      match ms[0] {
        case Handle(f, t) => ServeKeeps(conf, s, f, t);
        case Upstream(e) =>
          if !(e.Open? || e.Payload? || e.Refused?) {
            StepUp(conf, s, e);
          }
      }
      RunKeeps(conf, Next(conf, s, ms[0]), ms[1..]);
    }
  }
}
