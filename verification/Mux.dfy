/**
  The output side of one AnyTLS connection as a state machine.

  Frames for the client are accepted per stream, scheduled onto the connection, handed to the
  socket and retired. The state below is the part of the connection and stream structures
  that this path reads or writes; `Step` is one event of the single-threaded event loop. A
  socket may accept any prefix of what it is offered and a read may return any chunk: both are
  arguments of the event. Allocation and event (dis)arming succeed.

  A stream is named by its handle, the position at which it was created. The handle stands for
  the stream structure itself: it is never reused, while the 32-bit stream id may be.
  */
module Mux {
  import opened Bytes
  import opened Protocol
  import opened Wrappers
  import SocksAddr

  const MAX_OUT_FRAMES: nat := 10000
  const MAX_STREAM_FRAMES: nat := 1024
  const MAX_DIRECT_FRAMES: nat := 4
  const MAX_SCHEDULE_BYTES: nat := 0x10_0000
  const DRAIN_FRAMES: nat := 32
  const READ_FRAME_BUDGET: nat := 32
  const READ_STREAM_BUDGET: nat := 16
  const TLS_RECORD_SIZE: nat := 16384

  /** The reason "uot-limit" of a refusal. */
  const UOT_LIMIT: Bytes := [117, 111, 116, 45, 108, 105, 109, 105, 116]

  type Handle = nat

  /** The limits of the server block. */
  datatype Conf = Conf(maxPendingOutput: nat, bufferSize: nat, maxStreams: nat, maxUotStreams: nat)

  /** A queued frame: what it says, whose it is, the length it is accounted with, and the bytes
      of its buffer chain. */
  datatype OutFrame = OutFrame(frame: Frame, owner: Option<Handle>, length: nat, wire: Bytes)

  datatype StreamState = Init | Connecting | Connected | HalfClosed | Closing | Closed

  /** The frames of one stream: unscheduled ones, counters, and the history of what was accepted. */
  datatype Flow = Flow(
    out: seq<OutFrame>,
    queuedFrames: nat,
    pendingOut: nat,
    directCount: nat,
    onReady: bool,           // on the ready list
    finQueued: bool,
    finSent: bool,
    accepted: seq<OutFrame>) // history: every frame accepted for this stream

  datatype Stream = Stream(
    id: nat,
    state: StreamState,
    uot: bool,
    uotConnect: bool,
    conn: bool,              // the upstream or UDP socket exists
    synackSent: bool,
    readReady: bool,         // on the list of streams to read
    readBlocked: bool,       // on the list of reads blocked by output pressure
    closing: bool,           // on the list of closing streams
    closedByProtocol: bool,
    uotCounted: bool,
    flow: Flow)

  /** The frames handed to the socket. */
  datatype Wire = Wire(
    sending: seq<OutFrame>,
    unsent: Bytes,           // what the socket has not yet taken of the frames in `sending`
    written: nat,            // how many bytes of the frames in `sending` it has taken
    sent: seq<OutFrame>,     // history: frames written completely
    taken: Bytes)            // history: every byte the socket took

  datatype Lists = Lists(ready: seq<Handle>, readReady: seq<Handle>, blocked: seq<Handle>, closing: seq<Handle>)

  datatype Counts = Counts(pendingOutput: nat, frames: nat, active: nat, uotStreams: nat)

  datatype Mux = Mux(
    control: seq<OutFrame>,
    data: seq<OutFrame>,
    wire: Wire,
    streams: seq<Stream>,
    lists: Lists,
    count: Counts,
    peerVersion: nat,
    pressure: bool,
    writePending: bool,      // a write event is posted
    armed: bool,             // the write event is armed
    finalized: bool)

  function Start(): Mux {
    Mux([], [], Wire([], [], 0, [], []), [], Lists([], [], [], []), Counts(0, 0, 0, 0), 1, false, false, false, false)
  }

  // ---------------------------------------------------------------------------------------
  // Small vocabulary

  function WireBytes(fs: seq<OutFrame>): Bytes {
    if fs == [] then [] else fs[0].wire + WireBytes(fs[1..])
  }

  function Remove(q: seq<Handle>, h: Handle): seq<Handle> {
    if q == [] then [] else if q[0] == h then Remove(q[1..], h) else [q[0]] + Remove(q[1..], h)
  }

  /** The queue without `h`, if the flag says that it is on it. */
  function Drop(q: seq<Handle>, h: Handle, listed: bool): seq<Handle> {
    if listed then Remove(q, h) else q
  }

  /** The record behind a handle; every handle that is stored anywhere has one. */
  function Get(m: Mux, h: Handle): Stream {
    if h < |m.streams| then m.streams[h] else NewStream(0)
  }

  function Put(ss: seq<Stream>, h: Handle, s: Stream): (r: seq<Stream>)
    ensures |r| == |ss|
  {
    if h < |ss| then ss[h := s] else ss
  }

  function Set(m: Mux, h: Handle, s: Stream): Mux {
    m.(streams := Put(m.streams, h, s))
  }

  function NewStream(id: nat): Stream {
    Stream(id, Init, false, false, false, false, false, false, false, false, false,
           Flow([], 0, 0, 0, false, false, false, []))
  }

  predicate Readable(s: Stream) {
    s.conn && (s.state == Connected || s.state == HalfClosed)
  }

  /** Frames that hold a reference on their stream until they are written. */
  predicate Strong(f: OutFrame) {
    f.owner.Some? && (f.frame.cmd == PSH || f.frame.cmd == FIN || f.frame.cmd == SYNACK)
  }

  function ReadSize(c: Conf, s: Stream): nat {
    var size := Min(c.bufferSize, MAX_FRAME_DATA);
    if s.uot then size else Min(size, TLS_RECORD_SIZE - HEADER_LEN)
  }

  predicate HasRoom(c: Conf, m: Mux, len: nat) {
    m.count.pendingOutput + HEADER_LEN + len <= c.maxPendingOutput
  }

  /** A frame whose chain is its header followed by its payload. */
  function Plain(owner: Option<Handle>, f: Frame): OutFrame
    requires f.Encodable()
  {
    OutFrame(f, owner, |f.data| + HEADER_LEN, Encode(f))
  }

  // ---------------------------------------------------------------------------------------
  // Accepting frames

  /** The two guards of the queue. */
  predicate Admits(m: Mux, f: OutFrame) {
    && m.count.frames < MAX_OUT_FRAMES
    && (Strong(f) && f.frame.cmd == PSH ==> Get(m, f.owner.value).flow.queuedFrames < MAX_STREAM_FRAMES)
  }

  function Charged(w: Flow, f: OutFrame): Flow {
    if !Strong(f) then w
    else w.(queuedFrames := w.queuedFrames + 1, pendingOut := w.pendingOut + f.length,
            finQueued := w.finQueued || f.frame.cmd == FIN, accepted := w.accepted + [f])
  }

  /** The fast path around the scheduler. */
  predicate GoesDirect(c: Conf, m: Mux, w: Flow, f: OutFrame) {
    && f.frame.cmd == PSH
    && w.out == []
    && m.lists.ready == []
    && m.count.pendingOutput <= c.maxPendingOutput / 2
    && w.directCount < MAX_DIRECT_FRAMES
  }

  /** UDP streams go to the front of the ready list, TCP streams to its end. */
  function Enlist(q: seq<Handle>, h: Handle, front: bool): seq<Handle> {
    if front then [h] + q else q + [h]
  }

  function Counted(n: Counts, f: OutFrame): Counts {
    n.(pendingOutput := n.pendingOutput + f.length, frames := n.frames + 1)
  }

  function ToControl(m: Mux, f: OutFrame): Mux {
    var ss := if f.owner.None? then m.streams
              else var s := Get(m, f.owner.value); Put(m.streams, f.owner.value, s.(flow := Charged(s.flow, f)));
    m.(control := m.control + [f], streams := ss, count := Counted(m.count, f), writePending := true)
  }

  function ToData(m: Mux, h: Handle, f: OutFrame): Mux {
    var s := Get(m, h);
    var w := Charged(s.flow, f).(directCount := s.flow.directCount + 1);
    m.(data := m.data + [f], streams := Put(m.streams, h, s.(flow := w)), count := Counted(m.count, f),
      writePending := true)
  }

  function ToStream(m: Mux, h: Handle, f: OutFrame): Mux {
    var s := Get(m, h);
    var w := Charged(s.flow, f).(out := s.flow.out + [f], onReady := true, directCount := 0);
    var q := if s.flow.onReady then m.lists.ready else Enlist(m.lists.ready, h, s.uot);
    m.(streams := Put(m.streams, h, s.(flow := w)), lists := m.lists.(ready := q), count := Counted(m.count, f),
       writePending := true)
  }

  function Accept(c: Conf, m: Mux, f: OutFrame): Mux {
    if f.owner.None? || (f.frame.cmd != PSH && f.frame.cmd != FIN) then ToControl(m, f)
    else if GoesDirect(c, m, Get(m, f.owner.value).flow, f) then ToData(m, f.owner.value, f)
    else ToStream(m, f.owner.value, f)
  }

  function Queue(c: Conf, m: Mux, f: OutFrame): (Mux, bool) {
    if Admits(m, f) then (Accept(c, m, f), true) else (m, false)
  }

  /** A SYNACK is queued at most once, and only for peers of version 2 and up. */
  function SendSynack(c: Conf, m: Mux, h: Handle, msg: Bytes): (Mux, bool) {
    var s := Get(m, h);
    if s.synackSent then (m, true)
    else
      var m1 := Set(m, h, s.(synackSent := true));
      var f := Frame(SYNACK, s.id, msg);
      if m.peerVersion < 2 then (m1, true)
      else if !f.Encodable() then (m1, false)
      else Queue(c, m1, Plain(Some(h), f))
  }

  // ---------------------------------------------------------------------------------------
  // Closing streams

  function Unblock(m: Mux, h: Handle): Mux {
    var s := Get(m, h);
    if s.readBlocked then
      m.(streams := Put(m.streams, h, s.(readBlocked := false)),
        lists := m.lists.(blocked := Remove(m.lists.blocked, h)))
    else m
  }

  function Block(m: Mux, h: Handle): Mux {
    var s := Get(m, h);
    if s.readBlocked then m
    else m.(streams := Put(m.streams, h, s.(readBlocked := true)), lists := m.lists.(blocked := m.lists.blocked + [h]))
  }

  function FreeSlot(uotStreams: nat, s: Stream): nat {
    if s.uotCounted then Minus(uotStreams, 1) else uotStreams
  }

  /** Release the UoT slot and the UDP socket. */
  function UotClose(m: Mux, h: Handle): Mux {
    var s := Get(m, h);
    m.(streams := Put(m.streams, h, s.(uotCounted := false, conn := false)),
       count := m.count.(uotStreams := FreeSlot(m.count.uotStreams, s)))
  }

  /** The bytes still charged after a stream's unscheduled frames are dropped one by one. */
  function Uncharge(pending: nat, out: seq<OutFrame>): nat {
    if out == [] then pending else Uncharge(Minus(pending, out[0].length), out[1..])
  }

  /** What every close releases at once: queue memberships, sockets, the UoT slot. */
  function Released(s: Stream): Stream {
    s.(closedByProtocol := true, readReady := false, readBlocked := false, uotCounted := false, conn := false)
  }

  function Waiting(s: Stream): Stream {
    Released(s).(state := Closing, closing := true)
  }

  function Emptied(w: Flow): Flow {
    w.(out := [], queuedFrames := Minus(w.queuedFrames, |w.out|), pendingOut := 0, onReady := false)
  }

  function Gone(s: Stream): Stream {
    Released(s).(state := Closed, closing := false, flow := Emptied(s.flow))
  }

  /** While frames of the stream are still to be written the close waits for them. */
  function DelayClose(m: Mux, h: Handle): Mux {
    var s := Get(m, h);
    m.(streams := Put(m.streams, h, Waiting(s)),
       lists := m.lists.(readReady := Drop(m.lists.readReady, h, s.readReady),
                         blocked := Drop(m.lists.blocked, h, s.readBlocked),
                         closing := if s.closing then m.lists.closing else m.lists.closing + [h]),
       count := m.count.(uotStreams := FreeSlot(m.count.uotStreams, s)))
  }

  function CompleteClose(m: Mux, h: Handle): Mux {
    var s := Get(m, h);
    m.(streams := Put(m.streams, h, Gone(s)),
       lists := Lists(Drop(m.lists.ready, h, s.flow.onReady), Drop(m.lists.readReady, h, s.readReady),
                      Drop(m.lists.blocked, h, s.readBlocked), Drop(m.lists.closing, h, s.closing)),
       count := Counts(Uncharge(m.count.pendingOutput, s.flow.out), Minus(m.count.frames, |s.flow.out|),
                       Minus(m.count.active, 1), FreeSlot(m.count.uotStreams, s)))
  }

  function CloseStream(m: Mux, h: Handle): Mux {
    var s := Get(m, h);
    if s.state == Closed then m
    else if !m.finalized && s.flow.queuedFrames != 0 then DelayClose(m, h)
    else CompleteClose(m, h)
  }

  /** Mark the stream and queue its FIN, unless it has one. */
  function QueueFin(c: Conf, m: Mux, h: Handle): (Mux, bool) {
    var s := Get(m, h);
    var m1 := Set(m, h, s.(closedByProtocol := true));
    var f := Frame(FIN, s.id, []);
    if s.flow.finQueued || s.flow.finSent then (m1, true)
    else if !f.Encodable() then (m1, false)
    else Queue(c, m1, Plain(Some(h), f))
  }

  function SendFinAndClose(c: Conf, m: Mux, h: Handle): Mux {
    var (m1, ok) := QueueFin(c, m, h);
    if ok then CloseStream(m1, h) else m1
  }

  // ---------------------------------------------------------------------------------------
  // Draining to the socket

  function ByteBudget(c: Conf): (b: nat)
    ensures b > 0
  {
    var b := Min(c.maxPendingOutput / 4, MAX_SCHEDULE_BYTES);
    if b == 0 then MAX_FRAME_DATA else b
  }

  /** Move the head frame of the first ready stream to the connection's queue; a stream with
      more frames goes back on the ready list. */
  function MoveOne(m: Mux): Mux
    requires m.lists.ready != []
  {
    var h := m.lists.ready[0]; var s := Get(m, h); var rest := m.lists.ready[1..];
    if s.flow.out == [] then
      m.(streams := Put(m.streams, h, s.(flow := s.flow.(onReady := false))), lists := m.lists.(ready := rest))
    else
      var more := |s.flow.out| > 1;
      m.(data := m.data + [s.flow.out[0]],
         streams := Put(m.streams, h, s.(flow := s.flow.(out := s.flow.out[1..], onReady := more))),
         lists := m.lists.(ready := if more then Enlist(rest, h, s.uot) else rest))
  }

  function Schedule(c: Conf, m: Mux, frames: nat, bytes: nat): Mux
    requires frames <= DRAIN_FRAMES
    decreases DRAIN_FRAMES - frames, |m.lists.ready|
  {
    if m.lists.ready == [] || frames >= DRAIN_FRAMES || bytes >= ByteBudget(c) then m
    else
      var out := Get(m, m.lists.ready[0]).flow.out;
      if out == [] then Schedule(c, MoveOne(m), frames, bytes)
      else Schedule(c, MoveOne(m), frames + 1, bytes + out[0].length)
  }

  /** Control frames first, then data frames, become the chain to write. */
  function MoveAll(m: Mux): Mux {
    m.(control := [], data := [],
       wire := m.wire.(sending := m.wire.sending + m.control + m.data, unsent := WireBytes(m.control + m.data),
         written := 0))
  }

  /** The socket takes the first `k` bytes offered, or as many as there are. */
  function Write(w: Wire, k: nat): Wire {
    var n := Min(k, |w.unsent|);
    w.(unsent := w.unsent[n..], written := w.written + n, taken := w.taken + w.unsent[..n])
  }

  function Discharged(w: Flow, f: OutFrame): Flow {
    w.(queuedFrames := Minus(w.queuedFrames, 1), pendingOut := Minus(w.pendingOut, f.length),
       finSent := w.finSent || f.frame.cmd == FIN)
  }

  predicate HeadWritten(w: Wire) {
    w.sending != [] && w.written >= |w.sending[0].wire|
  }

  function PopHead(w: Wire): Wire
    requires HeadWritten(w)
  {
    var f := w.sending[0];
    w.(sending := w.sending[1..], written := w.written - |f.wire|, sent := w.sent + [f])
  }

  /** Give back what the head frame was charged with. */
  function Discharge(m: Mux): (m': Mux)
    requires HeadWritten(m.wire)
  {
    var f := m.wire.sending[0];
    var ss := if f.owner.None? then m.streams
              else var s := Get(m, f.owner.value); Put(m.streams, f.owner.value, s.(flow := Discharged(s.flow, f)));
    m.(wire := PopHead(m.wire), streams := ss,
       count := m.count.(pendingOutput := Minus(m.count.pendingOutput, f.length), frames := Minus(m.count.frames, 1)))
  }

  /** The frame handler; it also finishes a close that waited for this frame. */
  function Retire(m: Mux): (m': Mux)
    requires HeadWritten(m.wire)
    ensures |m'.wire.sending| < |m.wire.sending|
  {
    var owner := m.wire.sending[0].owner;
    var m1 := Discharge(m);
    if owner.Some? && Get(m1, owner.value).state == Closing && Get(m1, owner.value).flow.queuedFrames == 0
    then CloseStream(m1, owner.value) else m1
  }

  function Recycle(m: Mux): Mux
    decreases |m.wire.sending|
  {
    if HeadWritten(m.wire) then Recycle(Retire(m)) else m
  }

  /** Streams on the closing list with nothing left to write are closed for good. */
  function DrainClosing(m: Mux, todo: seq<Handle>): Mux
    decreases |todo|
  {
    if todo == [] then m
    else
      var h := todo[0]; var s := Get(m, h);
      if s.flow.queuedFrames != 0 then DrainClosing(m, todo[1..])
      else
        var m1 := m.(streams := Put(m.streams, h, s.(closing := false)),
                     lists := m.lists.(closing := Remove(m.lists.closing, h)));
        DrainClosing(CloseStream(m1, h), todo[1..])
  }

  function ProcessBlocked(c: Conf, m: Mux, todo: seq<Handle>): Mux
    decreases |todo|
  {
    if todo == [] then m
    else
      var h := todo[0]; var s := Get(m, h);
      if Readable(s) && (m.pressure || !HasRoom(c, m, ReadSize(c, s))) then m
      else ProcessBlocked(c, Unblock(m, h), todo[1..])
  }

  function Resume(c: Conf, m: Mux): Mux {
    ProcessBlocked(c, m, m.lists.blocked)
  }

  /** Take the first stream off the list of those to read. */
  function PopRead(m: Mux): Mux
    requires m.lists.readReady != []
  {
    var h := m.lists.readReady[0];
    m.(streams := Put(m.streams, h, Get(m, h).(readReady := false)),
       lists := m.lists.(readReady := m.lists.readReady[1..]))
  }

  /** Every stream waiting to be read waits for the client instead. */
  function SuspendReads(m: Mux): Mux
    decreases |m.lists.readReady|
  {
    if m.lists.readReady == [] then m
    else
      var h := m.lists.readReady[0]; var s := Get(m, h); var m1 := PopRead(m);
      SuspendReads(if s.conn && s.state != Closed && s.state != Closing then Block(m1, h) else m1)
  }

  /** First half of `flush`: schedule frames and, when the last chain is written, make the next. */
  function Chained(c: Conf, m: Mux): Mux {
    var m1 := Schedule(c, m, 0, 0);
    if m1.wire.unsent == [] then MoveAll(m1) else m1
  }

  /** Post a write if anything is left that the socket has not been offered. */
  function PostIfMore(m: Mux): Mux {
    m.(writePending := m.writePending || m.control != [] || m.data != [] || m.lists.ready != [])
  }

  /** Second half: write, retire, and arm, or post, or rest. */
  function Pushed(c: Conf, m: Mux, k: nat): (Mux, bool) {
    var m1 := Recycle(m.(wire := Write(m.wire, k)));
    var m2 := if m1.pressure then m1 else Resume(c, m1);
    if m2.wire.unsent != [] then (m2.(armed := true), false)
    else (PostIfMore(DrainClosing(m2.(armed := false), m2.lists.closing)), true)
  }

  /** `flush`; true means that the socket has taken all it was offered. */
  function Flush(c: Conf, m: Mux, k: nat): (Mux, bool) {
    var m1 := Chained(c, m);
    if m1.wire.unsent == [] then (m1, true) else Pushed(c, m1, k)
  }

  /** `drain`: flush, then set or release output pressure and wake the blocked readers. */
  function Drain(c: Conf, m: Mux, k: nat): Mux {
    var (m1, all) := Flush(c, DrainClosing(m, m.lists.closing), k);
    if all then
      var m2 := m1.(pressure := false);
      Resume(c, if m.pressure then Resume(c, m2) else m2)
    else if m1.pressure then Resume(c, m1)
    else Resume(c, SuspendReads(m1.(pressure := true)))
  }

  // ---------------------------------------------------------------------------------------
  // Reading from upstream

  /** What a socket read yields: bytes (none at all means end of file or an empty datagram),
      nothing yet, or an error. */
  datatype Read = Got(bytes: Bytes) | Again | Failed

  /** The frame made of one read. `length` is what the header announces plus the header, `wire`
      what the buffer holds. A connected UDP stream puts the length of the datagram in front of
      it; for an empty datagram the source sets the length but does not extend the buffer. */
  function ReadFrame(h: Handle, s: Stream, bytes: Bytes): OutFrame
    requires s.id < U32_LIMIT && |bytes| <= MAX_FRAME_DATA
    requires s.uot && s.uotConnect ==> |bytes| + 2 <= MAX_FRAME_DATA
  {
    if !(s.uot && s.uotConnect) then Plain(Some(h), Frame(PSH, s.id, bytes))
    else if bytes == [] then
      OutFrame(Frame(PSH, s.id, [0, 0]), Some(h), 2 + HEADER_LEN, Header(PSH, s.id, 2))
    else Plain(Some(h), Frame(PSH, s.id, PutBe16(|bytes|) + bytes))
  }

  function Requeue(m: Mux, h: Handle): Mux {
    var s := Get(m, h);
    if s.readReady || s.readBlocked then m
    else m.(streams := Put(m.streams, h, s.(readReady := true)),
      lists := m.lists.(readReady := m.lists.readReady + [h]))
  }

  /** How many bytes one read of the stream asks for. */
  function ReadLimit(c: Conf, s: Stream): nat {
    Minus(ReadSize(c, s), if s.uot && s.uotConnect then 2 else 0)
  }

  /** The upstream has closed: so does the stream, after a FIN to the client. */
  function EndOfUpstream(c: Conf, m: Mux, h: Handle): Mux {
    SendFinAndClose(c, Set(m, h, Get(m, h).(conn := false)), h)
  }

  function ReadOne(c: Conf, m: Mux, h: Handle, bytes: Bytes): (Mux, bool) {
    var s := Get(m, h);
    var got := bytes[..Min(|bytes|, ReadLimit(c, s))];
    if s.id >= U32_LIMIT then (m, false)
    else if s.uot && s.uotConnect && ReadSize(c, s) <= 2 then (CloseStream(m, h), false)
    else if got == [] && !(s.uot && s.uotConnect) then (EndOfUpstream(c, m, h), false)
    else
      var f := ReadFrame(h, s, got);
      if Admits(m, f) then (Accept(c, m, f), true) else (CloseStream(m, h), false)
  }

  /** Read one stream until it has nothing, blocks, ends, or the frame budget is spent. */
  function ReadLoop(c: Conf, m: Mux, h: Handle, done: nat, script: seq<Read>): (Mux, nat, seq<Read>)
    decreases READ_FRAME_BUDGET - done
  {
    if done >= READ_FRAME_BUDGET then (Requeue(m, h), done, script)
    else if m.pressure || !HasRoom(c, m, ReadSize(c, Get(m, h))) then (Block(m, h), done, script)
    else if script == [] || script[0] == Again then (m, done, if script == [] then [] else script[1..])
    else if script[0] == Failed then (CloseStream(m, h), done, script[1..])
    else
      var (m1, more) := ReadOne(c, m, h, script[0].bytes);
      if more then ReadLoop(c, m1, h, done + 1, script[1..]) else (m1, done, script[1..])
  }

  /** Take the first stream off the list and read it, if it can be read. */
  function VisitReader(c: Conf, m: Mux, done: nat, script: seq<Read>): (r: (Mux, nat, seq<Read>, bool))
    requires m.lists.readReady != []
    ensures !r.3 ==> |r.0.lists.readReady| < |m.lists.readReady|
  {
    var h := m.lists.readReady[0];
    if Readable(Get(m, h)) then
      var (m1, done1, script1) := ReadLoop(c, PopRead(m), h, done, script);
      (m1, done1, script1, true)
    else (PopRead(m), done, script, false)
  }

  /** Visit the streams that are ready to be read. The source takes the successor of an entry
      before it works on it, so the walk ends with the entry that was last when it was taken. */
  function DrainReads(c: Conf, m: Mux, visited: nat, done: nat, script: seq<Read>): Mux
    decreases Minus(READ_STREAM_BUDGET, visited), |m.lists.readReady|
  {
    if m.lists.readReady == [] || visited >= READ_STREAM_BUDGET then m
    else
      var (m1, done1, script1, read) := VisitReader(c, m, done, script);
      if |m.lists.readReady| == 1 then m1
      else DrainReads(c, m1, if read then visited + 1 else visited, done1, script1)
  }

  function OnReadReady(c: Conf, m: Mux, h: Handle, script: seq<Read>): Mux {
    if !Readable(Get(m, h)) then m else DrainReads(c, Requeue(m, h), 0, 0, script)
  }

  /** Datagrams of a packet-mode stream are read until one cannot be queued; that one is lost. */
  function ReadDatagrams(c: Conf, m: Mux, h: Handle, dgrams: seq<SocksAddr.Packet>): Mux
    decreases |dgrams|
  {
    if dgrams == [] then m
    else
      var p := dgrams[0];
      if !p.Valid() || p.peer.Domain? then ReadDatagrams(c, m, h, dgrams[1..])
      else if |p.payload| > (if p.peer.V4? then 65527 else 65515) then ReadDatagrams(c, m, h, dgrams[1..])
      else
        var f := Frame(PSH, Get(m, h).id, SocksAddr.EncodePacket(p));
        if !f.Encodable() || !HasRoom(c, m, |f.data|) || !Admits(m, Plain(Some(h), f)) then m
        else ReadDatagrams(c, Accept(c, m, Plain(Some(h), f)), h, dgrams[1..])
  }

  // ---------------------------------------------------------------------------------------
  // Events

  datatype Event =
    | Open(id: nat)                                  // SYN for an id that has no stream
    | PeerVersion(version: nat)                      // SETTINGS
    | Control(cmd: byte, sid: nat, payload: Bytes)   // a frame of the connection itself
    | Writable(k: nat)                               // the client socket takes up to k bytes
    | Abort(k: nat)                                  // last drain, then finalize
    | Finalize
    | OnStream(h: Handle, what: StreamEvent)

  datatype StreamEvent =
    | Dial(socket: bool)                             // resolving or connecting
    | Established
    | Refused(reason: Bytes)
    | OpenUot(connectMode: bool)
    | PacketRequest                                  // the UoT request asks for packet mode
    | UdpSocket
    | ClientFin(flushFailed: bool)
    | CloseOne                                       // any failure confined to the stream
    | UotIdle
    | UpstreamReadable(script: seq<Read>)
    | Datagrams(dgrams: seq<SocksAddr.Packet>)

  function CloseAll(m: Mux, h: Handle): Mux
    decreases Minus(|m.streams|, h)
  {
    if h >= |m.streams| then m else CloseAll(CloseStream(m, h), h + 1)
  }

  function FinalizeAll(m: Mux): Mux {
    CloseAll(m.(finalized := true), 0)
  }

  function Opened(m: Mux, id: nat): Mux {
    m.(streams := m.streams + [NewStream(id)], count := m.count.(active := m.count.active + 1))
  }

  function Step(c: Conf, m: Mux, e: Event): Mux {
    if m.finalized then m
    else match e
      case Open(id) =>
        if m.count.active >= c.maxStreams || id >= U32_LIMIT then m
        else Opened(m, id)
      case PeerVersion(v) => m.(peerVersion := v)
      case Control(cmd, sid, payload) =>
        var f := Frame(cmd, sid, payload);
        if cmd == PSH || cmd == FIN || cmd > SERVER_SETTINGS || !f.Encodable() then m
        else Queue(c, m, Plain(None, f)).0
      case Writable(k) => Drain(c, m.(writePending := false), k)
      case Abort(k) => FinalizeAll(Drain(c, m, k))
      case Finalize => FinalizeAll(m)
      case OnStream(h, what) => if h < |m.streams| then StreamStep(c, m, h, what) else m
  }

  function Establish(c: Conf, m: Mux, h: Handle): Mux {
    var s := Get(m, h);
    if s.state != Connecting || !s.conn then m
    else SendSynack(c, Set(m, h, s.(state := Connected)), h, []).0
  }

  function Refuse(c: Conf, m: Mux, h: Handle, reason: Bytes): Mux {
    CloseStream(SendSynack(c, m, h, reason).0, h)
  }

  function StartUot(c: Conf, m: Mux, h: Handle, connectMode: bool): Mux {
    var s := Get(m, h);
    if s.closedByProtocol || s.state != Init then m
    else if m.count.uotStreams >= c.maxUotStreams then Refuse(c, m, h, UOT_LIMIT)
    else Welcome(c, TakeSlot(m, h, connectMode), h)
  }

  /** A stream becomes a UDP stream and is counted as one. */
  function TakeSlot(m: Mux, h: Handle, connectMode: bool): Mux {
    var s := Get(m, h).(uot := true, uotConnect := connectMode, uotCounted := true, state := Connected);
    m.(streams := Put(m.streams, h, s), count := m.count.(uotStreams := m.count.uotStreams + 1))
  }

  /** Say so to the client, or give the stream up. */
  function Welcome(c: Conf, m: Mux, h: Handle): Mux {
    var (m1, ok) := SendSynack(c, m, h, []);
    if ok then m1 else CloseStream(m1, h)
  }

  function EndInput(m: Mux, h: Handle, flushFailed: bool): Mux {
    var s := Get(m, h);
    if s.closedByProtocol then m
    else if s.uot then CloseStream(UotClose(Set(m, h, s.(closedByProtocol := true)), h), h)
    else if s.conn && s.state == Connected && !flushFailed then
      Set(m, h, s.(closedByProtocol := true, state := HalfClosed))
    else CloseStream(Set(m, h, s.(closedByProtocol := true)), h)
  }

  function StreamStep(c: Conf, m: Mux, h: Handle, e: StreamEvent): Mux {
    var s := Get(m, h);
    match e
    case Dial(socket) =>
      if s.closedByProtocol || s.uot || (s.state != Init && s.state != Connecting) then m
      else Set(m, h, s.(state := Connecting, conn := socket))
    case Established => Establish(c, m, h)
    case Refused(reason) => if s.state != Connecting then m else Refuse(c, m, h, reason)
    case OpenUot(connectMode) => StartUot(c, m, h, connectMode)
    case PacketRequest => if s.uotCounted && !s.conn then Set(m, h, s.(uotConnect := false)) else m
    case UdpSocket => if s.uotCounted then Set(m, h, s.(conn := true)) else m
    case ClientFin(flushFailed) => EndInput(m, h, flushFailed)
    case CloseOne => CloseStream(m, h)
    case UotIdle => if s.uot && s.conn then SendFinAndClose(c, UotClose(m, h), h) else m
    case UpstreamReadable(script) => OnReadReady(c, m, h, script)
    case Datagrams(dgrams) =>
      if !(s.uot && s.conn && !s.uotConnect) then m
      else if m.pressure || !HasRoom(c, m, 0) then Block(m, h)
      else ReadDatagrams(c, m, h, dgrams)
  }

  function Run(c: Conf, m: Mux, es: seq<Event>): Mux
    decreases |es|
  {
    if es == [] then m else Run(c, Step(c, m, es[0]), es[1..])
  }
}
