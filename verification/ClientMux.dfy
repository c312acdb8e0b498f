/**
  The loops of the output multiplexer as the program runs them, over the connection's state. Each is
  proved against the transition function of Mux that says what it comes to, so what holds of runs
  holds of the program. (The pointers behind the frame queues are in FrameLinks.)
  */
module ClientMux {
  import opened Bytes
  import opened Mux
  import opened Protocol
  import opened Wrappers
  import MuxRuns
  import SocksAddr

  lemma ReadTurn(c: Conf, m: Mux, h: Handle, done: nat, script: seq<Read>)
    requires done < READ_FRAME_BUDGET && !m.pressure && HasRoom(c, m, ReadSize(c, Get(m, h)))
    requires script != [] && script[0].Got?
    ensures var (n, more) := ReadOne(c, m, h, script[0].bytes);
            ReadLoop(c, m, h, done, script)
            == if more then ReadLoop(c, n, h, done + 1, script[1..]) else (n, done, script[1..])
  {
  }

  lemma ReadSpent(c: Conf, m: Mux, h: Handle, done: nat, script: seq<Read>)
    requires done >= READ_FRAME_BUDGET
    ensures ReadLoop(c, m, h, done, script) == (Requeue(m, h), done, script)
  {
  }

  class ClientMux {
    const conf: Conf
    var m: Mux

    constructor (conf: Conf)
      ensures this.conf == conf && m == Start()
    {
      this.conf, m := conf, Start();
    }

    /** Stream after stream gives up its head frame, until the budgets are used up or nobody has any. */
    method ScheduleStreamFrames()
      modifies this`m
      ensures m == Schedule(conf, old(m), 0, 0)
    {
      var frames: nat, bytes: nat := 0, 0;
      while m.lists.ready != [] && frames < DRAIN_FRAMES && bytes < ByteBudget(conf)
        invariant frames <= DRAIN_FRAMES && Schedule(conf, m, frames, bytes) == Schedule(conf, old(m), 0, 0)
        decreases DRAIN_FRAMES - frames, |m.lists.ready|
      {
        var out := Get(m, m.lists.ready[0]).flow.out;
        MuxRuns.ScheduleTurn(conf, m, frames, bytes);
        m := MoveOne(m);
        if out != [] {
          frames, bytes := frames + 1, bytes + out[0].length;
        }
      }
    }

    /** Retire frames while the first one is completely written. */
    method RecycleSentFrames()
      modifies this`m
      ensures m == Recycle(old(m))
    {
      while m.wire.sending != [] && m.wire.written >= |m.wire.sending[0].wire|
        invariant Recycle(m) == Recycle(old(m))
        decreases |m.wire.sending|
      {
        m := Retire(m);
      }
    }

    /** Close for good every closing stream whose frames are written. */
    method DrainClosingStreams()
      modifies this`m
      ensures m == DrainClosing(old(m), old(m.lists.closing))
    {
      var todo := m.lists.closing;
      while todo != []
        invariant DrainClosing(m, todo) == DrainClosing(old(m), old(m.lists.closing))
        decreases |todo|
      {
        var h := todo[0];
        var s := Get(m, h);
        if s.flow.queuedFrames == 0 {
          m := m.(streams := Put(m.streams, h, s.(closing := false)),
                  lists := m.lists.(closing := Remove(m.lists.closing, h)));
          m := CloseStream(m, h);
        }
        todo := todo[1..];
      }
    }

    /** Give back what the frames still held by a stream were charged with, one by one. */
    method UnchargeAll(out: seq<OutFrame>) returns (pending: nat)
      ensures pending == Uncharge(m.count.pendingOutput, out)
    {
      pending := m.count.pendingOutput;
      var todo := out;
      while todo != []
        invariant Uncharge(pending, todo) == Uncharge(m.count.pendingOutput, out)
        decreases |todo|
      {
        pending := Minus(pending, todo[0].length);
        todo := todo[1..];
      }
    }

    /** Wake blocked readers from the front while there is room for their reads. */
    method ProcessBlockedReads()
      modifies this`m
      ensures m == Resume(conf, old(m))
    {
      var todo := m.lists.blocked;
      while todo != []
        invariant ProcessBlocked(conf, m, todo) == Resume(conf, old(m))
        decreases |todo|
      {
        var s := Get(m, todo[0]);
        if Readable(s) && (m.pressure || !HasRoom(conf, m, ReadSize(conf, s))) {
          return;
        }
        m := Unblock(m, todo[0]);
        todo := todo[1..];
      }
    }

    /** Every stream that waits to be read waits for the client instead. */
    method SuspendAllReads()
      modifies this`m
      ensures m == SuspendReads(old(m))
    {
      while m.lists.readReady != []
        invariant SuspendReads(m) == SuspendReads(old(m))
        decreases |m.lists.readReady|
      {
        var h := m.lists.readReady[0];
        var s := Get(m, h);
        m := PopRead(m);
        if s.conn && s.state != Closed && s.state != Closing {
          m := Block(m, h);
        }
      }
    }

    /** One read of a stream; `more` says whether to go on with it. */
    method ReadOnce(h: Handle, done: nat, script: seq<Read>) returns (more: bool, rest: seq<Read>)
      requires done < READ_FRAME_BUDGET
      modifies this`m
      ensures more ==> ReadLoop(conf, old(m), h, done, script) == ReadLoop(conf, m, h, done + 1, rest)
      ensures !more ==> ReadLoop(conf, old(m), h, done, script) == (m, done, rest)
    {
      if m.pressure || !HasRoom(conf, m, ReadSize(conf, Get(m, h))) {
        m := Block(m, h);
        return false, script;
      }
      if script == [] {
        return false, [];
      }
      rest := script[1..];
      match script[0]
      case Again =>
        more := false;
      case Failed =>
        m, more := CloseStream(m, h), false;
      case Got(bytes) =>
        ReadTurn(conf, m, h, done, script);
        var (n, goOn) := ReadOne(conf, m, h, bytes);
        m, more := n, goOn;
    }

    /** Read after read until the stream has nothing, blocks, ends, or the frame budget is `spent`. */
    method ReadFrames(h: Handle, start: nat, script: seq<Read>) returns (done: nat, rest: seq<Read>, spent: bool)
      modifies this`m
      ensures spent ==> done >= READ_FRAME_BUDGET
      ensures spent ==> ReadLoop(conf, old(m), h, start, script) == ReadLoop(conf, m, h, done, rest)
      ensures !spent ==> ReadLoop(conf, old(m), h, start, script) == (m, done, rest)
    {
      done, rest, spent := start, script, true;
      while spent && done < READ_FRAME_BUDGET
        invariant spent ==> ReadLoop(conf, old(m), h, start, script) == ReadLoop(conf, m, h, done, rest)
        invariant !spent ==> ReadLoop(conf, old(m), h, start, script) == (m, done, rest)
        decreases spent, READ_FRAME_BUDGET - done
      {
        spent, rest := ReadOnce(h, done, rest);
        done := if spent then done + 1 else done;
      }
    }

    /** Read one stream; when the budget is spent it goes to the end of the list. */
    method ReadStream(h: Handle, start: nat, script: seq<Read>) returns (done: nat, rest: seq<Read>)
      modifies this`m
      ensures (m, done, rest) == ReadLoop(conf, old(m), h, start, script)
    {
      var spent;
      done, rest, spent := ReadFrames(h, start, script);
      if spent {
        ReadSpent(conf, m, h, done, rest);
        m := Requeue(m, h);
      }
    }

    /** Take the first stream off the list of readable ones and read it, if it can be read. */
    method VisitOne(done: nat, script: seq<Read>) returns (done1: nat, script1: seq<Read>, read: bool)
      requires m.lists.readReady != []
      modifies this`m
      ensures (m, done1, script1, read) == VisitReader(conf, old(m), done, script)
    {
      var h := m.lists.readReady[0];
      read := Readable(Get(m, h));
      m := PopRead(m);
      done1, script1 := done, script;
      if read {
        done1, script1 := ReadStream(h, done, script);
      }
    }

    /** Visit readable streams within the budget, up to the one that was last when it was taken. */
    method DrainReadyReads(script: seq<Read>)
      modifies this`m
      ensures m == DrainReads(conf, old(m), 0, 0, script)
    {
      var visited: nat, done: nat, rest := 0, 0, script;
      ghost var result := DrainReads(conf, m, 0, 0, script);
      while m.lists.readReady != [] && visited < READ_STREAM_BUDGET
        invariant DrainReads(conf, m, visited, done, rest) == result
        decreases Minus(READ_STREAM_BUDGET, visited), |m.lists.readReady|
      {
        var only := |m.lists.readReady| == 1;
        var read;
        done, rest, read := VisitOne(done, rest);
        if only {
          return;
        }
        visited := if read then visited + 1 else visited;
      }
    }

    /** Read datagrams of a packet-mode stream until one cannot be queued; one whose source or size does
        not fit the packet format is dropped. */
    method ReadPackets(h: Handle, dgrams: seq<SocksAddr.Packet>)
      modifies this`m
      ensures m == ReadDatagrams(conf, old(m), h, dgrams)
    {
      var todo := dgrams;
      while todo != []
        invariant ReadDatagrams(conf, m, h, todo) == ReadDatagrams(conf, old(m), h, dgrams)
        decreases |todo|
      {
        var p := todo[0];
        if p.Valid() && !p.peer.Domain? && |p.payload| <= (if p.peer.V4? then 65527 else 65515) {
          var f := Frame(PSH, Get(m, h).id, SocksAddr.EncodePacket(p));
          if !f.Encodable() || !HasRoom(conf, m, |f.data|) || !Admits(m, Plain(Some(h), f)) {
            return;
          }
          m := Accept(conf, m, Plain(Some(h), f));
        }
        todo := todo[1..];
      }
    }
  }
}
