/**
  Datagrams to names: they wait in a queue until the resolver has answered for their target. One
  name is resolved at a time, that of the queue's head, and the answer may come while the question
  is still being asked.
  */
module UotPending {
  import opened Bytes
  import opened Wrappers

  datatype Target = Target(host: Bytes, port: nat)

  datatype Packet = Packet(target: Target, payload: Bytes)

  datatype Fate = Sent | Dropped

  datatype Done = Done(packet: Packet, fate: Fate)

  datatype Limits = Limits(packets: nat, bytes: nat)

  /** `count` and `bytes` are the counters the code keeps; `queued` and `done` are histories of what
      was taken in and what became of it; `asked` counts resolutions. */
  datatype Queue = Queue(
    packets: seq<Packet>, count: nat, bytes: nat, resolving: Option<Target>,
    queued: seq<Packet>, done: seq<Done>, asked: nat)

  /** What asking the resolver leads to: an answer at once, or later. */
  datatype Answer = Resolved | Unresolved | Later

  /** The environment: the answer to the n-th question and the fate of the n-th packet sent. */
  datatype World = World(answer: nat -> Answer, sends: nat -> bool)

  function Empty(): Queue {
    Queue([], 0, 0, None, [], [], 0)
  }

  // ----- The operations -----

  /** A packet leaves the queue. */
  function Leave(q: Queue, i: nat, fate: Fate): Queue
    requires i < |q.packets|
  {
    q.(packets := q.packets[..i] + q.packets[i + 1..], count := Minus(q.count, 1),
       bytes := Minus(q.bytes, |q.packets[i].payload|), done := q.done + [Done(q.packets[i], fate)])
  }

  /** Drop the packets of a target, from the i-th on. */
  function DropFrom(q: Queue, t: Target, i: nat): (r: Queue)
    ensures |r.packets| <= |q.packets|
    ensures (exists j :: i <= j < |q.packets| && q.packets[j].target == t) ==> |r.packets| < |q.packets|
    decreases |q.packets| - i
  {
    if i >= |q.packets| then q
    else if q.packets[i].target != t then DropFrom(q, t, i + 1)
    else DropFrom(Leave(q, i, Dropped), t, i)
  }

  /** Send them; when a send fails the rest of them is dropped. */
  function FlushFrom(w: World, q: Queue, t: Target, i: nat): (r: Queue)
    ensures |r.packets| <= |q.packets|
    ensures (exists j :: i <= j < |q.packets| && q.packets[j].target == t) ==> |r.packets| < |q.packets|
    decreases |q.packets| - i
  {
    if i >= |q.packets| then q
    else if q.packets[i].target != t then FlushFrom(w, q, t, i + 1)
    else if !w.sends(|q.done|) then DropFrom(q, t, 0)
    else FlushFrom(w, Leave(q, i, Sent), t, i)
  }

  function Others(ps: seq<Packet>, t: Target): seq<Packet> {
    if ps == [] then [] else (if ps[0].target == t then [] else [ps[0]]) + Others(ps[1..], t)
  }

  function Only(ps: seq<Packet>, t: Target): seq<Packet> {
    if ps == [] then [] else (if ps[0].target == t then [ps[0]] else []) + Only(ps[1..], t)
  }

  lemma {:induction false} OthersAppend(a: seq<Packet>, b: seq<Packet>, t: Target)
    ensures Others(a + b, t) == Others(a, t) + Others(b, t)
    decreases |a|
  {
    if a == [] {
      assert a + b == b;
    } else {
      assert (a + b)[1..] == a[1..] + b;
      OthersAppend(a[1..], b, t);
    }
  }

  lemma {:induction false} OnlyAppend(a: seq<Packet>, b: seq<Packet>, t: Target)
    ensures Only(a + b, t) == Only(a, t) + Only(b, t)
    decreases |a|
  {
    if a == [] {
      assert a + b == b;
    } else {
      assert (a + b)[1..] == a[1..] + b;
      OnlyAppend(a[1..], b, t);
    }
  }

  function Packets(ds: seq<Done>): (ps: seq<Packet>)
    ensures |ps| == |ds|
  {
    seq(|ds|, i requires 0 <= i < |ds| => ds[i].packet)
  }

  lemma PacketsAppend(a: seq<Done>, d: Done)
    ensures Packets(a + [d]) == Packets(a) + [d.packet]
  {
  }

  function Weight(ps: seq<Packet>): nat {
    if ps == [] then 0 else |ps[0].payload| + Weight(ps[1..])
  }

  lemma {:induction false} WeightAppend(a: seq<Packet>, b: seq<Packet>)
    ensures Weight(a + b) == Weight(a) + Weight(b)
    decreases |a|
  {
    if a == [] {
      assert a + b == b;
    } else {
      assert (a + b)[1..] == a[1..] + b;
      WeightAppend(a[1..], b);
    }
  }

  // ----- What an operation keeps -----

  ghost predicate Counted(q: Queue) {
    q.count == |q.packets| && q.bytes == Weight(q.packets)
  }

  /** For every target: what was queued for it is what is done for it and what still waits, in the
      order in which it was queued. */
  ghost predicate Ordered(q: Queue) {
    forall t :: OrderedFor(q, t)
  }

  ghost predicate OrderedFor(q: Queue, t: Target) {
    Only(q.queued, t) == Only(Packets(q.done), t) + Only(q.packets, t)
  }

  ghost predicate Kept(q: Queue) {
    Counted(q) && Ordered(q)
  }

  /** The first `i` packets are not for `t`. */
  ghost predicate Passed(q: Queue, t: Target, i: nat) {
    i <= |q.packets| && forall j :: 0 <= j < i ==> q.packets[j].target != t
  }

  lemma {:induction false} NoneOnly(ps: seq<Packet>, t: Target)
    requires forall j :: 0 <= j < |ps| ==> ps[j].target != t
    ensures Only(ps, t) == [] && Others(ps, t) == ps
    decreases |ps|
  {
    if ps != [] {
      NoneOnly(ps[1..], t);
    }
  }

  lemma SplitAt(ps: seq<Packet>, i: nat)
    requires i < |ps|
    ensures ps == ps[..i] + ([ps[i]] + ps[i + 1..])
  {
  }

  lemma LeaveCounts(q: Queue, i: nat, fate: Fate)
    requires Counted(q) && i < |q.packets|
    ensures Counted(Leave(q, i, fate))
  {
    SplitAt(q.packets, i);
    WeightAppend(q.packets[..i], [q.packets[i]] + q.packets[i + 1..]);
    WeightAppend([q.packets[i]], q.packets[i + 1..]);
    WeightAppend(q.packets[..i], q.packets[i + 1..]);
    assert [q.packets[i]][1..] == [];
  }

  /** The first waiting packet of its target leaves: every target keeps its order. */
  lemma LeaveKeepsOrder(q: Queue, i: nat, fate: Fate, t: Target)
    requires i < |q.packets| && Passed(q, q.packets[i].target, i) && OrderedFor(q, t)
    ensures OrderedFor(Leave(q, i, fate), t)
  {
    var p, a, b := q.packets[i], q.packets[..i], q.packets[i + 1..];
    SplitAt(q.packets, i);
    OnlyAppend(a, [p] + b, t);
    OnlyAppend([p], b, t);
    OnlyAppend(a, b, t);
    PacketsAppend(q.done, Done(p, fate));
    OnlyAppend(Packets(q.done), [p], t);
    assert [p][1..] == [];
    if p.target == t {
      NoneOnly(a, t);
    }
    LeaveReorders(Only(Packets(q.done), t), Only(a, t), Only([p], t), Only(b, t));
  }

  lemma LeaveReorders(d: seq<Packet>, a: seq<Packet>, p: seq<Packet>, b: seq<Packet>)
    requires a == [] || p == []
    ensures d + (a + (p + b)) == d + p + (a + b)
  {
  }

  lemma LeaveOthers(q: Queue, i: nat, fate: Fate, t: Target)
    requires i < |q.packets| && q.packets[i].target == t
    ensures Others(Leave(q, i, fate).packets, t) == Others(q.packets, t)
  {
    var p, a, b := q.packets[i], q.packets[..i], q.packets[i + 1..];
    SplitAt(q.packets, i);
    OthersAppend(a, [p] + b, t);
    OthersAppend([p], b, t);
    OthersAppend(a, b, t);
    assert [p][1..] == [];
  }

  lemma LeaveKeeps(q: Queue, i: nat, fate: Fate)
    requires Kept(q) && i < |q.packets| && Passed(q, q.packets[i].target, i)
    ensures Kept(Leave(q, i, fate))
  {
    LeaveCounts(q, i, fate);
    forall t ensures OrderedFor(Leave(q, i, fate), t) {
      assert OrderedFor(q, t);
      LeaveKeepsOrder(q, i, fate, t);
    }
  }

  /** What flushing or dropping a target leaves: exactly the packets of the other targets. */
  ghost predicate Cleared(q: Queue, r: Queue, t: Target) {
    && Kept(r) && r.packets == Others(q.packets, t) && r.queued == q.queued
    && r.resolving == q.resolving && r.asked == q.asked && |r.packets| <= |q.packets|
  }

  lemma {:induction false} DropClears(q: Queue, t: Target, i: nat)
    requires Kept(q) && Passed(q, t, i)
    ensures Cleared(q, DropFrom(q, t, i), t)
    decreases |q.packets| - i
  {
    if i >= |q.packets| {
      NoneOnly(q.packets, t);
    } else if q.packets[i].target != t {
      DropClears(q, t, i + 1);
    } else {
      LeaveKeeps(q, i, Dropped);
      LeaveOthers(q, i, Dropped, t);
      DropClears(Leave(q, i, Dropped), t, i);
    }
  }

  lemma {:induction false} FlushClears(w: World, q: Queue, t: Target, i: nat)
    requires Kept(q) && Passed(q, t, i)
    ensures Cleared(q, FlushFrom(w, q, t, i), t)
    decreases |q.packets| - i
  {
    if i >= |q.packets| {
      NoneOnly(q.packets, t);
    } else if q.packets[i].target != t {
      FlushClears(w, q, t, i + 1);
    } else if !w.sends(|q.done|) {
      DropClears(q, t, 0);
    } else {
      LeaveKeeps(q, i, Sent);
      LeaveOthers(q, i, Sent, t);
      FlushClears(w, Leave(q, i, Sent), t, i);
    }
  }

  // ----- The processor -----

  /** Resolve the head's target, deal with its packets, go on with the next head, until the resolver
      makes us wait. It ends because every answer empties the queue of at least the head. */
  function Process(w: World, q: Queue): Queue
    decreases |q.packets|
  {
    if q.packets == [] || q.resolving.Some? then q
    else
      var t := q.packets[0].target;
      var asked := q.(asked := q.asked + 1);
      match w.answer(q.asked)
      case Later => asked.(resolving := Some(t))
      case Resolved => Process(w, FlushFrom(w, asked, t, 0))
      case Unresolved => Process(w, DropFrom(asked, t, 0))
  }

  datatype Event = Datagram(packet: Packet) | Answered(ok: bool) | Clear

  /** A packet is refused when it is malformed or there is no room for it. */
  predicate Admitted(l: Limits, q: Queue, p: Packet) {
    && 0 < |p.target.host| <= 255 && p.payload != []
    && q.count < l.packets && q.bytes + |p.payload| <= l.bytes
  }

  function Enqueue(l: Limits, q: Queue, p: Packet): Queue {
    if !Admitted(l, q, p) then q
    else q.(packets := q.packets + [p], count := q.count + 1, bytes := q.bytes + |p.payload|, queued := q.queued + [p])
  }

  function OnAnswer(w: World, q: Queue, ok: bool): Queue
    requires q.resolving.Some?
  {
    var t := q.resolving.value;
    var free := q.(resolving := None);
    Process(w, if ok then FlushFrom(w, free, t, 0) else DropFrom(free, t, 0))
  }

  /** The stream closes: the question is withdrawn and what waits is dropped, head by head. */
  function Abandon(q: Queue): Queue
    decreases |q.packets|
  {
    if q.packets == [] then q.(count := 0, bytes := 0, resolving := None)
    else Abandon(q.(packets := q.packets[1..], done := q.done + [Done(q.packets[0], Dropped)]))
  }

  function Step(l: Limits, w: World, q: Queue, e: Event): Queue {
    match e
    case Datagram(p) => Process(w, Enqueue(l, q, p))
    case Answered(ok) => if q.resolving.Some? then OnAnswer(w, q, ok) else q
    case Clear => Abandon(q)
  }

  function Run(l: Limits, w: World, q: Queue, es: seq<Event>): Queue
    decreases |es|
  {
    if es == [] then q else Run(l, w, Step(l, w, q, es[0]), es[1..])
  }

  // ----- Every reachable state -----

  /** Between events: a question is open exactly while packets wait, and it is about the head. */
  ghost predicate Focused(q: Queue) {
    match q.resolving
    case None => q.packets == []
    case Some(t) => q.packets != [] && q.packets[0].target == t
  }

  ghost predicate Inv(l: Limits, q: Queue) {
    Kept(q) && Focused(q) && q.count <= l.packets && q.bytes <= l.bytes
  }

  lemma {:induction false} OthersIsLighter(ps: seq<Packet>, t: Target)
    ensures Weight(Others(ps, t)) <= Weight(ps) && |Others(ps, t)| <= |ps|
    decreases |ps|
  {
    if ps != [] {
      OthersIsLighter(ps[1..], t);
      if ps[0].target != t {
        WeightAppend([ps[0]], Others(ps[1..], t));
        assert [ps[0]][1..] == [];
      } else {
        assert Others(ps, t) == Others(ps[1..], t);
      }
    }
  }

  /** What clearing a target leaves stays within the limits. */
  lemma ClearedIsLighter(q: Queue, r: Queue, t: Target)
    requires Kept(q) && Cleared(q, r, t)
    ensures r.count <= q.count && r.bytes <= q.bytes
  {
    OthersIsLighter(q.packets, t);
  }

  lemma AskKeeps(q: Queue, asked: nat, resolving: Option<Target>)
    requires Kept(q)
    ensures Kept(q.(asked := asked, resolving := resolving))
  {
    SameKeepsOrder(q, q.(asked := asked, resolving := resolving));
  }

  lemma {:induction false} ProcessKeeps(l: Limits, w: World, q: Queue)
    requires Kept(q) && q.count <= l.packets && q.bytes <= l.bytes
    requires q.resolving.Some? ==> Focused(q)
    ensures Inv(l, Process(w, q)) && Process(w, q).queued == q.queued
    decreases |q.packets|
  {
    if q.packets != [] && q.resolving.None? {
      var t := q.packets[0].target;
      var asked := q.(asked := q.asked + 1);
      AskKeeps(q, q.asked + 1, None);
      match w.answer(q.asked)
      case Later => AskKeeps(q, q.asked + 1, Some(t));
      case Resolved =>
        var r := FlushFrom(w, asked, t, 0);
        FlushClears(w, asked, t, 0);
        ClearedIsLighter(asked, r, t);
        ProcessKeeps(l, w, r);
      case Unresolved =>
        var r := DropFrom(asked, t, 0);
        DropClears(asked, t, 0);
        ClearedIsLighter(asked, r, t);
        ProcessKeeps(l, w, r);
    }
  }

  lemma EnqueueKeeps(l: Limits, q: Queue, p: Packet)
    requires Inv(l, q)
    ensures var r := Enqueue(l, q, p);
            Kept(r) && r.count <= l.packets && r.bytes <= l.bytes && (r.resolving.Some? ==> Focused(r))
  {
    if Admitted(l, q, p) {
      var r := Enqueue(l, q, p);
      WeightAppend(q.packets, [p]);
      assert [p][1..] == [];
      forall t ensures OrderedFor(r, t) {
        assert OrderedFor(q, t);
        OnlyAppend(q.queued, [p], t);
        OnlyAppend(q.packets, [p], t);
      }
    }
  }

  lemma AnswerKeeps(l: Limits, w: World, q: Queue, ok: bool)
    requires Inv(l, q) && q.resolving.Some?
    ensures Inv(l, OnAnswer(w, q, ok)) && OnAnswer(w, q, ok).queued == q.queued
  {
    var t := q.resolving.value;
    var free := q.(resolving := None);
    AskKeeps(q, q.asked, None);
    var r := if ok then FlushFrom(w, free, t, 0) else DropFrom(free, t, 0);
    if ok {
      FlushClears(w, free, t, 0);
    } else {
      DropClears(free, t, 0);
    }
    ClearedIsLighter(free, r, t);
    ProcessKeeps(l, w, r);
  }

  lemma StepKeeps(l: Limits, w: World, q: Queue, e: Event)
    requires Inv(l, q)
    ensures Inv(l, Step(l, w, q, e))
  {
    match e
    case Datagram(p) =>
      EnqueueKeeps(l, q, p);
      ProcessKeeps(l, w, Enqueue(l, q, p));
    case Answered(ok) =>
      if q.resolving.Some? {
        AnswerKeeps(l, w, q, ok);
      }
    case Clear => AbandonKeeps(l, q);
  }

  lemma EmptyKeeps(l: Limits)
    ensures Inv(l, Empty())
  {
    var q := Empty();
    forall t ensures OrderedFor(q, t) {
      assert Only(Packets(q.done), t) + Only(q.packets, t) == [];
    }
  }

  /** Closing drops every waiting packet and keeps the account of each target. */
  lemma {:induction false} AbandonKeeps(l: Limits, q: Queue)
    requires Ordered(q)
    ensures Inv(l, Abandon(q)) && Abandon(q).packets == [] && Abandon(q).queued == q.queued
    ensures Packets(Abandon(q).done) == Packets(q.done) + q.packets
    decreases |q.packets|
  {
    if q.packets == [] {
      SameKeepsOrder(q, q.(count := 0, bytes := 0, resolving := None));
      assert Packets(q.done) + [] == Packets(q.done);
    } else {
      var r := q.(packets := q.packets[1..], done := q.done + [Done(q.packets[0], Dropped)]);
      forall t ensures OrderedFor(r, t) {
        assert OrderedFor(q, t);
        LeaveKeepsOrder(q, 0, Dropped, t);
        assert q.packets[..0] + q.packets[1..] == q.packets[1..];
      }
      PacketsAppend(q.done, Done(q.packets[0], Dropped));
      assert Packets(q.done) + q.packets == Packets(q.done) + [q.packets[0]] + q.packets[1..];
      AbandonKeeps(l, r);
    }
  }

  lemma SameKeepsOrder(q: Queue, r: Queue)
    requires Ordered(q) && r.queued == q.queued && r.done == q.done && r.packets == q.packets
    ensures Ordered(r)
  {
    forall t ensures OrderedFor(r, t) {
      assert OrderedFor(q, t);
    }
  }

  /** In every run: counters exact and within limits, per-target order, nothing waits unasked. */
  lemma {:induction false} RunKeeps(l: Limits, w: World, q: Queue, es: seq<Event>)
    requires Inv(l, q)
    ensures Inv(l, Run(l, w, q, es))
    decreases |es|
  {
    if es != [] {
      StepKeeps(l, w, q, es[0]);
      RunKeeps(l, w, Step(l, w, q, es[0]), es[1..]);
    }
  }

  /** From an empty queue, whatever the resolver and the socket do. */
  lemma EveryRun(l: Limits, w: World, es: seq<Event>, t: Target)
    ensures var q := Run(l, w, Empty(), es);
            && q.count == |q.packets| <= l.packets && q.bytes == Weight(q.packets) <= l.bytes
            && Only(q.queued, t) == Only(Packets(q.done), t) + Only(q.packets, t)
            && (q.resolving.None? <==> q.packets == [])
            && (q.resolving.Some? ==> q.packets[0].target == q.resolving.value)
  {
    EmptyKeeps(l);
    RunKeeps(l, w, Empty(), es);
    assert OrderedFor(Run(l, w, Empty(), es), t);
  }

  /** A failed resolution removes exactly its target's packets; the rest keep their order, and then
      the next head's target is asked for. */
  lemma FailureRemovesOneTarget(l: Limits, w: World, q: Queue)
    requires Inv(l, q) && q.resolving.Some?
    ensures var t := q.resolving.value;
            var r := DropFrom(q.(resolving := None), t, 0);
            && r.packets == Others(q.packets, t) && OnAnswer(w, q, false) == Process(w, r)
            && Only(Packets(r.done), t) == Only(q.queued, t)
  {
    var t := q.resolving.value;
    AskKeeps(q, q.asked, None);
    DropClears(q.(resolving := None), t, 0);
    var r := DropFrom(q.(resolving := None), t, 0);
    OthersHaveNone(q.packets, t);
    assert OrderedFor(r, t);
    assert Only(Packets(r.done), t) + [] == Only(Packets(r.done), t);
  }

  lemma {:induction false} OthersHaveNone(ps: seq<Packet>, t: Target)
    ensures Only(Others(ps, t), t) == []
    decreases |ps|
  {
    if ps != [] {
      OthersHaveNone(ps[1..], t);
      OnlyAppend(if ps[0].target == t then [] else [ps[0]], Others(ps[1..], t), t);
      assert [ps[0]][1..] == [];
    }
  }

  // ----- In place -----

  class PendingQueue {
    const limits: Limits
    const world: World
    /** For the n-th question: the resolver calls back before the asking call returns. */
    const calledBack: nat -> bool
    var packets: seq<Packet>
    var count: nat
    var bytes: nat
    var resolverPending: bool
    var resolverTarget: Target
    var asked: nat
    var done: seq<Done>
    ghost var queued: seq<Packet>

    ghost function State(): Queue
      reads this
    {
      Queue(packets, count, bytes, if resolverPending then Some(resolverTarget) else None, queued, done, asked)
    }

    constructor (limits: Limits, world: World, calledBack: nat -> bool)
      ensures State() == Empty() && this.limits == limits && this.world == world
    {
      this.limits, this.world, this.calledBack := limits, world, calledBack;
      packets, count, bytes, resolverPending, resolverTarget, asked := [], 0, 0, false, Target([], 0), 0;
      queued, done := [], [];
    }

    method Unlink(i: nat, fate: Fate)
      requires i < |packets|
      modifies this`packets, this`count, this`bytes, this`done
      ensures State() == Leave(old(State()), i, fate)
    {
      done := done + [Done(packets[i], fate)];
      count, bytes := Minus(count, 1), Minus(bytes, |packets[i].payload|);
      packets := packets[..i] + packets[i + 1..];
    }

    /** Walk the queue and unlink the target's packets. */
    method DropTarget(t: Target)
      modifies this`packets, this`count, this`bytes, this`done
      ensures State() == DropFrom(old(State()), t, 0)
    {
      var i := 0;
      while i < |packets|
        invariant DropFrom(State(), t, i) == DropFrom(old(State()), t, 0)
        decreases |packets| - i
      {
        if packets[i].target != t {
          i := i + 1;
        } else {
          Unlink(i, Dropped);
        }
      }
    }

    /** Walk the queue and send the target's packets. */
    method FlushTarget(t: Target)
      modifies this`packets, this`count, this`bytes, this`done
      ensures State() == FlushFrom(world, old(State()), t, 0)
    {
      var i := 0;
      while i < |packets|
        invariant FlushFrom(world, State(), t, i) == FlushFrom(world, old(State()), t, 0)
        decreases |packets| - i
      {
        if packets[i].target != t {
          i := i + 1;
        } else {
          if !world.sends(|done|) {
            DropTarget(t);
            return;
          }
          Unlink(i, Sent);
        }
      }
    }

    /** Ask for the head's target, and go on as long as answers come at once. */
    method ProcessPending()
      modifies this
      ensures State() == Process(world, old(State()))
      decreases |packets|, 2
    {
      ghost var result := Process(world, State());
      while packets != [] && !resolverPending
        invariant Process(world, State()) == result && |packets| <= old(|packets|)
        decreases |packets|
      {
        var t := packets[0].target;
        var rc := ResolveAddr(t);
        match rc
        case Later =>
          return;
        case Unresolved =>
          DropTarget(t);
        case Resolved =>
          FlushTarget(t);
      }
    }

    /** `Later` stands for the question being in the resolver's hands; by then the answer may already
        have come, been dealt with and led to further questions. */
    method ResolveAddr(t: Target) returns (rc: Answer)
      requires packets != [] && packets[0].target == t && !resolverPending
      modifies this
      ensures rc.Later? ==> State() == Process(world, old(State()))
      ensures !rc.Later? ==> State() == old(State()).(asked := old(asked) + 1) && rc == world.answer(old(asked))
      decreases |packets|, 1
    {
      var n := asked;
      asked := asked + 1;
      if !world.answer(n).Later? && !calledBack(n) {
        return world.answer(n);
      }
      resolverTarget, resolverPending := t, true;
      if !world.answer(n).Later? {
        ResolveHandler(world.answer(n).Resolved?);
      }
      return Later;
    }

    /** The resolver's answer. */
    method ResolveHandler(ok: bool)
      requires resolverPending && packets != [] && packets[0].target == resolverTarget
      modifies this
      ensures State() == OnAnswer(world, old(State()), ok)
      decreases |packets|, 0
    {
      var t := resolverTarget;
      resolverPending := false;
      if ok {
        FlushTarget(t);
      } else {
        DropTarget(t);
      }
      ProcessPending();
    }

    method EnqueuePacket(p: Packet)
      modifies this`packets, this`count, this`bytes, this`queued
      ensures State() == Enqueue(limits, old(State()), p)
    {
      if |p.target.host| == 0 || |p.target.host| > 255 || |p.payload| == 0 {
        return;
      }
      if count >= limits.packets || bytes + |p.payload| > limits.bytes {
        return;
      }
      packets, queued := packets + [p], queued + [p];
      count, bytes := count + 1, bytes + |p.payload|;
    }

    /** The stream closes: unlink head after head. */
    method ClearPending()
      modifies this`packets, this`count, this`bytes, this`done, this`resolverPending
      ensures State() == Abandon(old(State()))
    {
      ghost var result := Abandon(State());
      while packets != []
        invariant Abandon(State()) == result
        decreases |packets|
      {
        done := done + [Done(packets[0], Dropped)];
        packets := packets[1..];
      }
      count, bytes, resolverPending := 0, 0, false;
    }

    /** A datagram to a name. */
    method SendDomainPacket(p: Packet)
      modifies this
      ensures State() == Step(limits, world, old(State()), Datagram(p))
    {
      EnqueuePacket(p);
      if !resolverPending {
        ProcessPending();
      }
    }
  }
}
