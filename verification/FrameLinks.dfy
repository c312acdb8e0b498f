/** The frame queues of a connection as linked lists: frames move by relinking their nodes. */
module FrameLinks {
  import opened Bytes
  import opened Mux
  import opened MuxLists
  import opened LinkedQueue

  /** Two queues that share no node. */
  ghost predicate Apart(a: Queue<OutFrame>, b: Queue<OutFrame>)
    reads a, b, a.repr, b.repr
  {
    a != b && a.Valid() && b.Valid() && a.repr !! b.repr
  }

  /** The first node of one queue becomes the last of another. */
  method Relink(from: Queue<OutFrame>, to: Queue<OutFrame>) returns (f: OutFrame)
    requires Apart(from, to) && from.contents != []
    modifies from, to, from.repr, to.repr
    ensures Apart(from, to) && from.repr + to.repr == old(from.repr + to.repr)
    ensures f == old(from.contents[0]) && from.contents == old(from.contents)[1..]
    ensures to.contents == old(to.contents) + [f]
  {
    var n := from.Pop();
    f := n.value;
    to.Append(n);
  }

  /** All of them, one after the other, and the bytes they stand for. */
  method RelinkAll(from: Queue<OutFrame>, to: Queue<OutFrame>) returns (chain: Bytes)
    requires Apart(from, to)
    modifies from, to, from.repr, to.repr
    ensures Apart(from, to) && from.repr + to.repr == old(from.repr + to.repr)
    ensures from.contents == [] && to.contents == old(to.contents) + old(from.contents)
    ensures chain == WireBytes(old(from.contents))
  {
    chain := [];
    ghost var all, start := from.contents, to.contents;
    ghost var k := 0;
    while from.head != null
      invariant Apart(from, to) && from.repr + to.repr == old(from.repr + to.repr)
      invariant k <= |all| && from.contents == all[k..] && to.contents == start + all[..k]
      invariant chain == WireBytes(all[..k])
      decreases |from.contents|
    {
      OneMoreWire(all, k);
      var f := Relink(from, to);
      chain := chain + f.wire;
      k := k + 1;
    }
    assert all[..k] == all;
  }

  lemma OneMoreWire(fs: seq<OutFrame>, k: nat)
    requires k < |fs|
    ensures WireBytes(fs[..k + 1]) == WireBytes(fs[..k]) + fs[k].wire
    ensures fs[k..][0] == fs[k] && fs[k..][1..] == fs[k + 1..] && fs[..k + 1] == fs[..k] + [fs[k]]
  {
    assert fs[..k + 1] == fs[..k] + [fs[k]];
    WireAppend(fs[..k], [fs[k]]);
    assert [fs[k]][1..] == [];
    assert WireBytes([fs[k]]) == fs[k].wire + [];
  }

  /** Flush makes the next chain: control frames first, then data frames. No node is lost. */
  method ChainFrames(control: Queue<OutFrame>, data: Queue<OutFrame>, sending: Queue<OutFrame>) returns (chain: Bytes)
    requires Apart(control, data) && Apart(control, sending) && Apart(data, sending)
    modifies control, data, sending, control.repr, data.repr, sending.repr
    ensures Apart(control, data) && Apart(control, sending) && Apart(data, sending)
    ensures control.repr + data.repr + sending.repr == old(control.repr + data.repr + sending.repr)
    ensures control.contents == [] && data.contents == []
    ensures sending.contents == old(sending.contents) + old(control.contents) + old(data.contents)
    ensures chain == WireBytes(old(control.contents) + old(data.contents))
  {
    ghost var a, b := control.contents, data.contents;
    var first := RelinkAll(control, sending);
    var second := RelinkAll(data, sending);
    WireAppend(a, b);
    chain := first + second;
  }

  /** Recycle: take off the front exactly the frames whose bytes the socket has taken, where `written`
      counts the bytes taken since the first of them began. */
  method RecycleSent(sending: Queue<OutFrame>, written: nat) returns (done: seq<OutFrame>, left: nat)
    requires sending.Valid() && written <= |WireBytes(sending.contents)|
    modifies sending, sending.repr
    ensures sending.Valid() && sending.repr <= old(sending.repr)
    ensures old(sending.contents) == done + sending.contents
    ensures written == |WireBytes(done)| + left && left <= |WireBytes(sending.contents)|
    ensures sending.contents != [] ==> left < |sending.contents[0].wire|
  {
    done, left := [], written;
    ghost var all := sending.contents;
    while sending.head != null && left >= |sending.head.value.wire|
      invariant sending.Valid() && sending.repr <= old(sending.repr)
      invariant |done| <= |all| && done == all[..|done|] && sending.contents == all[|done|..]
      invariant written == |WireBytes(done)| + left && left <= |WireBytes(sending.contents)|
      decreases |sending.contents|
    {
      OneMoreWire(all, |done|);
      var n := sending.Pop();
      done, left := done + [n.value], left - |n.value.wire|;
    }
  }
}
