/** Queues of handles, sums over streams and the frames of one owner: the bookkeeping theory
    behind the output multiplexer's invariant. */
module MuxLists {
  import opened Bytes
  import opened Mux
  import opened Wrappers

  ghost predicate NoDup(q: seq<Handle>) {
    forall i, j :: 0 <= i < j < |q| ==> q[i] != q[j]
  }

  /** The queue holds exactly the streams whose flag is set, each once. */
  ghost predicate Tracks(q: seq<Handle>, ss: seq<Stream>, flag: Stream -> bool) {
    && NoDup(q)
    && (forall h :: h in q ==> h < |ss|)
    && (forall h :: 0 <= h < |ss| ==> (flag(ss[h]) <==> h in q))
  }

  lemma {:induction false} RemoveSpec(q: seq<Handle>, h: Handle)
    ensures forall k :: k in Remove(q, h) <==> k in q && k != h
    ensures NoDup(q) ==> NoDup(Remove(q, h))
    ensures h !in q ==> Remove(q, h) == q
  {
    if q != [] {
      RemoveSpec(q[1..], h);
      assert q == [q[0]] + q[1..];
      if NoDup(q) {
        assert NoDup(q[1..]) && q[0] !in q[1..];
        NoDupCons(q[0], Remove(q[1..], h));
      }
    }
  }

  lemma NoDupCons(h: Handle, q: seq<Handle>)
    requires NoDup(q) && h !in q
    ensures NoDup([h] + q)
  {
  }

  lemma RemoveHead(q: seq<Handle>)
    requires q != [] && NoDup(q)
    ensures Remove(q, q[0]) == q[1..]
  {
    RemoveSpec(q[1..], q[0]);
  }

  lemma TracksKeep(q: seq<Handle>, ss: seq<Stream>, h: Handle, s: Stream, flag: Stream -> bool)
    requires Tracks(q, ss, flag) && h < |ss| && flag(s) == flag(ss[h])
    ensures Tracks(q, Put(ss, h, s), flag)
  {
  }

  lemma TracksAdd(q: seq<Handle>, ss: seq<Stream>, h: Handle, s: Stream, front: bool, flag: Stream -> bool)
    requires Tracks(q, ss, flag) && h < |ss| && !flag(ss[h]) && flag(s)
    ensures Tracks(Enlist(q, h, front), Put(ss, h, s), flag)
  {
  }

  lemma TracksDrop(q: seq<Handle>, ss: seq<Stream>, h: Handle, s: Stream, flag: Stream -> bool)
    requires Tracks(q, ss, flag) && h < |ss| && !flag(s)
    ensures Tracks(if flag(ss[h]) then Remove(q, h) else q, Put(ss, h, s), flag)
  {
    RemoveSpec(q, h);
  }

  lemma TracksNew(q: seq<Handle>, ss: seq<Stream>, s: Stream, flag: Stream -> bool)
    requires Tracks(q, ss, flag) && !flag(s)
    ensures Tracks(q, ss + [s], flag)
  {
  }

  // ---------------------------------------------------------------------------------------

  function SumBy(g: Stream -> nat, ss: seq<Stream>): nat {
    if ss == [] then 0 else g(ss[0]) + SumBy(g, ss[1..])
  }

  lemma {:induction false} SumPut(g: Stream -> nat, ss: seq<Stream>, h: Handle, s: Stream)
    requires h < |ss|
    ensures SumBy(g, Put(ss, h, s)) + g(ss[h]) == SumBy(g, ss) + g(s)
    ensures SumBy(g, ss) >= g(ss[h])
  {
    var r := Put(ss, h, s);
    if h == 0 {
      assert r[1..] == ss[1..];
    } else {
      assert r[1..] == Put(ss[1..], h - 1, s);
      SumPut(g, ss[1..], h - 1, s);
    }
  }

  lemma {:induction false} SumNew(g: Stream -> nat, ss: seq<Stream>, s: Stream)
    ensures SumBy(g, ss + [s]) == SumBy(g, ss) + g(s)
  {
    if ss != [] {
      assert (ss + [s])[1..] == ss[1..] + [s];
      SumNew(g, ss[1..], s);
    }
  }

  lemma {:induction false} SumZero(g: Stream -> nat, ss: seq<Stream>)
    requires forall h :: 0 <= h < |ss| ==> g(ss[h]) == 0
    ensures SumBy(g, ss) == 0
  {
    if ss != [] {
      SumZero(g, ss[1..]);
    }
  }

  // ---------------------------------------------------------------------------------------

  function Total(fs: seq<OutFrame>): nat {
    if fs == [] then 0 else fs[0].length + Total(fs[1..])
  }

  lemma {:induction false} TotalAppend(a: seq<OutFrame>, b: seq<OutFrame>)
    ensures Total(a + b) == Total(a) + Total(b)
  {
    if a == [] {
      assert a + b == b;
    } else {
      assert (a + b)[1..] == a[1..] + b;
      TotalAppend(a[1..], b);
    }
  }

  /** The frames of one stream, in order. */
  function Owned(fs: seq<OutFrame>, h: Handle): seq<OutFrame> {
    if fs == [] then []
    else if fs[0].owner == Some(h) then [fs[0]] + Owned(fs[1..], h)
    else Owned(fs[1..], h)
  }

  lemma {:induction false} OwnedAppend(a: seq<OutFrame>, b: seq<OutFrame>, h: Handle)
    ensures Owned(a + b, h) == Owned(a, h) + Owned(b, h)
  {
    if a == [] {
      assert a + b == b;
    } else {
      assert (a + b)[1..] == a[1..] + b;
      OwnedAppend(a[1..], b, h);
    }
  }

  lemma OwnedOne(f: OutFrame, h: Handle)
    ensures Owned([f], h) == if f.owner == Some(h) then [f] else []
  {
    assert [f][1..] == [];
  }

  lemma {:induction false} OwnedNone(fs: seq<OutFrame>, h: Handle)
    requires forall f :: f in fs ==> f.owner != Some(h)
    ensures Owned(fs, h) == []
  {
    if fs != [] {
      assert fs[0] in fs;
      OwnedNone(fs[1..], h);
    }
  }

  lemma {:induction false} WireAppend(a: seq<OutFrame>, b: seq<OutFrame>)
    ensures WireBytes(a + b) == WireBytes(a) + WireBytes(b)
  {
    if a == [] {
      assert a + b == b;
    } else {
      assert (a + b)[1..] == a[1..] + b;
      WireAppend(a[1..], b);
    }
  }

  lemma {:induction false} UnchargeExact(pending: nat, out: seq<OutFrame>)
    requires pending >= Total(out)
    ensures Uncharge(pending, out) == pending - Total(out)
  {
    if out != [] {
      UnchargeExact(pending - out[0].length, out[1..]);
    }
  }
}
