/**
  The first payload of a stream starts with the address to connect to. The client may cut it into
  frames anywhere; a partial address is kept in a buffer of the length of the longest address.
  */
module FirstPsh {
  import opened Bytes
  import opened Callers
  import opened StreamDecoder
  import opened SocksAddr

  /** Where the opening of a stream stands: bytes kept, or the address and the payload passed on. */
  datatype Opening = Waiting(acc: Bytes) | Open(addr: Addr, payload: Bytes) | Broken
  {
    predicate Valid() {
      Waiting? ==> |acc| <= MAX_ADDR_LEN
    }
  }

  /** The one-shot reading of everything the client pushed. */
  function Opened(all: Bytes): (o: Opening)
    ensures o.Valid()
  {
    WaitingAddrIsShort(all);
    Verdict(ParseAddr(all), all)
  }

  function Verdict(r: Parsed<Addr>, all: Bytes): Opening
    requires r.Item? ==> r.consumed <= |all|
  {
    match r
    case More => Waiting(all)
    case Bad => Broken
    case Item(addr, n) => Open(addr, all[n..])
  }

  /** The bytes the parser is given: the frame itself, or the kept bytes and as much of the frame as
      an address can still need. */
  function Seen(acc: Bytes, data: Bytes): Bytes
    requires |acc| <= MAX_ADDR_LEN
  {
    if acc == [] then data else acc + data[..Min(|data|, MAX_ADDR_LEN - |acc|)]
  }

  /** One frame. The payload is the part of this frame that the address did not take. */
  function Push(o: Opening, data: Bytes): (r: Opening)
    requires o.Valid()
    ensures r.Valid()
  {
    match o
    case Broken => Broken
    case Open(addr, payload) => Open(addr, payload + data)
    case Waiting(acc) =>
      if acc != [] && data == [] then o
      else
        FrameVerdict(ParseAddr(Seen(acc, data)), acc, data)
  }

  function FrameVerdict(r: Parsed<Addr>, acc: Bytes, data: Bytes): (o: Opening)
    requires |acc| <= MAX_ADDR_LEN && (r.Item? ==> r.consumed <= |acc| + |data|)
    ensures o.Valid()
  {
    match r
    case More => if |Seen(acc, data)| >= MAX_ADDR_LEN then Broken else Waiting(Seen(acc, data))
    case Bad => Broken
    case Item(addr, n) => Open(addr, data[if n > |acc| then n - |acc| else 0..])
  }

  /** An address cut off at the buffer's end would have been complete. */
  lemma SeenDecides(acc: Bytes, data: Bytes)
    requires ParseAddr(acc).More? && |acc| <= MAX_ADDR_LEN
    ensures ParseAddr(Seen(acc, data)) == ParseAddr(acc + data)
    ensures ParseAddr(acc + data).More? ==> Seen(acc, data) == acc + data
  {
    var seen := Seen(acc, data);
    if acc == [] {
      assert acc + data == data;
    } else {
      var k := Min(|data|, MAX_ADDR_LEN - |acc|);
      assert seen + data[k..] == acc + data;
      ParseAddrSettles(seen, data[k..]);
      WaitingAddrIsShort(seen);
    }
  }

  /** Bytes that hold a whole address parse without what follows them. */
  lemma WholeAddressParses(acc: Bytes, data: Bytes)
    requires ParseAddr(acc + data).Item? && ParseAddr(acc + data).consumed <= |acc|
    ensures ParseAddr(acc).Item?
  {
    var a, n := ParseAddr(acc + data).value, ParseAddr(acc + data).consumed;
    ParsedAddrIsEncoded(acc + data);
    assert acc == EncodeAddr(a) + acc[n..];
    AddrRoundTrip(a, acc[n..]);
  }

  /** The address ends in the frame that completes it. */
  lemma AddressEndsLater(acc: Bytes, data: Bytes)
    requires ParseAddr(acc).More? && ParseAddr(acc + data).Item?
    ensures |acc| < ParseAddr(acc + data).consumed
  {
    if ParseAddr(acc + data).consumed <= |acc| {
      WholeAddressParses(acc, data);
      assert false;
    }
  }

  lemma FirstPushIsParse(acc: Bytes, data: Bytes)
    requires ParseAddr(acc).More? && |acc| <= MAX_ADDR_LEN && !(acc != [] && data == [])
    ensures Push(Waiting(acc), data) == Opened(acc + data)
  {
    var r := ParseAddr(acc + data);
    assert ParseAddr(Seen(acc, data)) == r && (r.More? ==> Seen(acc, data) == acc + data) by {
      SeenDecides(acc, data);
    }
    WaitingAddrIsShort(acc + data);
    if r.Item? {
      AddressEndsLater(acc, data);
    }
    SameVerdict(r, acc, data);
  }

  lemma SameVerdict(r: Parsed<Addr>, acc: Bytes, data: Bytes)
    requires |acc| <= MAX_ADDR_LEN
    requires r.More? ==> Seen(acc, data) == acc + data && |acc + data| < MAX_ADDR_LEN
    requires r.Item? ==> |acc| < r.consumed <= |acc| + |data|
    ensures FrameVerdict(r, acc, data) == Verdict(r, acc + data)
  {
    if r.Item? {
      assert data[r.consumed - |acc|..] == (acc + data)[r.consumed..];
    }
  }

  lemma PushIsParse(all: Bytes, data: Bytes)
    ensures Push(Opened(all), data) == Opened(all + data)
  {
    WaitingAddrIsShort(all);
    match ParseAddr(all)
    case More =>
      if all != [] && data == [] {
        assert all + data == all;
      } else {
        FirstPushIsParse(all, data);
      }
    case Bad =>
      ParseAddrSettles(all, data);
    case Item(_, n) =>
      ParseAddrSettles(all, data);
      assert (all + data)[n..] == all[n..] + data;
  }

  /** A PSH frame of the stream and on whose behalf it is handled. */
  datatype Psh = Psh(data: Bytes, who: Caller)

  /** An illegal address that does not end the connection leaves the stream waiting for another one. */
  predicate Survives(o: Opening, f: Psh)
    requires o.Valid()
  {
    !o.Broken? && Push(o, f.data).Broken? && !f.who.Reader?
  }

  function OnFrame(o: Opening, f: Psh): (r: Opening)
    requires o.Valid()
    ensures r.Valid()
  {
    if Survives(o, f) then Waiting([]) else Push(o, f.data)
  }

  function OnFrames(o: Opening, frames: seq<Psh>): Opening
    requires o.Valid()
    decreases |frames|
  {
    if frames == [] then o else OnFrames(OnFrame(o, frames[0]), frames[1..])
  }

  predicate SurvivedIn(o: Opening, frames: seq<Psh>)
    requires o.Valid()
    decreases |frames|
  {
    frames != [] && (Survives(o, frames[0]) || SurvivedIn(OnFrame(o, frames[0]), frames[1..]))
  }

  function All(frames: seq<Psh>): Bytes
    decreases |frames|
  {
    if frames == [] then [] else frames[0].data + All(frames[1..])
  }

  lemma {:induction false} FramesAreRead(read: Bytes -> Opening, prior: Bytes, frames: seq<Psh>)
    requires forall all, data :: OneFrame(read, all, data)
    requires read(prior).Valid() && !SurvivedIn(read(prior), frames)
    ensures OnFrames(read(prior), frames) == read(prior + All(frames))
    decreases |frames|
  {
    if frames == [] {
      assert prior + All(frames) == prior;
    } else {
      assert OneFrame(read, prior, frames[0].data);
      FramesAreRead(read, prior + frames[0].data, frames[1..]);
      assert prior + frames[0].data + All(frames[1..]) == prior + All(frames);
    }
  }

  ghost predicate OneFrame(read: Bytes -> Opening, all: Bytes, data: Bytes) {
    read(all).Valid() && Push(read(all), data) == read(all + data)
  }

  /** Bytes that begin with an illegal address never open a stream. */
  lemma BrokenStays(all: Bytes, more: Bytes)
    requires Opened(all).Broken?
    ensures Opened(all + more).Broken?
  {
    ParseAddrSettles(all, more);
  }

  lemma {:induction false} SurvivorReadBroken(prior: Bytes, frames: seq<Psh>)
    requires SurvivedIn(Opened(prior), frames)
    ensures Opened(prior + All(frames)).Broken?
    decreases |frames|
  {
    var f := frames[0];
    PushIsParse(prior, f.data);
    assert prior + f.data + All(frames[1..]) == prior + All(frames);
    if Survives(Opened(prior), f) {
      BrokenStays(prior + f.data, All(frames[1..]));
    } else {
      SurvivorReadBroken(prior + f.data, frames[1..]);
    }
  }

  /** For every way of cutting the client's bytes into frames, while the connection lives: the address
      and the payload passed on are those of the uncut bytes, no byte lost, repeated or delayed, if and
      only if no illegal address was met in a resume called by a writer or a discard. (When the
      connection ends, the uncut bytes are illegal too.) */
  lemma CutsDoNotMatterIff(frames: seq<Psh>)
    ensures var o := OnFrames(Waiting([]), frames);
            && (!SurvivedIn(Waiting([]), frames) ==> o == Opened(All(frames)))
            && (!o.Broken? ==> (o == Opened(All(frames)) <==> !SurvivedIn(Waiting([]), frames)))
  {
    assert Opened([]) == Waiting([]) && [] + All(frames) == All(frames);
    if SurvivedIn(Waiting([]), frames) {
      SurvivorReadBroken([], frames);
    } else {
      forall all, data ensures OneFrame(Opened, all, data) {
        PushIsParse(all, data);
      }
      FramesAreRead(Opened, [], frames);
    }
  }

  /** The failing input: an illegal address type, met on behalf of a writer, and then any address: the
      stream is opened, although the bytes as a whole are illegal. */
  lemma OpensAfterAll(a: Addr, bad: byte)
    requires a.Valid() && bad !in {ATYP_IPV4, ATYP_IPV6, ATYP_DOMAIN}
    ensures var frames := [Psh([bad], Writer(0)), Psh(EncodeAddr(a), Reader)];
            OnFrames(Waiting([]), frames) == Open(a, []) && Opened(All(frames)).Broken?
  {
    var f, g := Psh([bad], Writer(0)), Psh(EncodeAddr(a), Reader);
    AddrRoundTrip(a, []);
    assert EncodeAddr(a) + [] == EncodeAddr(a) && EncodeAddr(a)[|EncodeAddr(a)|..] == [];
    assert Push(Waiting([]), g.data) == Open(a, []);
    assert [f, g][1..] == [g] && [g][1..] == [];
    assert OnFrames(Waiting([]), [g]) == OnFrames(Open(a, []), []);
    assert Survives(Waiting([]), f);
    assert OnFrames(Waiting([]), [f, g]) == OnFrames(Waiting([]), [g]);
    assert All([f, g])[0] == bad;
  }

  class Opener {
    var acc: array?<byte>
    var accLen: nat
    var opening: Opening

    /** While waiting, the buffer holds the kept bytes; it is allocated once and of full length. */
    ghost predicate Valid()
      reads this, acc
    {
      && opening.Valid() && (acc != null ==> acc.Length == MAX_ADDR_LEN)
      && (accLen > 0 ==> acc != null && accLen < MAX_ADDR_LEN)
      && (opening.Waiting? ==> opening.acc == if accLen == 0 then [] else acc[..accLen])
      && (opening.Broken? ==> accLen == 0)
    }

    constructor ()
      ensures Valid() && opening == Waiting([])
    {
      acc, accLen, opening := null, 0, Waiting([]);
    }

    /** Copy the first `n` bytes of `data` behind what is kept. */
    method Keep(data: Bytes, n: nat)
      requires acc != null && acc.Length == MAX_ADDR_LEN && n <= |data| && accLen + n <= MAX_ADDR_LEN
      modifies this`accLen, acc
      ensures accLen == old(accLen) + n && acc[..accLen] == old(acc[..accLen]) + data[..n]
    {
      var at := accLen;
      ghost var before := acc[..at];
      for k := 0 to n
        invariant accLen == at && acc[..at + k] == before + data[..k]
      {
        acc[at + k] := data[k];
        assert acc[..at + k + 1] == acc[..at + k] + [data[k]];
        assert data[..k + 1] == data[..k] + [data[k]];
      }
      accLen := at + n;
    }

    /** A frame that continues a kept address. */
    method Continue(data: Bytes)
      requires Valid() && opening.Waiting? && accLen > 0 && data != []
      modifies this, acc
      ensures Valid() && opening == Push(old(opening), data)
    {
      var had := accLen;
      Keep(data, Min(|data|, MAX_ADDR_LEN - accLen));
      var seen := acc[..accLen];
      assert seen == Seen(old(opening.acc), data);
      accLen := 0;
      match ParseAddr(seen)
      case More =>
        if |seen| >= MAX_ADDR_LEN {
          opening := Broken;
        } else {
          accLen, opening := |seen|, Waiting(seen);
        }
      case Bad =>
        opening := Broken;
      case Item(addr, n) =>
        opening := Open(addr, data[if n > had then n - had else 0..]);
    }

    /** A frame with nothing kept before it. */
    method Begin(data: Bytes)
      requires Valid() && opening.Waiting? && accLen == 0
      modifies this, acc
      ensures Valid() && opening == Push(old(opening), data)
    {
      match ParseAddr(data)
      case More =>
        if |data| >= MAX_ADDR_LEN {
          opening := Broken;
        } else {
          if acc == null {
            acc := new byte[MAX_ADDR_LEN](_ => 0);
          }
          Keep(data, |data|);
          opening := Waiting(data);
        }
      case Bad =>
        opening := Broken;
      case Item(addr, n) =>
        opening := Open(addr, data[n..]);
    }

    /** One PSH frame of the stream. */
    method OnPsh(data: Bytes, who: Caller)
      requires Valid()
      modifies this, acc
      ensures Valid() && opening == OnFrame(old(opening), Psh(data, who))
    {
      var live := !opening.Broken?;
      Parse(data);
      if live && opening.Broken? && !who.Reader? {
        opening := Waiting([]);
      }
    }

    method Parse(data: Bytes)
      requires Valid()
      modifies this, acc
      ensures Valid() && opening == Push(old(opening), data)
    {
      match opening
      case Broken =>
      case Open(addr, payload) =>
        opening := Open(addr, payload + data);
      case Waiting(_) =>
        if accLen == 0 {
          Begin(data);
        } else if data != [] {
          Continue(data);
        }
    }
  }
}
