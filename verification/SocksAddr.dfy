/**
  Target addresses: the SOCKS address of section 5 of RFC 1928, the UDP-over-TCP packet
  header derived from it, and the two framings of datagrams inside a stream.
  */
module SocksAddr {
  import opened Bytes
  import opened StreamDecoder
  import opened Protocol

  const MAX_ADDR_LEN: nat := 259

  const ATYP_IPV4: byte := 1
  const ATYP_DOMAIN: byte := 3
  const ATYP_IPV6: byte := 4

  const UOT_ATYP_IPV4: byte := 0
  const UOT_ATYP_IPV6: byte := 1
  const UOT_ATYP_DOMAIN: byte := 2

  datatype Addr =
    | V4(ip: Bytes, port: nat)
    | V6(ip: Bytes, port: nat)
    | Domain(host: Bytes, port: nat)
  {
    predicate Valid() {
      && port < U16_LIMIT
      && (V4? ==> |ip| == 4)
      && (V6? ==> |ip| == 16)
      && (Domain? ==> |host| <= 255)
    }

    /** The address type octet followed by everything up to the port. */
    function Body(): Bytes
      requires Valid()
    {
      match this
      case V4(ip, _) => ip
      case V6(ip, _) => ip
      case Domain(host, _) => [|host|] + host
    }

    function Atyp(): byte {
      match this
      case V4(_, _) => ATYP_IPV4
      case V6(_, _) => ATYP_IPV6
      case Domain(_, _) => ATYP_DOMAIN
    }

    function UotAtyp(): byte {
      match this
      case V4(_, _) => UOT_ATYP_IPV4
      case V6(_, _) => UOT_ATYP_IPV6
      case Domain(_, _) => UOT_ATYP_DOMAIN
    }
  }

  function EncodeAddr(a: Addr): (s: Bytes)
    requires a.Valid()
    ensures 0 < |s| <= MAX_ADDR_LEN
  {
    [a.Atyp()] + a.Body() + PutBe16(a.port)
  }

  function PortAt(s: Bytes, i: nat): (n: nat)
    requires i + 1 < |s|
    ensures n < U16_LIMIT
  {
    Be16(s[i], s[i + 1])
  }

  function ParseAddr(s: Bytes): (r: Parsed<Addr>)
    ensures r.Item? ==> r.value.Valid() && 0 < r.consumed <= |s| && r.consumed <= MAX_ADDR_LEN
  {
    if |s| < 1 then More
    else if s[0] == ATYP_IPV4 then
      if |s| - 1 < 6 then More else Item(V4(s[1..5], PortAt(s, 5)), 7)
    else if s[0] == ATYP_IPV6 then
      if |s| - 1 < 18 then More else Item(V6(s[1..17], PortAt(s, 17)), 19)
    else if s[0] == ATYP_DOMAIN then
      if |s| < 2 then More
      else
        var n: nat := s[1];
        if |s| - 1 < n + 3 then More
        else Item(Domain(s[2..2 + n], PortAt(s, 2 + n)), n + 4)
    else Bad
  }

  lemma ParseAddrSettles(s: Bytes, t: Bytes)
    ensures Settled(ParseAddr, s, t) && Sized(ParseAddr, s)
  {
    var r := ParseAddr(s);
    if r.Item? {
      assert (s + t)[..r.consumed] == s[..r.consumed];
      match r.value {
        case V4(ip, _) => assert (s + t)[1..5] == s[1..5];
        case V6(ip, _) => assert (s + t)[1..17] == s[1..17];
        case Domain(host, _) => assert (s + t)[2..2 + s[1]] == s[2..2 + s[1]];
      }
    }
  }

  /** An address that is still incomplete is shorter than the longest legal one: a full
      accumulator always parses. */
  lemma WaitingAddrIsShort(s: Bytes)
    ensures ParseAddr(s).More? ==> |s| < MAX_ADDR_LEN
  {
  }

  lemma AddrRoundTrip(a: Addr, rest: Bytes)
    requires a.Valid()
    ensures ParseAddr(EncodeAddr(a) + rest) == Item(a, |EncodeAddr(a)|)
  {
    var s := EncodeAddr(a) + rest;
    var n := |a.Body()|;
    assert s[1..1 + n] == a.Body();
    assert s[1 + n..3 + n] == PutBe16(a.port);
    assert s[1 + n] == s[1 + n..3 + n][0] && s[2 + n] == s[1 + n..3 + n][1];
    if a.Domain? {
      assert s[1] == a.Body()[0];
      assert s[2..1 + n] == a.host;
    }
  }

  /** Only an encoded address parses. */
  lemma ParsedAddrIsEncoded(s: Bytes)
    requires ParseAddr(s).Item?
    ensures var r := ParseAddr(s); s[..r.consumed] == EncodeAddr(r.value)
  {
    var r := ParseAddr(s);
    var n := r.consumed;
    Be16Digits(s[n - 2], s[n - 1]);
    assert s[..n] == [s[0]] + s[1..n - 2] + s[n - 2..n];
    assert s[1..n - 2] == r.value.Body();
  }

  // ---------------------------------------------------------------------------------------
  // Datagrams inside a stream

  datatype Packet = Packet(peer: Addr, payload: Bytes) {
    predicate Valid() {
      peer.Valid() && |payload| < U16_LIMIT
    }
  }

  function EncodePacket(p: Packet): (s: Bytes)
    requires p.Valid()
    ensures 0 < |s|
  {
    [p.peer.UotAtyp()] + EncodeAddr(p.peer)[1..] + PutBe16(|p.payload|) + p.payload
  }

  /** The SOCKS type octet that a UDP-over-TCP type octet stands for. */
  function SocksAtyp(uot: byte): byte
    requires uot <= UOT_ATYP_DOMAIN
  {
    if uot == UOT_ATYP_IPV4 then ATYP_IPV4 else if uot == UOT_ATYP_IPV6 then ATYP_IPV6 else ATYP_DOMAIN
  }

  function ParsePacket(s: Bytes): (r: Parsed<Packet>)
    ensures r.Item? ==> r.value.Valid() && 0 < r.consumed <= |s|
  {
    if |s| < 1 then More
    else if s[0] > UOT_ATYP_DOMAIN then Bad
    else
      match ParseAddr(s[0 := SocksAtyp(s[0])])
      case More => More
      case Bad => Bad
      case Item(a, n) => TakePayload(a, s, n)
  }

  /** The sized payload that follows `n` bytes of address. */
  function TakePayload(a: Addr, s: Bytes, n: nat): (r: Parsed<Packet>)
    requires a.Valid() && 0 < n <= |s|
    ensures r.Item? ==> r.value.Valid() && 0 < r.consumed <= |s|
  {
    if |s| - n < 2 then More
    else
      var plen := Be16(s[n], s[n + 1]);
      if |s| - n - 2 < plen then More
      else Item(Packet(a, s[n + 2..n + 2 + plen]), n + 2 + plen)
  }

  lemma PayloadSettles(a: Addr, s: Bytes, n: nat, t: Bytes)
    requires a.Valid() && 0 < n <= |s| && TakePayload(a, s, n).Item?
    ensures TakePayload(a, s + t, n) == TakePayload(a, s, n)
  {
    SliceOfAppend(s, t, n + 2, n + 2 + Be16(s[n], s[n + 1]));
  }

  lemma ParsedPacketSettles(s: Bytes, t: Bytes)
    requires ParsePacket(s).Item?
    ensures ParsePacket(s + t) == ParsePacket(s)
  {
    var s', st: Bytes := s[0 := SocksAtyp(s[0])], s + t;
    var r := ParseAddr(s');
    PacketFollowsAddr(s, r.value, r.consumed);
    ParseAddrSettles(s', t);
    assert st[0 := SocksAtyp(s[0])] == s' + t;
    PacketFollowsAddr(st, r.value, r.consumed);
    PayloadSettles(r.value, s, r.consumed, t);
  }

  /** An address is read from its own bytes. */
  lemma AddrIsTight(s: Bytes)
    ensures Tight(ParseAddr, s)
  {
    if ParseAddr(s).Item? {
      var r := ParseAddr(s);
      ParsedAddrIsEncoded(s);
      AddrRoundTrip(r.value, []);
      assert EncodeAddr(r.value) + [] == s[..r.consumed];
    }
  }

  function AddrSize(a: Addr): nat {
    match a
    case V4(_, _) => 7
    case V6(_, _) => 19
    case Domain(host, _) => |host| + 4
  }

  function PacketSize(p: Packet): nat {
    AddrSize(p.peer) + 2 + |p.payload|
  }

  lemma PacketIsTight(s: Bytes)
    ensures Tight(ParsePacket, s) && SizedBy(ParsePacket, PacketSize, s)
  {
    if ParsePacket(s).Item? {
      var s' := s[0 := SocksAtyp(s[0])];
      var r := ParseAddr(s');
      var m := ParsePacket(s).consumed;
      PacketFollowsAddr(s, r.value, r.consumed);
      AddrIsTight(s');
      var t := s[..m];
      assert t[0 := SocksAtyp(t[0])] == s'[..m] == s'[..r.consumed] + s'[r.consumed..m];
      ParseAddrSettles(s'[..r.consumed], s'[r.consumed..m]);
      PacketFollowsAddr(t, r.value, r.consumed);
      assert t[r.consumed + 2..m] == s[r.consumed + 2..m];
    }
  }

  function SizedSize(payload: Bytes): nat {
    2 + |payload|
  }

  lemma SizedIsTight(s: Bytes)
    ensures Tight(ParseSized, s) && SizedBy(ParseSized, SizedSize, s)
  {
    if ParseSized(s).Item? {
      var m := ParseSized(s).consumed;
      assert s[..m][2..m] == s[2..m];
    }
  }

  lemma ParsePacketIsIncremental()
    ensures Incremental(ParsePacket)
  {
    forall s, t ensures Settled(ParsePacket, s, t) && Sized(ParsePacket, s) {
      if ParsePacket(s).Item? {
        ParsedPacketSettles(s, t);
      }
    }
  }

  lemma PayloadIsTaken(a: Addr, pre: Bytes, payload: Bytes, rest: Bytes)
    requires a.Valid() && 0 < |pre| && |payload| < U16_LIMIT
    ensures var s := pre + PutBe16(|payload|) + payload + rest;
            TakePayload(a, s, |pre|) == Item(Packet(a, payload), |pre| + 2 + |payload|)
  {
    var len := PutBe16(|payload|);
    var s := pre + len + payload + rest;
    assert s[|pre|] == len[0] && s[|pre| + 1] == len[1];
    assert s[|pre| + 2..|pre| + 2 + |payload|] == payload;
  }

  lemma PacketAfterPatch(s: Bytes, a: Bytes, tail: Bytes)
    requires 0 < |a| && 0 < |s| && s == [s[0]] + a[1..] + tail && s[0] <= UOT_ATYP_DOMAIN
    requires a[0] == SocksAtyp(s[0])
    ensures s[0 := SocksAtyp(s[0])] == a + tail
  {
  }

  lemma PacketFollowsAddr(s: Bytes, a: Addr, n: nat)
    requires 0 < |s| && s[0] <= UOT_ATYP_DOMAIN
    requires ParseAddr(s[0 := SocksAtyp(s[0])]) == Item(a, n)
    ensures a.Valid() && 0 < n <= |s| && ParsePacket(s) == TakePayload(a, s, n)
  {
  }

  lemma EncodedPacket(p: Packet, rest: Bytes)
    requires p.Valid()
    ensures var a := EncodeAddr(p.peer);
            EncodePacket(p) + rest == [p.peer.UotAtyp()] + a[1..] + (PutBe16(|p.payload|) + p.payload + rest)
  {
  }

  lemma PacketRoundTrip(p: Packet, rest: Bytes)
    requires p.Valid()
    ensures ParsePacket(EncodePacket(p) + rest) == Item(p, |EncodePacket(p)|)
  {
    var a := EncodeAddr(p.peer);
    var pre := [p.peer.UotAtyp()] + a[1..];
    var tail := PutBe16(|p.payload|) + p.payload + rest;
    var s: Bytes := pre + tail;
    EncodedPacket(p, rest);
    PacketAfterPatch(s, a, tail);
    AddrRoundTrip(p.peer, tail);
    PacketFollowsAddr(s, p.peer, |a|);
    PayloadIsTaken(p.peer, pre, p.payload, rest);
    assert s == pre + PutBe16(|p.payload|) + p.payload + rest;
  }

  /** A datagram of a connected stream: its length, then its bytes. */
  function ParseSized(s: Bytes): (r: Parsed<Bytes>)
    ensures r.Item? ==> 0 < r.consumed <= |s|
  {
    if |s| < 2 then More
    else
      var plen := Be16(s[0], s[1]);
      if |s| - 2 < plen then More else Item(s[2..2 + plen], 2 + plen)
  }

  lemma ParseSizedIsIncremental()
    ensures Incremental(ParseSized)
  {
    forall s, t ensures Settled(ParseSized, s, t) && Sized(ParseSized, s) {
      if !ParseSized(s).More? {
        var plen := Be16(s[0], s[1]);
        assert (s + t)[2..2 + plen] == s[2..2 + plen];
      }
    }
  }

  // ---------------------------------------------------------------------------------------
  // The in-place parser and the in-place encoder

  /** The source patches the type octet, runs the SOCKS parser and restores the octet. */
  method ParsePacketInPlace(buf: array<byte>, off: nat, len: nat) returns (r: Parsed<Packet>)
    requires off + len <= buf.Length
    modifies buf
    ensures r == ParsePacket(buf[off..off + len])
    ensures buf[..] == old(buf[..])
  {
    if len < 1 {
      return More;
    }
    ghost var before := buf[..];
    ghost var s := buf[off..off + len];
    var atyp := buf[off];
    if atyp > UOT_ATYP_DOMAIN {
      return Bad;
    }
    buf[off] := SocksAtyp(atyp);
    assert buf[off..off + len] == s[0 := SocksAtyp(s[0])];
    var a := ParseAddr(buf[off..off + len]);
    buf[off] := atyp;
    assert buf[..] == before;
    assert buf[off..off + len] == s;
    if a.More? { return More; }
    if a.Bad? { return Bad; }
    PacketFollowsAddr(s, a.value, a.consumed);
    return TakePayload(a.value, buf[off..off + len], a.consumed);
  }

  const UOT_MAX_HEADER: nat := 21

  /** Bytes in front of the datagram that its address and length take. */
  function PacketHeaderLen(a: Addr): nat
    requires a.V4? || a.V6?
  {
    if a.V4? then 9 else 21
  }

  /** The datagram received from `from` was read at offset HEADER_LEN + UOT_MAX_HEADER of a
      read buffer. Its header is written in the room before it, and the frame header in the
      room before that. */
  method FrameDatagram(buf: array<byte>, from: Addr, n: nat, sid: nat) returns (start: nat, end: nat)
    requires from.Valid() && (from.V4? || from.V6?)
    requires PacketHeaderLen(from) + n <= MAX_FRAME_DATA && sid < U32_LIMIT
    requires HEADER_LEN + UOT_MAX_HEADER + n <= buf.Length
    modifies buf
    ensures start <= end <= buf.Length
    ensures var payload := old(buf[HEADER_LEN + UOT_MAX_HEADER..HEADER_LEN + UOT_MAX_HEADER + n]);
            var p := Packet(from, payload);
            p.Valid() && |EncodePacket(p)| <= MAX_FRAME_DATA
            && buf[start..end] == Encode(Frame(PSH, sid, EncodePacket(p)))
  {
    var at := HEADER_LEN + UOT_MAX_HEADER;
    ghost var payload := buf[at..at + n];
    var head := PacketHeader(from, n);
    EncodedIsHeaderThenPayload(from, payload);
    var h := at - |head|;
    StoreBefore(buf, at, at + n, head);
    var fh := Header(PSH, sid, |head| + n);
    StoreBefore(buf, h, at + n, fh);
    start, end := h - HEADER_LEN, at + n;
  }

  function PacketHeader(from: Addr, n: nat): (s: Bytes)
    requires from.Valid() && (from.V4? || from.V6?) && n < U16_LIMIT
    ensures |s| == PacketHeaderLen(from)
  {
    [from.UotAtyp()] + from.ip + PutBe16(from.port) + PutBe16(n)
  }

  lemma EncodedIsHeaderThenPayload(from: Addr, payload: Bytes)
    requires from.Valid() && (from.V4? || from.V6?) && |payload| < U16_LIMIT
    ensures EncodePacket(Packet(from, payload)) == PacketHeader(from, |payload|) + payload
  {
    assert EncodeAddr(from)[1..] == from.ip + PutBe16(from.port);
  }

  /** Put `s` right in front of the bytes from `at` to `end`. */
  method StoreBefore(buf: array<byte>, at: nat, end: nat, s: Bytes)
    requires |s| <= at <= end <= buf.Length
    modifies buf
    ensures buf[at - |s|..end] == s + old(buf[at..end])
  {
    ghost var tail := buf[at..end];
    Store(buf, at - |s|, s);
    assert buf[at..end] == tail;
    assert buf[at - |s|..end] == buf[at - |s|..at] + buf[at..end];
  }

  method Store(buf: array<byte>, off: nat, s: Bytes)
    requires off + |s| <= buf.Length
    modifies buf
    ensures buf[off..off + |s|] == s
    ensures forall i :: 0 <= i < off || off + |s| <= i < buf.Length ==> buf[i] == old(buf[i])
  {
    for k := 0 to |s|
      invariant buf[off..off + k] == s[..k]
      invariant forall i :: 0 <= i < off || off + k <= i < buf.Length ==> buf[i] == old(buf[i])
    {
      buf[off + k] := s[k];
      assert buf[off..off + k + 1] == buf[off..off + k] + [s[k]];
    }
  }
}
