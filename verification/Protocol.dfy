/**
  The AnyTLS frame: a command octet, a 32-bit stream id, a 16-bit payload length, the payload.
  */
module Protocol {
  import opened Bytes
  import opened StreamDecoder

  const HEADER_LEN: nat := 7
  const MAX_FRAME_DATA: nat := 65535

  const WASTE: byte := 0
  const SYN: byte := 1
  const PSH: byte := 2
  const FIN: byte := 3
  const SETTINGS: byte := 4
  const ALERT: byte := 5
  const UPDATE_PADDING: byte := 6
  const SYNACK: byte := 7
  const HEART_REQUEST: byte := 8
  const HEART_RESPONSE: byte := 9
  const SERVER_SETTINGS: byte := 10

  datatype Frame = Frame(cmd: byte, sid: nat, data: Bytes) {
    /** Frames that fit the header's fields. */
    predicate Encodable() {
      sid < U32_LIMIT && |data| <= MAX_FRAME_DATA
    }
  }

  function Header(cmd: byte, sid: nat, len: nat): (h: Bytes)
    requires sid < U32_LIMIT && len < U16_LIMIT
    ensures |h| == HEADER_LEN
  {
    [cmd] + PutBe32(sid) + PutBe16(len)
  }

  /** Numbers of one octet in a header. */
  lemma OctetHeader(cmd: byte, sid: byte, n: byte)
    ensures Header(cmd, sid, n) == [cmd, 0, 0, 0, sid, 0, n]
  {
    OctetDigits(sid);
    OctetDigits(n);
  }

  function Encode(f: Frame): (s: Bytes)
    requires f.Encodable()
    ensures |s| == HEADER_LEN + |f.data|
  {
    Header(f.cmd, f.sid, |f.data|) + f.data
  }

  /** The parser of the client handler's loop. A command above SERVER_SETTINGS is taken whole
      and its payload is not looked at. */
  function ParseFrame(s: Bytes): (r: Parsed<Frame>) {
    if |s| < HEADER_LEN then More
    else
      var n := Be16(s[5], s[6]);
      if |s| < HEADER_LEN + n then More
      else
        var data := if s[0] > SERVER_SETTINGS then [] else s[HEADER_LEN..HEADER_LEN + n];
        Item(Frame(s[0], Be32(s[1], s[2], s[3], s[4]), data), HEADER_LEN + n)
  }

  lemma ParseFrameIsIncremental()
    ensures Incremental(ParseFrame)
  {
    forall s, t
      ensures Settled(ParseFrame, s, t)
    {
      if !ParseFrame(s).More? {
        var n := Be16(s[5], s[6]);
        assert (s + t)[HEADER_LEN..HEADER_LEN + n] == s[HEADER_LEN..HEADER_LEN + n];
      }
    }
  }

  /** A parse that is still waiting holds less than one frame of the largest size. */
  lemma WaitingIsShort(s: Bytes)
    requires ParseFrame(s).More?
    ensures |s| < HEADER_LEN + MAX_FRAME_DATA
  {
  }

  /** The frames a known command can carry come back from the wire, whatever follows them. */
  lemma EncodeThenParse(f: Frame, rest: Bytes)
    requires f.Encodable() && f.cmd <= SERVER_SETTINGS
    ensures ParseFrame(Encode(f) + rest) == Item(f, HEADER_LEN + |f.data|)
  {
    var s := Encode(f) + rest;
    assert s[0] == f.cmd;
    assert s[1..5] == PutBe32(f.sid);
    assert s[5..7] == PutBe16(|f.data|);
    assert s[1] == s[1..5][0] && s[2] == s[1..5][1] && s[3] == s[1..5][2] && s[4] == s[1..5][3];
    assert s[5] == s[5..7][0] && s[6] == s[5..7][1];
    assert s[HEADER_LEN..HEADER_LEN + |f.data|] == f.data;
  }

  /** Conversely, what the parser takes is the encoding of what it returns. */
  lemma ParseThenEncode(s: Bytes)
    requires ParseFrame(s).Item? && s[0] <= SERVER_SETTINGS
    ensures var r := ParseFrame(s); r.value.Encodable() && s[..r.consumed] == Encode(r.value)
  {
    var f := ParseFrame(s).value;
    var n := |f.data|;
    assert n == Be16(s[5], s[6]);
    Be16Digits(s[1], s[2]);
    Be16Digits(s[3], s[4]);
    Be16Digits(s[5], s[6]);
    Be32Digits(Be16(s[1], s[2]), Be16(s[3], s[4]));
    assert s[..HEADER_LEN + n] == s[..HEADER_LEN] + f.data;
  }

  predicate Sendable(fs: seq<Frame>) {
    forall i :: 0 <= i < |fs| ==> fs[i].Encodable() && fs[i].cmd <= SERVER_SETTINGS
  }

  function EncodeAll(fs: seq<Frame>): Bytes
    requires Sendable(fs)
  {
    if fs == [] then [] else Encode(fs[0]) + EncodeAll(fs[1..])
  }

  /** A receiver that has got whole frames and the beginning of another has exactly those
      frames, and keeps the beginning. */
  lemma {:induction false} DecodeOfEncoded(fs: seq<Frame>, tail: Bytes) returns (d: Decoded<Frame>)
    requires Sendable(fs) && ParseFrame(tail).More?
    ensures d == Decode(ParseFrame, EncodeAll(fs) + tail)
    ensures d == Decoded(fs, tail, false)
    decreases |fs|
  {
    d := Decode(ParseFrame, EncodeAll(fs) + tail);
    if fs == [] {
      assert EncodeAll(fs) + tail == tail;
    } else {
      var rest := EncodeAll(fs[1..]) + tail;
      assert EncodeAll(fs) + tail == Encode(fs[0]) + rest;
      EncodeThenParse(fs[0], rest);
      assert (Encode(fs[0]) + rest)[|Encode(fs[0])|..] == rest;
      var _ := DecodeOfEncoded(fs[1..], tail);
      assert [fs[0]] + fs[1..] == fs;
    }
  }

  /** A proper prefix of one frame is not a frame. */
  lemma PartialFrameWaits(f: Frame, k: nat)
    requires f.Encodable() && k < |Encode(f)|
    ensures ParseFrame(Encode(f)[..k]).More?
  {
    var s := Encode(f);
    if k >= HEADER_LEN {
      assert s[5..7] == PutBe16(|f.data|);
      assert s[5] == s[5..7][0] && s[6] == s[5..7][1];
    }
  }
}
