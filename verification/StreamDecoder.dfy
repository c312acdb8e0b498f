/**
  Incremental decoding of a byte stream into items.

  Every parser of client input in this program has one shape: it looks at the bytes at hand
  and says "not enough yet", "malformed", or "here is one item, it took this many bytes".
  This module says what such a parser must satisfy for the result of decoding a stream to
  be independent of where the stream was cut.
  */
module StreamDecoder {
  import opened Bytes

  datatype Parsed<T> = More | Bad | Item(value: T, consumed: nat)

  datatype Decoded<T> = Decoded(items: seq<T>, rest: Bytes, bad: bool)

  /** An item takes at least one byte and no more than there are; a verdict never changes
      when more bytes arrive. */
  ghost predicate Incremental<T(!new)>(p: Bytes -> Parsed<T>) {
    && (forall s :: Sized(p, s))
    && (forall s, t :: Settled(p, s, t))
  }

  ghost predicate Sized<T>(p: Bytes -> Parsed<T>, s: Bytes) {
    p(s).Item? ==> 0 < p(s).consumed <= |s|
  }

  ghost predicate Settled<T>(p: Bytes -> Parsed<T>, s: Bytes, t: Bytes) {
    !p(s).More? ==> p(s + t) == p(s)
  }

  /** The one-shot decoding of a whole byte string. */
  function Decode<T>(p: Bytes -> Parsed<T>, s: Bytes): (d: Decoded<T>)
    ensures |d.rest| <= |s|
    decreases |s|
  {
    var r := p(s);
    if r.More? then Decoded([], s, false)
    else if r.Bad? || r.consumed == 0 || r.consumed > |s| then Decoded([], s, true)
    else Prepend(r.value, Decode(p, s[r.consumed..]))
  }

  function Prepend<T>(v: T, d: Decoded<T>): Decoded<T> {
    Decoded([v] + d.items, d.rest, d.bad)
  }

  /** Whatever `d` found, then whatever `e` found. */
  function Join<T>(d: Decoded<T>, e: Decoded<T>): Decoded<T> {
    Decoded(d.items + e.items, e.rest, e.bad)
  }

  lemma DecodeItem<T(!new)>(p: Bytes -> Parsed<T>, s: Bytes, t: Bytes)
    requires Incremental(p) && p(s).Item?
    ensures var n := p(s).consumed;
            n <= |s| && Decode(p, s + t) == Prepend(p(s).value, Decode(p, s[n..] + t))
  {
    assert Sized(p, s) && Settled(p, s, t);
    assert (s + t)[p(s).consumed..] == s[p(s).consumed..] + t;
  }

  /** Decoding `s` first and continuing with what was left over in front of `t` is decoding
      `s + t`; a malformed prefix stays malformed. */
  lemma {:induction false} DecodeAppend<T(!new)>(p: Bytes -> Parsed<T>, s: Bytes, t: Bytes)
    requires Incremental(p)
    ensures var d := Decode(p, s);
            Decode(p, s + t) == if d.bad then d.(rest := d.rest + t) else Join(d, Decode(p, d.rest + t))
    decreases |s|
  {
    if p(s).Item? {
      var v, n := p(s).value, p(s).consumed;
      DecodeItem(p, s, t);
      DecodeOneItem(p, s);
      DecodeAppend(p, s[n..], t);
      var d := Decode(p, s[n..]);
      PrependJoin(v, d, Decode(p, d.rest + t));
    } else {
      assert Settled(p, s, t);
      var e := Decode(p, s + t);
      assert [] + e.items == e.items;
    }
  }

  lemma DecodeOneItem<T(!new)>(p: Bytes -> Parsed<T>, s: Bytes)
    requires Incremental(p) && p(s).Item?
    ensures p(s).consumed <= |s| && Decode(p, s) == Prepend(p(s).value, Decode(p, s[p(s).consumed..]))
  {
    assert Sized(p, s);
  }

  lemma PrependJoin<T>(v: T, d: Decoded<T>, e: Decoded<T>)
    ensures Join(Prepend(v, d), e) == Prepend(v, Join(d, e))
  {
    assert [v] + d.items + e.items == [v] + (d.items + e.items);
  }

  /** An item does not depend on what follows it. */
  ghost predicate Tight<T>(p: Bytes -> Parsed<T>, s: Bytes) {
    p(s).Item? && p(s).consumed <= |s| ==> p(s[..p(s).consumed]) == p(s)
  }

  lemma TightItem<T(!new)>(p: Bytes -> Parsed<T>, s: Bytes, m: nat)
    requires Incremental(p) && Tight(p, s) && p(s).Item? && Sized(p, s)
    requires m <= |s| - p(s).consumed
    ensures var n := p(s).consumed; Decode(p, s[..n + m]) == Prepend(p(s).value, Decode(p, s[n..][..m]))
  {
    var n := p(s).consumed; var t := s[n..];
    assert Settled(p, s[..n], t[..m]);
    assert s[..n + m] == s[..n] + t[..m];
    DecodeItem(p, s[..n], t[..m]);
    assert s[..n][n..] + t[..m] == t[..m];
  }

  /** Without a malformed item: the bytes in front of the rest decode to the same items, and the rest
      to none. */
  lemma {:induction false} ConsumedDecodes<T(!new)>(p: Bytes -> Parsed<T>, s: Bytes)
    requires Incremental(p) && forall t :: Tight(p, t)
    ensures var d := Decode(p, s); var m := |s| - |d.rest|;
            && s[m..] == d.rest
            && (!d.bad ==> Decode(p, s[..m]) == Decoded(d.items, [], false)
                           && Decode(p, d.rest) == Decoded([], d.rest, false))
    decreases |s|
  {
    var d := Decode(p, s);
    if p(s).Item? {
      var n := p(s).consumed;
      DecodeOneItem(p, s);
      var t := s[n..];
      ConsumedDecodes(p, t);
      if !d.bad {
        TightItem(p, s, |t| - |d.rest|);
      }
    } else {
      assert Settled(p, [], s) && [] + s == s && Sized(p, []);
    }
  }

  function SumOf<T>(size: T -> nat, items: seq<T>): nat {
    if items == [] then 0 else size(items[0]) + SumOf(size, items[1..])
  }

  ghost predicate SizedBy<T>(p: Bytes -> Parsed<T>, size: T -> nat, s: Bytes) {
    p(s).Item? ==> p(s).consumed == size(p(s).value)
  }

  /** Every byte is in an item or in the rest. */
  lemma {:induction false} ItemsTakeBytes<T(!new)>(p: Bytes -> Parsed<T>, size: T -> nat, s: Bytes)
    requires Incremental(p) && forall t :: SizedBy(p, size, t)
    ensures var d := Decode(p, s); |s| == SumOf(size, d.items) + |d.rest|
    decreases |s|
  {
    if p(s).Item? {
      assert SizedBy(p, size, s);
      DecodeOneItem(p, s);
      ItemsTakeBytes(p, size, s[p(s).consumed..]);
      var d := Decode(p, s[p(s).consumed..]);
      assert ([p(s).value] + d.items)[1..] == d.items;
    }
  }

  lemma {:induction false} SumOfAppend<T>(size: T -> nat, a: seq<T>, b: seq<T>)
    ensures SumOf(size, a + b) == SumOf(size, a) + SumOf(size, b)
    decreases |a|
  {
    if a == [] {
      assert a + b == b;
    } else {
      assert (a + b)[1..] == a[1..] + b;
      SumOfAppend(size, a[1..], b);
    }
  }

  /** One turn of a decoding loop. */
  lemma NextItem<T(!new)>(p: Bytes -> Parsed<T>, items: seq<T>, s: Bytes)
    requires Incremental(p) && p(s).Item?
    ensures p(s).consumed <= |s|
    ensures Join(Decoded(items, [], false), Decode(p, s))
         == Join(Decoded(items + [p(s).value], [], false), Decode(p, s[p(s).consumed..]))
  {
    DecodeOneItem(p, s);
    var v, d := p(s).value, Decode(p, s[p(s).consumed..]);
    assert items + ([v] + d.items) == items + [v] + d.items;
  }

  lemma LastItem<T(!new)>(p: Bytes -> Parsed<T>, items: seq<T>, s: Bytes)
    requires Incremental(p) && !p(s).Item?
    ensures Join(Decoded(items, [], false), Decode(p, s)) == Decoded(items, s, p(s).Bad?)
  {
    assert items + [] == items;
  }

  /** The loop every consumer runs: item after item off the front, up to an incomplete or malformed
      one. It is the one-shot decoding. */
  method CutItems<T(!new)>(p: Bytes -> Parsed<T>, data: Bytes) returns (items: seq<T>, used: nat, bad: bool)
    requires Incremental(p)
    ensures used <= |data| && Decoded(items, data[used..], bad) == Decode(p, data)
  {
    items, used := [], 0;
    assert [] + Decode(p, data).items == Decode(p, data).items;
    while true
      invariant used <= |data|
      invariant Join(Decoded(items, [], false), Decode(p, data[used..])) == Decode(p, data)
      decreases |data| - used
    {
      var r := p(data[used..]);
      if !r.Item? {
        LastItem(p, items, data[used..]);
        return items, used, r.Bad?;
      }
      NextItem(p, items, data[used..]);
      assert Sized(p, data[used..]);
      assert data[used..][r.consumed..] == data[used + r.consumed..];
      items := items + [r.value];
      used := used + r.consumed;
    }
  }
}
