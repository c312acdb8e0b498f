/** Octets and the big-endian integers the wire formats are made of. */
module Bytes {

  type byte = x: int | 0 <= x < 256
  type Bytes = seq<byte>

  const U16_LIMIT: nat := 0x1_0000
  const U32_LIMIT: nat := 0x1_0000_0000

  function Be16(hi: byte, lo: byte): (n: nat)
    ensures n < U16_LIMIT
  {
    hi * 256 + lo
  }

  function Be32(a: byte, b: byte, c: byte, d: byte): (n: nat)
    ensures n < U32_LIMIT
  {
    Be16(a, b) * U16_LIMIT + Be16(c, d)
  }

  /** The two octets of `n`, most significant first. */
  function PutBe16(n: nat): (s: Bytes)
    requires n < U16_LIMIT
    ensures |s| == 2 && Be16(s[0], s[1]) == n
  {
    [n / 256, n % 256]
  }

  /** The four octets of `n`, most significant first. */
  function PutBe32(n: nat): (s: Bytes)
    requires n < U32_LIMIT
    ensures |s| == 4 && Be32(s[0], s[1], s[2], s[3]) == n
  {
    PutBe16(n / U16_LIMIT) + PutBe16(n % U16_LIMIT)
  }

  lemma Be16Digits(hi: byte, lo: byte)
    ensures PutBe16(Be16(hi, lo)) == [hi, lo]
  {
  }

  lemma Be32Digits(hi: nat, lo: nat)
    requires hi < U16_LIMIT && lo < U16_LIMIT
    ensures PutBe32(hi * U16_LIMIT + lo) == PutBe16(hi) + PutBe16(lo)
  {
  }

  lemma OctetDigits(n: byte)
    ensures PutBe16(n) == [0, n] && PutBe32(n) == [0, 0, 0, n]
  {
    Be16Digits(0, n);
    Be16Digits(0, 0);
    Be32Digits(0, n);
  }

  function Min(a: nat, b: nat): nat {
    if a <= b then a else b
  }

  /** A `size_t` subtraction that the source clamps at zero. */
  function Minus(a: nat, b: nat): nat {
    if a >= b then a - b else 0
  }

  function Concat<T>(chunks: seq<seq<T>>): seq<T> {
    if chunks == [] then [] else chunks[0] + Concat(chunks[1..])
  }

  lemma SliceOfAppend<T>(s: seq<T>, t: seq<T>, a: nat, b: nat)
    requires a <= b <= |s|
    ensures (s + t)[a..b] == s[a..b]
  {
  }

  function Zeros(n: nat): (s: Bytes)
    ensures |s| == n && forall i :: 0 <= i < n ==> s[i] == 0
  {
    if n == 0 then [] else [0] + Zeros(n - 1)
  }

  predicate IsPrefix<T(==)>(a: seq<T>, b: seq<T>) {
    |a| <= |b| && a == b[..|a|]
  }
}
