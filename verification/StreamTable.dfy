/**
  The table of a connection's streams: open addressing with linear probing and tombstones, in an
  array whose size is a power of two. It behaves like a map from stream ids to streams.
  */
module StreamTable {
  import opened Bytes
  import opened Wrappers

  const MIN_SIZE: nat := 64
  const MAX_STREAMS: nat := 65536

  // ----- The size -----

  /** Round up to a power of two by smearing the highest set bit downwards. */
  function Rounded(n: bv32): bv32 {
    var a := n - 1;
    var b := a | (a >> 1);
    var c := b | (b >> 2);
    var d := c | (c >> 4);
    var e := d | (d >> 8);
    var f := e | (e >> 16);
    var g := f + 1;
    if g < 64 then 64 else g
  }

  predicate PowerOfTwo(x: bv32) {
    x != 0 && x & (x - 1) == 0
  }

  /** For every permitted number of streams the size is the least power of two that is at least 64
      and at least twice that number. */
  lemma RoundedIsLeast(n: bv32, p: bv32)
    requires 1 <= n <= 131072
    ensures PowerOfTwo(Rounded(n)) && 64 <= Rounded(n) && n <= Rounded(n)
    ensures PowerOfTwo(p) && 64 <= p && n <= p ==> Rounded(n) <= p
  {
    assert Rounded(n) == if n <= 64 then 64 else Rounded(n);
  }

  /** The same size without bits: double 64 until it suffices. */
  function Doubled(size: nat, need: nat): (r: nat)
    requires 0 < size
    ensures size <= r && need <= r
    decreases need - size
  {
    if need <= size then size else Doubled(2 * size, need)
  }

  predicate Power(x: nat) {
    x == 1 || (x > 1 && x % 2 == 0 && Power(x / 2))
  }

  lemma {:induction false} NextPower(a: nat, b: nat)
    requires Power(a) && Power(b) && a < b
    ensures 2 * a <= b
    decreases a
  {
    if a > 1 {
      NextPower(a / 2, b / 2);
    }
  }

  /** Both descriptions say the same: the least power of two that suffices. */
  lemma {:induction false} DoubledIsLeast(size: nat, need: nat, p: nat)
    requires Power(size)
    ensures Power(Doubled(size, need))
    ensures Power(p) && size <= p && need <= p ==> Doubled(size, need) <= p
    decreases need - size
  {
    if size < need {
      assert (2 * size) / 2 == size;
      if Power(p) && need <= p {
        NextPower(size, p);
      }
      DoubledIsLeast(2 * size, need, p);
    }
  }

  /** The same size, level by level. */
  function Level(n: nat): nat {
    if n <= 64 then 64 else if n <= 128 then 128 else if n <= 256 then 256 else if n <= 512 then 512
    else if n <= 1024 then 1024 else if n <= 2048 then 2048 else if n <= 4096 then 4096 else if n <= 8192 then 8192
    else if n <= 16384 then 16384 else if n <= 32768 then 32768 else if n <= 65536 then 65536 else 131072
  }

  function Number(x: bv32): nat {
    x as nat
  }

  function BitLevel(n: bv32): bv32 {
    if n <= 64 then 64 else if n <= 128 then 128 else if n <= 256 then 256 else if n <= 512 then 512
    else if n <= 1024 then 1024 else if n <= 2048 then 2048 else if n <= 4096 then 4096 else if n <= 8192 then 8192
    else if n <= 16384 then 16384 else if n <= 32768 then 32768 else if n <= 65536 then 65536 else 131072
  }

  lemma RoundedIsLevel(n: bv32)
    requires 1 <= n <= 131072
    ensures Rounded(n) == BitLevel(n)
  {
    assert n <= 64 ==> Rounded(n) == 64;
  }

  lemma LevelsAgree(n: bv32)
    ensures Number(BitLevel(n)) == Level(Number(n))
  {
    assert 64 as bv32 as nat == 64;
  }

  lemma LevelIsDoubled(n: nat)
    requires n <= 131072
    ensures Level(n) == Doubled(MIN_SIZE, n)
  {
    LevelFrom(64, n);
    LevelFrom(256, n);
    LevelFrom(1024, n);
    LevelFrom(4096, n);
    LevelFrom(16384, n);
    LevelFrom(65536, n);
  }

  lemma LevelFrom(size: nat, n: nat)
    requires 0 < size
    ensures Doubled(size, n) == if n <= size then size else if n <= 2 * size then 2 * size else Doubled(4 * size, n)
  {
  }

  lemma TwiceAsNumber(n: bv32)
    requires 1 <= n <= 65536
    ensures n * 2 == n << 1 && Number(n << 1) == 2 * Number(n) && 2 <= n << 1 <= 131072
  {
  }

  lemma PermittedNumber(n: bv32)
    requires 1 <= n <= 65536
    ensures 1 <= Number(n) <= MAX_STREAMS
  {
  }

  /** The number of slots the source computes, for every permitted number of streams. */
  function TableSize(maxStreams: bv32): nat {
    Number(Rounded(maxStreams << 1))
  }

  lemma TableSizeIsDoubled(maxStreams: bv32)
    requires 1 <= maxStreams <= 65536
    ensures TableSize(maxStreams) == Doubled(MIN_SIZE, 2 * Number(maxStreams))
  {
    TwiceAsNumber(maxStreams);
    RoundedIsLevel(maxStreams << 1);
    LevelsAgree(maxStreams << 1);
    LevelIsDoubled(2 * Number(maxStreams));
  }

  /** As a number it is the least power of two that is at least 64 and twice the number of streams. */
  lemma DoubledIsTheSize(need: nat, p: nat)
    ensures var size := Doubled(MIN_SIZE, need);
            && Power(size) && MIN_SIZE <= size && need <= size
            && (Power(p) && MIN_SIZE <= p && need <= p ==> size <= p)
  {
    SixtyFour();
    DoubledIsLeast(MIN_SIZE, need, p);
  }

  lemma SizeIsPower(need: nat)
    ensures Power(Doubled(MIN_SIZE, need))
  {
    DoubledIsTheSize(need, 1);
  }

  lemma SixtyFour()
    ensures Power(64)
  {
    assert Power(8) by {
      assert Power(2) && Power(4);
    }
    assert Power(16) && Power(32);
  }

  /** The bits that two numbers share. */
  function And(a: nat, b: nat): (r: nat)
    ensures r <= a && r <= b
  {
    if a == 0 || b == 0 then 0 else 2 * And(a / 2, b / 2) + (a % 2) * (b % 2)
  }

  /** For a power of two, masking with one less is taking the remainder. */
  lemma {:induction false} MaskIsRemainder(size: nat, id: nat)
    requires Power(size)
    ensures And(id, size - 1) == id % size
    decreases size
  {
    if size > 1 {
      var half := size / 2;
      MaskIsRemainder(half, id / 2);
      AndOdd(id, half);
      HalvesOf(id, half);
    }
  }

  lemma AndOdd(id: nat, half: nat)
    requires 0 < half
    ensures And(id, 2 * half - 1) == 2 * And(id / 2, half - 1) + id % 2
  {
    assert (2 * half - 1) / 2 == half - 1 && (2 * half - 1) % 2 == 1;
  }

  lemma HalvesOf(id: nat, half: nat)
    requires 0 < half
    ensures id % (2 * half) == 2 * ((id / 2) % half) + id % 2
  {
    var q, r := id / 2 / half, id / 2 % half;
    assert id / 2 == half * q + r;
    assert id == 2 * half * q + (2 * r + id % 2);
    assert 2 * r + id % 2 < 2 * half;
    RemainderOf(id, 2 * half, q, 2 * r + id % 2);
  }

  lemma MultipleIsFar(d: int, e: int)
    requires 0 < d
    ensures e >= 1 ==> d * e >= d
    ensures e <= -1 ==> d * e <= -d
  {
  }

  lemma RemainderOf(n: nat, d: nat, q: nat, r: nat)
    requires 0 < d && r < d && n == d * q + r
    ensures n % d == r
  {
    var e := n / d - q;
    assert n == d * (n / d) + n % d;
    assert d * (n / d) == d * q + d * e;
    assert d * e == r - n % d;
    MultipleIsFar(d, e);
    assert e == 0;
  }

  /** Masking brings an index that is one too large back to the first. */
  lemma MaskWraps(size: nat, i: nat)
    requires Power(size) && i < size
    ensures And(i + 1, size - 1) == if i + 1 < size then i + 1 else 0
  {
    MaskIsRemainder(size, i + 1);
    if i + 1 < size {
      RemainderOf(i + 1, size, 0, i + 1);
    } else {
      RemainderOf(i + 1, size, 1, 0);
    }
  }

  // ----- The slots -----

  datatype Slot = Empty | Tomb | Live(id: nat, stream: nat)

  type Slots = t: seq<Slot> | 0 < |t| witness [Empty]

  function Home(size: nat, id: nat): (i: nat)
    requires 0 < size
    ensures i < size
  {
    id % size
  }

  /** The k-th slot of the probe sequence that starts at `home`. */
  function Probe(size: nat, home: nat, k: nat): (i: nat)
    requires home < size && k < size
    ensures i < size
  {
    if home + k < size then home + k else home + k - size
  }

  /** The number of probes from `home` to `i`. */
  function Distance(size: nat, home: nat, i: nat): (k: nat)
    requires home < size && i < size
    ensures k < size && Probe(size, home, k) == i
  {
    if home <= i then i - home else i - home + size
  }

  /** No search that starts at `home` stops within the first `k` probes. */
  ghost predicate Chain(t: Slots, home: nat, k: nat)
    requires home < |t| && k <= |t|
  {
    forall j :: 0 <= j < k ==> t[Probe(|t|, home, j)] != Empty
  }

  /** A search for the id gets as far as `i`. */
  ghost predicate Leads(t: Slots, id: nat, i: nat) {
    i < |t| && Chain(t, Home(|t|, id), Distance(|t|, Home(|t|, id), i))
  }

  /** Where an id is kept, and that a search gets there. */
  ghost predicate Kept(t: Slots, id: nat, stream: nat, i: nat) {
    i < |t| && t[i] == Live(id, stream) && Leads(t, id, i)
  }

  /** The table stands for `m`; `place` says where each id is kept. */
  ghost predicate Represents(t: Slots, m: map<nat, nat>, place: map<nat, nat>) {
    && place.Keys == m.Keys
    && (forall id :: id in m ==> Kept(t, id, m[id], place[id]))
    && (forall i :: 0 <= i < |t| && t[i].Live? ==> t[i].id in place && place[t[i].id] == i)
  }

  ghost predicate Other(t: Slots, id: nat, i: nat) {
    i < |t| && t[i] != Empty && !(t[i].Live? && t[i].id == id)
  }

  /** `k` probes met neither the id nor an empty slot. */
  ghost predicate Missed(t: Slots, id: nat, k: nat)
    requires k <= |t|
  {
    forall j :: 0 <= j < k ==> Other(t, id, Probe(|t|, Home(|t|, id), j))
  }

  lemma MissedAt(t: Slots, id: nat, k: nat, d: nat)
    requires d < k <= |t| && Missed(t, id, k)
    ensures Other(t, id, Probe(|t|, Home(|t|, id), d))
  {
  }

  /** An id that is there is found: no round is completed and no empty slot met before it. */
  lemma SearchGoesOn(t: Slots, m: map<nat, nat>, place: map<nat, nat>, id: nat, k: nat)
    requires Represents(t, m, place) && k <= |t| && Missed(t, id, k) && id in m
    ensures k < |t| && t[Probe(|t|, Home(|t|, id), k)] != Empty
  {
    assert Kept(t, id, m[id], place[id]);
    var d := Distance(|t|, Home(|t|, id), place[id]);
    if d < k {
      MissedAt(t, id, k, d);
      assert false;
    }
  }

  /** Overwriting a free slot at the end of a chain of taken ones. */
  lemma InsertKeeps(t: Slots, m: map<nat, nat>, place: map<nat, nat>, id: nat, stream: nat, k: nat)
    requires Represents(t, m, place) && id !in m && k < |t|
    requires !t[Probe(|t|, Home(|t|, id), k)].Live?
    requires forall j :: 0 <= j < k ==> t[Probe(|t|, Home(|t|, id), j)].Live?
    ensures var i := Probe(|t|, Home(|t|, id), k);
            Represents(t[i := Live(id, stream)], m[id := stream], place[id := i])
  {
    var home := Home(|t|, id);
    var i := Probe(|t|, home, k);
    var t': Slots := t[i := Live(id, stream)];
    var m', place' := m[id := stream], place[id := i];
    assert Kept(t', id, stream, i) by {
      assert Distance(|t|, home, i) == k;
      assert Chain(t', home, k);
    }
    forall other | other in m' ensures Kept(t', other, m'[other], place'[other]) {
      if other != id {
        assert Kept(t, other, m[other], place[other]);
        OverwriteKeeps(t, i, Live(id, stream), other, m[other], place[other]);
      }
    }
    assert place'.Keys == m'.Keys;
  }

  /** Filling a slot, with a stream or a tombstone, cuts no chain. */
  lemma OverwriteKeeps(t: Slots, i: nat, slot: Slot, id: nat, stream: nat, at: nat)
    requires i < |t| && slot != Empty && Kept(t, id, stream, at) && at != i
    ensures Kept(t[i := slot], id, stream, at)
  {
  }

  /** A tombstone does not end a search. */
  lemma RemoveKeeps(t: Slots, m: map<nat, nat>, place: map<nat, nat>, id: nat)
    requires Represents(t, m, place) && id in m
    ensures place[id] < |t| && Represents(t[place[id] := Tomb], m - {id}, place - {id})
  {
    assert Kept(t, id, m[id], place[id]);
    var t': Slots := t[place[id] := Tomb];
    var m', place' := m - {id}, place - {id};
    forall other | other in m' ensures Kept(t', other, m'[other], place'[other]) {
      assert Kept(t, other, m[other], place[other]);
      OverwriteKeeps(t, place[id], Tomb, other, m[other], place[other]);
    }
  }

  // ----- Room -----

  function Ids(t: seq<Slot>): set<nat> {
    if t == [] then {} else (if t[0].Live? then {t[0].id} else {}) + Ids(t[1..])
  }

  lemma {:induction false} IdsAreLive(t: seq<Slot>, id: nat)
    ensures id in Ids(t) <==> exists i :: 0 <= i < |t| && t[i].Live? && t[i].id == id
    decreases |t|
  {
    if t != [] {
      IdsAreLive(t[1..], id);
      if exists i :: 0 <= i < |t| && t[i].Live? && t[i].id == id {
        var i :| 0 <= i < |t| && t[i].Live? && t[i].id == id;
        assert i > 0 ==> t[1..][i - 1] == t[i];
      }
      if id in Ids(t[1..]) {
        var i :| 0 <= i < |t[1..]| && t[1..][i].Live? && t[1..][i].id == id;
        assert t[i + 1] == t[1..][i];
      }
    }
  }

  lemma {:induction false} FullCount(t: seq<Slot>)
    requires forall i :: 0 <= i < |t| ==> t[i].Live?
    requires forall i, j :: 0 <= i < j < |t| ==> t[i].id != t[j].id
    ensures |Ids(t)| == |t|
    decreases |t|
  {
    if t != [] {
      IdsAreLive(t[1..], t[0].id);
      FullCount(t[1..]);
    }
  }

  lemma Subset(a: set<nat>, b: set<nat>)
    requires a <= b
    ensures |a| <= |b|
  {
    assert b == a + (b - a);
    assert |b| == |a| + |b - a|;
  }

  /** A table with more slots than entries has a free slot. */
  lemma Roomy(t: Slots, m: map<nat, nat>, place: map<nat, nat>)
    requires Represents(t, m, place) && |m| < |t|
    ensures exists i :: 0 <= i < |t| && !t[i].Live?
  {
    if forall i :: 0 <= i < |t| ==> t[i].Live? {
      FullCount(t);
      forall id | id in Ids(t) ensures id in m.Keys {
        IdsAreLive(t, id);
      }
      Subset(Ids(t), m.Keys);
      assert false;
    }
  }

  /** A search of full length comes past every slot. */
  lemma EverySlotProbed(t: Slots, home: nat)
    requires home < |t| && forall j :: 0 <= j < |t| ==> t[Probe(|t|, home, j)].Live?
    ensures forall i :: 0 <= i < |t| ==> t[i].Live?
  {
    forall i | 0 <= i < |t| ensures t[i].Live? {
      assert Probe(|t|, home, Distance(|t|, home, i)) == i;
    }
  }

  method SizeFor(limit: bv32) returns (size: nat, number: nat)
    requires 1 <= limit <= 65536
    ensures number == Number(limit) && size == TableSize(limit)
    ensures 1 <= number <= MAX_STREAMS && size == Doubled(MIN_SIZE, 2 * number)
  {
    PermittedNumber(limit);
    TableSizeIsDoubled(limit);
    return TableSize(limit), Number(limit);
  }

  class Table {
    const slots: array<Slot>
    const maxStreams: nat
    var active: nat
    ghost var contents: map<nat, nat>
    ghost var place: map<nat, nat>

    ghost predicate Valid()
      reads this, slots
    {
      && slots.Length == Doubled(MIN_SIZE, 2 * maxStreams) && 1 <= maxStreams <= MAX_STREAMS
      && Represents(slots[..], contents, place)
      && active == |contents| <= maxStreams
    }

    /** The table has the size that smearing computes. */
    constructor (limit: bv32)
      requires 1 <= limit <= 65536
      ensures Valid() && contents == map[] && fresh(slots)
      ensures maxStreams == Number(limit) && slots.Length == TableSize(limit)
    {
      var size, number := SizeFor(limit);
      maxStreams := number;
      slots := new Slot[size](_ => Empty);
      active, contents, place := 0, map[], map[];
    }

    /** The slot of an id, and the one after `idx`: both by masking. */
    method First(id: nat) returns (idx: nat)
      requires slots.Length == Doubled(MIN_SIZE, 2 * maxStreams)
      ensures slots.Length > 0 && idx == Home(slots.Length, id)
    {
      idx := And(id, slots.Length - 1);
      SizeIsPower(2 * maxStreams);
      MaskIsRemainder(slots.Length, id);
    }

    method Next(idx: nat, ghost home: nat, ghost k: nat) returns (next: nat)
      requires slots.Length == Doubled(MIN_SIZE, 2 * maxStreams)
      requires home < slots.Length && k < slots.Length && idx == Probe(slots.Length, home, k)
      ensures next < slots.Length && (k + 1 < slots.Length ==> next == Probe(slots.Length, home, k + 1))
    {
      next := And(idx + 1, slots.Length - 1);
      SizeIsPower(2 * maxStreams);
      MaskWraps(slots.Length, idx);
    }

    /** Look an id up: exactly what the map has. */
    method Find(id: nat) returns (r: Option<nat>)
      requires Valid()
      ensures r == if id in contents then Some(contents[id]) else None
    {
      ghost var t: Slots := slots[..];
      var idx := First(id);
      var i := 0;
      while i < slots.Length
        invariant i <= slots.Length && (i < slots.Length ==> idx == Probe(slots.Length, Home(slots.Length, id), i))
        invariant Missed(t, id, i)
      {
        if id in contents {
          SearchGoesOn(t, contents, place, id, i);
        }
        if slots[idx].Empty? {
          return None;
        }
        if slots[idx].Live? && slots[idx].id == id {
          assert Kept(t, id, contents[id], place[id]);
          return Some(slots[idx].stream);
        }
        assert Other(t, id, Probe(|t|, Home(|t|, id), i));
        idx := Next(idx, Home(|t|, id), i);
        i := i + 1;
      }
      if id in contents {
        SearchGoesOn(t, contents, place, id, i);
      }
      return None;
    }

    /** The first slot on an id's way that holds no stream. It exists. */
    method FindFree(id: nat) returns (idx: nat, i: nat)
      requires Valid() && active < maxStreams
      ensures i < slots.Length && idx == Probe(slots.Length, Home(slots.Length, id), i) && !slots[idx].Live?
      ensures forall j :: 0 <= j < i ==> slots[Probe(slots.Length, Home(slots.Length, id), j)].Live?
    {
      ghost var t: Slots := slots[..];
      idx := First(id);
      i := 0;
      while i < slots.Length
        invariant i <= slots.Length && (i < slots.Length ==> idx == Probe(slots.Length, Home(slots.Length, id), i))
        invariant forall j :: 0 <= j < i ==> t[Probe(|t|, Home(|t|, id), j)].Live?
      {
        if !slots[idx].Live? {
          return;
        }
        idx := Next(idx, Home(|t|, id), i);
        i := i + 1;
      }
      EverySlotProbed(t, Home(|t|, id));
      Roomy(t, contents, place);
      assert false;
    }

    /** Insert a stream whose id is not in the table. There is always room for it. */
    method Insert(id: nat, stream: nat)
      requires Valid() && id !in contents && active < maxStreams
      modifies this, slots
      ensures Valid() && contents == old(contents)[id := stream] && active == old(active) + 1
    {
      var idx, i := FindFree(id);
      Fill(idx, i, id, stream);
    }

    /** Fill the first free slot on an id's way. */
    method Fill(idx: nat, ghost k: nat, id: nat, stream: nat)
      requires Valid() && id !in contents && active < maxStreams
      requires k < slots.Length && idx == Probe(slots.Length, Home(slots.Length, id), k) && !slots[idx].Live?
      requires forall j :: 0 <= j < k ==> slots[Probe(slots.Length, Home(slots.Length, id), j)].Live?
      modifies this, slots
      ensures Valid() && contents == old(contents)[id := stream] && active == old(active) + 1
    {
      ghost var t: Slots := slots[..];
      InsertKeeps(t, contents, place, id, stream, k);
      slots[idx] := Live(id, stream);
      assert slots[..] == t[idx := Live(id, stream)];
      contents, place := contents[id := stream], place[id := idx];
      active := active + 1;
    }

    /** Where a stream is kept. */
    method Locate(id: nat, stream: nat) returns (idx: nat)
      requires Valid() && id in contents && contents[id] == stream
      ensures idx == place[id] < slots.Length
    {
      ghost var t: Slots := slots[..];
      ghost var d := Distance(|t|, Home(|t|, id), place[id]);
      assert Kept(t, id, stream, place[id]);
      idx := First(id);
      var i := 0;
      while i < slots.Length
        invariant i <= d && idx == Probe(slots.Length, Home(slots.Length, id), i)
      {
        if slots[idx] == Live(id, stream) {
          return;
        }
        idx := Next(idx, Home(|t|, id), i);
        i := i + 1;
      }
    }

    /** Bury a stream that is in the table. */
    method Remove(id: nat, stream: nat)
      requires Valid() && id in contents && contents[id] == stream
      modifies this, slots
      ensures Valid() && contents == old(contents) - {id} && active == old(active) - 1
    {
      ghost var t: Slots := slots[..];
      var idx := Locate(id, stream);
      RemoveKeeps(t, contents, place, id);
      slots[idx] := Tomb;
      assert slots[..] == t[idx := Tomb];
      contents, place := contents - {id}, place - {id};
      active := active - 1;
    }

    /** SYN: the stream of an id that is taken, a new one while there may be one, or none. */
    method CreateIfAbsent(id: nat, newcomer: nat) returns (r: Option<nat>)
      requires Valid()
      modifies this, slots
      ensures Valid()
      ensures r == if id in old(contents) then Some(old(contents)[id])
                   else if |old(contents)| < maxStreams then Some(newcomer) else None
      ensures contents == if id !in old(contents) && r.Some? then old(contents)[id := newcomer] else old(contents)
    {
      r := Find(id);
      if r.Some? {
        return;
      }
      if active >= maxStreams {
        return None;
      }
      Insert(id, newcomer);
      return Some(newcomer);
    }
  }
}
