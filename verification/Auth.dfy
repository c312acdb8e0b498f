/**
  Authentication of a client: a 32-byte hash, a 16-bit padding length and the padding, collected
  in a buffer across reads. The digest itself is opaque; users are given by their hashes.
  */
module Auth {
  import opened Bytes
  import opened StreamDecoder

  const HASH_LEN: nat := 32
  const PREFIX_LEN: nat := 34
  const AUTH_BUF_SIZE: nat := 32 + 2 + 65535

  datatype User = User(name: Bytes, hash: Bytes) {
    predicate Valid() {
      |hash| == HASH_LEN
    }
  }

  datatype Found = Nobody | Somebody(name: Bytes)

  predicate ValidUsers(users: seq<User>) {
    forall i :: 0 <= i < |users| ==> users[i].Valid()
  }

  /** The first configured user with this hash. */
  function FirstUser(users: seq<User>, hash: Bytes): Found {
    if users == [] then Nobody
    else if users[0].hash == hash then Somebody(users[0].name)
    else FirstUser(users[1..], hash)
  }

  /** The one-shot reading of a handshake: who it is and how many bytes it takes; `Bad` sends the
      connection to the fallback. */
  function ParseAuth(users: seq<User>, s: Bytes): (r: Parsed<Bytes>)
    ensures r.Item? ==> PREFIX_LEN <= r.consumed <= |s| && r.consumed <= AUTH_BUF_SIZE
  {
    if |s| < PREFIX_LEN then More
    else
      match FirstUser(users, s[..HASH_LEN])
      case Nobody => Bad
      case Somebody(name) =>
        var need := PREFIX_LEN + Be16(s[32], s[33]);
        if |s| < need then More else Item(name, need)
  }

  /** More bytes never change the verdict. */
  lemma AuthSettles(users: seq<User>, s: Bytes, t: Bytes)
    ensures !ParseAuth(users, s).More? ==> ParseAuth(users, s + t) == ParseAuth(users, s)
  {
    if |s| >= PREFIX_LEN {
      assert (s + t)[..HASH_LEN] == s[..HASH_LEN];
    }
  }

  datatype Verdict = NeedMore | Granted | Fallback

  /** What a step may keep of everything received: all of it, exactly the handshake, or as much
      as the buffer holds. */
  function Kept(users: seq<User>, all: Bytes): Bytes {
    match ParseAuth(users, all)
    case More => all
    case Item(_, need) => all[..need]
    case Bad => all[..Min(|all|, AUTH_BUF_SIZE)]
  }

  class AuthBuffer {
    const users: seq<User>
    const buf: array<byte>
    var len: nat
    var matched: bool
    var user: Bytes

    ghost predicate Valid()
      reads this
    {
      buf.Length == AUTH_BUF_SIZE && len <= buf.Length && ValidUsers(users)
    }

    ghost function Held(): Bytes
      requires Valid()
      reads this, buf
    {
      buf[..len]
    }

    /** The verdict is open; once the hash is complete it is known whose it is. */
    ghost predicate Undecided()
      requires Valid()
      reads this, buf
    {
      && ParseAuth(users, Held()).More?
      && (matched <==> PREFIX_LEN <= len)
      && (matched ==> FirstUser(users, Held()[..HASH_LEN]) == Somebody(user))
    }

    constructor (users: seq<User>)
      requires ValidUsers(users)
      ensures Valid() && this.users == users && fresh(buf) && Held() == [] && Undecided()
    {
      this.users := users;
      buf := new byte[AUTH_BUF_SIZE](_ => 0);
      len, matched, user := 0, false, [];
    }

    /** Append `data[from..from + n]`, which continue `all`. */
    method Collect(ghost all: Bytes, data: Bytes, from: nat, n: nat)
      requires Valid() && from + n <= |data| && len + n <= Min(|all|, buf.Length)
      requires Held() == all[..len] && data[from..from + n] == all[len..len + n]
      modifies this`len, buf
      ensures Valid() && len == old(len) + n && Held() == all[..len]
    {
      var at := len;
      for k := 0 to n
        invariant len == at && buf[..at + k] == all[..at + k]
      {
        assert data[from + k] == data[from..from + n][k] == all[at..at + n][k] == all[at + k];
        buf[at + k] := data[from + k];
        assert buf[..at + k + 1] == buf[..at + k] + [buf[at + k]];
        assert all[..at + k + 1] == all[..at + k] + [all[at + k]];
      }
      len := at + n;
    }

    /** Compare all bytes before deciding. */
    method SameHash(hash: Bytes) returns (same: bool)
      requires Valid() && |hash| == HASH_LEN && HASH_LEN <= len
      ensures same <==> Held()[..HASH_LEN] == hash
    {
      same := true;
      for i := 0 to HASH_LEN
        invariant same <==> buf[..i] == hash[..i]
      {
        assert buf[..i + 1] == buf[..i] + [buf[i]] && hash[..i + 1] == hash[..i] + [hash[i]];
        if buf[i] != hash[i] {
          same := false;
        }
      }
      assert Held()[..HASH_LEN] == buf[..HASH_LEN] && hash[..HASH_LEN] == hash;
    }

    /** Walk every user, remember the first match. */
    method Scan() returns (found: bool)
      requires Valid() && HASH_LEN <= len
      modifies this`user
      ensures Valid() && Held() == old(Held())
      ensures found <==> FirstUser(users, Held()[..HASH_LEN]) != Nobody
      ensures found ==> FirstUser(users, Held()[..HASH_LEN]) == Somebody(user)
    {
      found := false;
      ghost var hash := Held()[..HASH_LEN];
      for i := 0 to |users|
        invariant Valid() && Held()[..HASH_LEN] == hash
        invariant if found then FirstUser(users, hash) == Somebody(user)
                  else FirstUser(users, hash) == FirstUser(users[i..], hash)
      {
        assert users[i..][1..] == users[i + 1..];
        var same := SameHash(users[i].hash);
        if same {
          if !found {
            user := users[i].name;
          }
          found := true;
        }
      }
    }

    /** The first 34 bytes. */
    method CollectPrefix(ghost all: Bytes, data: Bytes) returns (consumed: nat)
      requires Valid() && all == Held() + data
      modifies this`len, buf
      ensures Valid() && consumed == len - old(len) <= |data|
      ensures Held() == all[..len] && len == if old(len) < PREFIX_LEN then Min(|all|, PREFIX_LEN) else old(len)
    {
      consumed := 0;
      assert Held() == all[..len];
      if len < PREFIX_LEN {
        consumed := Min(|data|, PREFIX_LEN - len);
        assert data[0..consumed] == all[len..len + consumed];
        Collect(all, data, 0, consumed);
      }
    }

    /** As much more of `data` as there is, up to `limit` bytes in the buffer. */
    method CollectUpTo(ghost all: Bytes, data: Bytes, from: nat, limit: nat)
      requires Valid() && from <= |data| && len <= limit <= buf.Length
      requires |all| == len + |data| - from && Held() == all[..len] && data[from..] == all[len..]
      modifies this`len, buf
      ensures Valid() && len == Min(|all|, limit) && Held() == all[..len]
    {
      var n := Min(|data| - from, limit - len);
      assert data[from..from + n] == data[from..][..n] == all[len..][..n] == all[len..len + n];
      Collect(all, data, from, n);
    }

    /** One call per read: the verdict is that of everything received so far, at whatever places
        it was cut. */
    method Process(data: Bytes) returns (verdict: Verdict, consumed: nat)
      requires Valid() && Undecided()
      modifies this, buf
      ensures Valid()
      ensures Held() == Kept(users, old(Held()) + data) && consumed == len - old(len) <= |data|
      ensures verdict == VerdictOf(ParseAuth(users, old(Held()) + data))
      ensures verdict.NeedMore? ==> Undecided()
      ensures verdict.Granted? ==> user == ParseAuth(users, old(Held()) + data).value
    {
      ghost var all := Held() + data;
      var had := len;
      consumed := CollectPrefix(all, data);
      if len < PREFIX_LEN {
        assert Held() == all;
        return NeedMore, consumed;
      }
      assert all[..HASH_LEN] == Held()[..HASH_LEN];
      assert matched ==> old(Held())[..HASH_LEN] == all[..HASH_LEN];
      if !matched {
        var found := Scan();
        if !found {
          Rest(all, data, consumed);
          CollectUpTo(all, data, consumed, buf.Length);
          return Fallback, len - had;
        }
        matched := true;
      }
      verdict := Padding(all, data, consumed);
      consumed := len - had;
    }

    /** Wait for the padding to be complete. */
    method Padding(ghost all: Bytes, data: Bytes, from: nat) returns (verdict: Verdict)
      requires Valid() && from <= |data| && |all| == len + |data| - from
      requires matched && PREFIX_LEN <= len && Held() == all[..len] && data[from..] == all[len..]
      requires FirstUser(users, all[..HASH_LEN]) == Somebody(user)
      requires len <= PREFIX_LEN + Be16(all[32], all[33])
      modifies this`len, buf
      ensures Valid() && old(len) <= len && Held() == Kept(users, all)
      ensures verdict == VerdictOf(ParseAuth(users, all))
      ensures verdict.NeedMore? ==> Undecided()
      ensures verdict.Granted? ==> user == ParseAuth(users, all).value
    {
      var need := PREFIX_LEN + Be16(buf[32], buf[33]);
      assert buf[32] == Held()[32] && buf[33] == Held()[33];
      CollectUpTo(all, data, from, need);
      if len < need {
        assert Held() == all;
        return NeedMore;
      }
      return Granted;
    }
  }

  function VerdictOf(r: Parsed<Bytes>): Verdict {
    match r
    case More => NeedMore
    case Item(_, _) => Granted
    case Bad => Fallback
  }

  lemma Rest(all: Bytes, data: Bytes, consumed: nat)
    requires consumed <= |data| <= |all| && all[|all| - |data|..] == data
    ensures data[consumed..] == all[|all| - |data| + consumed..]
  {
  }
}
