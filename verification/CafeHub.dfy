/**
 The hub of all cafe rooms: creation with a fresh invite code, lookup by code, quick join
 and cleanup.
 */
module CafeHub {
  import opened Basics
  import opened CafeModel
  import opened CafeRooms
  import opened CafeRoomObject
  import opened CafeWorld

  type Rooms = map<Uuid, Room>

  const CODES: nat := 0x100_0000
  const U128: nat := 0x1_0000_0000_0000_0000_0000_0000_0000_0000

  // ----- invite codes -----

  function HexDigit(d: nat): char
    requires d < 16
  {
    "0123456789ABCDEF"[d]
  }

  function HexValue(c: char): nat {
    if '0' <= c <= '9' then c as nat - '0' as nat
    else if 'A' <= c <= 'F' then c as nat - 'A' as nat + 10
    else 0
  }

  /** The lowest `n` hexadecimal digits of `v`, most significant first. */
  function Hex(v: nat, n: nat): (s: string)
    ensures |s| == n
  {
    if n == 0 then "" else Hex(v / 16, n - 1) + [HexDigit(v % 16)]
  }

  /** `format!("{:06X}", v)`. */
  function InviteCode(v: nat): string
    requires v < CODES
  {
    Hex(v, 6)
  }

  function HexNumber(s: string): nat {
    if s == "" then 0 else HexNumber(s[..|s| - 1]) * 16 + HexValue(s[|s| - 1])
  }

  lemma HexRoundTrip(d: nat)
    requires d < 16
    ensures HexValue(HexDigit(d)) == d && IsHexDigit(HexDigit(d)) && Upper(HexDigit(d)) == HexDigit(d)
    ensures !IsWhitespace(HexDigit(d))
  {
  }

  function Power16(n: nat): nat {
    if n == 0 then 1 else 16 * Power16(n - 1)
  }

  lemma {:induction false} HexNumberRoundTrip(v: nat, n: nat)
    requires v < Power16(n)
    ensures HexNumber(Hex(v, n)) == v
  {
    if n > 0 {
      HexNumberRoundTrip(v / 16, n - 1);
      HexRoundTrip(v % 16);
      assert Hex(v, n)[..n - 1] == Hex(v / 16, n - 1);
    }
  }

  /** The code determines the number it was made from, so distinct numbers have distinct codes. */
  lemma CodeRoundTrip(v: nat)
    requires v < CODES
    ensures HexNumber(InviteCode(v)) == v
  {
    assert Power16(6) == CODES by {
      assert Power16(2) == 256 && Power16(4) == 256 * Power16(2);
    }
    HexNumberRoundTrip(v, 6);
  }

  lemma {:induction false} HexDigitsOnly(v: nat, n: nat)
    ensures forall i :: 0 <= i < n ==>
              var c := Hex(v, n)[i]; IsHexDigit(c) && Upper(c) == c && !IsWhitespace(c)
  {
    hide HexDigit, IsWhitespace, IsHexDigit, Upper;
    if n > 0 {
      HexDigitsOnly(v / 16, n - 1);
      HexRoundTrip(v % 16);
    }
  }

  // ----- normalisation -----

  /** The White_Space characters of Unicode. */
  predicate IsWhitespace(c: char) {
    || '\U{9}' <= c <= '\U{D}' || c == ' ' || c == '\U{85}' || c == '\U{A0}' || c == '\U{1680}'
    || '\U{2000}' <= c <= '\U{200A}' || c == '\U{2028}' || c == '\U{2029}' || c == '\U{202F}'
    || c == '\U{205F}' || c == '\U{3000}'
  }

  predicate IsHexDigit(c: char) {
    '0' <= c <= '9' || 'A' <= c <= 'F' || 'a' <= c <= 'f'
  }

  function Upper(c: char): char {
    if 'a' <= c <= 'z' then (c as int - 32) as char else c
  }

  function TrimStart(s: string): string {
    if s != [] && IsWhitespace(s[0]) then TrimStart(s[1..]) else s
  }

  function TrimEnd(s: string): string {
    if s != [] && IsWhitespace(s[|s| - 1]) then TrimEnd(s[..|s| - 1]) else s
  }

  function UpperAll(s: string): string {
    seq(|s|, i requires 0 <= i < |s| => Upper(s[i]))
  }

  /** `normalize_invite_code`.  Six hex digits are six bytes, so the byte length the service
      tests is the number of characters whenever the second test passes. */
  function Normalize(value: string): Option<string> {
    var normalized := UpperAll(TrimEnd(TrimStart(value)));
    if |normalized| == 6 && forall i :: 0 <= i < 6 ==> IsHexDigit(normalized[i]) then Some(normalized) else None
  }

  /** Every invite code is its own normal form. */
  lemma CodeIsNormal(v: nat)
    requires v < CODES
    ensures Normalize(InviteCode(v)) == Some(InviteCode(v))
  {
    var code := InviteCode(v);
    HexDigitsOnly(v, 6);
    hide Hex, IsWhitespace, IsHexDigit, Upper;
    assert TrimEnd(TrimStart(code)) == code;
    assert UpperAll(code) == code;
  }

  /** A letter of either case, or a digit, as the code prints it. */
  function Printed(c: char): char {
    if 'a' <= c <= 'f' then (c as int - 'a' as int + 'A' as int) as char else c
  }

  predicate Spelled(c: char, printed: char) {
    ('0' <= c <= '9' || 'A' <= c <= 'F' || 'a' <= c <= 'f') && printed == Printed(c)
  }

  /** `value` spells the code from position `i` on, between white space. */
  ghost predicate Spells(value: string, i: nat, code: string) {
    && i + 6 <= |value| && |code| == 6
    && (forall k :: 0 <= k < |value| && !(i <= k < i + 6) ==> IsWhitespace(value[k]))
    && (forall k :: i <= k < i + 6 ==> Spelled(value[k], code[k - i]))
  }

  lemma {:induction false} TrimStartIs(s: string, i: nat)
    requires i <= |s| && (forall k :: 0 <= k < i ==> IsWhitespace(s[k])) && (i < |s| ==> !IsWhitespace(s[i]))
    ensures TrimStart(s) == s[i..]
    decreases i
  {
    hide IsWhitespace;
    if i > 0 {
      assert forall k :: 0 <= k < |s[1..]| ==> s[1..][k] == s[k + 1];
      TrimStartIs(s[1..], i - 1);
    }
  }

  lemma {:induction false} TrimEndIs(s: string, n: nat)
    requires n <= |s| && (forall k :: n <= k < |s| ==> IsWhitespace(s[k])) && (n > 0 ==> !IsWhitespace(s[n - 1]))
    ensures TrimEnd(s) == s[..n]
    decreases |s| - n
  {
    hide IsWhitespace;
    if n < |s| {
      TrimEndIs(s[..|s| - 1], n);
      assert s[..|s| - 1][..n] == s[..n];
    }
  }

  lemma {:induction false} TrimStartCut(s: string) returns (i: nat)
    ensures i <= |s| && TrimStart(s) == s[i..] && forall k :: 0 <= k < i ==> IsWhitespace(s[k])
    decreases |s|
  {
    hide IsWhitespace;
    if s != [] && IsWhitespace(s[0]) {
      var j := TrimStartCut(s[1..]);
      assert forall k :: 0 <= k < |s[1..]| ==> s[1..][k] == s[k + 1];
      i := j + 1;
    } else {
      i := 0;
    }
  }

  lemma {:induction false} TrimEndCut(s: string) returns (n: nat)
    ensures n <= |s| && TrimEnd(s) == s[..n] && forall k :: n <= k < |s| ==> IsWhitespace(s[k])
    decreases |s|
  {
    hide IsWhitespace;
    if s != [] && IsWhitespace(s[|s| - 1]) {
      n := TrimEndCut(s[..|s| - 1]);
    } else {
      n := |s|;
    }
  }

  lemma SpelledExactly(c: char, printed: char)
    ensures Spelled(c, printed) <==> IsHexDigit(Upper(c)) && printed == Upper(c)
    ensures Spelled(c, printed) ==> !IsWhitespace(c)
  {
  }

  /** Exactly the spellings of a code in letters of either case, between any white space, normalise to it. */
  lemma NormalizeExactly(value: string, code: string)
    ensures Normalize(value) == Some(code) <==> exists i: nat :: Spells(value, i, code)
  {
    hide IsWhitespace, IsHexDigit, Upper, Spelled;
    if Normalize(value) == Some(code) {
      var i := TrimStartCut(value);
      var n := TrimEndCut(value[i..]);
      forall k | i <= k < i + 6 ensures Spelled(value[k], code[k - i]) {
        assert code[k - i] == UpperAll(value[i..][..n])[k - i];
        SpelledExactly(value[k], code[k - i]);
      }
      forall k | i + 6 <= k < |value| ensures IsWhitespace(value[k]) { assert value[k] == value[i..][k - i]; }
      assert Spells(value, i, code);
    }
    if i: nat :| Spells(value, i, code) {
      forall k | i <= k < i + 6
        ensures IsHexDigit(Upper(value[k])) && code[k - i] == Upper(value[k]) && !IsWhitespace(value[k])
      {
        SpelledExactly(value[k], code[k - i]);
      }
      TrimStartIs(value, i);
      TrimEndIs(value[i..], 6);
      assert UpperAll(value[i..][..6]) == code;
    }
  }

  // ----- allocation -----

  ghost function Codes(rooms: Rooms): set<string> {
    set id | id in rooms :: rooms[id].inviteCode
  }

  predicate Taken(rooms: Rooms, code: string) {
    exists id :: id in rooms && rooms[id].inviteCode == code
  }

  function Probe(seed: nat, k: nat): string {
    InviteCode((seed + k) % CODES)
  }

  lemma CodesBound(rooms: Rooms)
    ensures |Codes(rooms)| <= |rooms|
    decreases |rooms|
  {
    if rooms != map[] {
      var id :| id in rooms;
      var rest := rooms - {id};
      CodesBound(rest);
      assert forall j :: j in rooms ==> j == id || (j in rest && rest[j] == rooms[j]);
      assert Codes(rooms) <= Codes(rest) + {rooms[id].inviteCode};
      SubsetSize(Codes(rooms), Codes(rest) + {rooms[id].inviteCode});
      assert rooms == rest[id := rooms[id]];
    }
  }

  ghost function Probes(seed: nat, k: nat): set<string> {
    set j | 0 <= j < k :: Probe(seed, j)
  }

  lemma ModDistinct(a: nat, j: nat, k: nat)
    requires j < k < j + CODES
    ensures (a + j) % CODES != (a + k) % CODES
  {
    var q, r := (a + j) / CODES, (a + j) % CODES;
    assert a + k == q * CODES + r + (k - j);
  }

  lemma ProbeInjective(seed: nat, j: nat, k: nat)
    requires j < k < j + CODES
    ensures Probe(seed, j) != Probe(seed, k)
  {
    ModDistinct(seed, j, k);
    CodeRoundTrip((seed + j) % CODES);
    CodeRoundTrip((seed + k) % CODES);
    hide InviteCode, HexNumber;
  }

  /** The first `k` probes are pairwise distinct codes. */
  lemma {:induction false} ProbesDistinct(seed: nat, k: nat)
    requires k <= CODES
    ensures |Probes(seed, k)| == k
  {
    hide Probe;
    if k == 0 {
      assert Probes(seed, 0) == {};
    } else {
      var last := Probe(seed, k - 1);
      ProbesDistinct(seed, k - 1);
      if last in Probes(seed, k - 1) {
        var j :| 0 <= j < k - 1 && Probe(seed, j) == last;
        ProbeInjective(seed, j, k - 1);
        assert false;
      }
      assert Probes(seed, k) == Probes(seed, k - 1) + {last};
    }
  }

  /** Fewer rooms than codes: the first `k` probes cannot all be taken unless `k <= |rooms|`. */
  lemma Pigeonhole(rooms: Rooms, seed: nat, k: nat)
    requires |rooms| < CODES && k <= CODES
    requires forall j :: 0 <= j < k ==> Taken(rooms, Probe(seed, j))
    ensures k <= |rooms|
  {
    hide Probe;
    CodesBound(rooms);
    ProbesDistinct(seed, k);
    forall c | c in Probes(seed, k)
      ensures c in Codes(rooms)
    {
      var j :| 0 <= j < k && Probe(seed, j) == c;
      assert Taken(rooms, Probe(seed, j));
    }
    SubsetSize(Probes(seed, k), Codes(rooms));
  }

  lemma MaskedWrap(v: nat)
    requires v < U128
    ensures (v + 1) % U128 % CODES == (v % CODES + 1) % CODES
  {
    assert U128 % CODES == 0;
    if v + 1 == U128 {
      assert v == (U128 / CODES - 1) * CODES + (CODES - 1);
    } else {
      assert v == v / CODES * CODES + v % CODES;
    }
  }

  /** `unique_invite_code`: with fewer than 2^24 rooms the loop ends within |rooms| + 1
      rounds, at the first probe from the seed that no room uses. */
  method UniqueInviteCode(seed: nat, rooms: Rooms) returns (code: string, ghost skipped: nat)
    requires seed < U128 && |rooms| < CODES
    ensures !Taken(rooms, code) && skipped <= |rooms| && code == Probe(seed, skipped)
    ensures forall j :: 0 <= j < skipped ==> Taken(rooms, Probe(seed, j))
  {
    hide InviteCode, Taken;
    var value: nat := seed;
    skipped := 0;
    while true
      invariant value < U128 && value % CODES == (seed + skipped) % CODES
      invariant skipped <= |rooms|
      invariant forall j :: 0 <= j < skipped ==> Taken(rooms, Probe(seed, j))
      decreases |rooms| - skipped
    {
      code := InviteCode(value % CODES);
      if !Taken(rooms, code) {
        return;
      }
      Pigeonhole(rooms, seed, skipped + 1);
      NextProbe(value, seed + skipped);
      value := (value + 1) % U128;
      skipped := skipped + 1;
    }
  }

  lemma NextProbe(value: nat, a: nat)
    requires value < U128 && value % CODES == a % CODES
    ensures (value + 1) % U128 % CODES == (a + 1) % CODES
  {
    MaskedWrap(value);
    ModSucc(a);
  }

  lemma ModSucc(a: nat)
    ensures (a + 1) % CODES == (a % CODES + 1) % CODES
  {
    assert a == a / CODES * CODES + a % CODES;
  }

  // ----- the invariant of all creates and cleanups -----

  ghost predicate CodesInv(rooms: Rooms) {
    && (forall id :: id in rooms ==> Normalize(rooms[id].inviteCode) == Some(rooms[id].inviteCode))
    && (forall i, j :: i in rooms && j in rooms && rooms[i].inviteCode == rooms[j].inviteCode ==> i == j)
  }

  lemma CreateKeepsCodes(rooms: Rooms, id: Uuid, seed: nat, skipped: nat, room: Room)
    requires CodesInv(rooms) && id !in rooms
    requires room.inviteCode == Probe(seed, skipped) && !Taken(rooms, room.inviteCode)
    ensures CodesInv(rooms[id := room])
  {
    CodeIsNormal((seed + skipped) % CODES);
    hide Normalize, Probe;
    FreshCodeKeeps(rooms, id, room);
  }

  lemma FreshCodeKeeps(rooms: Rooms, id: Uuid, room: Room)
    requires CodesInv(rooms) && id !in rooms
    requires Normalize(room.inviteCode) == Some(room.inviteCode) && !Taken(rooms, room.inviteCode)
    ensures CodesInv(rooms[id := room])
  {
    hide Normalize;
    var next := rooms[id := room];
    assert forall j :: j in rooms ==> rooms[j].inviteCode != room.inviteCode;
    assert forall j :: j in next && j != id ==> j in rooms && next[j] == rooms[j];
  }

  lemma CleanupKeepsCodes(rooms: Rooms, gone: set<Uuid>)
    requires CodesInv(rooms)
    ensures CodesInv(rooms - gone)
  {
    hide Normalize;
  }

  // ----- lookup -----

  datatype Lookup = Found(id: Uuid) | RoomNotFound | LookupFull

  ghost predicate FindsBy(rooms: Rooms, code: string, r: Lookup) {
    match Normalize(code)
    case None => r == RoomNotFound
    case Some(normalized) =>
      match r
      case RoomNotFound => !Taken(rooms, normalized)
      case Found(id) => id in rooms && rooms[id].inviteCode == normalized && |rooms[id].players| < ROOM_CAPACITY
      case LookupFull =>
        exists id :: id in rooms && rooms[id].inviteCode == normalized && |rooms[id].players| >= ROOM_CAPACITY
  }

  /** Whatever spelling of a room's code normalises to it, the lookup reaches that room and no other. */
  lemma CodeReachesItsRoom(rooms: Rooms, id: Uuid, spelling: string, r: Lookup)
    requires id in rooms
    ensures CodesInv(rooms) && Normalize(spelling) == Some(rooms[id].inviteCode) && FindsBy(rooms, spelling, r) ==>
              r == if |rooms[id].players| < ROOM_CAPACITY then Found(id) else LookupFull
  {
    hide Normalize;
    assert Taken(rooms, rooms[id].inviteCode);
  }

  // ----- the hub object -----

  function ExpiredRooms(rooms: Rooms, now: Now, neverJoinedTtl: real, emptyTtl: real): set<Uuid> {
    set id | id in rooms && TtlOver(rooms[id], now, neverJoinedTtl, emptyTtl)
  }

  class Hub {
    var rooms: map<Uuid, CafeRoom>

    ghost predicate Valid()
      reads this
    {
      forall i, j :: i in rooms && j in rooms && rooms[i] == rooms[j] ==> i == j
    }

    function Models(): Rooms
      reads this, rooms.Values
    {
      map id | id in rooms :: rooms[id].Model()
    }

    constructor ()
      ensures Valid() && Models() == map[]
    {
      rooms := map[];
    }

    /** `create_room`; `id` is the fresh room id, whose bits seed the invite code. */
    method CreateRoom(id: Uuid, isPrivate: bool, now: Now) returns (code: string)
      requires Valid() && id !in rooms && id < U128 && |rooms| < CODES && CodesInv(Models())
      modifies this
      ensures Valid() && CodesInv(Models())
      ensures Models() == old(Models())[id := NewRoom(code, isPrivate, now)]
      ensures id in rooms && rooms[id].players == map[]
      ensures rooms[id].isPrivate == isPrivate && rooms[id].inviteCode == code
      ensures !Taken(old(Models()), code)
    {
      hide Normalize, Probe, Taken, CodesInv, ForRound;
      ghost var skipped;
      ghost var before := Models();
      assert before.Keys == rooms.Keys;
      code, skipped := UniqueInviteCode(id, Models());
      CreateKeepsCodes(before, id, id, skipped, NewRoom(code, isPrivate, now));
      var room := new CafeRoom(code, isPrivate, now);
      InsertRoom(id, room);
    }

    method InsertRoom(id: Uuid, room: CafeRoom)
      requires Valid() && id !in rooms && room !in rooms.Values
      modifies this
      ensures Valid() && rooms == old(rooms)[id := room]
      ensures Models() == old(Models())[id := room.Model()]
    {
      rooms := rooms[id := room];
    }

    method FindByInviteCode(code: string) returns (r: Lookup)
      ensures FindsBy(Models(), code, r)
    {
      var normalized := Normalize(code);
      if normalized.None? {
        return RoomNotFound;
      }
      var pending := rooms.Keys;
      while pending != {}
        invariant pending <= rooms.Keys
        invariant forall id :: id in rooms && id !in pending ==> Models()[id].inviteCode != normalized.value
        decreases pending
      {
        var id :| id in pending;
        if rooms[id].inviteCode == normalized.value {
          assert Models()[id].inviteCode == normalized.value;
          if |rooms[id].players| >= ROOM_CAPACITY {
            return LookupFull;
          }
          return Found(id);
        }
        assert Models()[id].inviteCode != normalized.value;
        pending := pending - {id};
      }
      return RoomNotFound;
    }

    /** The reuse part of `quick_join`: a busiest public room with a free seat, if any. */
    method BusiestPublicRoom() returns (r: Option<Uuid>)
      ensures r.Some? ==> r.value in rooms && !rooms[r.value].isPrivate && |rooms[r.value].players| < 8
      ensures r.Some? ==> r.value in rooms && Joinable(Models()[r.value])
      ensures forall id :: id in rooms && Joinable(Models()[id]) ==>
                r.Some? && |Models()[id].players| <= |Models()[r.value].players|
    {
      r := None;
      var pending := rooms.Keys;
      while pending != {}
        invariant pending <= rooms.Keys
        invariant r.Some? ==> r.value in rooms && Joinable(Models()[r.value])
        invariant forall id :: id in rooms && id !in pending && Joinable(Models()[id]) ==>
                    r.Some? && |Models()[id].players| <= |Models()[r.value].players|
        decreases pending
      {
        var id :| id in pending;
        var room := rooms[id];
        assert Models()[id] == room.Model();
        if !room.isPrivate && |room.players| < ROOM_CAPACITY
           && (r.None? || |rooms[r.value].players| <= |room.players|) {
          r := Some(id);
        }
        pending := pending - {id};
      }
    }

    /** The first loop of `cleanup_at`. */
    method CollectExpired(now: Now, neverJoinedTtl: real, emptyTtl: real) returns (expired: set<Uuid>)
      ensures expired == ExpiredRooms(Models(), now, neverJoinedTtl, emptyTtl)
    {
      expired := {};
      var pending := rooms.Keys;
      while pending != {}
        invariant pending <= rooms.Keys && expired <= rooms.Keys - pending
        invariant forall id :: id in rooms && id !in pending ==>
                    (id in expired <==> TtlOver(rooms[id].Model(), now, neverJoinedTtl, emptyTtl))
        decreases pending
      {
        var id :| id in pending;
        var room := rooms[id];
        var over := false;
        if room.players == map[] {
          if room.everJoined {
            over := room.emptySince.Some? && Since(now.instant, room.emptySince.value) >= emptyTtl;
          } else {
            over := Since(now.instant, room.createdAt) >= neverJoinedTtl;
          }
        }
        if over {
          expired := expired + {id};
        }
        pending := pending - {id};
      }
    }

    /** The second loop of `cleanup_at`: a removed room gives up its stop channel. */
    method RemoveRooms(expired: set<Uuid>)
      requires Valid() && expired <= rooms.Keys
      modifies this, rooms.Values
      ensures Valid() && Models() == old(Models()) - expired
    {
      var pending := expired;
      while pending != {}
        invariant pending <= expired && Valid() && pending <= rooms.Keys
        invariant rooms == old(rooms) - (expired - pending)
        invariant forall id :: id in rooms ==> unchanged(rooms[id])
        decreases pending
      {
        var id :| id in pending;
        var room := rooms[id];
        rooms := rooms - {id};
        room.tickStop := None;
        pending := pending - {id};
      }
    }

    /** `cleanup_at`: removes exactly the rooms whose time to live is over, and no other
        room changes. */
    method CleanupAt(now: Now, neverJoinedTtl: real, emptyTtl: real) returns (removed: nat)
      requires Valid() && CodesInv(Models())
      modifies this, rooms.Values
      ensures Valid() && CodesInv(Models())
      ensures var expired := ExpiredRooms(old(Models()), now, neverJoinedTtl, emptyTtl);
              Models() == old(Models()) - expired && removed == |expired|
    {
      hide CodesInv;
      var expired := CollectExpired(now, neverJoinedTtl, emptyTtl);
      CleanupKeepsCodes(Models(), expired);
      RemoveRooms(expired);
      removed := |expired|;
    }
  }

  predicate Joinable(room: Room) {
    !room.isPrivate && |room.players| < ROOM_CAPACITY
  }
}
