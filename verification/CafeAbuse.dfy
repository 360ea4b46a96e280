/**
 Abuse limits of the cafe: open sockets per session, per address and in total, and room
 creations in a sliding window, charged to three identities at once.
 */
module CafeAbuse {
  import opened Basics
  import opened MapSums
  import opened Counters
  import opened SlidingLogs

  datatype Limits = Limits(
    socketsPerSession: nat, socketsPerIp: nat, socketsGlobal: nat,
    creationsPerSession: nat, creationsPerIp: nat, creationsGlobal: nat, creationWindow: nat)

  datatype Identity = Session(id: Uuid) | Ip(address: string) | Global

  datatype Sockets = Sockets(bySession: map<Uuid, nat>, byIp: map<string, nat>, active: nat)
  type Creations = map<Identity, seq<nat>>

  // ----- sockets -----

  predicate CanReserve(s: Sockets, limits: Limits, session: Uuid, ip: string) {
    && CountAt(s.bySession, session) < limits.socketsPerSession
    && CountAt(s.byIp, ip) < limits.socketsPerIp
    && s.active < limits.socketsGlobal
  }

  function Reserve(s: Sockets, limits: Limits, session: Uuid, ip: string): Sockets {
    if !CanReserve(s, limits, session, ip) then s
    else Sockets(Increment(s.bySession, session), Increment(s.byIp, ip), s.active + 1)
  }

  function Release(s: Sockets, session: Uuid, ip: string): Sockets {
    Sockets(Decrement(s.bySession, session), Decrement(s.byIp, ip), if s.active > 0 then s.active - 1 else 0)
  }

  // ----- room creations -----

  function LimitOf(limits: Limits, id: Identity): nat {
    match id
    case Session(_) => limits.creationsPerSession
    case Ip(_) => limits.creationsPerIp
    case Global => limits.creationsGlobal
  }

  function LogOf(creations: Creations, id: Identity): seq<nat> {
    if id in creations then creations[id] else []
  }

  function PruneAll(creations: Creations, now: nat, window: nat): Creations {
    map id | id in creations && Prune(creations[id], now, window) != [] :: Prune(creations[id], now, window)
  }

  predicate Full(creations: Creations, limits: Limits, id: Identity) {
    id in creations && |creations[id]| >= LimitOf(limits, id)
  }

  function Push(creations: Creations, id: Identity, now: nat): Creations {
    creations[id := LogOf(creations, id) + [now]]
  }

  function Pushed(creations: Creations, session: Uuid, ip: string, now: nat): Creations {
    Push(Push(Push(creations, Session(session), now), Ip(ip), now), Global, now)
  }

  predicate MayCreate(creations: Creations, limits: Limits, session: Uuid, ip: string, now: nat) {
    var kept := PruneAll(creations, now, limits.creationWindow);
    !Full(kept, limits, Session(session)) && !Full(kept, limits, Ip(ip)) && !Full(kept, limits, Global)
  }

  function Consume(creations: Creations, limits: Limits, session: Uuid, ip: string, now: nat): Creations {
    var kept := PruneAll(creations, now, limits.creationWindow);
    if MayCreate(creations, limits, session, ip, now)
    then Pushed(kept, session, ip, now) else kept
  }

  class AbuseState {
    const limits: Limits
    var bySession: map<Uuid, nat>
    var byIp: map<string, nat>
    var active: nat
    var creations: Creations

    function SocketState(): Sockets
      reads this
    {
      Sockets(bySession, byIp, active)
    }

    constructor (limits: Limits)
      ensures SocketState() == Sockets(map[], map[], 0) && creations == map[] && this.limits == limits
    {
      this.limits := limits;
      bySession, byIp, active, creations := map[], map[], 0, map[];
    }

    method ReserveSocket(session: Uuid, ip: string) returns (reserved: bool)
      modifies this
      ensures SocketState() == Reserve(old(SocketState()), limits, session, ip)
      ensures reserved == CanReserve(old(SocketState()), limits, session, ip)
      ensures creations == old(creations)
    {
      var sessionCount, ipCount := CountAt(bySession, session), CountAt(byIp, ip);
      if sessionCount >= limits.socketsPerSession || ipCount >= limits.socketsPerIp || active >= limits.socketsGlobal {
        return false;
      }
      bySession := bySession[session := sessionCount + 1];
      byIp := byIp[ip := ipCount + 1];
      active := active + 1;
      return true;
    }

    method ReleaseSocket(session: Uuid, ip: string)
      modifies this
      ensures SocketState() == Release(old(SocketState()), session, ip)
      ensures creations == old(creations)
    {
      bySession := Decrement(bySession, session);
      byIp := Decrement(byIp, ip);
      active := if active > 0 then active - 1 else 0;
    }

    /** `prune_creation_buckets`: prune every queue and forget the empty ones. */
    method PruneCreationBuckets(now: nat)
      modifies `creations
      ensures creations == PruneAll(old(creations), now, limits.creationWindow)
    {
      var pending := creations.Keys;
      ghost var before := creations;
      while pending != {}
        invariant pending <= before.Keys && creations.Keys <= before.Keys
        invariant forall id :: id in pending ==> id in creations && creations[id] == before[id]
        invariant forall id :: id in before && id !in pending ==>
                    (id in creations <==> Prune(before[id], now, limits.creationWindow) != [])
                    && (id in creations ==> creations[id] == Prune(before[id], now, limits.creationWindow))
        decreases pending
      {
        var id :| id in pending;
        var kept := PruneLog(creations[id], now, limits.creationWindow);
        creations := if kept == [] then creations - {id} else creations[id := kept];
        pending := pending - {id};
      }
    }

    method ConsumeRoomCreation(session: Uuid, ip: string, now: nat) returns (allowed: bool)
      modifies `creations
      ensures creations == Consume(old(creations), limits, session, ip, now)
      ensures allowed == MayCreate(old(creations), limits, session, ip, now)
    {
      PruneCreationBuckets(now);
      var identities := [Session(session), Ip(ip), Global];
      var i := 0;
      while i < 3
        invariant 0 <= i <= 3
        invariant forall j :: 0 <= j < i ==> !Full(creations, limits, identities[j])
      {
        if identities[i] in creations && |creations[identities[i]]| >= LimitOf(limits, identities[i]) {
          assert Full(creations, limits, identities[i]);
          return false;
        }
        i := i + 1;
      }
      assert !Full(creations, limits, identities[0]) && !Full(creations, limits, identities[1])
          && !Full(creations, limits, identities[2]);
      creations := Push(creations, Session(session), now);
      creations := Push(creations, Ip(ip), now);
      creations := Push(creations, Global, now);
      return true;
    }
  }

  // ----- socket accounting -----

  datatype Reservation = Reservation(session: Uuid, ip: string)

  ghost function SessionsOf(live: map<nat, Reservation>): map<nat, Uuid> {
    map id | id in live :: live[id].session
  }

  ghost function IpsOf(live: map<nat, Reservation>): map<nat, string> {
    map id | id in live :: live[id].ip
  }

  /** The tables count exactly the live reservations, within every limit. */
  ghost predicate SocketsInv(s: Sockets, live: map<nat, Reservation>, limits: Limits) {
    && Counts(s.bySession, SessionsOf(live)) && Counts(s.byIp, IpsOf(live))
    && s.active == |live| == Sum(s.bySession) == Sum(s.byIp)
    && s.active <= limits.socketsGlobal
    && (forall k :: k in s.bySession ==> s.bySession[k] <= limits.socketsPerSession)
    && (forall k :: k in s.byIp ==> s.byIp[k] <= limits.socketsPerIp)
  }

  lemma NoSockets(limits: Limits)
    ensures SocketsInv(Sockets(map[], map[], 0), map[], limits)
  {
    EmptyCounts<Uuid>();
    EmptyCounts<string>();
    assert SessionsOf(map[]) == map[] && IpsOf(map[]) == map[];
  }

  lemma LiveGrows(live: map<nat, Reservation>, id: nat, r: Reservation)
    requires id !in live
    ensures SessionsOf(live[id := r]) == SessionsOf(live)[id := r.session] && id !in SessionsOf(live)
    ensures IpsOf(live[id := r]) == IpsOf(live)[id := r.ip] && id !in IpsOf(live)
  {
  }

  lemma LiveShrinks(live: map<nat, Reservation>, id: nat)
    requires id in live
    ensures SessionsOf(live - {id}) == SessionsOf(live) - {id} && id in SessionsOf(live)
    ensures IpsOf(live - {id}) == IpsOf(live) - {id} && id in IpsOf(live)
    ensures SessionsOf(live)[id] == live[id].session && IpsOf(live)[id] == live[id].ip
    ensures |live - {id}| + 1 == |live|
  {
    assert live == (live - {id})[id := live[id]];
  }

  lemma ReserveInv(s: Sockets, live: map<nat, Reservation>, limits: Limits, r: Reservation, id: nat)
    requires SocketsInv(s, live, limits) && id !in live
    ensures CanReserve(s, limits, r.session, r.ip) ==>
            SocketsInv(Reserve(s, limits, r.session, r.ip), live[id := r], limits)
    ensures !CanReserve(s, limits, r.session, r.ip) ==> Reserve(s, limits, r.session, r.ip) == s
  {
    hide Counts, SessionsOf, IpsOf, Sum;
    LiveGrows(live, id, r);
    IncrementCounts(s.bySession, SessionsOf(live), id, r.session);
    IncrementCounts(s.byIp, IpsOf(live), id, r.ip);
    IncrementSum(s.bySession, r.session);
    IncrementSum(s.byIp, r.ip);
  }

  lemma DecrementBounded<K(!new)>(m: map<K, nat>, k: K, bound: nat)
    requires forall j :: j in m ==> m[j] <= bound
    ensures forall j :: j in Decrement(m, k) ==> Decrement(m, k)[j] <= bound
  {
  }

  lemma ReleaseInv(s: Sockets, live: map<nat, Reservation>, limits: Limits, id: nat)
    requires SocketsInv(s, live, limits) && id in live
    ensures SocketsInv(Release(s, live[id].session, live[id].ip), live - {id}, limits)
  {
    hide Counts, SessionsOf, IpsOf, Sum, Decrement;
    var r := live[id];
    LiveShrinks(live, id);
    DecrementCounts(s.bySession, SessionsOf(live), id);
    DecrementCounts(s.byIp, IpsOf(live), id);
    CountedPositive(s.bySession, SessionsOf(live), r.session);
    CountedPositive(s.byIp, IpsOf(live), r.ip);
    DecrementSum(s.bySession, r.session);
    DecrementSum(s.byIp, r.ip);
    DecrementBounded(s.bySession, r.session, limits.socketsPerSession);
    DecrementBounded(s.byIp, r.ip, limits.socketsPerIp);
  }

  lemma CountedPositive<K(!new)>(m: map<K, nat>, live: map<nat, K>, k: K)
    requires Counts(m, live) && k in m
    ensures m[k] > 0
  {
  }

  /** A socket is admitted exactly if its session, its address and the service have fewer live sockets than allowed. */
  lemma ReservedExactly(s: Sockets, live: map<nat, Reservation>, limits: Limits, r: Reservation, id: nat)
    requires SocketsInv(s, live, limits) && id !in live
    ensures var ofSession := |set i | i in live && live[i].session == r.session|;
            var ofIp := |set i | i in live && live[i].ip == r.ip|;
            SocketStep(s, live, limits, Opens(id, r)).1 ==
            if ofSession < limits.socketsPerSession && ofIp < limits.socketsPerIp && |live| < limits.socketsGlobal
            then live[id := r] else live
  {
    assert (set i | i in live && live[i].session == r.session) == Holders(SessionsOf(live), r.session);
    assert (set i | i in live && live[i].ip == r.ip) == Holders(IpsOf(live), r.ip);
    assert CountAt(s.bySession, r.session) == |Holders(SessionsOf(live), r.session)|;
    assert CountAt(s.byIp, r.ip) == |Holders(IpsOf(live), r.ip)|;
    hide Counts, Sum;
  }

  datatype SocketEvent = Opens(id: nat, r: Reservation) | Closes(id: nat)

  /** Each reservation has its own identity and is released at most once, when it is dropped. */
  function SocketStep(s: Sockets, live: map<nat, Reservation>, limits: Limits, e: SocketEvent):
      (Sockets, map<nat, Reservation>) {
    match e
    case Opens(id, r) =>
      if id !in live && CanReserve(s, limits, r.session, r.ip)
      then (Reserve(s, limits, r.session, r.ip), live[id := r]) else (s, live)
    case Closes(id) =>
      if id in live then (Release(s, live[id].session, live[id].ip), live - {id}) else (s, live)
  }

  function SocketRun(s: Sockets, live: map<nat, Reservation>, limits: Limits, es: seq<SocketEvent>):
      (Sockets, map<nat, Reservation>)
    decreases es
  {
    if es == [] then (s, live)
    else var next := SocketStep(s, live, limits, es[0]); SocketRun(next.0, next.1, limits, es[1..])
  }

  /** After any sequence of reservations and drops the per-session and the per-address sums
      both equal the number of active sockets, which is the number of live reservations. */
  lemma {:induction false} SocketRunInv(s: Sockets, live: map<nat, Reservation>, limits: Limits, es: seq<SocketEvent>)
    requires SocketsInv(s, live, limits)
    ensures var r := SocketRun(s, live, limits, es); SocketsInv(r.0, r.1, limits)
    decreases es
  {
    if es != [] {
      match es[0] {
        case Opens(id, r) => if id !in live { ReserveInv(s, live, limits, r, id); }
        case Closes(id) => if id in live { ReleaseInv(s, live, limits, id); }
      }
      hide SocketsInv;
      var next := SocketStep(s, live, limits, es[0]);
      SocketRunInv(next.0, next.1, limits, es[1..]);
    }
  }

  /** So it is after every sequence that starts without sockets. */
  lemma EverySocketRun(limits: Limits, es: seq<SocketEvent>)
    ensures var r := SocketRun(Sockets(map[], map[], 0), map[], limits, es); SocketsInv(r.0, r.1, limits)
  {
    NoSockets(limits);
    SocketRunInv(Sockets(map[], map[], 0), map[], limits, es);
  }

  // ----- room creations against the full history -----

  datatype Creation = Creation(session: Uuid, ip: string, time: nat)

  predicate Charged(c: Creation, id: Identity) {
    id == Session(c.session) || id == Ip(c.ip) || id == Global
  }

  /** The instants of all creations ever charged to an identity. */
  function TimesOf(history: seq<Creation>, id: Identity): seq<nat> {
    if history == [] then []
    else
      var c := history[|history| - 1];
      TimesOf(history[..|history| - 1], id) + (if Charged(c, id) then [c.time] else [])
  }

  /** A limit of zero still lets a first creation through; the configuration rejects zero. */
  function Allowance(limits: Limits, id: Identity): nat {
    Max(LimitOf(limits, id), 1)
  }

  /** The queue of an identity follows its history, whose entries are spaced by the limit. */
  ghost predicate InWindow(times: seq<nat>, log: seq<nat>, last: nat, limits: Limits, id: Identity) {
    Tracks(times, log, last, limits.creationWindow) && Spaced(times, Allowance(limits, id), limits.creationWindow)
  }

  ghost predicate CreationInv(history: seq<Creation>, creations: Creations, last: nat, limits: Limits) {
    forall id :: InWindow(TimesOf(history, id), LogOf(creations, id), last, limits, id)
  }

  function Recent(history: seq<Creation>, limits: Limits, id: Identity, now: nat): nat {
    CountRecent(TimesOf(history, id), now, limits.creationWindow)
  }

  lemma LogOfPruned(creations: Creations, limits: Limits, id: Identity, now: nat)
    ensures var kept := PruneAll(creations, now, limits.creationWindow);
            && LogOf(kept, id) == Prune(LogOf(creations, id), now, limits.creationWindow)
            && (Full(kept, limits, id) <==> |LogOf(kept, id)| >= Allowance(limits, id))
  {
  }

  lemma PrunedLog(history: seq<Creation>, creations: Creations, last: nat, limits: Limits, id: Identity, now: nat)
    requires CreationInv(history, creations, last, limits) && last <= now
    ensures var kept := PruneAll(creations, now, limits.creationWindow);
            && InWindow(TimesOf(history, id), LogOf(kept, id), now, limits, id)
            && |LogOf(kept, id)| == Recent(history, limits, id, now)
            && (Full(kept, limits, id) <==> Recent(history, limits, id, now) >= Allowance(limits, id))
  {
    hide Tracks, Spaced, TimesOf, CountRecent, PruneAll, LogOf, Full, Prune;
    assert InWindow(TimesOf(history, id), LogOf(creations, id), last, limits, id);
    LogOfPruned(creations, limits, id, now);
    PrunedLength(TimesOf(history, id), LogOf(creations, id), last, now, limits.creationWindow);
    PruneTracks(TimesOf(history, id), LogOf(creations, id), last, now, limits.creationWindow);
  }

  lemma TimesOfPush(history: seq<Creation>, c: Creation, id: Identity)
    ensures TimesOf(history + [c], id) == TimesOf(history, id) + (if Charged(c, id) then [c.time] else [])
  {
    assert (history + [c])[..|history|] == history;
  }

  lemma PushedLog(kept: Creations, session: Uuid, ip: string, now: nat, id: Identity)
    ensures LogOf(Pushed(kept, session, ip, now), id)
            == LogOf(kept, id) + (if Charged(Creation(session, ip, now), id) then [now] else [])
  {
  }

  /** A room creation is admitted exactly when session, address and the whole service each
      have fewer than their limit in the preceding window; then all three are charged and
      otherwise none, so the (i + limit)-th creation is at least a window after the i-th. */
  lemma CreationExact(history: seq<Creation>, creations: Creations, last: nat, limits: Limits,
                      session: Uuid, ip: string, now: nat)
    requires CreationInv(history, creations, last, limits) && last <= now
    ensures var admitted := MayCreate(creations, limits, session, ip, now);
            && (admitted <==>
                  && Recent(history, limits, Session(session), now) < Max(limits.creationsPerSession, 1)
                  && Recent(history, limits, Ip(ip), now) < Max(limits.creationsPerIp, 1)
                  && Recent(history, limits, Global, now) < Max(limits.creationsGlobal, 1))
            && CreationInv(if admitted then history + [Creation(session, ip, now)] else history,
                           Consume(creations, limits, session, ip, now), now, limits)
  {
    hide InWindow, TimesOf, Recent, PruneAll, Pushed, Full, CreationInv;
    var kept := PruneAll(creations, now, limits.creationWindow);
    var c := Creation(session, ip, now);
    PrunedLog(history, creations, last, limits, Session(session), now);
    PrunedLog(history, creations, last, limits, Ip(ip), now);
    PrunedLog(history, creations, last, limits, Global, now);
    var admitted := MayCreate(creations, limits, session, ip, now);
    var after := if admitted then history + [c] else history;
    forall id
      ensures InWindow(TimesOf(after, id), LogOf(Consume(creations, limits, session, ip, now), id), now, limits, id)
    {
      PrunedLog(history, creations, last, limits, id, now);
      if admitted { ChargedKeeps(history, kept, limits, c, id); }
    }
    InvFromAll(after, Consume(creations, limits, session, ip, now), now, limits);
  }

  lemma InvFromAll(history: seq<Creation>, creations: Creations, last: nat, limits: Limits)
    requires forall id :: InWindow(TimesOf(history, id), LogOf(creations, id), last, limits, id)
    ensures CreationInv(history, creations, last, limits)
  {
  }

  lemma ChargedKeeps(history: seq<Creation>, kept: Creations, limits: Limits, c: Creation, id: Identity)
    requires InWindow(TimesOf(history, id), LogOf(kept, id), c.time, limits, id)
    requires Charged(c, id) ==> |LogOf(kept, id)| < Allowance(limits, id)
    ensures InWindow(TimesOf(history + [c], id), LogOf(Pushed(kept, c.session, c.ip, c.time), id), c.time, limits, id)
  {
    hide Tracks, Spaced, TimesOf, Pushed;
    TimesOfPush(history, c, id);
    PushedLog(kept, c.session, c.ip, c.time, id);
    if Charged(c, id) {
      PushTracks(TimesOf(history, id), LogOf(kept, id), c.time, limits.creationWindow);
      PushSpaced(TimesOf(history, id), LogOf(kept, id), c.time, Allowance(limits, id), limits.creationWindow);
    } else {
      assert TimesOf(history, id) + [] == TimesOf(history, id) && LogOf(kept, id) + [] == LogOf(kept, id);
    }
  }

  // ----- runs of creation requests and cleanups -----

  datatype Request = Requests(session: Uuid, ip: string, now: nat) | Cleans(now: nat)

  datatype Ledger = Ledger(history: seq<Creation>, creations: Creations, last: nat)

  function Handle(l: Ledger, limits: Limits, r: Request): Ledger {
    match r
    case Requests(session, ip, now) =>
      Ledger(if MayCreate(l.creations, limits, session, ip, now) then l.history + [Creation(session, ip, now)]
             else l.history,
             Consume(l.creations, limits, session, ip, now), now)
    case Cleans(now) => Ledger(l.history, PruneAll(l.creations, now, limits.creationWindow), now)
  }

  function HandleAll(l: Ledger, limits: Limits, rs: seq<Request>): Ledger
    decreases rs
  {
    if rs == [] then l else HandleAll(Handle(l, limits, rs[0]), limits, rs[1..])
  }

  ghost predicate InOrder(rs: seq<Request>, from: nat)
    decreases rs
  {
    rs == [] || (rs[0].now >= from && InOrder(rs[1..], rs[0].now))
  }

  lemma HandleInv(l: Ledger, limits: Limits, r: Request)
    requires CreationInv(l.history, l.creations, l.last, limits) && l.last <= r.now
    ensures var n := Handle(l, limits, r); CreationInv(n.history, n.creations, n.last, limits) && n.last == r.now
  {
    match r
    case Requests(session, ip, now) =>
      hide CreationInv, Consume, MayCreate;
      CreationExact(l.history, l.creations, l.last, limits, session, ip, now);
    case Cleans(now) =>
      hide InWindow, TimesOf;
      forall id
        ensures InWindow(TimesOf(l.history, id), LogOf(PruneAll(l.creations, now, limits.creationWindow), id),
                       now, limits, id)
      {
        PrunedLog(l.history, l.creations, l.last, limits, id, now);
      }
  }

  lemma {:induction false} HandleAllInv(l: Ledger, limits: Limits, rs: seq<Request>)
    requires CreationInv(l.history, l.creations, l.last, limits) && InOrder(rs, l.last)
    ensures var n := HandleAll(l, limits, rs); CreationInv(n.history, n.creations, n.last, limits)
    decreases rs
  {
    hide CreationInv, Handle;
    if rs != [] {
      HandleInv(l, limits, rs[0]);
      HandleAllInv(Handle(l, limits, rs[0]), limits, rs[1..]);
    }
  }

  /** In any run of requests and cleanups, one more creation than an identity's limit takes
      at least the whole window, for every session, every address and the whole service. */
  lemma CreationsSpaced(limits: Limits, rs: seq<Request>, id: Identity, i: nat)
    requires InOrder(rs, 0)
    ensures var times := TimesOf(HandleAll(Ledger([], map[], 0), limits, rs).history, id);
            i + Allowance(limits, id) < |times| ==> times[i] + limits.creationWindow <= times[i + Allowance(limits, id)]
  {
    var l := Ledger([], map[], 0);
    HandleAllInv(l, limits, rs);
    var n := HandleAll(l, limits, rs);
    hide HandleAll, TimesOf, InOrder;
    assert InWindow(TimesOf(n.history, id), LogOf(n.creations, id), n.last, limits, id);
  }
}
