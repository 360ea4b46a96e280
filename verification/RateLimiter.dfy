/**
 The fixed-window request limiter: several keys are charged together or not at all, and
 no key is admitted more than twice its limit within any window, wherever it starts.
 */
module RateLimiters {
  import opened Basics

  /** One minute; instants are counted in the same unit. */
  const WINDOW: nat := 60_000

  datatype Family = GuestSessions | ChatMessages | AssistantSpeech | UserTranscription | ImageUpload
  datatype Identity = Session(id: Uuid) | Ip(address: string) | Global
  datatype Key = Key(family: Family, identity: Identity)
  datatype Policy = Policy(maxRequests: nat, window: nat)
  datatype Bucket = Bucket(start: nat, count: nat)
  type Buckets = map<Key, Bucket>

  function PerMinute(maxRequests: nat): Policy {
    Policy(maxRequests, WINDOW)
  }

  /** The configured limits; every policy is made by `per_minute`. */
  datatype Limits = Limits(
    guestSessions: nat, guestGlobal: nat, chatMessages: nat, assistantSpeech: nat,
    userTranscription: nat, imageUpload: nat, chatGlobal: nat)

  function PolicyFor(limits: Limits, key: Key): Policy {
    PerMinute(
      match key.family
      case GuestSessions => if key.identity == Global then limits.guestGlobal else limits.guestSessions
      case ChatMessages => if key.identity == Global then limits.chatGlobal else limits.chatMessages
      case AssistantSpeech => limits.assistantSpeech
      case UserTranscription => limits.userTranscription
      case ImageUpload => limits.imageUpload)
  }

  function Retained(buckets: Buckets, now: nat): Buckets {
    map k | k in buckets && Elapsed(now, buckets[k].start) < WINDOW :: buckets[k]
  }

  /** The bucket that the first loop leaves for a key. */
  function Opened(buckets: Buckets, key: Key, policy: Policy, now: nat): Bucket {
    var bucket := if key in buckets then buckets[key] else Bucket(now, 0);
    if Elapsed(now, bucket.start) >= policy.window then Bucket(now, 0) else bucket
  }

  /** The first loop: open every key's bucket, stopping at the first full one. */
  function OpenAll(limits: Limits, buckets: Buckets, keys: seq<Key>, now: nat): (Buckets, bool)
    decreases keys
  {
    if keys == [] then (buckets, true)
    else
      var policy := PolicyFor(limits, keys[0]);
      var bucket := Opened(buckets, keys[0], policy, now);
      if bucket.count >= policy.maxRequests then (buckets[keys[0] := bucket], false)
      else OpenAll(limits, buckets[keys[0] := bucket], keys[1..], now)
  }

  /** The second loop. */
  function ChargeAll(buckets: Buckets, keys: seq<Key>): Buckets
    decreases keys
  {
    if keys == [] then buckets
    else if keys[0] in buckets then
      ChargeAll(buckets[keys[0] := buckets[keys[0]].(count := buckets[keys[0]].count + 1)], keys[1..])
    else ChargeAll(buckets, keys[1..])
  }

  function CheckMany(limits: Limits, buckets: Buckets, keys: seq<Key>, now: nat): (Buckets, bool) {
    var opening := OpenAll(limits, Retained(buckets, now), keys, now);
    if opening.1 then (ChargeAll(opening.0, keys), true) else opening
  }

  class RateLimiter {
    const limits: Limits
    var buckets: Buckets

    constructor (limits: Limits)
      ensures this.limits == limits && buckets == map[]
    {
      this.limits := limits;
      buckets := map[];
    }

    method CheckAll(family: Family, identities: seq<Identity>, now: nat) returns (allowed: bool)
      modifies this
      ensures var keys := seq(|identities|, i requires 0 <= i < |identities| => Key(family, identities[i]));
              (buckets, allowed) == CheckMany(limits, old(buckets), keys, now)
    {
      buckets := Retained(buckets, now);
      var keys := seq(|identities|, i requires 0 <= i < |identities| => Key(family, identities[i]));
      ghost var goal := OpenAll(limits, buckets, keys, now);
      var i := 0;
      while i < |keys|
        invariant 0 <= i <= |keys|
        invariant OpenAll(limits, buckets, keys[i..], now) == goal
      {
        assert keys[i..][0] == keys[i] && keys[i..][1..] == keys[i + 1..];
        var policy := PolicyFor(limits, keys[i]);
        var bucket := if keys[i] in buckets then buckets[keys[i]] else Bucket(now, 0);
        if Elapsed(now, bucket.start) >= policy.window {
          bucket := Bucket(now, 0);
        }
        buckets := buckets[keys[i] := bucket];
        if bucket.count >= policy.maxRequests {
          return false;
        }
        i := i + 1;
      }
      i := 0;
      ghost var charged := ChargeAll(buckets, keys);
      while i < |keys|
        invariant 0 <= i <= |keys|
        invariant ChargeAll(buckets, keys[i..]) == charged
      {
        assert keys[i..][0] == keys[i] && keys[i..][1..] == keys[i + 1..];
        if keys[i] in buckets {
          buckets := buckets[keys[i] := buckets[keys[i]].(count := buckets[keys[i]].count + 1)];
        }
        i := i + 1;
      }
      return true;
    }
  }

  // ----- what one call does -----

  /** The number of requests that count against a key at `now`. */
  function InForce(buckets: Buckets, key: Key, now: nat): nat {
    if key in buckets && Elapsed(now, buckets[key].start) < WINDOW then buckets[key].count else 0
  }

  ghost predicate Distinct(keys: seq<Key>) {
    forall i, j :: 0 <= i < j < |keys| ==> keys[i] != keys[j]
  }

  ghost predicate Fresh(buckets: Buckets, now: nat) {
    forall k :: k in buckets ==> Elapsed(now, buckets[k].start) < WINDOW
  }

  /** Opening adds empty buckets for missing keys and changes nothing else. */
  lemma {:induction false} OpenAllEffect(limits: Limits, buckets: Buckets, keys: seq<Key>, now: nat)
    requires Fresh(buckets, now)
    ensures var opening := OpenAll(limits, buckets, keys, now);
            && Fresh(opening.0, now)
            && (forall k :: k in buckets ==> k in opening.0 && opening.0[k] == buckets[k])
            && (forall k :: k in opening.0 && k !in buckets ==> k in keys && opening.0[k] == Bucket(now, 0))
            && (opening.1 <==> forall i :: 0 <= i < |keys| ==>
                                InForce(buckets, keys[i], now) < PolicyFor(limits, keys[i]).maxRequests)
            && (opening.1 ==> forall i :: 0 <= i < |keys| ==> keys[i] in opening.0)
    decreases keys
  {
    if keys != [] {
      var policy := PolicyFor(limits, keys[0]);
      var bucket := Opened(buckets, keys[0], policy, now);
      var next := buckets[keys[0] := bucket];
      assert bucket.count == InForce(buckets, keys[0], now);
      if bucket.count < policy.maxRequests {
        OpenAllEffect(limits, next, keys[1..], now);
        forall k
          ensures InForce(next, k, now) == InForce(buckets, k, now)
        {
        }
        assert forall i :: 0 <= i < |keys[1..]| ==> keys[1..][i] == keys[i + 1];
      }
    }
  }

  lemma {:induction false} ChargeAllEffect(buckets: Buckets, keys: seq<Key>)
    requires Distinct(keys) && forall i :: 0 <= i < |keys| ==> keys[i] in buckets
    ensures var charged := ChargeAll(buckets, keys);
            && charged.Keys == buckets.Keys
            && forall k :: k in buckets ==>
                 charged[k] == Bucket(buckets[k].start, buckets[k].count + (if k in keys then 1 else 0))
    decreases keys
  {
    if keys != [] {
      var next := buckets[keys[0] := buckets[keys[0]].(count := buckets[keys[0]].count + 1)];
      assert forall i :: 0 <= i < |keys[1..]| ==> keys[1..][i] == keys[i + 1];
      ChargeAllEffect(next, keys[1..]);
      assert keys[0] !in keys[1..];
      assert keys == [keys[0]] + keys[1..];
    }
  }

  /** A call is admitted exactly when every key is below its limit; then each of its keys is
      charged one request, and otherwise no key's count in force changes. */
  lemma CheckManyExact(limits: Limits, buckets: Buckets, keys: seq<Key>, now: nat)
    requires Distinct(keys)
    ensures var r := CheckMany(limits, buckets, keys, now);
            && (r.1 <==> forall i :: 0 <= i < |keys| ==>
                           InForce(buckets, keys[i], now) < PolicyFor(limits, keys[i]).maxRequests)
            && forall k :: InForce(r.0, k, now) == InForce(buckets, k, now) + (if r.1 && k in keys then 1 else 0)
  {
    CheckManyEffect(limits, buckets, keys, now);
    var r := CheckMany(limits, buckets, keys, now);
    var held := Retained(buckets, now);
    forall i | 0 <= i < |keys|
      ensures InForce(held, keys[i], now) == InForce(buckets, keys[i], now)
    {
    }
  }

  /** What a call leaves in the table: live buckets keep their window, missing ones open at `now`. */
  lemma CheckManyEffect(limits: Limits, buckets: Buckets, keys: seq<Key>, now: nat)
    requires Distinct(keys)
    ensures var r := CheckMany(limits, buckets, keys, now);
            var held := Retained(buckets, now);
            && (r.1 <==> forall i :: 0 <= i < |keys| ==>
                           InForce(held, keys[i], now) < PolicyFor(limits, keys[i]).maxRequests)
            && Fresh(r.0, now)
            && (forall k :: k in held ==> k in r.0 && r.0[k].start == held[k].start
                                          && r.0[k].count == held[k].count + (if r.1 && k in keys then 1 else 0))
            && (forall k :: k in r.0 && k !in held ==> k in keys && r.0[k] == Bucket(now, if r.1 then 1 else 0))
            && (r.1 ==> forall k :: k in keys ==> k in r.0)
  {
    var held := Retained(buckets, now);
    OpenAllEffect(limits, held, keys, now);
    var opening := OpenAll(limits, held, keys, now);
    if opening.1 { ChargeAllEffect(opening.0, keys); }
  }

  // ----- runs -----

  datatype Call = Call(keys: seq<Key>, now: nat)

  /** An admission of one key: when it happened and the window it was charged to. */
  datatype Admission = Admission(time: nat, start: nat)

  /** The table after a run and the admissions of one key, oldest first. */
  datatype History = History(buckets: Buckets, log: seq<Admission>, last: nat)

  function Record(limits: Limits, h: History, call: Call, key: Key): History {
    var r := CheckMany(limits, h.buckets, call.keys, call.now);
    History(r.0, if r.1 && key in call.keys && key in r.0 then h.log + [Admission(call.now, r.0[key].start)] else h.log,
            call.now)
  }

  function RunCalls(limits: Limits, h: History, calls: seq<Call>, key: Key): History
    decreases calls
  {
    if calls == [] then h else RunCalls(limits, Record(limits, h, calls[0], key), calls[1..], key)
  }

  /** Calls hold the lock in time order and name distinct keys. */
  ghost predicate InOrder(calls: seq<Call>, from: nat)
    decreases calls
  {
    calls == [] || (calls[0].now >= from && Distinct(calls[0].keys) && InOrder(calls[1..], calls[0].now))
  }

  ghost predicate WindowsApart(log: seq<Admission>) {
    && (forall i :: 0 <= i < |log| ==> log[i].start <= log[i].time < log[i].start + WINDOW)
    && (forall i, j :: 0 <= i < j < |log| ==>
          && log[i].time <= log[j].time
          && (log[i].start == log[j].start || log[i].start + WINDOW <= log[j].start))
  }

  /** No window holds more than `max` admissions. */
  ghost predicate WindowsFull(log: seq<Admission>, max: nat) {
    forall i, j :: 0 <= i < j < |log| && j - i >= max ==> log[i].start != log[j].start
  }

  ghost predicate HistoryInv(limits: Limits, h: History, key: Key) {
    var max := PolicyFor(limits, key).maxRequests;
    && WindowsApart(h.log) && WindowsFull(h.log, max)
    && (h.log != [] ==> max > 0)
    && (forall i :: 0 <= i < |h.log| ==> h.log[i].time <= h.last)
    && (if key in h.buckets then
          var b := h.buckets[key];
          && b.count <= max && b.count <= |h.log| && b.start <= h.last
          && (forall i :: |h.log| - b.count <= i < |h.log| ==> h.log[i].start == b.start)
          && (forall i :: 0 <= i < |h.log| - b.count ==> h.log[i].start + WINDOW <= b.start)
        else forall i :: 0 <= i < |h.log| ==> h.log[i].start + WINDOW <= h.last)
  }

  /** Appending an admission to a window that holds `count < max` of them, the last ones. */
  lemma AppendAdmission(log: seq<Admission>, a: Admission, count: nat, max: nat)
    requires WindowsApart(log) && WindowsFull(log, max) && count <= |log| && count < max
    requires a.start <= a.time < a.start + WINDOW && forall i :: 0 <= i < |log| ==> log[i].time <= a.time
    requires forall i :: |log| - count <= i < |log| ==> log[i].start == a.start
    requires forall i :: 0 <= i < |log| - count ==> log[i].start + WINDOW <= a.start
    ensures WindowsApart(log + [a]) && WindowsFull(log + [a], max)
  {
  }

  /** The same, read off for a single key. */
  lemma CheckManyKey(limits: Limits, buckets: Buckets, keys: seq<Key>, now: nat, key: Key)
    requires Distinct(keys)
    ensures var r := CheckMany(limits, buckets, keys, now);
            var charge := if r.1 && key in keys then 1 else 0;
            var held := key in buckets && Elapsed(now, buckets[key].start) < WINDOW;
            && (held ==> key in r.0 && r.0[key] == Bucket(buckets[key].start, buckets[key].count + charge))
            && (!held && key in r.0 ==> r.0[key] == Bucket(now, charge))
            && (charge == 1 ==> key in r.0 && InForce(buckets, key, now) < PolicyFor(limits, key).maxRequests)
  {
    hide CheckMany, PolicyFor;
    CheckManyEffect(limits, buckets, keys, now);
    var held := Retained(buckets, now);
    assert key in held ==> held[key] == buckets[key];
    if i :| 0 <= i < |keys| && keys[i] == key {
      assert InForce(held, keys[i], now) == InForce(buckets, key, now);
    }
  }

  lemma RecordKeepsInv(limits: Limits, h: History, call: Call, key: Key)
    requires HistoryInv(limits, h, key) && call.now >= h.last && Distinct(call.keys)
    ensures HistoryInv(limits, Record(limits, h, call, key), key)
  {
    hide CheckMany, PolicyFor, WindowsApart, WindowsFull;
    CheckManyKey(limits, h.buckets, call.keys, call.now, key);
    var r := CheckMany(limits, h.buckets, call.keys, call.now);
    var held := key in h.buckets && Elapsed(call.now, h.buckets[key].start) < WINDOW;
    if key in h.buckets { HistoryStarts(limits, h, key); }
    assert !held ==> forall i :: 0 <= i < |h.log| ==> h.log[i].start + WINDOW <= call.now;
    if r.1 && key in call.keys {
      AppendAdmission(h.log, Admission(call.now, r.0[key].start), if held then h.buckets[key].count else 0,
                      PolicyFor(limits, key).maxRequests);
    }
  }

  /** Admissions were charged to windows that started no later than the key's bucket. */
  lemma HistoryStarts(limits: Limits, h: History, key: Key)
    requires HistoryInv(limits, h, key) && key in h.buckets
    ensures forall i :: 0 <= i < |h.log| ==> h.log[i].start <= h.buckets[key].start
  {
  }

  lemma {:induction false} RunCallsInv(limits: Limits, h: History, calls: seq<Call>, key: Key)
    requires HistoryInv(limits, h, key) && InOrder(calls, h.last)
    ensures HistoryInv(limits, RunCalls(limits, h, calls, key), key)
    decreases calls
  {
    hide HistoryInv, Record;
    if calls != [] {
      RecordKeepsInv(limits, h, calls[0], key);
      RecordLast(limits, h, calls[0], key);
      RunCallsInv(limits, Record(limits, h, calls[0], key), calls[1..], key);
    }
  }

  lemma RecordLast(limits: Limits, h: History, call: Call, key: Key)
    ensures Record(limits, h, call, key).last == call.now
  {
  }

  /** In any run, a key's bucket never exceeds its limit, and any `2 * max + 1` consecutive
      admissions of the key span more than one window. */
  lemma AtMostTwiceTheLimit(limits: Limits, calls: seq<Call>, key: Key, i: nat)
    requires InOrder(calls, 0)
    ensures var h := RunCalls(limits, History(map[], [], 0), calls, key);
            var max := PolicyFor(limits, key).maxRequests;
            && (key in h.buckets ==> h.buckets[key].count <= max)
            && (i + 2 * max < |h.log| ==> h.log[i].time + WINDOW < h.log[i + 2 * max].time)
  {
    var h := RunCalls(limits, History(map[], [], 0), calls, key);
    var max := PolicyFor(limits, key).maxRequests;
    RunCallsInv(limits, History(map[], [], 0), calls, key);
    hide RunCalls, PolicyFor, InOrder;
    if i + 2 * max < |h.log| {
      assert h.log[i].start != h.log[i + max].start;
      assert h.log[i + max].start != h.log[i + 2 * max].start;
    }
  }

  /** The admissions of a key inside the half-open interval that starts at `t`. */
  ghost function Inside(log: seq<Admission>, t: nat): set<int> {
    set i | 0 <= i < |log| && t <= log[i].time < t + WINDOW
  }

  lemma {:induction false} Interval(s: set<int>, lo: int, n: nat)
    requires forall i :: i in s ==> lo <= i < lo + n
    ensures |s| <= n
    decreases n
  {
    if s == {} {
    } else if n == 0 {
      var x := SomeElement(s);
      assert false;
    } else {
      var last := lo + n - 1;
      Interval(s - {last}, lo, n - 1);
      if last in s { assert |s - {last}| == |s| - 1; } else { assert s - {last} == s; }
    }
  }

  lemma InsideIsShort(log: seq<Admission>, t: nat, first: nat, n: nat)
    requires WindowsApart(log) && first < |log| && t <= log[first].time
    requires first + n < |log| ==> log[first].time + WINDOW < log[first + n].time
    ensures forall i :: i in Inside(log, t) ==> i < first + n
  {
    if first + n < |log| {
      assert forall i :: first + n <= i < |log| ==> log[first + n].time <= log[i].time;
    }
  }

  /** In any run, at most twice the limit of a key is admitted within any one window. */
  lemma WindowCountBounded(limits: Limits, calls: seq<Call>, key: Key, t: nat)
    requires InOrder(calls, 0)
    ensures var h := RunCalls(limits, History(map[], [], 0), calls, key);
            |Inside(h.log, t)| <= 2 * PolicyFor(limits, key).maxRequests
  {
    var h := RunCalls(limits, History(map[], [], 0), calls, key);
    var max := PolicyFor(limits, key).maxRequests;
    RunCallsInv(limits, History(map[], [], 0), calls, key);
    var inside := Inside(h.log, t);
    if inside != {} {
      var first := Least(inside);
      AtMostTwiceTheLimit(limits, calls, key, first);
      hide RunCalls, PolicyFor, InOrder;
      InsideIsShort(h.log, t, first, 2 * max);
      Interval(inside, first, 2 * max);
    }
  }

  lemma {:induction false} Least(s: set<int>) returns (m: nat)
    requires s != {}
    requires forall i :: i in s ==> i >= 0
    ensures m in s
    ensures forall i :: i in s ==> m <= i
    decreases |s|
  {
    var x := SomeElement(s);
    m := x;
    if s - {x} != {} {
      var rest := Least(s - {x});
      if rest < x { m := rest; }
      assert forall i :: i in s ==> i == x || i in s - {x};
    } else {
      assert forall i :: i in s ==> i == x || i in s - {x};
    }
  }

  /** What the configuration allows a key in a minute. */
  lemma LimitOfEachKey(limits: Limits, id: Identity)
    ensures PolicyFor(limits, Key(GuestSessions, id)).maxRequests ==
            if id.Global? then limits.guestGlobal else limits.guestSessions
    ensures PolicyFor(limits, Key(ChatMessages, id)).maxRequests ==
            if id.Global? then limits.chatGlobal else limits.chatMessages
    ensures PolicyFor(limits, Key(AssistantSpeech, id)).maxRequests == limits.assistantSpeech
    ensures PolicyFor(limits, Key(UserTranscription, id)).maxRequests == limits.userTranscription
    ensures PolicyFor(limits, Key(ImageUpload, id)).maxRequests == limits.imageUpload
    ensures forall k :: PolicyFor(limits, k).window == 60_000
  {
  }

  function ChatKeys(session: Uuid, address: string): seq<Key> {
    [Key(ChatMessages, Session(session)), Key(ChatMessages, Ip(address)), Key(ChatMessages, Global)]
  }

  /** The chat check charges a session, an address and the whole service; it is admitted exactly if the first two are
      below the chat limit and the last below the global chat limit. */
  lemma ChatAdmittedExactly(limits: Limits, buckets: Buckets, session: Uuid, address: string, now: nat)
    ensures var used := (id: Identity) => InForce(buckets, Key(ChatMessages, id), now);
            CheckMany(limits, buckets, ChatKeys(session, address), now).1 <==>
              && used(Session(session)) < limits.chatMessages && used(Ip(address)) < limits.chatMessages
              && used(Global) < limits.chatGlobal
  {
    hide CheckMany;
    CheckManyExact(limits, buckets, ChatKeys(session, address), now);
  }

  // ----- what a rejected call leaves behind -----

  /** The position of the first key that is full, or the number of keys. */
  function FirstFull(limits: Limits, buckets: Buckets, keys: seq<Key>, now: nat): (n: nat)
    ensures n <= |keys|
    ensures forall i :: 0 <= i < n ==> InForce(buckets, keys[i], now) < PolicyFor(limits, keys[i]).maxRequests
    ensures n < |keys| ==> InForce(buckets, keys[n], now) >= PolicyFor(limits, keys[n]).maxRequests
    decreases keys
  {
    if keys == [] || InForce(buckets, keys[0], now) >= PolicyFor(limits, keys[0]).maxRequests then 0
    else
      assert forall i :: 0 <= i < |keys[1..]| ==> keys[1..][i] == keys[i + 1];
      1 + FirstFull(limits, buckets, keys[1..], now)
  }

  /** A bucket whose window still runs. */
  predicate HasWindow(buckets: Buckets, key: Key, now: nat) {
    key in buckets && Elapsed(now, buckets[key].start) < WINDOW
  }

  lemma {:induction false} OpenAllUnchanged(limits: Limits, buckets: Buckets, keys: seq<Key>, now: nat)
    requires Fresh(buckets, now) && !OpenAll(limits, buckets, keys, now).1
    ensures var n := FirstFull(limits, buckets, keys, now);
            && n < |keys|
            && (OpenAll(limits, buckets, keys, now).0 == buckets <==> forall i :: 0 <= i <= n ==> keys[i] in buckets)
    decreases keys
  {
    var policy := PolicyFor(limits, keys[0]);
    var bucket := Opened(buckets, keys[0], policy, now);
    var next := buckets[keys[0] := bucket];
    assert bucket.count == InForce(buckets, keys[0], now);
    assert keys[0] in buckets ==> next == buckets;
    if bucket.count < policy.maxRequests {
      assert forall i :: 0 <= i < |keys[1..]| ==> keys[1..][i] == keys[i + 1];
      if keys[0] in buckets {
        OpenAllUnchanged(limits, buckets, keys[1..], now);
      } else {
        OpenAllEffect(limits, next, keys[1..], now);
        assert keys[0] in OpenAll(limits, buckets, keys, now).0;
        OpenAllEffect(limits, buckets, keys, now);
      }
    }
  }

  /** A rejected call leaves the table as pruning alone would, if and only if every key up to and including the first
      full one already has a running window; otherwise it starts the windows of the others. */
  lemma RejectedUnchangedExactly(limits: Limits, buckets: Buckets, keys: seq<Key>, now: nat)
    requires Distinct(keys) && !CheckMany(limits, buckets, keys, now).1
    ensures var n := FirstFull(limits, buckets, keys, now);
            && n < |keys|
            && (CheckMany(limits, buckets, keys, now).0 == Retained(buckets, now) <==>
                  forall i :: 0 <= i <= n ==> HasWindow(buckets, keys[i], now))
  {
    var held := Retained(buckets, now);
    OpenAllUnchanged(limits, held, keys, now);
    SameFirstFull(limits, buckets, held, keys, now);
  }

  lemma {:induction false} SameFirstFull(limits: Limits, buckets: Buckets, held: Buckets, keys: seq<Key>, now: nat)
    requires held == Retained(buckets, now)
    ensures FirstFull(limits, held, keys, now) == FirstFull(limits, buckets, keys, now)
    decreases keys
  {
    if keys != [] {
      assert InForce(held, keys[0], now) == InForce(buckets, keys[0], now);
      SameFirstFull(limits, buckets, held, keys[1..], now);
    }
  }

  const TIGHT := Limits(1, 1, 1, 10, 6, 12, 1)
  const FIRST_CALLER := [Key(GuestSessions, Ip("first")), Key(GuestSessions, Global)]
  const SECOND_CALLER := [Key(GuestSessions, Ip("second")), Key(GuestSessions, Global)]

  /** With guest limits of one, a first call uses up the global bucket; the call of a second address is then
      rejected, and yet starts that address's window. */
  lemma RejectionMayOpenAWindow()
    ensures var first := CheckMany(TIGHT, map[], FIRST_CALLER, 0);
            var second := CheckMany(TIGHT, first.0, SECOND_CALLER, 1);
            && first.1 && !second.1
            && SECOND_CALLER[0] !in first.0
            && SECOND_CALLER[0] in second.0 && second.0[SECOND_CALLER[0]] == Bucket(1, 0)
            && second.0 != Retained(first.0, 1)
  {
    hide CheckMany;
    assert "first" != "second" by { assert "first"[0] != "second"[0]; }
    CheckManyEffect(TIGHT, map[], FIRST_CALLER, 0);
    var first := CheckMany(TIGHT, map[], FIRST_CALLER, 0);
    assert Retained(map[], 0) == map[];
    assert first.1;
    assert FIRST_CALLER[1] in FIRST_CALLER && SECOND_CALLER[0] !in FIRST_CALLER;
    assert first.0[FIRST_CALLER[1]] == Bucket(0, 1);
    CheckManyExact(TIGHT, map[], FIRST_CALLER, 0);
    CheckManyExact(TIGHT, first.0, SECOND_CALLER, 1);
    var second := CheckMany(TIGHT, first.0, SECOND_CALLER, 1);
    assert InForce(first.0, SECOND_CALLER[1], 1) == 1;
    assert !second.1;
    OpenedByRejection(first.0);
  }

  lemma OpenedByRejection(buckets: Buckets)
    requires SECOND_CALLER[0] !in buckets
    ensures var r := CheckMany(TIGHT, buckets, SECOND_CALLER, 1);
            SECOND_CALLER[0] in r.0 && (!r.1 ==> r.0[SECOND_CALLER[0]] == Bucket(1, 0))
  {
    var held := Retained(buckets, 1);
    assert SECOND_CALLER[0] !in held;
    var next := held[SECOND_CALLER[0] := Bucket(1, 0)];
    assert OpenAll(TIGHT, held, SECOND_CALLER, 1) == OpenAll(TIGHT, next, SECOND_CALLER[1..], 1);
    OpenAllEffect(TIGHT, held, SECOND_CALLER, 1);
    var opening := OpenAll(TIGHT, held, SECOND_CALLER, 1);
    OpenAllEffect(TIGHT, next, SECOND_CALLER[1..], 1);
    if opening.1 { ChargeAllEffect(opening.0, SECOND_CALLER); }
  }
}
