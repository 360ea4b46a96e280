/**
 The two tables behind chat attachments, and every statement that changes them: the live
 attachments, and the queue of files waiting to be deleted.
 */
module AttachmentTables {
  import opened Basics
  import opened MapSums

  /** Storage keys, ordered as the database orders their text. */
  type Key = nat
  type Kind = nat

  const LEASE_SECONDS: nat := 15 * 60
  const RETRY_SECONDS: nat := 60 * 60

  datatype Scope = Scope(session: Uuid, user: Option<Uuid>)

  datatype Attachment = Attachment(
    session: Uuid, user: Option<Uuid>, chat: Option<Uuid>, message: Option<Uuid>,
    kind: Kind, bytes: nat, key: Key, createdAt: nat)

  datatype Lease = Lease(token: Uuid, expires: nat)

  datatype Deletion = Deletion(
    bytes: nat, session: Option<Uuid>, user: Option<Uuid>, attempts: nat,
    nextAttempt: nat, lease: Option<Lease>, createdAt: nat)

  datatype Tables = Tables(live: map<Uuid, Attachment>, queue: map<Key, Deletion>)

  // ----- who is charged for what -----

  /** A registered owner is charged for the rows of the account, a guest for those of the session. */
  datatype Owner = Guest(session: Uuid) | Account(user: Uuid)

  function OwnerOf(scope: Scope): Owner {
    if scope.user.Some? then Account(scope.user.value) else Guest(scope.session)
  }

  predicate Charged(o: Owner, session: Option<Uuid>, user: Option<Uuid>) {
    match o
    case Guest(s) => session == Some(s)
    case Account(u) => user == Some(u)
  }

  predicate Owns(scope: Scope, a: Attachment) {
    Charged(OwnerOf(scope), Some(a.session), a.user)
  }

  function LiveShare(o: Owner, a: Attachment): nat {
    if Charged(o, Some(a.session), a.user) then a.bytes else 0
  }

  function QueueShare(o: Owner, d: Deletion): nat {
    if Charged(o, d.session, d.user) then d.bytes else 0
  }

  ghost function LiveShares(live: map<Uuid, Attachment>, o: Owner): map<Uuid, nat> {
    map i | i in live :: LiveShare(o, live[i])
  }

  ghost function QueueShares(queue: map<Key, Deletion>, o: Owner): map<Key, nat> {
    map k | k in queue :: QueueShare(o, queue[k])
  }

  /** The bytes an owner is charged for: live attachments and files still to be deleted. */
  ghost function Charge(t: Tables, o: Owner): nat {
    Sum(LiveShares(t.live, o)) + Sum(QueueShares(t.queue, o))
  }

  // ----- the statements, as functions of the tables -----

  function NewAttachment(scope: Scope, kind: Kind, bytes: nat, key: Key, now: nat): Attachment {
    Attachment(scope.session, scope.user, None, None, kind, bytes, key, now)
  }

  predicate Pending(a: Attachment) {
    a.chat.None? && a.message.None?
  }

  predicate Linkable(live: map<Uuid, Attachment>, scope: Scope, ids: set<Uuid>, i: Uuid) {
    i in ids && i in live && Pending(live[i]) && Owns(scope, live[i])
  }

  function LinkRows(live: map<Uuid, Attachment>, scope: Scope, chat: Uuid, message: Uuid,
                    ids: set<Uuid>): map<Uuid, Attachment> {
    map i | i in live ::
      if Linkable(live, scope, ids, i) then live[i].(chat := Some(chat), message := Some(message)) else live[i]
  }

  /** The row trigger that runs after a deletion: the file enters the queue, or its record is refreshed. */
  function Enqueued(queue: map<Key, Deletion>, a: Attachment, now: nat): map<Key, Deletion> {
    if a.key in queue then
      var d := queue[a.key];
      queue[a.key := d.(bytes := a.bytes, session := Some(a.session),
                        user := if a.user.Some? then a.user else d.user,
                        nextAttempt := Min(d.nextAttempt, now))]
    else queue[a.key := Deletion(a.bytes, Some(a.session), a.user, 0, now, None, now)]
  }

  function DeleteRow(t: Tables, id: Uuid, now: nat): Tables {
    if id in t.live then Tables(t.live - {id}, Enqueued(t.queue, t.live[id], now)) else t
  }

  function DeleteRows(t: Tables, ids: seq<Uuid>, now: nat): Tables
    decreases ids
  {
    if ids == [] then t else DeleteRows(DeleteRow(t, ids[0], now), ids[1..], now)
  }

  /** Due, and not under a lease that still runs. */
  predicate Ready(d: Deletion, now: nat) {
    d.nextAttempt <= now && (d.lease.None? || d.lease.value.expires <= now)
  }

  function Claimed(queue: map<Key, Deletion>, keys: set<Key>, token: Uuid, now: nat): map<Key, Deletion> {
    map k | k in queue ::
      if k in keys
      then queue[k].(lease := Some(Lease(token, now + LEASE_SECONDS)), attempts := queue[k].attempts + 1)
      else queue[k]
  }

  predicate HoldsLease(queue: map<Key, Deletion>, key: Key, token: Uuid) {
    key in queue && queue[key].lease.Some? && queue[key].lease.value.token == token
  }

  function Completed(queue: map<Key, Deletion>, key: Key, token: Uuid): map<Key, Deletion> {
    if HoldsLease(queue, key, token) then queue - {key} else queue
  }

  function Retried(queue: map<Key, Deletion>, key: Key, token: Uuid, now: nat): map<Key, Deletion> {
    if HoldsLease(queue, key, token)
    then queue[key := queue[key].(lease := None, nextAttempt := now + RETRY_SECONDS)]
    else queue
  }

  predicate IsLiveKey(live: map<Uuid, Attachment>, key: Key) {
    exists i :: i in live && live[i].key == key
  }

  function OrphanQueued(t: Tables, key: Key, bytes: nat, now: nat): map<Key, Deletion> {
    if IsLiveKey(t.live, key) || key in t.queue then t.queue
    else t.queue[key := Deletion(bytes, None, None, 0, now, None, now)]
  }

  /** A guest session that signs in hands its rows to the account and to the replacement session. */
  function Promoted(t: Tables, session: Uuid, user: Uuid, replacement: Uuid): Tables {
    Tables(
      map i | i in t.live ::
        if t.live[i].session == session
        then t.live[i].(session := replacement, user := if t.live[i].user.None? then Some(user) else t.live[i].user)
        else t.live[i],
      map k | k in t.queue ::
        if t.queue[k].session == Some(session)
        then t.queue[k].(session := Some(replacement),
                         user := if t.queue[k].user.None? then Some(user) else t.queue[k].user)
        else t.queue[k])
  }

  predicate BelongsTo(session: Option<Uuid>, user: Option<Uuid>, account: Uuid, sessions: set<Uuid>) {
    user == Some(account) || (session.Some? && session.value in sessions)
  }

  /** After an account's rows are deleted, its queue records lose owner and lease and fall due. */
  function Disowned(queue: map<Key, Deletion>, account: Uuid, sessions: set<Uuid>, now: nat): map<Key, Deletion> {
    map k | k in queue ::
      if BelongsTo(queue[k].session, queue[k].user, account, sessions)
      then queue[k].(session := None, user := None, nextAttempt := now, lease := None)
      else queue[k]
  }

  // ----- the order in which records are claimed -----

  predicate Before(queue: map<Key, Deletion>, j: Key, k: Key)
    requires j in queue && k in queue
  {
    var d, e := queue[j], queue[k];
    d.nextAttempt < e.nextAttempt
    || (d.nextAttempt == e.nextAttempt
        && (d.createdAt < e.createdAt || (d.createdAt == e.createdAt && j < k)))
  }

  /** `chosen` are the first `limit` of the eligible records. */
  ghost predicate FirstOf(queue: map<Key, Deletion>, eligible: set<Key>, limit: nat, chosen: set<Key>)
    requires eligible <= queue.Keys
  {
    && chosen <= eligible
    && |chosen| == Min(limit, |eligible|)
    && forall c, e :: c in chosen && e in eligible - chosen ==> Before(queue, c, e)
  }

  lemma TakeOne<T>(all: set<T>, chosen: set<T>, rest: set<T>, x: T)
    requires chosen <= all && rest == all - chosen && x in rest
    ensures chosen + {x} <= all && rest - {x} == all - (chosen + {x})
    ensures |chosen + {x}| == |chosen| + 1 && |rest - {x}| == |rest| - 1
  {
  }

  lemma NoneLeft<T>(a: set<T>, b: set<T>)
    ensures a - b == {} ==> a <= b
  {
    if !(a <= b) {
      var x :| x in a && x !in b;
      assert x in a - b;
    }
  }

  lemma BeforeIsAsymmetric(queue: map<Key, Deletion>, j: Key, k: Key)
    requires j in queue && k in queue
    ensures !(Before(queue, j, k) && Before(queue, k, j))
  {
  }

  /** The statement determines which records are claimed. */
  lemma FirstOfIsUnique(queue: map<Key, Deletion>, eligible: set<Key>, limit: nat, a: set<Key>, b: set<Key>)
    requires eligible <= queue.Keys
    requires FirstOf(queue, eligible, limit, a) && FirstOf(queue, eligible, limit, b)
    ensures a == b
  {
    NoneLeft(a, b);
    NoneLeft(b, a);
    if a <= b {
      SubsetSize(a, b);
    } else if b <= a {
      SubsetSize(b, a);
    } else {
      var x := SomeElement(a - b);
      var y := SomeElement(b - a);
      BeforeIsAsymmetric(queue, x, y);
      assert false;
    }
  }

  /** The records a claim may take: due, unleased, wanted, and not locked by another statement. */
  function Eligible(queue: map<Key, Deletion>, only: Option<set<Key>>, locked: set<Key>, now: nat): set<Key> {
    set k | k in queue && Ready(queue[k], now) && k !in locked && (only.None? || k in only.value)
  }

  predicate StaleRow(a: Attachment, kind: Kind, before: nat) {
    a.kind == kind && Pending(a) && a.createdAt < before
  }

  function StaleRows(live: map<Uuid, Attachment>, kind: Kind, before: nat, locked: set<Uuid>): set<Uuid> {
    set i | i in live && StaleRow(live[i], kind, before) && i !in locked
  }

  /** `ids` are `limit` stale rows, none younger than one left out. */
  ghost predicate OldestOf(live: map<Uuid, Attachment>, stale: set<Uuid>, limit: nat, ids: seq<Uuid>)
    requires stale <= live.Keys
  {
    && (forall i, j :: 0 <= i < j < |ids| ==> ids[i] != ids[j])
    && (forall i :: i in ids ==> i in stale)
    && |ids| == Min(limit, |stale|)
    && forall i, j :: i in ids && j in stale && j !in ids ==> live[i].createdAt <= live[j].createdAt
  }

  lemma LiveShareRemoved(live: map<Uuid, Attachment>, i: Uuid, o: Owner)
    requires i in live
    ensures Sum(LiveShares(live, o)) == LiveShare(o, live[i]) + Sum(LiveShares(live - {i}, o))
  {
    SumRemove(LiveShares(live, o), i);
    assert LiveShares(live, o) - {i} == LiveShares(live - {i}, o);
  }

  lemma QueueShareRemoved(queue: map<Key, Deletion>, k: Key, o: Owner)
    requires k in queue
    ensures Sum(QueueShares(queue, o)) == QueueShare(o, queue[k]) + Sum(QueueShares(queue - {k}, o))
  {
    SumRemove(QueueShares(queue, o), k);
    assert QueueShares(queue, o) - {k} == QueueShares(queue - {k}, o);
  }

  // ----- the store -----

  datatype Creation = Created(row: Attachment) | StorageQuotaExceeded

  class AttachmentStore {
    var live: map<Uuid, Attachment>
    var queue: map<Key, Deletion>

    function State(): Tables
      reads this
    {
      Tables(live, queue)
    }

    constructor ()
      ensures State() == Tables(map[], map[])
    {
      live, queue := map[], map[];
    }

    method ChargedLive(o: Owner) returns (total: nat)
      ensures total == Sum(LiveShares(live, o))
    {
      total := 0;
      var rows := live;
      while rows != map[]
        invariant rows.Keys <= live.Keys && forall i :: i in rows ==> rows[i] == live[i]
        invariant total + Sum(LiveShares(rows, o)) == Sum(LiveShares(live, o))
        decreases |rows|
      {
        var i :| i in rows;
        LiveShareRemoved(rows, i, o);
        total := total + LiveShare(o, rows[i]);
        rows := rows - {i};
      }
      assert LiveShares(map[], o) == map[];
    }

    method ChargedQueue(o: Owner) returns (total: nat)
      ensures total == Sum(QueueShares(queue, o))
    {
      total := 0;
      var records := queue;
      while records != map[]
        invariant records.Keys <= queue.Keys && forall k :: k in records ==> records[k] == queue[k]
        invariant total + Sum(QueueShares(records, o)) == Sum(QueueShares(queue, o))
        decreases |records|
      {
        var k :| k in records;
        QueueShareRemoved(records, k, o);
        total := total + QueueShare(o, records[k]);
        records := records - {k};
      }
      assert QueueShares(map[], o) == map[];
    }

    /** Create under the owner's lock. */
    method CreateWithQuota(scope: Scope, id: Uuid, kind: Kind, bytes: nat, key: Key, quota: nat, now: nat)
      returns (r: Creation)
      requires id !in live
      modifies this
      ensures r.Created? <==> old(Charge(State(), OwnerOf(scope))) + bytes <= quota
      ensures r.Created? ==> r.row == NewAttachment(scope, kind, bytes, key, now)
                             && State() == old(State()).(live := old(live)[id := r.row])
      ensures !r.Created? ==> State() == old(State())
    {
      var stored := ChargedLive(OwnerOf(scope));
      var waiting := ChargedQueue(OwnerOf(scope));
      if stored + waiting + bytes > quota {
        return StorageQuotaExceeded;
      }
      var row := NewAttachment(scope, kind, bytes, key, now);
      live := live[id := row];
      r := Created(row);
    }

    method Link(scope: Scope, chat: Uuid, message: Uuid, ids: set<Uuid>) returns (count: nat)
      modifies this
      ensures State() == old(State()).(live := LinkRows(old(live), scope, chat, message, ids))
      ensures count == |set i | i in old(live) && Linkable(old(live), scope, ids, i)|
    {
      var linked := set i | i in live && Linkable(live, scope, ids, i);
      count := |linked|;
      live := map i | i in live ::
        if i in linked then live[i].(chat := Some(chat), message := Some(message)) else live[i];
    }

    /** One `delete` of a row, with its trigger. */
    method RemoveRow(id: Uuid, now: nat)
      requires id in live
      modifies this
      ensures State() == DeleteRow(old(State()), id, now)
    {
      var row := live[id];
      live := live - {id};
      if row.key in queue {
        var d := queue[row.key];
        var user := if row.user.Some? then row.user else d.user;
        queue := queue[row.key := d.(bytes := row.bytes, session := Some(row.session), user := user,
                                     nextAttempt := Min(d.nextAttempt, now))];
      } else {
        queue := queue[row.key := Deletion(row.bytes, Some(row.session), row.user, 0, now, None, now)];
      }
    }

    method DeletePending(scope: Scope, id: Uuid, now: nat) returns (deleted: bool)
      modifies this
      ensures deleted <==> id in old(live) && Pending(old(live)[id]) && Owns(scope, old(live)[id])
      ensures State() == if deleted then DeleteRows(old(State()), [id], now) else old(State())
    {
      deleted := id in live && Pending(live[id]) && Owns(scope, live[id]);
      if deleted {
        RemoveRow(id, now);
      }
    }

    /** The oldest of a non-empty set of rows. */
    method Oldest(stale: set<Uuid>) returns (id: Uuid)
      requires stale != {} && stale <= live.Keys
      ensures id in stale && forall j :: j in stale ==> live[id].createdAt <= live[j].createdAt
    {
      assert exists i :: i in stale by { var some := SomeElement(stale); }
      id :| id in stale;
      var rest := stale - {id};
      while rest != {}
        invariant id in stale && rest <= stale
        invariant forall j :: j in stale - rest ==> live[id].createdAt <= live[j].createdAt
        decreases |rest|
      {
        assert exists i :: i in rest by { var some := SomeElement(rest); }
        var j :| j in rest;
        if live[j].createdAt < live[id].createdAt {
          id := j;
        }
        rest := rest - {j};
      }
    }

    method SelectOldest(stale: set<Uuid>, limit: nat) returns (ids: seq<Uuid>)
      requires stale <= live.Keys
      ensures OldestOf(live, stale, limit, ids)
    {
      ids := [];
      var rest := stale;
      while |ids| < limit && rest != {}
        invariant |ids| <= limit && |ids| + |rest| == |stale|
        invariant forall i :: i in stale <==> i in ids || i in rest
        invariant forall i :: i in ids ==> i !in rest
        invariant forall i, j :: 0 <= i < j < |ids| ==> ids[i] != ids[j]
        invariant forall i, j :: i in ids && j in rest ==> live[i].createdAt <= live[j].createdAt
      {
        var id := Oldest(rest);
        ids := ids + [id];
        rest := rest - {id};
      }
    }

    method DeleteStale(kind: Kind, before: nat, limit: int, locked: set<Uuid>, now: nat)
      returns (count: nat, ghost ids: seq<Uuid>)
      modifies this
      ensures OldestOf(old(live), StaleRows(old(live), kind, before, locked), Max(limit, 0), ids)
      ensures State() == DeleteRows(old(State()), ids, now)
      ensures count == |ids|
    {
      if limit <= 0 {
        return 0, [];
      }
      var chosen := SelectOldest(StaleRows(live, kind, before, locked), limit);
      count, ids := 0, chosen;
      while count < |chosen|
        invariant count <= |chosen|
        invariant State() == DeleteRows(old(State()), chosen[..count], now)
        invariant forall i :: count <= i < |chosen| ==> chosen[i] in live
      {
        DeleteRowsAppend(old(State()), chosen[..count], chosen[count], now);
        assert chosen[..count + 1] == chosen[..count] + [chosen[count]];
        RemoveRow(chosen[count], now);
        count := count + 1;
      }
      assert chosen[..count] == chosen;
    }

    /** The record due first in a non-empty set. */
    method Earliest(eligible: set<Key>) returns (key: Key)
      requires eligible != {} && eligible <= queue.Keys
      ensures key in eligible && forall k :: k in eligible && k != key ==> Before(queue, key, k)
    {
      assert exists k :: k in eligible by { var some := SomeElement(eligible); }
      key :| key in eligible;
      var rest := eligible - {key};
      while rest != {}
        invariant key in eligible && rest <= eligible && key !in rest
        invariant forall k :: k in eligible - rest && k != key ==> Before(queue, key, k)
        decreases |rest|
      {
        assert exists k :: k in rest by { var some := SomeElement(rest); }
        var k :| k in rest;
        rest := rest - {k};
        assert Before(queue, k, key) || Before(queue, key, k);
        if Before(queue, k, key) {
          forall j | j in eligible - rest && j != k ensures Before(queue, k, j) {
            if j != key { assert Before(queue, key, j); }
          }
          key := k;
        }
      }
    }

    method SelectFirst(eligible: set<Key>, limit: nat) returns (chosen: set<Key>)
      requires eligible <= queue.Keys
      ensures FirstOf(queue, eligible, limit, chosen)
    {
      chosen := {};
      var rest := eligible;
      while |chosen| < limit && rest != {}
        invariant chosen <= eligible && rest == eligible - chosen && |chosen| + |rest| == |eligible|
        invariant |chosen| <= limit
        invariant forall c, e :: c in chosen && e in rest ==> Before(queue, c, e)
      {
        var key := Earliest(rest);
        TakeOne(eligible, chosen, rest, key);
        chosen := chosen + {key};
        rest := rest - {key};
      }
    }

    /** Lease the first records due; with `only`, among the given keys. */
    method Claim(only: Option<set<Key>>, limit: int, locked: set<Key>, token: Uuid, now: nat)
      returns (chosen: set<Key>)
      modifies this
      ensures FirstOf(old(queue), Eligible(old(queue), only, locked, now), Max(limit, 0), chosen)
      ensures State() == old(State()).(queue := Claimed(old(queue), chosen, token, now))
    {
      if (only.Some? && only.value == {}) || limit <= 0 {
        chosen := {};
        assert only.Some? && only.value == {} ==> Eligible(queue, only, locked, now) == {};
        assert Claimed(queue, {}, token, now) == queue;
        return;
      }
      chosen := SelectFirst(Eligible(queue, only, locked, now), limit);
      ghost var was := queue;
      queue := map k | k in queue ::
        if k in chosen
        then queue[k].(lease := Some(Lease(token, now + LEASE_SECONDS)), attempts := queue[k].attempts + 1)
        else queue[k];
      assert queue == Claimed(was, chosen, token, now);
    }

    method Complete(key: Key, token: Uuid) returns (done: bool)
      modifies this
      ensures done <==> HoldsLease(old(queue), key, token)
      ensures State() == old(State()).(queue := Completed(old(queue), key, token))
    {
      done := key in queue && queue[key].lease.Some? && queue[key].lease.value.token == token;
      if done {
        queue := queue - {key};
      }
    }

    method Retry(key: Key, token: Uuid, now: nat) returns (done: bool)
      modifies this
      ensures done <==> HoldsLease(old(queue), key, token)
      ensures State() == old(State()).(queue := Retried(old(queue), key, token, now))
    {
      done := key in queue && queue[key].lease.Some? && queue[key].lease.value.token == token;
      if done {
        queue := queue[key := queue[key].(lease := None, nextAttempt := now + RETRY_SECONDS)];
      }
    }

    method EnqueueOrphan(key: Key, bytes: nat, now: nat) returns (queued: bool)
      modifies this
      ensures queued <==> !IsLiveKey(old(live), key) && key !in old(queue)
      ensures State() == old(State()).(queue := OrphanQueued(old(State()), key, bytes, now))
    {
      queued := key !in queue && forall i :: i in live ==> live[i].key != key;
      if queued {
        queue := queue[key := Deletion(bytes, None, None, 0, now, None, now)];
      }
    }
  }

  lemma {:induction false} DeleteRowsAppend(t: Tables, ids: seq<Uuid>, id: Uuid, now: nat)
    ensures DeleteRows(t, ids + [id], now) == DeleteRow(DeleteRows(t, ids, now), id, now)
    decreases |ids|
  {
    if ids == [] {
      assert DeleteRows(DeleteRow(t, id, now), [], now) == DeleteRow(t, id, now);
      assert ([] + [id])[1..] == [];
    } else {
      assert (ids + [id])[1..] == ids[1..] + [id];
      DeleteRowsAppend(DeleteRow(t, ids[0], now), ids[1..], id, now);
    }
  }
}
