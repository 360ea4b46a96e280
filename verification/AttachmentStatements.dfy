/** What the statements do to single rows and records, column by column. */
module AttachmentStatements {
  import opened Basics
  import opened AttachmentTables
  import opened AttachmentWorld

  // ----- rows -----

  /** The scope may act on the row: a signed-in scope on the rows of its account, a guest on those of its session. */
  predicate Mine(scope: Scope, a: Attachment) {
    if scope.user.Some? then a.user == scope.user else a.session == scope.session
  }

  /** Linking sets chat and message of exactly the named rows that are unlinked and belong to the scope, and changes
      nothing else. */
  lemma LinksExactly(live: map<Uuid, Attachment>, scope: Scope, chat: Uuid, message: Uuid, ids: set<Uuid>)
    ensures var after := LinkRows(live, scope, chat, message, ids);
            && after.Keys == live.Keys
            && forall i :: i in live ==>
                 var a := live[i];
                 after[i] == if i in ids && a.chat.None? && a.message.None? && Mine(scope, a)
                             then a.(chat := Some(chat), message := Some(message)) else a
  {
  }

  lemma OwnsExactly(scope: Scope, a: Attachment)
    ensures Owns(scope, a) <==> Mine(scope, a)
  {
  }

  /** A row that a scope has just created is unlinked and its own: it can link or delete it, and nobody else can. */
  lemma NewRowIsMine(scope: Scope, other: Scope, kind: Kind, bytes: nat, key: Key, created: nat)
    ensures var a := NewAttachment(scope, kind, bytes, key, created);
            && Pending(a) && Mine(scope, a) && Owns(scope, a)
            && a.kind == kind && a.bytes == bytes && a.key == key && a.createdAt == created
            && (other.user.Some? && other.user != scope.user ==> !Owns(other, a))
            && (other.user.None? && other.session != scope.session ==> !Owns(other, a))
  {
  }

  lemma {:induction false} RowsLeft(t: Tables, ids: seq<Uuid>, now: nat)
    ensures DeleteRows(t, ids, now).live == map i | i in t.live && i !in ids :: t.live[i]
    decreases ids
  {
    if ids != [] {
      var n := DeleteRow(t, ids[0], now);
      RowsLeft(n, ids[1..], now);
      assert forall i :: i in ids <==> i == ids[0] || i in ids[1..];
    }
  }

  /** The unlinked rows of a kind from before the cutoff that no other statement has locked. */
  ghost function Expired(live: map<Uuid, Attachment>, kind: Kind, before: nat, locked: set<Uuid>): set<Uuid> {
    set i | i in live && live[i].kind == kind && live[i].chat.None? && live[i].message.None?
            && live[i].createdAt < before && i !in locked
  }

  /** The clean-up takes only unlinked rows of the kind from before the cutoff that are not locked, leaves all others
      as they were, takes the oldest, and all of them if the limit allows. */
  lemma CleanupTakesExactly(t: Tables, kind: Kind, before: nat, locked: set<Uuid>, limit: nat, ids: seq<Uuid>, now: nat)
    requires OldestOf(t.live, StaleRows(t.live, kind, before, locked), limit, ids)
    ensures var after := DeleteRows(t, ids, now).live;
            var expired := Expired(t.live, kind, before, locked);
            && (forall i :: i in after ==> i in t.live && after[i] == t.live[i])
            && (forall i :: i in t.live && i !in after ==> i in expired)
            && (forall i, j :: i in t.live && i !in after && j in expired && j in after ==>
                                 t.live[i].createdAt <= t.live[j].createdAt)
            && (|expired| <= limit ==> forall i :: i in expired ==> i !in after)
            && |t.live.Keys - after.Keys| == Min(limit, |expired|)
  {
    var stale := StaleRows(t.live, kind, before, locked);
    assert stale == Expired(t.live, kind, before, locked);
    RowsLeft(t, ids, now);
    hide DeleteRows, StaleRows, Expired, OldestOf;
    TakesOldest(t.live, DeleteRows(t, ids, now).live, stale, limit, ids);
  }

  ghost function Members(ids: seq<Uuid>): set<Uuid> {
    set i | i in ids
  }

  lemma TakesOldest(live: map<Uuid, Attachment>, after: map<Uuid, Attachment>, stale: set<Uuid>, limit: nat,
                    ids: seq<Uuid>)
    requires stale <= live.Keys && OldestOf(live, stale, limit, ids)
    requires after == map i | i in live && i !in ids :: live[i]
    ensures forall i :: i in live && i !in after ==> i in stale
    ensures forall i, j :: i in live && i !in after && j in stale && j in after ==>
                             live[i].createdAt <= live[j].createdAt
    ensures |stale| <= limit ==> forall i :: i in stale ==> i !in after
    ensures |live.Keys - after.Keys| == Min(limit, |stale|)
  {
    assert live.Keys - after.Keys == Members(ids);
    DistinctSize(ids);
    assert Members(ids) <= stale;
    if |stale| <= limit { SubsetSize(Members(ids), stale); }
  }

  lemma {:induction false} DistinctSize(ids: seq<Uuid>)
    requires forall i, j :: 0 <= i < j < |ids| ==> ids[i] != ids[j]
    ensures |Members(ids)| == |ids|
    decreases |ids|
  {
    if ids != [] {
      var n := |ids| - 1;
      DistinctSize(ids[..n]);
      assert Members(ids) == Members(ids[..n]) + {ids[n]};
    }
  }

  /** Only its own scope, a linked message and the deletion of its account change what a row says, and only in its
      owner and its link: while it lives, kind, size, key and age stay as they were inserted. */
  lemma RowKeepsAge(c: Setup, w: World, e: Event, i: Uuid)
    requires Enabled(c, w, e) && i in w.t.live && i in Next(c, w, e).t.live
    ensures var a, b := w.t.live[i], Next(c, w, e).t.live[i];
            b.createdAt == a.createdAt && b.kind == a.kind && b.bytes == a.bytes && b.key == a.key
  {
    hide Charge;
    if e.Delete? || e.DeleteAccount? { RowsLeft(w.t, e.gone, w.now); }
    hide DeleteRows;
  }

  ghost predicate Stays(c: Setup, w: World, es: seq<Event>, i: Uuid)
    decreases es
  {
    i in w.t.live && (es != [] ==> Stays(c, Next(c, w, es[0]), es[1..], i))
  }

  lemma {:induction false} RunKeepsAge(c: Setup, w: World, es: seq<Event>, i: Uuid)
    requires Legal(c, w, es) && Stays(c, w, es, i)
    ensures i in Run(c, w, es).t.live
    ensures var a, b := w.t.live[i], Run(c, w, es).t.live[i]; b.createdAt == a.createdAt && b.kind == a.kind
    decreases es
  {
    hide Next, Enabled;
    if es != [] {
      assert i in Next(c, w, es[0]).t.live;
      RowKeepsAge(c, w, es[0], i);
      RunKeepsAge(c, Next(c, w, es[0]), es[1..], i);
    }
  }

  /** An upload survives every clean-up whose cutoff is not after its insertion, whatever happened in between. */
  lemma FreshUploadSurvives(c: Setup, w: World, e: Event, es: seq<Event>, kind: Kind, before: nat, locked: set<Uuid>,
                            limit: nat, ids: seq<Uuid>)
    requires e.Insert? && Enabled(c, w, e) && before <= w.now
    requires var n := Next(c, w, e); Legal(c, n, es) && Stays(c, n, es, e.id)
    requires var v := Run(c, Next(c, w, e), es);
             OldestOf(v.t.live, StaleRows(v.t.live, kind, before, locked), limit, ids)
    ensures var v := Run(c, Next(c, w, e), es); e.id in DeleteRows(v.t, ids, v.now).live
  {
    var n := Next(c, w, e);
    var v := Run(c, n, es);
    assert n.t.live[e.id].createdAt == w.now;
    RunKeepsAge(c, n, es, e.id);
    CleanupTakesExactly(v.t, kind, before, locked, limit, ids, v.now);
    hide Next, Run, Legal, Stays, DeleteRows;
  }

  // ----- records -----

  /** When a record can be claimed: it is due, and no lease on it still runs. */
  lemma ClaimableExactly(c: Setup, w: World, key: Key, token: Uuid)
    requires token !in w.tokens
    ensures Enabled(c, w, Claim({key}, token)) <==>
              && key in w.t.queue && w.t.queue[key].nextAttempt <= w.now
              && (w.t.queue[key].lease.None? || w.t.queue[key].lease.value.expires <= w.now)
  {
  }

  /** The records that are wanted, unlocked, due and not under a running lease. */
  ghost function Claimable(queue: map<Key, Deletion>, only: Option<set<Key>>, locked: set<Key>, now: nat): set<Key> {
    set k | k in queue && queue[k].nextAttempt <= now && !(queue[k].lease.Some? && queue[k].lease.value.expires > now)
            && !(k in locked) && !(only.Some? && k !in only.value)
  }

  /** A claim takes only claimable records; the earliest due first, of these the longest queued, of these the smallest
      key; and all of them if the limit allows. */
  lemma ClaimTakesExactly(queue: map<Key, Deletion>, only: Option<set<Key>>, locked: set<Key>, now: nat, limit: nat,
                          chosen: set<Key>)
    requires FirstOf(queue, Eligible(queue, only, locked, now), limit, chosen)
    ensures var open := Claimable(queue, only, locked, now);
            && chosen <= open && |chosen| == Min(limit, |open|)
            && (|open| <= limit ==> chosen == open)
            && forall k, l :: k in chosen && l in open && l !in chosen ==>
                 var d, e := queue[k], queue[l];
                 && d.nextAttempt <= e.nextAttempt
                 && (d.nextAttempt == e.nextAttempt ==> d.createdAt <= e.createdAt)
                 && (d.nextAttempt == e.nextAttempt && d.createdAt == e.createdAt ==> k < l)
  {
    var open := Claimable(queue, only, locked, now);
    assert open == Eligible(queue, only, locked, now);
    hide Eligible;
    if |open| <= limit { SubsetSize(chosen, open); }
    forall k, l | k in chosen && l in open && l !in chosen ensures Before(queue, k, l) {
      assert l in open - chosen;
    }
  }

  /** A deleted row's file is queued at once with the row's size and owner, and can be claimed at that moment. */
  lemma DeletedIsClaimable(t: Tables, id: Uuid, now: nat)
    requires id in t.live && t.live[id].key !in t.queue
    ensures var n := DeleteRow(t, id, now);
            var d := n.queue[t.live[id].key];
            && n.queue.Keys == t.queue.Keys + {t.live[id].key}
            && d.bytes == t.live[id].bytes && d.session == Some(t.live[id].session) && d.user == t.live[id].user
            && d.attempts == 0 && d.createdAt == now && Ready(d, now)
  {
  }

  /** An orphan is queued without an owner, with the size found on disk, and can be claimed at once. */
  lemma OrphanIsClaimable(t: Tables, key: Key, bytes: nat, now: nat)
    ensures var q := OrphanQueued(t, key, bytes, now);
            if (exists i :: i in t.live && t.live[i].key == key) || key in t.queue then q == t.queue
            else
              && q.Keys == t.queue.Keys + {key} && (forall k :: k in t.queue ==> q[k] == t.queue[k])
              && q[key].bytes == bytes && q[key].session.None? && q[key].user.None?
              && q[key].attempts == 0 && q[key].createdAt == now && Ready(q[key], now)
  {
  }

  // ----- account deletion -----

  /** An account deletion removes exactly the rows of the account and of its sessions. */
  lemma AccountRowsGo(c: Setup, w: World, e: Event)
    requires e.DeleteAccount? && Enabled(c, w, e)
    ensures var after := Next(c, w, e).t.live;
            && (forall i :: i in after <==>
                  i in w.t.live && w.t.live[i].user != Some(e.user) && w.t.live[i].session !in e.sessions)
            && (forall i :: i in after ==> after[i] == w.t.live[i])
  {
    RowsLeft(w.t, e.gone, w.now);
    assert forall i :: i in e.gone <==> i in AccountRows(w.t.live, e.user, e.sessions);
    hide DeleteRows;
  }

  /** It takes owner and lease off exactly the records of the account and of its sessions, and makes them due. */
  lemma AccountRecordsFree(queue: map<Key, Deletion>, account: Uuid, sessions: set<Uuid>, now: nat)
    ensures var after := Disowned(queue, account, sessions, now);
            && after.Keys == queue.Keys
            && forall k :: k in queue ==>
                 var d, n := queue[k], after[k];
                 if d.user == Some(account) || (d.session.Some? && d.session.value in sessions) then
                   && n.session.None? && n.user.None? && n.lease.None? && n.nextAttempt == now
                   && n.bytes == d.bytes && n.attempts == d.attempts && n.createdAt == d.createdAt
                 else n == d
  {
  }
}
