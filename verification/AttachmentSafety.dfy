/** The deletion queue never reaches a live attachment, no file is lost and none leaks. */
module AttachmentSafety {
  import opened Basics
  import opened AttachmentTables
  import opened AttachmentWorld

  /** Live attachments have distinct keys, none of which is queued or in a worker's hands. */
  ghost predicate Apart(t: Tables, hands: map<(Key, Uuid), Phase>) {
    && (forall i, j :: i in t.live && j in t.live && t.live[i].key == t.live[j].key ==> i == j)
    && (forall i :: i in t.live ==> t.live[i].key !in t.queue)
    && (forall h :: h in hands ==> !IsLiveKey(t.live, h.0))
  }

  /** Every key in sight has been recorded as used. */
  ghost predicate Known(w: World) {
    && (forall i :: i in w.t.live ==> w.t.live[i].key in w.used)
    && w.t.queue.Keys <= w.used && w.files <= w.used && w.writing <= w.used && w.saved <= w.used
    && (forall h :: h in w.hands ==> h.0 in w.used)
  }

  /** Leases and claims in hand carry tokens that were issued. */
  ghost predicate Issued(w: World) {
    && (forall h :: h in w.hands ==> h.1 in w.tokens)
    && (forall k :: k in w.t.queue && w.t.queue[k].lease.Some? ==> w.t.queue[k].lease.value.token in w.tokens)
  }

  /** A live attachment whose upload finished has its file. */
  ghost predicate Intact(w: World) {
    forall i :: i in w.t.live && w.t.live[i].key in w.saved ==> w.t.live[i].key in w.files
  }

  /** Every file belongs to a live attachment, is queued, or was written after its row was gone. */
  ghost predicate NoLeak(w: World) {
    forall k :: k in w.files ==> IsLiveKey(w.t.live, k) || k in w.t.queue || k in w.late
  }

  /** A file reported removed is gone, unless a late write brought it back. */
  ghost predicate RemovedIsGone(w: World) {
    forall h :: h in w.hands && w.hands[h] == Removed ==> h.0 !in w.files || h.0 in w.late
  }

  ghost predicate Sound(w: World) {
    Apart(w.t, w.hands) && Known(w) && Issued(w) && Intact(w) && NoLeak(w) && RemovedIsGone(w)
  }

  /** Deleting a row in sound tables always adds a fresh record: the conflict branch of the trigger is never taken. */
  lemma DeleteRowIsFresh(t: Tables, hands: map<(Key, Uuid), Phase>, id: Uuid, now: nat)
    requires Apart(t, hands) && id in t.live
    ensures DeleteRow(t, id, now).queue ==
            t.queue[t.live[id].key :=
              Deletion(t.live[id].bytes, Some(t.live[id].session), t.live[id].user, 0, now, None, now)]
    ensures t.live[id].key !in t.queue
  {
  }

  lemma DeleteRowSound(w: World, id: Uuid, now: nat)
    requires Sound(w)
    ensures Sound(w.(t := DeleteRow(w.t, id, now)))
  {
    if id in w.t.live {
      DeleteRowIsFresh(w.t, w.hands, id, now);
      var n := w.(t := DeleteRow(w.t, id, now));
      forall k | k in n.files ensures IsLiveKey(n.t.live, k) || k in n.t.queue || k in n.late {
        if IsLiveKey(w.t.live, k) {
          var i :| i in w.t.live && w.t.live[i].key == k;
          assert i != id ==> i in n.t.live && n.t.live[i].key == k;
        }
      }
    }
  }

  lemma {:induction false} DeleteRowsSound(w: World, ids: seq<Uuid>, now: nat)
    requires Sound(w)
    ensures Sound(w.(t := DeleteRows(w.t, ids, now)))
    decreases ids
  {
    if ids != [] {
      DeleteRowSound(w, ids[0], now);
      DeleteRowsSound(w.(t := DeleteRow(w.t, ids[0], now)), ids[1..], now);
    } else {
      assert w.(t := DeleteRows(w.t, ids, now)) == w;
    }
  }

  /** Changing rows without touching their keys, or records without touching which are queued, is harmless. */
  lemma SameKeysSound(w: World, live: map<Uuid, Attachment>, queue: map<Key, Deletion>)
    requires Sound(w)
    requires live.Keys == w.t.live.Keys && forall i :: i in live ==> live[i].key == w.t.live[i].key
    requires queue.Keys == w.t.queue.Keys
    requires forall k :: k in queue && queue[k].lease.Some? ==> queue[k].lease == w.t.queue[k].lease
    ensures Sound(w.(t := Tables(live, queue)))
  {
    var n := w.(t := Tables(live, queue));
    forall k ensures IsLiveKey(live, k) <==> IsLiveKey(w.t.live, k) {
      if IsLiveKey(live, k) {
        var i :| i in live && live[i].key == k;
        assert w.t.live[i].key == k;
      }
      if IsLiveKey(w.t.live, k) {
        var i :| i in w.t.live && w.t.live[i].key == k;
        assert live[i].key == k;
      }
    }
    assert Apart(n.t, n.hands);
    assert Known(n) && Issued(n);
    assert Intact(n) && NoLeak(n) && RemovedIsGone(n);
  }

  lemma InsertSound(c: Setup, w: World, scope: Scope, id: Uuid, key: Key, kind: Kind)
    requires Sound(w) && Enabled(c, w, Insert(scope, id, key, kind))
    ensures Sound(Next(c, w, Insert(scope, id, key, kind)))
  {
    var n := Next(c, w, Insert(scope, id, key, kind));
    assert key !in w.files && key !in w.saved && key !in w.t.queue;
    forall k | IsLiveKey(w.t.live, k) ensures IsLiveKey(n.t.live, k) {
      var i :| i in w.t.live && w.t.live[i].key == k;
      assert i in n.t.live && n.t.live[i].key == k;
    }
    assert NoLeak(n);
    forall h | h in n.hands ensures !IsLiveKey(n.t.live, h.0) {
      assert h.0 in w.used && !IsLiveKey(w.t.live, h.0);
    }
    assert Apart(n.t, n.hands);
    assert RemovedIsGone(n);
  }

  lemma WrittenSound(w: World, key: Key)
    requires Sound(w) && key in w.writing
    ensures Sound(Written(w, key))
    ensures IsLiveKey(w.t.live, key) || key in Written(w, key).late
  {
    var n := Written(w, key);
    assert NoLeak(n);
    forall h | h in n.hands && n.hands[h] == Removed ensures h.0 !in n.files || h.0 in n.late {
      assert !IsLiveKey(w.t.live, h.0);
    }
    assert Apart(n.t, n.hands) && Known(n) && Issued(n) && Intact(n);
  }

  lemma ClaimSound(c: Setup, w: World, keys: set<Key>, token: Uuid)
    requires Sound(w) && Enabled(c, w, Claim(keys, token))
    ensures Sound(Next(c, w, Claim(keys, token)))
  {
    var n := Next(c, w, Claim(keys, token));
    assert forall k :: k in n.t.queue && n.t.queue[k].lease.Some? ==>
                         n.t.queue[k].lease.value.token == token || n.t.queue[k].lease == w.t.queue[k].lease;
    forall h | h in n.hands && h !in w.hands
      ensures h.0 in keys && h.1 == token && n.hands[h] == Held && !IsLiveKey(w.t.live, h.0)
    {
      assert h in Taken(keys, token);
      assert h.0 in w.t.queue;
    }
    forall h | h in n.hands ensures !IsLiveKey(n.t.live, h.0) && h.0 in n.used && h.1 in n.tokens {
      if h in w.hands { assert !IsLiveKey(w.t.live, h.0); }
    }
    assert Apart(n.t, n.hands) && Known(n) && Issued(n);
    assert forall h :: h in Taken(keys, token) ==> n.hands[h] == Held;
    assert forall h :: h in n.hands && n.hands[h] == Removed ==> h in w.hands && w.hands[h] == Removed;
    assert Intact(n) && NoLeak(n) && RemovedIsGone(n);
  }

  lemma RemoveFileSound(c: Setup, w: World, key: Key, token: Uuid)
    requires Sound(w) && Enabled(c, w, RemoveFile(key, token))
    ensures Sound(Next(c, w, RemoveFile(key, token)))
  {
    var n := Next(c, w, RemoveFile(key, token));
    assert !IsLiveKey(w.t.live, key);
    assert Apart(n.t, n.hands) && Known(n) && Issued(n);
    assert Intact(n) && NoLeak(n) && RemovedIsGone(n);
  }

  lemma CompleteSound(c: Setup, w: World, key: Key, token: Uuid)
    requires Sound(w) && Enabled(c, w, Complete(key, token))
    ensures Sound(Next(c, w, Complete(key, token)))
  {
    var n := Next(c, w, Complete(key, token));
    assert key !in w.files || key in w.late;
    assert Apart(n.t, n.hands) && Known(n) && Issued(n);
    assert Intact(n) && NoLeak(n) && RemovedIsGone(n);
  }

  lemma HandsSound(w: World, hands: map<(Key, Uuid), Phase>)
    requires Sound(w)
    requires forall h :: h in hands ==> h in w.hands && (hands[h] == Removed ==> w.hands[h] == Removed)
    ensures Sound(w.(hands := hands))
  {
  }

  lemma OrphanSound(w: World, key: Key, bytes: nat)
    requires Sound(w)
    ensures Sound(w.(t := w.t.(queue := OrphanQueued(w.t, key, bytes, w.now)), used := w.used + {key}))
  {
    var n := w.(t := w.t.(queue := OrphanQueued(w.t, key, bytes, w.now)), used := w.used + {key});
    assert Apart(n.t, n.hands) && Known(n) && Issued(n);
    assert Intact(n) && NoLeak(n) && RemovedIsGone(n);
  }

  /** Locks and the clock play no part. */
  lemma LocksSound(w: World, now: nat, locks: map<Owner, nat>)
    requires Sound(w)
    ensures Sound(w.(now := now, locks := locks))
  {
  }

  lemma StepSound(c: Setup, w: World, e: Event)
    requires Sound(w) && Enabled(c, w, e)
    ensures Sound(Next(c, w, e))
  {
    hide Sound, Charge, DeleteRows, Retried, Disowned, Promoted;
    match e {
      case Pass(seconds) => LocksSound(w, w.now + seconds, w.locks);
      case BeginCreate(scope, bytes) => LocksSound(w, w.now, w.locks[OwnerOf(scope) := bytes]);
      case Abandon(scope) => LocksSound(w, w.now, w.locks - {OwnerOf(scope)});
      case Insert(scope, id, key, kind) => InsertSound(c, w, scope, id, key, kind);
      case WriteSome(key) => WrittenSound(w, key);
      case WriteEnds(key, complete) => WriteEndsSound(c, w, key, complete);
      case LinkTo(scope, chat, message, ids) =>
        SameKeysSound(w, LinkRows(w.t.live, scope, chat, message, ids), w.t.queue);
      case Delete(ids) => DeleteRowsSound(w, ids, w.now);
      case Claim(keys, token) => ClaimSound(c, w, keys, token);
      case RemoveFile(key, token) => RemoveFileSound(c, w, key, token);
      case RemoveFails(key, token) => HandsSound(w, w.hands[(key, token) := RemovalFailed]);
      case Complete(key, token) => CompleteSound(c, w, key, token);
      case Retry(key, token) => RetrySound(c, w, key, token);
      case WorkerDies(key, token) => HandsSound(w, w.hands - {(key, token)});
      case EnqueueOrphan(key, bytes) => OrphanSound(w, key, bytes);
      case Promote(_, _, _) => OwnersSound(c, w, e);
      case DeleteAccount(_, _, _) => OwnersSound(c, w, e);
    }
  }

  lemma RetrySound(c: Setup, w: World, key: Key, token: Uuid)
    requires Sound(w)
    ensures Sound(Next(c, w, Retry(key, token)))
  {
    hide Sound;
    HandsSound(w, w.hands - {(key, token)});
    SameKeysSound(w.(hands := w.hands - {(key, token)}), w.t.live, Retried(w.t.queue, key, token, w.now));
  }

  lemma OwnersSound(c: Setup, w: World, e: Event)
    requires Sound(w) && (e.Promote? || e.DeleteAccount?)
    ensures Sound(Next(c, w, e))
  {
    hide Sound, DeleteRows;
    if e.Promote? {
      var t := Promoted(w.t, e.session, e.user, e.replacement);
      SameKeysSound(w, t.live, t.queue);
    } else {
      DeleteRowsSound(w, e.gone, w.now);
      var t := DeleteRows(w.t, e.gone, w.now);
      SameKeysSound(w.(t := t), t.live, Disowned(t.queue, e.user, e.sessions, w.now));
    }
  }

  lemma WriteEndsSound(c: Setup, w: World, key: Key, complete: bool)
    requires Sound(w) && key in w.writing
    ensures Sound(Next(c, w, WriteEnds(key, complete)))
  {
    WrittenSound(w, key);
    var n := Next(c, w, WriteEnds(key, complete));
    assert Apart(n.t, n.hands) && Known(n) && Issued(n);
    assert Intact(n) && NoLeak(n) && RemovedIsGone(n);
  }

  /** In every interleaving: queued keys are never live keys, finished uploads keep their files
      while their rows live, and a file on disk is live, queued, or written late. */
  lemma {:induction false} RunSound(c: Setup, w: World, es: seq<Event>)
    requires Sound(w) && Legal(c, w, es)
    ensures Sound(Run(c, w, es))
    decreases es
  {
    if es != [] {
      StepSound(c, w, es[0]);
      hide Sound;
      RunSound(c, Next(c, w, es[0]), es[1..]);
    }
  }

  lemma EveryRunSound(c: Setup, es: seq<Event>)
    requires Legal(c, START, es)
    ensures Sound(Run(c, START, es))
  {
    RunSound(c, START, es);
  }

  // ----- files nobody will remove -----

  /** Every file on disk belongs to a live attachment or is queued for deletion. */
  ghost predicate AllTracked(w: World) {
    forall k :: k in w.files ==> IsLiveKey(w.t.live, k) || k in w.t.queue
  }

  /** A write to a key that is neither live nor queued, or a completion while the file is (back) on disk. */
  ghost predicate LosesTrack(w: World, e: Event) {
    || ((e.WriteSome? || (e.WriteEnds? && e.complete)) && !IsLiveKey(w.t.live, e.written) && e.written !in w.t.queue)
    || (e.Complete? && HoldsLease(w.t.queue, e.key, e.token) && e.key in w.files)
  }

  lemma {:induction false} DeleteRowsTracked(w: World, ids: seq<Uuid>, now: nat)
    requires AllTracked(w)
    ensures AllTracked(w.(t := DeleteRows(w.t, ids, now)))
    decreases ids
  {
    if ids == [] {
      assert w.(t := DeleteRows(w.t, ids, now)) == w;
    } else {
      var n := w.(t := DeleteRow(w.t, ids[0], now));
      forall k | k in n.files ensures IsLiveKey(n.t.live, k) || k in n.t.queue {
        if IsLiveKey(w.t.live, k) {
          var i :| i in w.t.live && w.t.live[i].key == k;
          assert i != ids[0] ==> i in n.t.live && n.t.live[i].key == k;
        }
      }
      DeleteRowsTracked(n, ids[1..], now);
    }
  }

  lemma SameKeysTracked(w: World, live: map<Uuid, Attachment>, queue: map<Key, Deletion>)
    requires AllTracked(w) && w.t.queue.Keys <= queue.Keys
    requires forall i :: i in w.t.live ==> i in live && live[i].key == w.t.live[i].key
    ensures AllTracked(w.(t := Tables(live, queue)))
  {
    forall k | IsLiveKey(w.t.live, k) ensures IsLiveKey(live, k) {
      var i :| i in w.t.live && w.t.live[i].key == k;
      assert live[i].key == k;
    }
  }

  lemma CompleteTracksExactly(c: Setup, w: World, e: Event)
    requires Sound(w) && AllTracked(w) && Enabled(c, w, e) && e.Complete?
    ensures AllTracked(Next(c, w, e)) <==> !LosesTrack(w, e)
  {
    assert !IsLiveKey(w.t.live, e.key);
    assert Next(c, w, e).files == w.files && Next(c, w, e).t.live == w.t.live;
  }

  lemma WriteTracksExactly(c: Setup, w: World, e: Event)
    requires AllTracked(w) && (e.WriteSome? || e.WriteEnds?)
    ensures AllTracked(Next(c, w, e)) <==> !LosesTrack(w, e)
  {
    assert Next(c, w, e).t == w.t;
    if e.WriteSome? || e.complete { assert e.written in Next(c, w, e).files; }
  }

  /** An event keeps all files tracked if and only if it is neither a write to a key that is neither live nor queued,
      nor a completion under the current lease while the file is on disk. */
  lemma StepTracksExactly(c: Setup, w: World, e: Event)
    requires Sound(w) && AllTracked(w) && Enabled(c, w, e)
    ensures AllTracked(Next(c, w, e)) <==> !LosesTrack(w, e)
  {
    hide Sound, AllTracked, Charge;
    match e {
      case Insert(scope, id, key, kind) =>
        SameKeysTracked(w, Next(c, w, e).t.live, w.t.queue);
        SameFilesTracked(w.(t := Next(c, w, e).t), Next(c, w, e));
      case WriteSome(_) => WriteTracksExactly(c, w, e);
      case WriteEnds(_, _) => WriteTracksExactly(c, w, e);
      case LinkTo(scope, chat, message, ids) =>
        SameKeysTracked(w, LinkRows(w.t.live, scope, chat, message, ids), w.t.queue);
      case Delete(ids) => DeleteRowsTracked(w, ids, w.now);
      case Claim(keys, token) =>
        SameKeysTracked(w, w.t.live, Claimed(w.t.queue, keys, token, w.now));
        SameFilesTracked(w.(t := Next(c, w, e).t), Next(c, w, e));
      case Complete(_, _) => CompleteTracksExactly(c, w, e);
      case Retry(key, token) =>
        SameKeysTracked(w, w.t.live, Retried(w.t.queue, key, token, w.now));
        SameFilesTracked(w.(t := Next(c, w, e).t), Next(c, w, e));
      case EnqueueOrphan(key, bytes) =>
        SameKeysTracked(w, w.t.live, OrphanQueued(w.t, key, bytes, w.now));
        SameFilesTracked(w.(t := Next(c, w, e).t), Next(c, w, e));
      case Promote(session, user, replacement) =>
        var t := Promoted(w.t, session, user, replacement);
        SameKeysTracked(w, t.live, t.queue);
      case DeleteAccount(user, sessions, gone) =>
        var t := DeleteRows(w.t, gone, w.now);
        DeleteRowsTracked(w, gone, w.now);
        SameKeysTracked(w.(t := t), t.live, Disowned(t.queue, user, sessions, w.now));
      case _ => SameFilesTracked(w, Next(c, w, e));
    }
  }

  lemma SameFilesTracked(w: World, n: World)
    requires AllTracked(w) && n.t == w.t && n.files <= w.files
    ensures AllTracked(n)
  {
  }

  ghost predicate NeverLosesTrack(c: Setup, w: World, es: seq<Event>)
    decreases es
  {
    es == [] || (!LosesTrack(w, es[0]) && NeverLosesTrack(c, Next(c, w, es[0]), es[1..]))
  }

  ghost predicate AlwaysTracked(c: Setup, w: World, es: seq<Event>)
    decreases es
  {
    AllTracked(w) && (es == [] || AlwaysTracked(c, Next(c, w, es[0]), es[1..]))
  }

  /** All files stay tracked throughout a run exactly if no event of the run loses track of one. */
  lemma {:induction false} RunTracksExactly(c: Setup, w: World, es: seq<Event>)
    requires Sound(w) && AllTracked(w) && Legal(c, w, es)
    ensures AlwaysTracked(c, w, es) <==> NeverLosesTrack(c, w, es)
    decreases es
  {
    if es != [] {
      StepTracksExactly(c, w, es[0]);
      StepSound(c, w, es[0]);
      hide Sound, LosesTrack, AllTracked;
      if AllTracked(Next(c, w, es[0])) { RunTracksExactly(c, Next(c, w, es[0]), es[1..]); }
    }
  }

  const LATE_SETUP := Setup({1}, 100)
  const LATE_WRITE := [
    BeginCreate(Scope(1, None), 5), Insert(Scope(1, None), 10, 20, 0), Delete([10]), Claim({20}, 30),
    RemoveFile(20, 30), Complete(20, 30), WriteEnds(20, true)]

  const LATE_ROW := Attachment(1, None, None, None, 0, 5, 20, 0)
  const LATE_RECORD := Deletion(5, Some(1), None, 0, 0, None, 0)

  /** The row is created and deleted while its file is still being written. */
  lemma LateUpload()
    ensures var w3 := START.(t := Tables(map[], map[20 := LATE_RECORD]), used := {20}, writing := {20});
            Legal(LATE_SETUP, START, LATE_WRITE[..3]) && Run(LATE_SETUP, START, LATE_WRITE[..3]) == w3
  {
    hide Run, Legal, Charge;
    var c, es := LATE_SETUP, LATE_WRITE;
    NothingCharged(Guest(1));
    var w1 := Next(c, START, es[0]);
    assert w1 == START.(locks := map[Guest(1) := 5]);
    var w2 := Next(c, w1, es[1]);
    assert w2 == START.(t := Tables(map[10 := LATE_ROW], map[]), used := {20}, writing := {20});
    var w3 := Next(c, w2, es[2]);
    assert DeleteRows(w2.t, [10], 0) == DeleteRow(w2.t, 10, 0);
    assert w3 == START.(t := Tables(map[], map[20 := LATE_RECORD]), used := {20}, writing := {20});
    RunNone(c, w3);
    RunCons(c, w2, es[2], []);
    RunCons(c, w1, es[1], [es[2]] + []);
    RunCons(c, START, es[0], [es[1]] + ([es[2]] + []));
    assert es[..3] == [es[0]] + ([es[1]] + ([es[2]] + []));
  }

  /** A worker claims the record and finds no file. */
  lemma LateRemoval(w: World)
    requires w == START.(t := Tables(map[], map[20 := LATE_RECORD]), used := {20}, writing := {20})
    ensures var c, es := LATE_SETUP, LATE_WRITE;
            var w4 := Next(c, w, es[3]);
            && Enabled(c, w, es[3]) && Enabled(c, w4, es[4])
            && Next(c, w4, es[4]) == w.(
                 t := Tables(map[], map[20 := LATE_RECORD.(lease := Some(Lease(30, LEASE_SECONDS)), attempts := 1)]),
                 tokens := {30}, hands := map[(20, 30) := Removed])
  {
    var w4 := Next(LATE_SETUP, w, LATE_WRITE[3]);
    var leased := LATE_RECORD.(lease := Some(Lease(30, LEASE_SECONDS)), attempts := 1);
    assert w4 == w.(t := Tables(map[], map[20 := leased]), tokens := {30}, hands := map[(20, 30) := Held]);
  }

  /** It completes; then the bytes arrive. */
  lemma LateBytes(w: World)
    requires w == START.(t := Tables(map[], map[20 := LATE_RECORD]), used := {20}, writing := {20})
    ensures Legal(LATE_SETUP, w, LATE_WRITE[3..])
    ensures var n := Run(LATE_SETUP, w, LATE_WRITE[3..]); n.t == START.t && 20 in n.files
  {
    hide Run, Legal, Charge;
    var c, es := LATE_SETUP, LATE_WRITE;
    LateRemoval(w);
    var w4 := Next(c, w, es[3]);
    var w5 := Next(c, w4, es[4]);
    var w6 := Next(c, w5, es[5]);
    assert w6 == START.(used := {20}, writing := {20}, tokens := {30});
    var w7 := Next(c, w6, es[6]);
    assert Enabled(c, w5, es[5]) && Enabled(c, w6, es[6]) && w7.t == START.t && 20 in w7.files;
    hide Next, Enabled;
    RunNone(c, w7);
    RunCons(c, w6, es[6], []);
    RunCons(c, w5, es[5], [es[6]] + []);
    RunCons(c, w4, es[4], [es[5]] + ([es[6]] + []));
    RunCons(c, w, es[3], [es[4]] + ([es[5]] + ([es[6]] + [])));
    assert es[3..] == [es[3]] + ([es[4]] + ([es[5]] + ([es[6]] + [])));
  }

  /** The row of a slow upload is deleted and its file reported missing before the bytes arrive: the finished file is
      on disk, but neither live nor queued. */
  lemma LateWriteLosesTrack()
    ensures Legal(LATE_SETUP, START, LATE_WRITE)
    ensures var w := Run(LATE_SETUP, START, LATE_WRITE);
            20 in w.files && 20 !in w.t.queue && !IsLiveKey(w.t.live, 20) && !AllTracked(w)
  {
    LateUpload();
    LateBytes(Run(LATE_SETUP, START, LATE_WRITE[..3]));
    RunSplit(LATE_SETUP, START, LATE_WRITE, 3);
    LegalSplit(LATE_SETUP, START, LATE_WRITE, 3);
    hide Run, Legal, AllTracked, IsLiveKey;
    NoLiveKeys(20);
    Untracked(Run(LATE_SETUP, START, LATE_WRITE), 20);
  }

  lemma {:induction false} LegalSplit(c: Setup, w: World, es: seq<Event>, k: nat)
    requires k <= |es| && Legal(c, w, es[..k]) && Legal(c, Run(c, w, es[..k]), es[k..])
    ensures Legal(c, w, es)
    decreases es
  {
    hide Next, Enabled;
    if k > 0 {
      assert es[..k][0] == es[0] && es[..k][1..] == es[1..][..k - 1] && es[k..] == es[1..][k - 1..];
      LegalSplit(c, Next(c, w, es[0]), es[1..], k - 1);
    } else {
      assert es[0..] == es && es[..0] == [];
    }
  }

  lemma Untracked(w: World, k: Key)
    requires k in w.files && k !in w.t.queue && !IsLiveKey(w.t.live, k)
    ensures !AllTracked(w)
  {
  }

  lemma NoLiveKeys(k: Key)
    ensures !IsLiveKey(map[], k)
  {
  }

  lemma NothingCharged(o: Owner)
    ensures Charge(START.t, o) == 0
  {
    assert LiveShares(map[], o) == map[] && QueueShares(map[], o) == map[];
  }

  lemma RunNone(c: Setup, w: World)
    ensures Run(c, w, []) == w && Legal(c, w, [])
  {
  }

  lemma RunCons(c: Setup, w: World, e: Event, es: seq<Event>)
    requires Enabled(c, w, e) && Legal(c, Next(c, w, e), es)
    ensures Run(c, w, [e] + es) == Run(c, Next(c, w, e), es) && Legal(c, w, [e] + es)
  {
    assert ([e] + es)[1..] == es;
  }

  // ----- what the orphan scan repairs -----

  /** A file that nobody would ever remove. */
  ghost predicate Stray(w: World, k: Key) {
    k in w.files && !IsLiveKey(w.t.live, k) && k !in w.t.queue
  }

  /** Only orphan reports, as the scan makes them. */
  predicate OnlyReports(es: seq<Event>) {
    forall i :: 0 <= i < |es| ==> es[i].EnqueueOrphan?
  }

  predicate Reported(es: seq<Event>, k: Key) {
    exists i :: 0 <= i < |es| && es[i].EnqueueOrphan? && es[i].orphan == k
  }

  /** Reporting an orphan makes that file tracked, and changes nothing for any other. */
  lemma ReportTracks(c: Setup, w: World, e: Event, k: Key)
    requires e.EnqueueOrphan?
    ensures Stray(Next(c, w, e), k) <==> Stray(w, k) && k != e.orphan
  {
  }

  lemma ReportedFirst(es: seq<Event>, k: Key)
    requires es != [] && OnlyReports(es)
    ensures OnlyReports(es[1..])
    ensures Reported(es, k) <==> es[0].orphan == k || Reported(es[1..], k)
  {
    if Reported(es, k) && es[0].orphan != k {
      var i :| 0 <= i < |es| && es[i].EnqueueOrphan? && es[i].orphan == k;
      assert es[1..][i - 1] == es[i];
    }
    if Reported(es[1..], k) {
      var i :| 0 <= i < |es[1..]| && es[1..][i].EnqueueOrphan? && es[1..][i].orphan == k;
      assert es[i + 1] == es[1..][i];
    }
  }

  lemma {:induction false} StraysLeft(c: Setup, w: World, es: seq<Event>, k: Key)
    requires OnlyReports(es)
    ensures Legal(c, w, es)
    ensures Stray(Run(c, w, es), k) <==> Stray(w, k) && !Reported(es, k)
    decreases es
  {
    if es != [] {
      ReportedFirst(es, k);
      ReportTracks(c, w, es[0], k);
      hide Stray, Reported, OnlyReports;
      StraysLeft(c, Next(c, w, es[0]), es[1..], k);
    }
  }

  /** A scan restores tracking if and only if it reports every stray file. */
  lemma ScanRestoresExactly(c: Setup, w: World, es: seq<Event>)
    requires OnlyReports(es)
    ensures Legal(c, w, es)
    ensures AllTracked(Run(c, w, es)) <==> forall k :: Stray(w, k) ==> Reported(es, k)
  {
    hide Run, Legal, Reported, OnlyReports, AllTracked, Stray;
    StraysLeft(c, w, es, 0);
    TrackedWithoutStrays(Run(c, w, es));
    forall k ensures Stray(Run(c, w, es), k) <==> Stray(w, k) && !Reported(es, k) {
      StraysLeft(c, w, es, k);
    }
  }

  lemma TrackedWithoutStrays(w: World)
    ensures AllTracked(w) <==> forall k :: !Stray(w, k)
  {
    if AllTracked(w) {
      forall k ensures !Stray(w, k) { }
    } else {
      var k :| k in w.files && !IsLiveKey(w.t.live, k) && k !in w.t.queue;
      assert Stray(w, k);
    }
  }

  lemma {:induction false} ReportsFor(keys: set<Key>) returns (es: seq<Event>)
    ensures OnlyReports(es) && forall k :: k in keys ==> Reported(es, k)
    decreases keys
  {
    if keys == {} {
      es := [];
    } else {
      var first :| first in keys;
      var rest := ReportsFor(keys - {first});
      es := [EnqueueOrphan(first, 0)] + rest;
      assert OnlyReports(es);
      forall k | k in keys ensures Reported(es, k) {
        ReportedFirst(es, k);
        assert es[1..] == rest;
        assert k != first ==> k in keys - {first};
      }
    }
  }

  /** In every state, some legal run of orphan reports leaves every file tracked. */
  lemma SomeScanRestores(c: Setup, w: World) returns (es: seq<Event>)
    ensures OnlyReports(es) && Legal(c, w, es) && AllTracked(Run(c, w, es))
  {
    es := ReportsFor(w.files);
    hide Run, Legal, AllTracked, OnlyReports, Reported;
    ScanRestoresExactly(c, w, es);
  }

  // ----- how a record leaves the queue -----

  /** The rows a statement deletes only add to the queue. */
  lemma {:induction false} DeleteRowsKeepsQueue(t: Tables, ids: seq<Uuid>, now: nat)
    ensures t.queue.Keys <= DeleteRows(t, ids, now).queue.Keys
    decreases ids
  {
    if ids != [] {
      DeleteRowsKeepsQueue(DeleteRow(t, ids[0], now), ids[1..], now);
    }
  }

  /** Only the completion by the current holder of the lease takes a record away. */
  lemma StepKeepsRecord(c: Setup, w: World, e: Event, key: Key)
    requires key in w.t.queue && Enabled(c, w, e)
    requires key !in Next(c, w, e).t.queue
    ensures e.Complete? && e.key == key && HoldsLease(w.t.queue, key, e.token)
    ensures (key, e.token) in w.hands && w.hands[(key, e.token)] == Removed
  {
    if e.Delete? { DeleteRowsKeepsQueue(w.t, e.gone, w.now); }
    if e.DeleteAccount? { DeleteRowsKeepsQueue(w.t, e.gone, w.now); }
  }

  /** If a file counts as removed by a worker, that worker removed it (or found it missing) earlier in the run. */
  lemma {:induction false} RemovedHasCause(c: Setup, w: World, es: seq<Event>, key: Key, token: Uuid) returns (i: nat)
    requires Legal(c, w, es)
    requires (key, token) in w.hands ==> w.hands[(key, token)] != Removed
    requires (key, token) in Run(c, w, es).hands && Run(c, w, es).hands[(key, token)] == Removed
    ensures i < |es| && es[i] == RemoveFile(key, token)
    decreases es
  {
    if es[0] == RemoveFile(key, token) {
      return 0;
    }
    var n := Next(c, w, es[0]);
    assert (key, token) in n.hands ==> n.hands[(key, token)] != Removed;
    i := RemovedHasCause(c, n, es[1..], key, token);
    i := i + 1;
  }

  ghost predicate RemovedByHolder(c: Setup, w: World, es: seq<Event>, key: Key, i: nat, j: nat, token: Uuid) {
    && i < j < |es|
    && es[i] == RemoveFile(key, token) && es[j] == Complete(key, token)
    && HoldsLease(Run(c, w, es[..j]).t.queue, key, token)
  }

  lemma {:induction false} RunSplit(c: Setup, w: World, es: seq<Event>, k: nat)
    requires k <= |es|
    ensures Run(c, w, es) == Run(c, Run(c, w, es[..k]), es[k..])
    ensures Legal(c, w, es) ==> Legal(c, w, es[..k]) && Legal(c, Run(c, w, es[..k]), es[k..])
    decreases es
  {
    hide Next, Enabled;
    if k > 0 {
      RunSplit(c, Next(c, w, es[0]), es[1..], k - 1);
      assert es[..k][1..] == es[1..][..k - 1];
      assert es[k..] == es[1..][k - 1..];
    } else {
      assert es[..0] == [] && es[0..] == es;
    }
  }

  /** The step of the run at which a record disappears. */
  lemma {:induction false} LeavesAtSomeStep(c: Setup, w: World, es: seq<Event>, key: Key) returns (j: nat)
    requires Legal(c, w, es) && key in w.t.queue && key !in Run(c, w, es).t.queue
    ensures j < |es| && key in Run(c, w, es[..j]).t.queue && Enabled(c, Run(c, w, es[..j]), es[j])
    ensures key !in Next(c, Run(c, w, es[..j]), es[j]).t.queue
    decreases es
  {
    var n := Next(c, w, es[0]);
    if key !in n.t.queue {
      j := 0;
      assert es[..0] == [];
    } else {
      var rest := LeavesAtSomeStep(c, n, es[1..], key);
      j := rest + 1;
      assert es[..j][1..] == es[1..][..rest];
    }
  }

  /** A record that is queued after the first `m` events of a run and gone at its end was completed by the worker
      whose lease was current, after that same worker had removed the file or found it missing. */
  lemma OnlyTheHolderRemoves(c: Setup, es: seq<Event>, m: nat, key: Key)
    requires Legal(c, START, es) && m <= |es|
    requires key in Run(c, START, es[..m]).t.queue && key !in Run(c, START, es).t.queue
    ensures exists i, j, token :: m <= j && RemovedByHolder(c, START, es, key, i, j, token)
  {
    var w := Run(c, START, es[..m]);
    RunSplit(c, START, es, m);
    var rest := LeavesAtSomeStep(c, w, es[m..], key);
    var j := m + rest;
    RunSplit(c, START, es[..j], m);
    assert es[..j][..m] == es[..m] && es[..j][m..] == es[m..][..rest] && es[j] == es[m..][rest];
    StepKeepsRecord(c, Run(c, START, es[..j]), es[j], key);
    var token := es[j].token;
    RunSplit(c, START, es, j);
    var i := RemovedHasCause(c, START, es[..j], key, token);
    assert RemovedByHolder(c, START, es, key, i, j, token);
  }

  // ----- leases that were taken over -----

  /** The token was issued, and no longer holds the key's lease. */
  ghost predicate Overtaken(w: World, key: Key, token: Uuid) {
    token in w.tokens && !HoldsLease(w.t.queue, key, token)
  }

  lemma {:induction false} DeleteRowsLeases(t: Tables, ids: seq<Uuid>, now: nat, key: Key, token: Uuid)
    requires !HoldsLease(t.queue, key, token)
    ensures !HoldsLease(DeleteRows(t, ids, now).queue, key, token)
    decreases ids
  {
    if ids != [] {
      DeleteRowsLeases(DeleteRow(t, ids[0], now), ids[1..], now, key, token);
    }
  }

  lemma OvertakenStep(c: Setup, w: World, e: Event, key: Key, token: Uuid)
    requires Overtaken(w, key, token) && Enabled(c, w, e)
    ensures Overtaken(Next(c, w, e), key, token)
  {
    if e.Delete? { DeleteRowsLeases(w.t, e.gone, w.now, key, token); }
    if e.DeleteAccount? { DeleteRowsLeases(w.t, e.gone, w.now, key, token); }
  }

  /** A worker whose lease was taken over, released or completed can never again complete or retry the record. */
  lemma {:induction false} OvertakenForever(c: Setup, w: World, es: seq<Event>, key: Key, token: Uuid)
    requires Overtaken(w, key, token) && Legal(c, w, es)
    ensures var n := Run(c, w, es);
            Next(c, n, Complete(key, token)).t == n.t && Next(c, n, Retry(key, token)).t == n.t
    decreases es
  {
    if es != [] {
      OvertakenStep(c, w, es[0], key, token);
      OvertakenForever(c, Next(c, w, es[0]), es[1..], key, token);
    }
  }

  /** Claiming a record whose lease ran out takes it away from the worker that had it. */
  lemma ReclaimOvertakes(c: Setup, w: World, keys: set<Key>, token: Uuid, key: Key, previous: Uuid)
    requires Sound(w) && Enabled(c, w, Claim(keys, token)) && key in keys && HoldsLease(w.t.queue, key, previous)
    ensures w.t.queue[key].lease.value.expires <= w.now
    ensures Overtaken(Next(c, w, Claim(keys, token)), key, previous)
    ensures HoldsLease(Next(c, w, Claim(keys, token)).t.queue, key, token)
  {
    assert previous in w.tokens && previous != token;
  }
}
