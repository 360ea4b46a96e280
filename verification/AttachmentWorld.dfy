/**
 Uploads, deletions, file workers and the orphan scan running side by side. One event is one
 statement (or one file operation), so everything between two of them can interleave.
 */
module AttachmentWorld {
  import opened Basics
  import opened AttachmentTables

  /** What a worker knows about a file it claimed. */
  datatype Phase = Held | Removed | RemovalFailed

  /** `files` is the disk. `used` are the storage keys and `tokens` the claim tokens ever seen,
      `writing` the uploads still writing their file, `saved` those that finished, and `late`
      the keys written to after their row was gone. `locks` are owners inside a quota-checked
      creation, with the bytes they are about to add. */
  datatype World = World(
    t: Tables, now: nat, files: set<Key>, used: set<Key>, tokens: set<Uuid>,
    writing: set<Key>, saved: set<Key>, late: set<Key>,
    hands: map<(Key, Uuid), Phase>, locks: map<Owner, nat>)

  /** Which sessions are guests, and the storage quota of every owner. */
  datatype Setup = Setup(guests: set<Uuid>, quota: nat)

  const START := World(Tables(map[], map[]), 0, {}, {}, {}, {}, {}, {}, map[], map[])

  datatype Event =
    | Pass(seconds: nat)
    | BeginCreate(scope: Scope, bytes: nat)
    | Insert(scope: Scope, id: Uuid, newKey: Key, kind: Kind)
    | Abandon(scope: Scope)
    | WriteSome(written: Key)
    | WriteEnds(written: Key, complete: bool)
    | LinkTo(scope: Scope, chat: Uuid, message: Uuid, ids: set<Uuid>)
    | Delete(gone: seq<Uuid>)
    | Claim(wanted: set<Key>, token: Uuid)
    | RemoveFile(key: Key, token: Uuid)
    | RemoveFails(key: Key, token: Uuid)
    | Complete(key: Key, token: Uuid)
    | Retry(key: Key, token: Uuid)
    | WorkerDies(key: Key, token: Uuid)
    | EnqueueOrphan(orphan: Key, size: nat)
    | Promote(session: Uuid, user: Uuid, replacement: Uuid)
    | DeleteAccount(user: Uuid, sessions: set<Uuid>, gone: seq<Uuid>)

  /** Rows of the account: what its deletion removes before the queue is disowned. */
  function AccountRows(live: map<Uuid, Attachment>, user: Uuid, sessions: set<Uuid>): set<Uuid> {
    set i | i in live && BelongsTo(Some(live[i].session), live[i].user, user, sessions)
  }

  predicate Enabled(c: Setup, w: World, e: Event) {
    match e
    case BeginCreate(scope, _) => OwnerOf(scope) !in w.locks && (scope.session in c.guests <==> scope.user.None?)
    case Insert(scope, id, key, _) =>
      OwnerOf(scope) in w.locks && (scope.session in c.guests <==> scope.user.None?)
      && id !in w.t.live && key !in w.used
    case WriteSome(k) => k in w.writing
    case WriteEnds(k, _) => k in w.writing
    case Claim(keys, token) =>
      token !in w.tokens && forall k :: k in keys ==> k in w.t.queue && Ready(w.t.queue[k], w.now)
    case RemoveFile(k, token) => (k, token) in w.hands && w.hands[(k, token)] == Held
    case RemoveFails(k, token) => (k, token) in w.hands && w.hands[(k, token)] == Held
    case Complete(k, token) => (k, token) in w.hands && w.hands[(k, token)] == Removed
    case Retry(k, token) => (k, token) in w.hands && w.hands[(k, token)] == RemovalFailed
    case Promote(session, _, replacement) => session in c.guests && replacement !in c.guests
    case DeleteAccount(user, sessions, gone) =>
      sessions !! c.guests && (set i | i in gone) == AccountRows(w.t.live, user, sessions)
    case _ => true
  }

  function Taken(keys: set<Key>, token: Uuid): map<(Key, Uuid), Phase> {
    map k | k in keys :: (k, token) := Held
  }

  /** Bytes reach the disk; if the row is gone by then, the write came late. */
  function Written(w: World, key: Key): World {
    w.(files := w.files + {key}, late := if IsLiveKey(w.t.live, key) then w.late else w.late + {key})
  }

  /** The check of the quota, with the owner's lock held afterwards if it passed. */
  ghost function Begun(w: World, o: Owner, bytes: nat, quota: nat): World {
    if Charge(w.t, o) + bytes <= quota then w.(locks := w.locks[o := bytes]) else w
  }

  ghost function Next(c: Setup, w: World, e: Event): World {
    match e
    case Pass(seconds) => w.(now := w.now + seconds)
    case BeginCreate(scope, bytes) => Begun(w, OwnerOf(scope), bytes, c.quota)
    case Insert(scope, id, key, kind) =>
      if OwnerOf(scope) !in w.locks then w
      else
        w.(t := w.t.(live := w.t.live[id := NewAttachment(scope, kind, w.locks[OwnerOf(scope)], key, w.now)]),
           locks := w.locks - {OwnerOf(scope)}, used := w.used + {key}, writing := w.writing + {key})
    case Abandon(scope) => w.(locks := w.locks - {OwnerOf(scope)})
    case WriteSome(key) => Written(w, key)
    case WriteEnds(key, complete) =>
      if complete then Written(w, key).(writing := w.writing - {key}, saved := w.saved + {key})
      else w.(writing := w.writing - {key})
    case LinkTo(scope, chat, message, ids) => w.(t := w.t.(live := LinkRows(w.t.live, scope, chat, message, ids)))
    case Delete(ids) => w.(t := DeleteRows(w.t, ids, w.now))
    case Claim(keys, token) =>
      w.(t := w.t.(queue := Claimed(w.t.queue, keys, token, w.now)), tokens := w.tokens + {token},
         hands := w.hands + Taken(keys, token))
    case RemoveFile(key, token) => w.(files := w.files - {key}, hands := w.hands[(key, token) := Removed])
    case RemoveFails(key, token) => w.(hands := w.hands[(key, token) := RemovalFailed])
    case Complete(key, token) =>
      w.(t := w.t.(queue := Completed(w.t.queue, key, token)), hands := w.hands - {(key, token)})
    case Retry(key, token) =>
      w.(t := w.t.(queue := Retried(w.t.queue, key, token, w.now)), hands := w.hands - {(key, token)})
    case WorkerDies(key, token) => w.(hands := w.hands - {(key, token)})
    case EnqueueOrphan(key, bytes) =>
      w.(t := w.t.(queue := OrphanQueued(w.t, key, bytes, w.now)), used := w.used + {key})
    case Promote(session, user, replacement) => w.(t := Promoted(w.t, session, user, replacement))
    case DeleteAccount(user, sessions, gone) =>
      var t := DeleteRows(w.t, gone, w.now);
      w.(t := t.(queue := Disowned(t.queue, user, sessions, w.now)))
  }

  ghost function Run(c: Setup, w: World, es: seq<Event>): World
    decreases es
  {
    if es == [] then w else Run(c, Next(c, w, es[0]), es[1..])
  }

  ghost predicate Legal(c: Setup, w: World, es: seq<Event>)
    decreases es
  {
    es == [] || (Enabled(c, w, es[0]) && Legal(c, Next(c, w, es[0]), es[1..]))
  }
}
