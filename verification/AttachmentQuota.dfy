/** Storage quota: what an owner is charged for, over every run. */
module AttachmentQuota {
  import opened Basics
  import opened MapSums
  import opened AttachmentTables
  import opened AttachmentWorld
  import opened AttachmentSafety

  // ----- the charge under single changes -----

  lemma LiveSet(t: Tables, i: Uuid, a: Attachment, o: Owner)
    ensures Charge(t.(live := t.live[i := a]), o) + (if i in t.live then LiveShare(o, t.live[i]) else 0)
            == Charge(t, o) + LiveShare(o, a)
  {
    SumSet(LiveShares(t.live, o), i, LiveShare(o, a));
    assert LiveShares(t.live[i := a], o) == LiveShares(t.live, o)[i := LiveShare(o, a)];
  }

  lemma QueueSet(t: Tables, k: Key, d: Deletion, o: Owner)
    ensures Charge(t.(queue := t.queue[k := d]), o) + (if k in t.queue then QueueShare(o, t.queue[k]) else 0)
            == Charge(t, o) + QueueShare(o, d)
  {
    SumSet(QueueShares(t.queue, o), k, QueueShare(o, d));
    assert QueueShares(t.queue[k := d], o) == QueueShares(t.queue, o)[k := QueueShare(o, d)];
  }

  /** Deleting a row moves its bytes to the queue: no owner's charge changes. */
  lemma DeleteRowMovesBytes(t: Tables, hands: map<(Key, Uuid), Phase>, id: Uuid, now: nat, o: Owner)
    requires Apart(t, hands)
    ensures Charge(DeleteRow(t, id, now), o) == Charge(t, o)
  {
    if id in t.live {
      var a := t.live[id];
      DeleteRowIsFresh(t, hands, id, now);
      LiveShareRemoved(t.live, id, o);
      QueueSet(t.(live := t.live - {id}), a.key, DeleteRow(t, id, now).queue[a.key], o);
    }
  }

  lemma {:induction false} DeleteRowsMovesBytes(w: World, ids: seq<Uuid>, now: nat, o: Owner)
    requires Sound(w)
    ensures Charge(DeleteRows(w.t, ids, now), o) == Charge(w.t, o)
    decreases ids
  {
    if ids != [] {
      DeleteRowMovesBytes(w.t, w.hands, ids[0], now, o);
      DeleteRowSound(w, ids[0], now);
      DeleteRowsMovesBytes(w.(t := DeleteRow(w.t, ids[0], now)), ids[1..], now, o);
    }
  }

  /** What an event adds to an owner's charge: the bytes of a row it inserts. */
  ghost function Added(w: World, e: Event, o: Owner): nat {
    if e.Insert? && OwnerOf(e.scope) in w.locks && Charged(o, Some(e.scope.session), e.scope.user)
    then w.locks[OwnerOf(e.scope)] else 0
  }

  /** What an event takes off: the bytes of a record completed under its current lease, or those of an account that is
      deleted. */
  ghost function Released(w: World, e: Event, o: Owner): nat {
    if e.Complete? && HoldsLease(w.t.queue, e.key, e.token) then QueueShare(o, w.t.queue[e.key])
    else if e.DeleteAccount? then Lost(w.t, o, e.user, e.sessions)
    else 0
  }

  /** Sign-ins apart, bytes are charged only by an insertion and released only by a completion or with an account, to
      the byte. */
  lemma ChargeMovesExactly(c: Setup, w: World, e: Event, o: Owner)
    requires Sound(w) && Enabled(c, w, e) && !e.Promote?
    ensures Charge(Next(c, w, e).t, o) + Released(w, e, o) == Charge(w.t, o) + Added(w, e, o)
  {
    hide Sound, Charge, DeleteRows, Promoted, Disowned, Lost, GuestsAlone;
    var n := Next(c, w, e);
    match e {
      case Insert(scope, id, key, kind) =>
        LiveSet(w.t, id, NewAttachment(scope, kind, w.locks[OwnerOf(scope)], key, w.now), o);
      case LinkTo(scope, chat, message, ids) =>
        LinkKeepsCharge(w.t, LinkRows(w.t.live, scope, chat, message, ids), o);
      case Delete(ids) => DeleteRowsMovesBytes(w, ids, w.now, o);
      case Claim(keys, token) =>
        ClaimKeepsCharge(w.t, keys, token, w.now, o);
      case Complete(key, token) =>
        if HoldsLease(w.t.queue, key, token) { RecordReleased(w.t, key, o); }
      case Retry(key, token) =>
        if HoldsLease(w.t.queue, key, token) { QueueSet(w.t, key, n.t.queue[key], o); }
      case EnqueueOrphan(key, bytes) =>
        if n.t.queue != w.t.queue { QueueSet(w.t, key, n.t.queue[key], o); }
      case DeleteAccount(_, _, _) => AccountDeletionReleases(c, w, e, o);
      case _ =>
    }
  }

  lemma LinkKeepsCharge(t: Tables, live: map<Uuid, Attachment>, o: Owner)
    requires live.Keys == t.live.Keys
    requires forall i :: i in live ==> LiveShare(o, live[i]) == LiveShare(o, t.live[i])
    ensures Charge(t.(live := live), o) == Charge(t, o)
  {
    assert LiveShares(live, o) == LiveShares(t.live, o);
  }

  lemma ClaimKeepsCharge(t: Tables, keys: set<Key>, token: Uuid, now: nat, o: Owner)
    ensures Charge(t.(queue := Claimed(t.queue, keys, token, now)), o) == Charge(t, o)
  {
    assert QueueShares(Claimed(t.queue, keys, token, now), o) == QueueShares(t.queue, o);
  }

  lemma RecordReleased(t: Tables, key: Key, o: Owner)
    requires key in t.queue
    ensures Charge(t.(queue := t.queue - {key}), o) + QueueShare(o, t.queue[key]) == Charge(t, o)
  {
    QueueShareRemoved(t.queue, key, o);
  }

  // ----- the quota -----

  /** Bytes an owner's running creation has been admitted for. */
  function Promised(w: World, o: Owner): nat {
    if o in w.locks then w.locks[o] else 0
  }

  ghost predicate Within(c: Setup, w: World, o: Owner) {
    Charge(w.t, o) + Promised(w, o) <= c.quota
  }

  /** Owners that exist: guest sessions, and accounts. */
  predicate Owning(c: Setup, o: Owner) {
    o.Guest? ==> o.session in c.guests
  }

  /** Rows and records of guest sessions belong to no account. */
  ghost predicate GuestsAlone(c: Setup, t: Tables) {
    && (forall i :: i in t.live && t.live[i].session in c.guests ==> t.live[i].user.None?)
    && (forall k :: k in t.queue && t.queue[k].session.Some? && t.queue[k].session.value in c.guests ==>
          t.queue[k].user.None?)
  }

  lemma {:induction false} DeleteRowsGuestsAlone(c: Setup, w: World, ids: seq<Uuid>, now: nat)
    requires Sound(w) && GuestsAlone(c, w.t)
    ensures GuestsAlone(c, DeleteRows(w.t, ids, now))
    decreases ids
  {
    if ids != [] {
      DeleteRowSound(w, ids[0], now);
      DeleteRowsGuestsAlone(c, w.(t := DeleteRow(w.t, ids[0], now)), ids[1..], now);
    }
  }

  lemma StepGuestsAlone(c: Setup, w: World, e: Event)
    requires Sound(w) && GuestsAlone(c, w.t) && Enabled(c, w, e)
    ensures GuestsAlone(c, Next(c, w, e).t)
  {
    hide Sound;
    if e.Delete? || e.DeleteAccount? { DeleteRowsGuestsAlone(c, w, e.gone, w.now); }
  }

  lemma PromotionMovesLive(c: Setup, t: Tables, session: Uuid, user: Uuid, replacement: Uuid)
    requires GuestsAlone(c, t) && session in c.guests && replacement !in c.guests
    ensures var live := Promoted(t, session, user, replacement).live;
            && Sum(LiveShares(live, Account(user)))
                  == Sum(LiveShares(t.live, Account(user))) + Sum(LiveShares(t.live, Guest(session)))
            && Sum(LiveShares(live, Guest(session))) == 0
  {
    hide Sum, Charge;
    var live := Promoted(t, session, user, replacement).live;
    SumAdds(LiveShares(t.live, Account(user)), LiveShares(t.live, Guest(session)), LiveShares(live, Account(user)));
    SumZero(LiveShares(live, Guest(session)));
  }

  lemma PromotionMovesQueue(c: Setup, t: Tables, session: Uuid, user: Uuid, replacement: Uuid)
    requires GuestsAlone(c, t) && session in c.guests && replacement !in c.guests
    ensures var queue := Promoted(t, session, user, replacement).queue;
            && Sum(QueueShares(queue, Account(user)))
                  == Sum(QueueShares(t.queue, Account(user))) + Sum(QueueShares(t.queue, Guest(session)))
            && Sum(QueueShares(queue, Guest(session))) == 0
  {
    hide Sum, Charge;
    var queue := Promoted(t, session, user, replacement).queue;
    SumAdds(QueueShares(t.queue, Account(user)), QueueShares(t.queue, Guest(session)),
            QueueShares(queue, Account(user)));
    SumZero(QueueShares(queue, Guest(session)));
  }

  lemma PromotionSpares(c: Setup, t: Tables, session: Uuid, user: Uuid, replacement: Uuid, o: Owner)
    requires session in c.guests && replacement !in c.guests
    requires Owning(c, o) && o != Account(user) && o != Guest(session)
    ensures Charge(Promoted(t, session, user, replacement), o) == Charge(t, o)
  {
    hide Sum;
    var n := Promoted(t, session, user, replacement);
    assert LiveShares(n.live, o) == LiveShares(t.live, o);
    assert QueueShares(n.queue, o) == QueueShares(t.queue, o);
  }

  /** Signing in adds the guest's charge to the account's, leaves the guest nothing, and spares everyone else. */
  lemma PromotionMovesCharge(c: Setup, t: Tables, session: Uuid, user: Uuid, replacement: Uuid)
    requires GuestsAlone(c, t) && session in c.guests && replacement !in c.guests
    ensures var n := Promoted(t, session, user, replacement);
            && Charge(n, Account(user)) == Charge(t, Account(user)) + Charge(t, Guest(session))
            && Charge(n, Guest(session)) == 0
            && forall o :: Owning(c, o) && o != Account(user) && o != Guest(session) ==> Charge(n, o) == Charge(t, o)
  {
    hide GuestsAlone, Promoted, Sum;
    PromotionMovesLive(c, t, session, user, replacement);
    PromotionMovesQueue(c, t, session, user, replacement);
    forall o | Owning(c, o) && o != Account(user) && o != Guest(session)
      ensures Charge(Promoted(t, session, user, replacement), o) == Charge(t, o)
    {
      PromotionSpares(c, t, session, user, replacement, o);
    }
  }

  // ----- account deletion -----

  /** What an account deletion takes off an owner: bytes of rows and records of the account or of its sessions. */
  function LostShare(o: Owner, session: Option<Uuid>, user: Option<Uuid>, bytes: nat,
                     account: Uuid, sessions: set<Uuid>): nat
  {
    if BelongsTo(session, user, account, sessions) && Charged(o, session, user) then bytes else 0
  }

  ghost function LostLive(live: map<Uuid, Attachment>, o: Owner, account: Uuid, sessions: set<Uuid>): map<Uuid, nat> {
    map i | i in live :: LostShare(o, Some(live[i].session), live[i].user, live[i].bytes, account, sessions)
  }

  ghost function LostQueue(queue: map<Key, Deletion>, o: Owner, account: Uuid, sessions: set<Uuid>): map<Key, nat> {
    map k | k in queue :: LostShare(o, queue[k].session, queue[k].user, queue[k].bytes, account, sessions)
  }

  ghost function Lost(t: Tables, o: Owner, account: Uuid, sessions: set<Uuid>): nat {
    Sum(LostLive(t.live, o, account, sessions)) + Sum(LostQueue(t.queue, o, account, sessions))
  }

  /** Disowning takes exactly the account's queued bytes off. */
  lemma DisowningTakesOff(t: Tables, user: Uuid, sessions: set<Uuid>, now: nat, o: Owner)
    ensures Charge(t.(queue := Disowned(t.queue, user, sessions, now)), o)
            + Sum(LostQueue(t.queue, o, user, sessions)) == Charge(t, o)
  {
    SumAdds(QueueShares(Disowned(t.queue, user, sessions, now), o), LostQueue(t.queue, o, user, sessions),
            QueueShares(t.queue, o));
  }

  /** Deleting a row moves what it would lose to the queue. */
  lemma DeleteRowMovesLost(t: Tables, hands: map<(Key, Uuid), Phase>, id: Uuid, now: nat,
                           o: Owner, account: Uuid, sessions: set<Uuid>)
    requires Apart(t, hands)
    ensures Lost(DeleteRow(t, id, now), o, account, sessions) == Lost(t, o, account, sessions)
  {
    if id in t.live {
      DeleteRowIsFresh(t, hands, id, now);
      LostLiveRemoved(t.live, id, o, account, sessions);
      LostQueueAdded(t.queue, t.live[id].key, DeleteRow(t, id, now).queue[t.live[id].key], o, account, sessions);
    }
  }

  lemma LostLiveRemoved(live: map<Uuid, Attachment>, i: Uuid, o: Owner, account: Uuid, sessions: set<Uuid>)
    requires i in live
    ensures Sum(LostLive(live, o, account, sessions)) == Sum(LostLive(live - {i}, o, account, sessions))
            + LostShare(o, Some(live[i].session), live[i].user, live[i].bytes, account, sessions)
  {
    SumRemove(LostLive(live, o, account, sessions), i);
    assert LostLive(live - {i}, o, account, sessions) == LostLive(live, o, account, sessions) - {i};
  }

  lemma LostQueueAdded(queue: map<Key, Deletion>, k: Key, d: Deletion, o: Owner, account: Uuid, sessions: set<Uuid>)
    requires k !in queue
    ensures Sum(LostQueue(queue[k := d], o, account, sessions)) == Sum(LostQueue(queue, o, account, sessions))
            + LostShare(o, d.session, d.user, d.bytes, account, sessions)
  {
    var share := LostShare(o, d.session, d.user, d.bytes, account, sessions);
    SumSet(LostQueue(queue, o, account, sessions), k, share);
    assert LostQueue(queue[k := d], o, account, sessions) == LostQueue(queue, o, account, sessions)[k := share];
  }

  lemma {:induction false} DeleteRowsMovesLost(w: World, ids: seq<Uuid>, now: nat, o: Owner, account: Uuid,
                                               sessions: set<Uuid>)
    requires Sound(w)
    ensures Lost(DeleteRows(w.t, ids, now), o, account, sessions) == Lost(w.t, o, account, sessions)
    decreases ids
  {
    if ids != [] {
      DeleteRowMovesLost(w.t, w.hands, ids[0], now, o, account, sessions);
      DeleteRowSound(w, ids[0], now);
      hide Sound, Lost;
      DeleteRowsMovesLost(w.(t := DeleteRow(w.t, ids[0], now)), ids[1..], now, o, account, sessions);
    }
  }

  lemma {:induction false} DeletedAreGone(t: Tables, ids: seq<Uuid>, now: nat)
    ensures DeleteRows(t, ids, now).live == t.live - (set i | i in ids)
    decreases ids
  {
    if ids != [] {
      DeletedAreGone(DeleteRow(t, ids[0], now), ids[1..], now);
    }
  }

  /** Once its rows are deleted, an account has nothing live to lose. */
  lemma NothingLiveToLose(c: Setup, w: World, e: Event, o: Owner)
    requires e.DeleteAccount? && Enabled(c, w, e)
    ensures Sum(LostLive(DeleteRows(w.t, e.gone, w.now).live, o, e.user, e.sessions)) == 0
  {
    DeletedAreGone(w.t, e.gone, w.now);
    var live := DeleteRows(w.t, e.gone, w.now).live;
    forall i | i in live ensures LostLive(live, o, e.user, e.sessions)[i] == 0 {
      assert i !in AccountRows(w.t.live, e.user, e.sessions);
    }
    SumZero(LostLive(live, o, e.user, e.sessions));
  }

  /** An account deletion takes exactly the bytes of the account and its sessions off every owner's charge: the account
      is left with nothing, and guests keep theirs. */
  lemma AccountDeletionReleases(c: Setup, w: World, e: Event, o: Owner)
    requires Sound(w) && e.DeleteAccount? && Enabled(c, w, e)
    ensures var n := Next(c, w, e);
            && Charge(n.t, o) + Lost(w.t, o, e.user, e.sessions) == Charge(w.t, o)
            && (o == Account(e.user) ==> Charge(n.t, o) == 0)
            && (GuestsAlone(c, w.t) && o.Guest? && Owning(c, o) ==> Charge(n.t, o) == Charge(w.t, o))
  {
    hide Sound, Charge, GuestsAlone;
    var t := DeleteRows(w.t, e.gone, w.now);
    DeleteRowsMovesBytes(w, e.gone, w.now, o);
    DeleteRowsMovesLost(w, e.gone, w.now, o, e.user, e.sessions);
    NothingLiveToLose(c, w, e, o);
    DisowningTakesOff(t, e.user, e.sessions, w.now, o);
    if o == Account(e.user) { AccountLosesAll(w.t, e.user, e.sessions); }
    if GuestsAlone(c, w.t) && o.Guest? && Owning(c, o) { GuestsLoseNothing(c, w.t, o, e.user, e.sessions); }
    hide Lost, DeleteRows, Disowned;
  }

  lemma AccountLosesAll(t: Tables, user: Uuid, sessions: set<Uuid>)
    ensures Lost(t, Account(user), user, sessions) == Charge(t, Account(user))
  {
    assert LostLive(t.live, Account(user), user, sessions) == LiveShares(t.live, Account(user));
    assert LostQueue(t.queue, Account(user), user, sessions) == QueueShares(t.queue, Account(user));
  }

  lemma GuestsLoseNothing(c: Setup, t: Tables, o: Owner, user: Uuid, sessions: set<Uuid>)
    requires GuestsAlone(c, t) && o.Guest? && Owning(c, o) && sessions !! c.guests
    ensures Lost(t, o, user, sessions) == 0
  {
    SumZero(LostLive(t.live, o, user, sessions));
    SumZero(LostQueue(t.queue, o, user, sessions));
  }

  /** Whether a sign-in leaves its account within the quota; every other event does on its own. */
  ghost predicate Fits(c: Setup, w: World, e: Event) {
    e.Promote? ==>
      Charge(w.t, Account(e.user)) + Charge(w.t, Guest(e.session)) + Promised(w, Account(e.user)) <= c.quota
  }

  ghost predicate AllWithin(c: Setup, w: World) {
    forall o :: Owning(c, o) ==> Within(c, w, o)
  }

  lemma PromotionWithin(c: Setup, w: World, e: Event)
    requires AllWithin(c, w) && GuestsAlone(c, w.t) && Enabled(c, w, e) && e.Promote?
    ensures AllWithin(c, Next(c, w, e)) <==> Fits(c, w, e)
  {
    hide GuestsAlone, Charge;
    PromotionMovesCharge(c, w.t, e.session, e.user, e.replacement);
    var n := Next(c, w, e);
    assert Owning(c, Account(e.user)) && Owning(c, Guest(e.session));
    if AllWithin(c, n) {
      assert Within(c, n, Account(e.user));
    }
    if Fits(c, w, e) {
      forall o | Owning(c, o) ensures Within(c, n, o) {
        assert Within(c, w, o);
      }
    }
  }

  lemma OtherStepWithin(c: Setup, w: World, e: Event, o: Owner)
    requires Sound(w) && Within(c, w, o) && Owning(c, o) && Enabled(c, w, e) && !e.Promote?
    ensures Within(c, Next(c, w, e), o)
  {
    hide Sound, Charge;
    ChargeMovesExactly(c, w, e, o);
    if e.Insert? {
      assert Added(w, e, o) > 0 ==> o == OwnerOf(e.scope);
    }
  }

  /** An event keeps every owner within the quota if and only if it is not a sign-in that brings together
      more than the quota allows. */
  lemma StepWithinExactly(c: Setup, w: World, e: Event)
    requires Sound(w) && AllWithin(c, w) && GuestsAlone(c, w.t) && Enabled(c, w, e)
    ensures AllWithin(c, Next(c, w, e)) <==> Fits(c, w, e)
  {
    hide Sound, GuestsAlone, Within;
    if e.Promote? {
      PromotionWithin(c, w, e);
    } else {
      forall o | Owning(c, o) ensures Within(c, Next(c, w, e), o) {
        OtherStepWithin(c, w, e, o);
      }
    }
  }

  ghost predicate AlwaysFits(c: Setup, w: World, es: seq<Event>)
    decreases es
  {
    es == [] || (Fits(c, w, es[0]) && AlwaysFits(c, Next(c, w, es[0]), es[1..]))
  }

  /** Over any run, creations of one owner taking turns under its lock and everything else interleaving
      with them: live bytes plus bytes waiting for deletion plus bytes being created stay within the quota. */
  lemma {:induction false} RunWithin(c: Setup, w: World, es: seq<Event>)
    requires Sound(w) && AllWithin(c, w) && GuestsAlone(c, w.t)
    requires Legal(c, w, es) && AlwaysFits(c, w, es)
    ensures AllWithin(c, Run(c, w, es))
    decreases es
  {
    if es != [] {
      StepSound(c, w, es[0]);
      StepGuestsAlone(c, w, es[0]);
      StepWithinExactly(c, w, es[0]);
      hide Sound, AllWithin, GuestsAlone;
      RunWithin(c, Next(c, w, es[0]), es[1..]);
    }
  }

  lemma EveryRunWithin(c: Setup, es: seq<Event>)
    requires Legal(c, START, es) && AlwaysFits(c, START, es)
    ensures AllWithin(c, Run(c, START, es))
  {
    RunWithin(c, START, es);
  }

  // ----- from admission to charge -----

  /** Events that begin, finish or give up a creation of this owner. */
  predicate Creates(e: Event, o: Owner) {
    (e.BeginCreate? || e.Insert? || e.Abandon?) && OwnerOf(e.scope) == o
  }

  predicate NoneCreates(es: seq<Event>, o: Owner) {
    forall i :: 0 <= i < |es| ==> !Creates(es[i], o)
  }

  lemma {:induction false} LockStays(c: Setup, w: World, es: seq<Event>, o: Owner)
    requires NoneCreates(es, o)
    ensures var n := Run(c, w, es);
            && (o in n.locks <==> o in w.locks)
            && (o in w.locks ==> n.locks[o] == w.locks[o])
    decreases es
  {
    if es != [] {
      assert !Creates(es[0], o);
      assert forall i :: 0 <= i < |es[1..]| ==> es[1..][i] == es[i + 1];
      LockStays(c, Next(c, w, es[0]), es[1..], o);
    }
  }

  /** Whatever interleaves between the check of a creation and its insertion, other than another creation of the same
      owner, the insertion can take place if and only if the check found room for the bytes, and it then adds exactly
      those bytes to the owner's charge, which stays within the quota. */
  lemma AdmittedExactly(c: Setup, w: World, scope: Scope, bytes: nat, es: seq<Event>, id: Uuid, key: Key, kind: Kind)
    requires Sound(w) && AllWithin(c, w) && GuestsAlone(c, w.t) && Enabled(c, w, BeginCreate(scope, bytes))
    requires var n := Next(c, w, BeginCreate(scope, bytes));
             && Legal(c, n, es) && AlwaysFits(c, n, es) && NoneCreates(es, OwnerOf(scope))
             && id !in Run(c, n, es).t.live && key !in Run(c, n, es).used
    ensures var o := OwnerOf(scope);
            var m := Run(c, Next(c, w, BeginCreate(scope, bytes)), es);
            && (Enabled(c, m, Insert(scope, id, key, kind)) <==> Charge(w.t, o) + bytes <= c.quota)
            && (Enabled(c, m, Insert(scope, id, key, kind)) ==>
                  && Charge(Next(c, m, Insert(scope, id, key, kind)).t, o) == Charge(m.t, o) + bytes
                  && Charge(m.t, o) + bytes <= c.quota)
  {
    var o, e := OwnerOf(scope), BeginCreate(scope, bytes);
    var n := Next(c, w, e);
    var m := Run(c, n, es);
    LockStays(c, n, es, o);
    StepSound(c, w, e);
    StepGuestsAlone(c, w, e);
    StepWithinExactly(c, w, e);
    RunSound(c, n, es);
    RunWithin(c, n, es);
    assert Owning(c, o);
    assert Within(c, m, o);
    hide Sound, AllWithin, GuestsAlone, Run, Legal, AlwaysFits, Charge;
    if Enabled(c, m, Insert(scope, id, key, kind)) {
      ChargeMovesExactly(c, m, Insert(scope, id, key, kind), o);
    }
  }

  // ----- a sign-in can exceed the quota -----

  const SIGN_IN := Setup({1}, 100)
  const TWO_UPLOADS := [
    BeginCreate(Scope(1, None), 60), Insert(Scope(1, None), 10, 20, 0),
    BeginCreate(Scope(2, Some(7)), 60), Insert(Scope(2, Some(7)), 11, 21, 0)]

  const GUEST_FILE := Attachment(1, None, None, None, 0, 60, 20, 0)
  const ACCOUNT_FILE := Attachment(2, Some(7), None, None, 0, 60, 21, 0)

  lemma ChargesOfTwoUploads(o: Owner)
    ensures Charge(START.t, o) == 0
    ensures Charge(Tables(map[10 := GUEST_FILE], map[]), o) == LiveShare(o, GUEST_FILE)
    ensures Charge(Tables(map[10 := GUEST_FILE, 11 := ACCOUNT_FILE], map[]), o)
            == LiveShare(o, GUEST_FILE) + LiveShare(o, ACCOUNT_FILE)
  {
    hide Charge;
    NothingCharged(o);
    var one := Tables(map[10 := GUEST_FILE], map[]);
    assert START.t.(live := START.t.live[10 := GUEST_FILE]) == one;
    LiveSet(START.t, 10, GUEST_FILE, o);
    assert one.(live := one.live[11 := ACCOUNT_FILE]) == Tables(map[10 := GUEST_FILE, 11 := ACCOUNT_FILE], map[]);
    LiveSet(one, 11, ACCOUNT_FILE, o);
  }

  lemma {:induction false} RunStep(c: Setup, w: World, e: Event, es: seq<Event>)
    requires Enabled(c, w, e) && Legal(c, Next(c, w, e), es) && Fits(c, w, e) && AlwaysFits(c, Next(c, w, e), es)
    ensures Run(c, w, [e] + es) == Run(c, Next(c, w, e), es)
    ensures Legal(c, w, [e] + es) && AlwaysFits(c, w, [e] + es)
  {
    assert ([e] + es)[1..] == es;
  }

  /** One upload of 60 bytes by guest session 1 and one by account 7 under a quota of 100: each fits, but signing
      in to the account brings 120 bytes together. */
  lemma SignInCanExceedTheQuota()
    ensures Legal(SIGN_IN, START, TWO_UPLOADS) && AlwaysFits(SIGN_IN, START, TWO_UPLOADS)
    ensures var w := Run(SIGN_IN, START, TWO_UPLOADS);
            Enabled(SIGN_IN, w, Promote(1, 7, 3)) && !AllWithin(SIGN_IN, Next(SIGN_IN, w, Promote(1, 7, 3)))
  {
    hide Charge, Run, Legal, AlwaysFits;
    var c, es := SIGN_IN, TWO_UPLOADS;
    ChargesOfTwoUploads(Guest(1));
    ChargesOfTwoUploads(Account(7));
    var w1 := Next(c, START, es[0]);
    var w2 := Next(c, w1, es[1]);
    assert w2.t == Tables(map[10 := GUEST_FILE], map[]);
    var w3 := Next(c, w2, es[2]);
    var w4 := Next(c, w3, es[3]);
    assert w4.t == Tables(map[10 := GUEST_FILE, 11 := ACCOUNT_FILE], map[]);
    RunEmpty(c, w4);
    RunStep(c, w3, es[3], []);
    RunStep(c, w2, es[2], [es[3]] + []);
    RunStep(c, w1, es[1], [es[2]] + ([es[3]] + []));
    RunStep(c, START, es[0], [es[1]] + ([es[2]] + ([es[3]] + [])));
    assert es == [es[0]] + ([es[1]] + ([es[2]] + ([es[3]] + [])));
    PromotionMovesCharge(c, w4.t, 1, 7, 3);
    assert Owning(c, Account(7));
    assert !Within(c, Next(c, w4, Promote(1, 7, 3)), Account(7));
  }

  lemma RunEmpty(c: Setup, w: World)
    ensures Run(c, w, []) == w && Legal(c, w, []) && AlwaysFits(c, w, [])
  {
  }
}
