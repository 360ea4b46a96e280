/** What leases, retries and attempt counts promise over time. */
module AttachmentLeases {
  import opened Basics
  import opened AttachmentTables
  import opened AttachmentWorld
  import opened AttachmentSafety

  /** An account deletion that owns the record: it clears the lease and makes the record due at once. */
  predicate Disowns(w: World, e: Event, key: Key) {
    e.DeleteAccount? && key in w.t.queue && BelongsTo(w.t.queue[key].session, w.t.queue[key].user, e.user, e.sessions)
  }

  /** In sound tables, deleting rows never touches a record that is already queued. */
  lemma {:induction false} DeleteRowsKeepsRecord(w: World, ids: seq<Uuid>, now: nat, key: Key)
    requires Sound(w) && key in w.t.queue
    ensures var q := DeleteRows(w.t, ids, now).queue; key in q && q[key] == w.t.queue[key]
    decreases ids
  {
    if ids != [] {
      DeleteRowSound(w, ids[0], now);
      if ids[0] in w.t.live { DeleteRowIsFresh(w.t, w.hands, ids[0], now); }
      DeleteRowsKeepsRecord(w.(t := DeleteRow(w.t, ids[0], now)), ids[1..], now, key);
    }
  }

  /** What an account deletion does to a queued record. */
  lemma AccountDeletionOnRecord(c: Setup, w: World, e: Event, key: Key)
    requires Sound(w) && key in w.t.queue && e.DeleteAccount?
    ensures var q := Next(c, w, e).t.queue;
            && key in q
            && q[key] == if Disowns(w, e, key)
                         then w.t.queue[key].(session := None, user := None, nextAttempt := w.now, lease := None)
                         else w.t.queue[key]
  {
    DeleteRowsKeepsRecord(w, e.gone, w.now, key);
  }

  lemma TimePasses(c: Setup, w: World, e: Event)
    ensures w.now <= Next(c, w, e).now
  {
    hide DeleteRows, LinkRows, Claimed, Promoted, Disowned, Charge;
  }

  lemma {:induction false} RunTimePasses(c: Setup, w: World, es: seq<Event>)
    ensures w.now <= Run(c, w, es).now
    decreases es
  {
    if es != [] {
      TimePasses(c, w, es[0]);
      RunTimePasses(c, Next(c, w, es[0]), es[1..]);
    }
  }

  // ----- a lease excludes everybody else until it runs out -----

  ghost predicate LeasedUntil(w: World, key: Key, token: Uuid, until: nat) {
    HoldsLease(w.t.queue, key, token) && w.t.queue[key].lease.value.expires == until
  }

  /** The holder completes or retries, or an account deletion disowns the record. */
  predicate GivesUp(w: World, e: Event, key: Key, token: Uuid) {
    e == Complete(key, token) || e == Retry(key, token) || Disowns(w, e, key)
  }

  /** Before it expires, an event ends a lease if and only if it gives the record up. */
  lemma LeaseStep(c: Setup, w: World, e: Event, key: Key, token: Uuid, until: nat)
    requires Sound(w) && LeasedUntil(w, key, token, until) && w.now < until && Enabled(c, w, e)
    ensures LeasedUntil(Next(c, w, e), key, token, until) <==> !GivesUp(w, e, key, token)
  {
    hide Sound;
    if e.Delete? { DeleteRowsKeepsRecord(w, e.gone, w.now, key); }
    if e.DeleteAccount? { AccountDeletionOnRecord(c, w, e, key); }
  }

  ghost predicate NeverGivesUp(c: Setup, w: World, es: seq<Event>, key: Key, token: Uuid)
    decreases es
  {
    es == [] || (!GivesUp(w, es[0], key, token) && NeverGivesUp(c, Next(c, w, es[0]), es[1..], key, token))
  }

  /** The token holds the lease, or was issued and lost it. */
  lemma LeaseLost(c: Setup, w: World, e: Event, key: Key, token: Uuid, until: nat)
    requires Sound(w) && LeasedUntil(w, key, token, until) && Enabled(c, w, e) && GivesUp(w, e, key, token)
    ensures Overtaken(Next(c, w, e), key, token)
  {
    assert token in w.tokens;
    hide Sound;
    if e.DeleteAccount? { AccountDeletionOnRecord(c, w, e, key); }
  }

  lemma {:induction false} OvertakenRun(c: Setup, w: World, es: seq<Event>, key: Key, token: Uuid)
    requires Overtaken(w, key, token) && Legal(c, w, es)
    ensures Overtaken(Run(c, w, es), key, token)
    decreases es
  {
    if es != [] {
      OvertakenStep(c, w, es[0], key, token);
      OvertakenRun(c, Next(c, w, es[0]), es[1..], key, token);
    }
  }

  /** Over any run that ends before the lease expires, the lease stands at the end if and only if no event of the run
      gave the record up: its holder's own completion or retry, or the deletion of the account that owned it. */
  lemma {:induction false} LeaseIsExclusive(c: Setup, w: World, es: seq<Event>, key: Key, token: Uuid, until: nat)
    requires Sound(w) && LeasedUntil(w, key, token, until) && Legal(c, w, es) && Run(c, w, es).now < until
    ensures LeasedUntil(Run(c, w, es), key, token, until) <==> NeverGivesUp(c, w, es, key, token)
    decreases es
  {
    if es != [] {
      var n := Next(c, w, es[0]);
      RunTimePasses(c, w, es);
      LeaseStep(c, w, es[0], key, token, until);
      StepSound(c, w, es[0]);
      if GivesUp(w, es[0], key, token) {
        LeaseLost(c, w, es[0], key, token, until);
        OvertakenRun(c, n, es[1..], key, token);
        assert !LeasedUntil(Run(c, n, es[1..]), key, token, until);
      } else {
        hide LeasedUntil, GivesUp, Sound;
        LeaseIsExclusive(c, n, es[1..], key, token, until);
      }
    }
  }

  /** Within fifteen minutes of a claim, the claimer still holds a record exactly if nothing gave it up. */
  lemma ClaimLastsFifteenMinutes(c: Setup, w: World, keys: set<Key>, token: Uuid, es: seq<Event>, key: Key)
    requires Sound(w) && Enabled(c, w, Claim(keys, token)) && key in keys
    requires var n := Next(c, w, Claim(keys, token)); Legal(c, n, es) && Run(c, n, es).now < w.now + 15 * 60
    ensures var n := Next(c, w, Claim(keys, token));
            HoldsLease(Run(c, n, es).t.queue, key, token) <==> NeverGivesUp(c, n, es, key, token)
  {
    var n := Next(c, w, Claim(keys, token));
    ClaimSound(c, w, keys, token);
    assert LeasedUntil(n, key, token, w.now + LEASE_SECONDS);
    LeaseIsExclusive(c, n, es, key, token, w.now + LEASE_SECONDS);
    if !NeverGivesUp(c, n, es, key, token) { GivenUpIsOvertaken(c, n, es, key, token, w.now + LEASE_SECONDS); }
  }

  lemma {:induction false} GivenUpIsOvertaken(c: Setup, w: World, es: seq<Event>, key: Key, token: Uuid, until: nat)
    requires Sound(w) && LeasedUntil(w, key, token, until) && Legal(c, w, es) && Run(c, w, es).now < until
    requires !NeverGivesUp(c, w, es, key, token)
    ensures !HoldsLease(Run(c, w, es).t.queue, key, token)
    decreases es
  {
    var n := Next(c, w, es[0]);
    RunTimePasses(c, w, es);
    LeaseStep(c, w, es[0], key, token, until);
    StepSound(c, w, es[0]);
    if GivesUp(w, es[0], key, token) {
      LeaseLost(c, w, es[0], key, token, until);
      OvertakenRun(c, n, es[1..], key, token);
    } else {
      GivenUpIsOvertaken(c, n, es[1..], key, token, until);
    }
  }

  // ----- a failed removal waits -----

  /** The record is free but not due before `until`. */
  ghost predicate Waiting(w: World, key: Key, until: nat) {
    key in w.t.queue && w.t.queue[key].lease.None? && w.t.queue[key].nextAttempt >= until
  }

  /** Before `until`, an event ends the wait if and only if it deletes the account that owns the record. */
  lemma WaitingStep(c: Setup, w: World, e: Event, key: Key, until: nat)
    requires Sound(w) && Waiting(w, key, until) && w.now < until && Enabled(c, w, e)
    ensures Waiting(Next(c, w, e), key, until) <==> !Disowns(w, e, key)
  {
    hide Sound;
    if e.Delete? { DeleteRowsKeepsRecord(w, e.gone, w.now, key); }
    if e.DeleteAccount? { AccountDeletionOnRecord(c, w, e, key); }
  }

  ghost predicate NeverDisowned(c: Setup, w: World, es: seq<Event>, key: Key)
    decreases es
  {
    es == [] || (!Disowns(w, es[0], key) && NeverDisowned(c, Next(c, w, es[0]), es[1..], key))
  }

  /** The record waits in every state of the run. */
  ghost predicate AlwaysWaiting(c: Setup, w: World, es: seq<Event>, key: Key, until: nat)
    decreases es
  {
    Waiting(w, key, until) && (es == [] || AlwaysWaiting(c, Next(c, w, es[0]), es[1..], key, until))
  }

  lemma {:induction false} WaitingRun(c: Setup, w: World, es: seq<Event>, key: Key, until: nat)
    requires Sound(w) && Waiting(w, key, until) && Legal(c, w, es) && Run(c, w, es).now < until
    ensures AlwaysWaiting(c, w, es, key, until) <==> NeverDisowned(c, w, es, key)
    ensures NeverDisowned(c, w, es, key) ==> Waiting(Run(c, w, es), key, until)
    decreases es
  {
    if es != [] {
      RunTimePasses(c, w, es);
      WaitingStep(c, w, es[0], key, until);
      StepSound(c, w, es[0]);
      hide Waiting, Sound, Disowns;
      if Waiting(Next(c, w, es[0]), key, until) { WaitingRun(c, Next(c, w, es[0]), es[1..], key, until); }
    }
  }

  /** After a failed removal the record waits throughout the following hour if and only if the account that owns it is
      not deleted meanwhile; while it waits nobody can claim it. */
  lemma RetryWaitsAnHour(c: Setup, w: World, key: Key, token: Uuid, es: seq<Event>)
    requires Sound(w) && Enabled(c, w, Retry(key, token)) && HoldsLease(w.t.queue, key, token)
    requires var n := Next(c, w, Retry(key, token)); Legal(c, n, es) && Run(c, n, es).now < w.now + 60 * 60
    ensures var n := Next(c, w, Retry(key, token));
            && (AlwaysWaiting(c, n, es, key, w.now + 60 * 60) <==> NeverDisowned(c, n, es, key))
            && (NeverDisowned(c, n, es, key) ==>
                  var m := Run(c, n, es); key in m.t.queue && !Ready(m.t.queue[key], m.now))
  {
    var n := Next(c, w, Retry(key, token));
    StepSound(c, w, Retry(key, token));
    hide Sound;
    assert Waiting(n, key, w.now + RETRY_SECONDS);
    WaitingRun(c, n, es, key, w.now + RETRY_SECONDS);
  }

  /** Deleting the account makes its records claimable at once, whatever lease or wait they were under. */
  lemma DisownedIsReady(c: Setup, w: World, e: Event, key: Key)
    requires Sound(w) && Disowns(w, e, key)
    ensures var n := Next(c, w, e); key in n.t.queue && Ready(n.t.queue[key], n.now)
  {
    AccountDeletionOnRecord(c, w, e, key);
    TimePasses(c, w, e);
    hide Sound, DeleteRows, Disowned;
  }

  // ----- a run in which an account deletion ends a lease and a wait -----

  const ACCOUNTS := Setup({1}, 100)
  const QUEUED := [
    BeginCreate(Scope(2, Some(7)), 5), Insert(Scope(2, Some(7)), 10, 20, 0), Delete([10]), Claim({20}, 30)]

  /** Account 7's record, leased under token 30 at time 0. */
  const LEASED := START.(
    t := Tables(map[], map[20 := Deletion(5, Some(2), Some(7), 1, 0, Some(Lease(30, LEASE_SECONDS)), 0)]),
    used := {20}, writing := {20}, tokens := {30}, hands := map[(20, 30) := Held])

  lemma LeasedIsReachable()
    ensures Legal(ACCOUNTS, START, QUEUED) && Run(ACCOUNTS, START, QUEUED) == LEASED
  {
    hide Run, Legal, Charge;
    var c, es := ACCOUNTS, QUEUED;
    NothingCharged(Account(7));
    var w1 := Next(c, START, es[0]);
    assert w1 == START.(locks := map[Account(7) := 5]);
    var w2 := Next(c, w1, es[1]);
    var a := NewAttachment(Scope(2, Some(7)), 0, 5, 20, 0);
    assert w2 == START.(t := Tables(map[10 := a], map[]), used := {20}, writing := {20});
    var w3 := Next(c, w2, es[2]);
    var d := Deletion(5, Some(2), Some(7), 0, 0, None, 0);
    assert w3 == START.(t := Tables(map[], map[20 := d]), used := {20}, writing := {20}) by {
      assert DeleteRows(w2.t, [10], 0) == DeleteRow(w2.t, 10, 0);
    }
    var w4 := Next(c, w3, es[3]);
    assert w4 == LEASED;
    RunNone(c, w4);
    RunCons(c, w3, es[3], []);
    RunCons(c, w2, es[2], [es[3]] + []);
    RunCons(c, w1, es[1], [es[2]] + ([es[3]] + []));
    RunCons(c, START, es[0], [es[1]] + ([es[2]] + ([es[3]] + [])));
    assert es == [es[0]] + ([es[1]] + ([es[2]] + ([es[3]] + [])));
  }

  const ACCOUNT_DELETION := DeleteAccount(7, {2}, [])

  /** From that reachable state, without any time passing, deleting account 7 ends the lease and another worker claims
      the record. */
  lemma AccountDeletionEndsALease()
    ensures Legal(ACCOUNTS, START, QUEUED) && Run(ACCOUNTS, START, QUEUED) == LEASED
    ensures var deleted := Next(ACCOUNTS, LEASED, ACCOUNT_DELETION);
            && HoldsLease(LEASED.t.queue, 20, 30) && Enabled(ACCOUNTS, LEASED, ACCOUNT_DELETION)
            && Enabled(ACCOUNTS, deleted, Claim({20}, 31))
            && HoldsLease(Next(ACCOUNTS, deleted, Claim({20}, 31)).t.queue, 20, 31)
  {
    LeasedIsReachable();
    hide Run, Legal;
    assert AccountRows(LEASED.t.live, 7, {2}) == {};
  }

  /** If the worker fails and retries instead, deleting the account ends the hour's wait as well. */
  lemma AccountDeletionEndsAWait()
    ensures var failed := Next(ACCOUNTS, LEASED, RemoveFails(20, 30));
            var waiting := Next(ACCOUNTS, failed, Retry(20, 30));
            && Enabled(ACCOUNTS, LEASED, RemoveFails(20, 30)) && Enabled(ACCOUNTS, failed, Retry(20, 30))
            && Waiting(waiting, 20, RETRY_SECONDS) && Enabled(ACCOUNTS, waiting, ACCOUNT_DELETION)
            && Enabled(ACCOUNTS, Next(ACCOUNTS, waiting, ACCOUNT_DELETION), Claim({20}, 31))
  {
    assert AccountRows(LEASED.t.live, 7, {2}) == {};
  }

  // ----- attempts -----

  /** How often a run claims a key. */
  function ClaimsOf(es: seq<Event>, key: Key): nat {
    if es == [] then 0 else (if es[0].Claim? && key in es[0].wanted then 1 else 0) + ClaimsOf(es[1..], key)
  }

  lemma {:induction false} DeleteRowsKeepsAttempts(t: Tables, ids: seq<Uuid>, now: nat, key: Key)
    requires key in t.queue
    ensures var q := DeleteRows(t, ids, now).queue; key in q && q[key].attempts == t.queue[key].attempts
    decreases ids
  {
    if ids != [] {
      DeleteRowsKeepsAttempts(DeleteRow(t, ids[0], now), ids[1..], now, key);
    }
  }

  lemma AttemptsStep(c: Setup, w: World, e: Event, key: Key)
    requires Enabled(c, w, e) && key in w.t.queue && key in Next(c, w, e).t.queue
    ensures Next(c, w, e).t.queue[key].attempts ==
            w.t.queue[key].attempts + (if e.Claim? && key in e.wanted then 1 else 0)
  {
    if e.Delete? || e.DeleteAccount? { DeleteRowsKeepsAttempts(w.t, e.gone, w.now, key); }
  }

  ghost predicate StaysQueued(c: Setup, w: World, es: seq<Event>, key: Key)
    decreases es
  {
    key in w.t.queue && (es == [] || StaysQueued(c, Next(c, w, es[0]), es[1..], key))
  }

  /** As long as a record stays queued, its attempt count rises by exactly the claims that took it. */
  lemma {:induction false} AttemptsCountClaims(c: Setup, w: World, es: seq<Event>, key: Key)
    requires Legal(c, w, es) && StaysQueued(c, w, es, key)
    ensures key in Run(c, w, es).t.queue
    ensures Run(c, w, es).t.queue[key].attempts == w.t.queue[key].attempts + ClaimsOf(es, key)
    decreases es
  {
    if es != [] {
      AttemptsStep(c, w, es[0], key);
      AttemptsCountClaims(c, Next(c, w, es[0]), es[1..], key);
    }
  }

  // ----- linked attachments -----

  /** A linked attachment stays with its message: it is linked to no other, and neither the pending deletion nor
      the stale clean-up may take it. */
  lemma LinkedIsFinal(live: map<Uuid, Attachment>, scope: Scope, chat: Uuid, message: Uuid, ids: set<Uuid>, i: Uuid,
                      kind: Kind, before: nat)
    requires i in live && Linkable(live, scope, ids, i)
    ensures var n := LinkRows(live, scope, chat, message, ids);
            && i in n && n[i].message == Some(message) && n[i].chat == Some(chat)
            && !Pending(n[i]) && i !in StaleRows(n, kind, before, {})
            && forall s, c, m, js :: LinkRows(n, s, c, m, js)[i] == n[i]
  {
  }
}
