/**
 Permits for text generation: an exclusive set of chats, a count per session and a global
 semaphore, whose token comes back only after the permit's destructor body has run.
 */
module GenerationLimiters {
  import opened Basics
  import opened Counters

  /** `ClearConflict` is the plain conflict that a clear answers; the others are rate-limit refusals. */
  datatype Refusal = ChatGenerationActive | GenerationSessionCapacity | GenerationProcessCapacity | ClearConflict
  datatype Permit = Permit(session: Option<Uuid>, chat: Uuid)
  datatype Acquired = Granted(permit: Permit) | Refused(reason: Refusal)

  /** The limiter's own state; `free` are the tokens left in the semaphore. */
  datatype Active = Active(free: nat, chats: set<Uuid>, sessions: map<Uuid, nat>)

  function TryAcquire(a: Active, maxPerSession: nat, session: Uuid, chat: Uuid): (Active, Acquired) {
    if chat in a.chats then (a, Refused(ChatGenerationActive))
    else if CountAt(a.sessions, session) >= maxPerSession then (a, Refused(GenerationSessionCapacity))
    else if a.free == 0 then (a, Refused(GenerationProcessCapacity))
    else (Active(a.free - 1, a.chats + {chat}, Increment(a.sessions, session)), Granted(Permit(Some(session), chat)))
  }

  function TryAcquireClear(a: Active, chat: Uuid): (Active, Acquired) {
    if chat in a.chats then (a, Refused(ClearConflict))
    else (a.(chats := a.chats + {chat}), Granted(Permit(None, chat)))
  }

  /** The body of the permit's destructor; the semaphore token is released afterwards. */
  function DropBody(a: Active, permit: Permit): Active {
    a.(chats := a.chats - {permit.chat},
       sessions := if permit.session.Some? then Decrement(a.sessions, permit.session.value) else a.sessions)
  }

  class GenerationLimiter {
    const maxPerSession: nat
    var free: nat
    var chats: set<Uuid>
    var sessions: map<Uuid, nat>

    function State(): Active
      reads this
    {
      Active(free, chats, sessions)
    }

    constructor (maxGlobal: nat, maxPerSession: nat)
      ensures State() == Active(maxGlobal, {}, map[]) && this.maxPerSession == maxPerSession
    {
      free, chats, sessions := maxGlobal, {}, map[];
      this.maxPerSession := maxPerSession;
    }

    method Acquire(session: Uuid, chat: Uuid) returns (r: Acquired)
      modifies this
      ensures (State(), r) == TryAcquire(old(State()), maxPerSession, session, chat)
    {
      if chat in chats {
        return Refused(ChatGenerationActive);
      }
      if CountAt(sessions, session) >= maxPerSession {
        return Refused(GenerationSessionCapacity);
      }
      if free == 0 {
        return Refused(GenerationProcessCapacity);
      }
      free := free - 1;
      chats := chats + {chat};
      sessions := Increment(sessions, session);
      r := Granted(Permit(Some(session), chat));
    }

    method AcquireClear(chat: Uuid) returns (r: Acquired)
      modifies this
      ensures (State(), r) == TryAcquireClear(old(State()), chat)
    {
      if chat in chats {
        return Refused(ClearConflict);
      }
      chats := chats + {chat};
      r := Granted(Permit(None, chat));
    }

    method Drop(permit: Permit)
      modifies this
      ensures State() == DropBody(old(State()), permit)
    {
      chats := chats - {permit.chat};
      if permit.session.Some? && permit.session.value in sessions {
        var session := permit.session.value;
        var count := sessions[session];
        count := if count > 0 then count - 1 else 0;
        if count == 0 {
          sessions := sessions - {session};
        } else {
          sessions := sessions[session := count];
        }
      }
    }

    method ReleaseToken()
      modifies this
      ensures State() == old(State()).(free := old(State()).free + 1)
    {
      free := free + 1;
    }
  }

  // ----- all permits of a process -----

  /** `live` are the permits held, `releasing` the tokens of permits whose destructor body
      has run but whose token has not come back yet. */
  datatype Office = Office(active: Active, live: map<nat, Permit>, releasing: nat)

  datatype Event =
    | Acquires(session: Uuid, chat: Uuid, id: nat)
    | AcquiresClear(chat: Uuid, id: nat)
    | Drops(id: nat)
    | Releases

  function Next(o: Office, maxPerSession: nat, e: Event): Office {
    match e
    case Acquires(session, chat, id) =>
      var r := TryAcquire(o.active, maxPerSession, session, chat);
      o.(active := r.0, live := if r.1.Granted? then o.live[id := r.1.permit] else o.live)
    case AcquiresClear(chat, id) =>
      var r := TryAcquireClear(o.active, chat);
      o.(active := r.0, live := if r.1.Granted? then o.live[id := r.1.permit] else o.live)
    case Drops(id) =>
      if id !in o.live then o
      else o.(active := DropBody(o.active, o.live[id]), live := o.live - {id},
              releasing := o.releasing + (if o.live[id].session.Some? then 1 else 0))
    case Releases =>
      if o.releasing == 0 then o
      else o.(active := o.active.(free := o.active.free + 1), releasing := o.releasing - 1)
  }

  /** A permit handed out is a new one. */
  predicate Enabled(o: Office, e: Event) {
    (e.Acquires? || e.AcquiresClear?) ==> e.id !in o.live
  }

  /** The generation permits alone, by their session. */
  ghost function Generating(live: map<nat, Permit>): map<nat, Uuid> {
    map id | id in live && live[id].session.Some? :: live[id].session.value
  }

  /** Live permits have distinct chats, and these make up the chat set. */
  ghost predicate ChatsMatch(live: map<nat, Permit>, chats: set<Uuid>) {
    && (forall i, j :: i in live && j in live && live[i].chat == live[j].chat ==> i == j)
    && (forall c :: c in chats <==> exists i :: i in live && live[i].chat == c)
  }

  ghost predicate Accounted(o: Office, maxGlobal: nat, maxPerSession: nat) {
    && ChatsMatch(o.live, o.active.chats)
    && Counts(o.active.sessions, Generating(o.live))
    && (forall s :: s in o.active.sessions ==> o.active.sessions[s] <= maxPerSession)
    && o.active.free + |Generating(o.live)| + o.releasing == maxGlobal
  }

  lemma InitAccounted(maxGlobal: nat, maxPerSession: nat)
    ensures Accounted(Office(Active(maxGlobal, {}, map[]), map[], 0), maxGlobal, maxPerSession)
  {
    EmptyCounts<Uuid>();
    assert Generating(map[]) == map[];
  }

  lemma ChatsGrow(live: map<nat, Permit>, chats: set<Uuid>, id: nat, permit: Permit)
    requires ChatsMatch(live, chats) && id !in live && permit.chat !in chats
    ensures ChatsMatch(live[id := permit], chats + {permit.chat})
  {
    var next := live[id := permit];
    forall c
      ensures c in chats + {permit.chat} <==> exists i :: i in next && next[i].chat == c
    {
      if c == permit.chat {
        assert next[id].chat == c;
      } else if c in chats {
        var i :| i in live && live[i].chat == c;
        assert next[i].chat == c;
      }
    }
  }

  lemma ChatsShrink(live: map<nat, Permit>, chats: set<Uuid>, id: nat)
    requires ChatsMatch(live, chats) && id in live
    ensures ChatsMatch(live - {id}, chats - {live[id].chat})
  {
    var rest := live - {id};
    forall c
      ensures c in chats - {live[id].chat} <==> exists i :: i in rest && rest[i].chat == c
    {
      if c in chats && c != live[id].chat {
        var i :| i in live && live[i].chat == c;
        assert rest[i].chat == c;
      }
    }
  }

  lemma GeneratingGrows(live: map<nat, Permit>, id: nat, permit: Permit)
    requires id !in live
    ensures id !in Generating(live)
    ensures Generating(live[id := permit]) ==
            if permit.session.Some? then Generating(live)[id := permit.session.value] else Generating(live)
  {
  }

  lemma GeneratingShrinks(live: map<nat, Permit>, id: nat)
    requires id in live
    ensures Generating(live - {id}) == Generating(live) - {id}
    ensures live[id].session.Some? <==> id in Generating(live)
    ensures live[id].session.None? ==> Generating(live - {id}) == Generating(live)
    ensures live[id].session.Some? ==> Generating(live)[id] == live[id].session.value
                                       && |Generating(live - {id})| + 1 == |Generating(live)|
  {
    if live[id].session.Some? {
      assert Generating(live) == Generating(live - {id})[id := live[id].session.value];
    }
  }

  lemma AcquireAccounted(o: Office, maxGlobal: nat, maxPerSession: nat, session: Uuid, chat: Uuid, id: nat)
    requires Accounted(o, maxGlobal, maxPerSession) && id !in o.live
    ensures Accounted(Next(o, maxPerSession, Acquires(session, chat, id)), maxGlobal, maxPerSession)
  {
    hide ChatsMatch, Counts, Generating;
    if TryAcquire(o.active, maxPerSession, session, chat).1.Granted? {
      ChatsGrow(o.live, o.active.chats, id, Permit(Some(session), chat));
      GeneratingGrows(o.live, id, Permit(Some(session), chat));
      IncrementCounts(o.active.sessions, Generating(o.live), id, session);
    }
  }

  lemma AcquireClearAccounted(o: Office, maxGlobal: nat, maxPerSession: nat, chat: Uuid, id: nat)
    requires Accounted(o, maxGlobal, maxPerSession) && id !in o.live
    ensures Accounted(Next(o, maxPerSession, AcquiresClear(chat, id)), maxGlobal, maxPerSession)
  {
    hide ChatsMatch, Counts, Generating;
    if chat !in o.active.chats {
      ChatsGrow(o.live, o.active.chats, id, Permit(None, chat));
      GeneratingGrows(o.live, id, Permit(None, chat));
    }
  }

  lemma DropAccounted(o: Office, maxGlobal: nat, maxPerSession: nat, id: nat)
    requires Accounted(o, maxGlobal, maxPerSession)
    ensures Accounted(Next(o, maxPerSession, Drops(id)), maxGlobal, maxPerSession)
  {
    hide ChatsMatch, Counts, Generating;
    if id in o.live {
      GeneratingShrinks(o.live, id);
      ChatsShrink(o.live, o.active.chats, id);
      if o.live[id].session.Some? {
        DecrementCounts(o.active.sessions, Generating(o.live), id);
      }
    }
  }

  function Run(o: Office, maxPerSession: nat, es: seq<Event>): Office
    decreases es
  {
    if es == [] then o else Run(Next(o, maxPerSession, es[0]), maxPerSession, es[1..])
  }

  ghost predicate Legal(o: Office, maxPerSession: nat, es: seq<Event>)
    decreases es
  {
    es == [] || (Enabled(o, es[0]) && Legal(Next(o, maxPerSession, es[0]), maxPerSession, es[1..]))
  }

  /** Over any sequence of acquisitions, drops and token releases: live permits never share
      a chat, the chat set and the session counts are exactly those of the live permits,
      every count is within its limit, and no semaphore token is lost or made. */
  lemma {:induction false} RunAccounted(o: Office, maxGlobal: nat, maxPerSession: nat, es: seq<Event>)
    requires Accounted(o, maxGlobal, maxPerSession) && Legal(o, maxPerSession, es)
    ensures Accounted(Run(o, maxPerSession, es), maxGlobal, maxPerSession)
    decreases es
  {
    if es != [] {
      match es[0] {
        case Drops(id) => DropAccounted(o, maxGlobal, maxPerSession, id);
        case Releases =>
        case Acquires(session, chat, id) => AcquireAccounted(o, maxGlobal, maxPerSession, session, chat, id);
        case AcquiresClear(chat, id) => AcquireClearAccounted(o, maxGlobal, maxPerSession, chat, id);
      }
      hide Accounted;
      RunAccounted(Next(o, maxPerSession, es[0]), maxGlobal, maxPerSession, es[1..]);
    }
  }

  /** So it is after every run of a new limiter. */
  lemma EveryRunAccounted(maxGlobal: nat, maxPerSession: nat, es: seq<Event>)
    requires Legal(Office(Active(maxGlobal, {}, map[]), map[], 0), maxPerSession, es)
    ensures Accounted(Run(Office(Active(maxGlobal, {}, map[]), map[], 0), maxPerSession, es), maxGlobal, maxPerSession)
  {
    InitAccounted(maxGlobal, maxPerSession);
    RunAccounted(Office(Active(maxGlobal, {}, map[]), map[], 0), maxGlobal, maxPerSession, es);
  }

  /** In an accounted office a permit is granted exactly when no live permit has the chat,
      the session holds fewer than its limit and a token is free; refusals change nothing. */
  lemma GrantedExactly(o: Office, maxGlobal: nat, maxPerSession: nat, session: Uuid, chat: Uuid, id: nat)
    requires Accounted(o, maxGlobal, maxPerSession) && id !in o.live
    ensures var n := Next(o, maxPerSession, Acquires(session, chat, id));
            var allowed := (forall i :: i in o.live ==> o.live[i].chat != chat)
                           && |Holders(Generating(o.live), session)| < maxPerSession
                           && |Generating(o.live)| + o.releasing < maxGlobal;
            if allowed then n.live == o.live[id := Permit(Some(session), chat)] else n == o
  {
    assert CountAt(o.active.sessions, session) == |Holders(Generating(o.live), session)|;
    assert chat in o.active.chats <==> exists i :: i in o.live && o.live[i].chat == chat;
  }

  /** Some live permit, of a generation or of a clear, has the chat. */
  ghost predicate Busy(o: Office, chat: Uuid) {
    exists i :: i in o.live && o.live[i].chat == chat
  }

  /** Clearing a chat is granted exactly when no live permit has it, whatever the session and process limits; it takes
      up the chat and nothing else.  A refusal changes nothing. */
  lemma ClearedExactly(o: Office, maxGlobal: nat, maxPerSession: nat, chat: Uuid, id: nat)
    requires Accounted(o, maxGlobal, maxPerSession) && id !in o.live
    ensures var n := Next(o, maxPerSession, AcquiresClear(chat, id));
            var r := TryAcquireClear(o.active, chat).1;
            if Busy(o, chat) then r == Refused(ClearConflict) && n == o
            else
              && r == Granted(Permit(None, chat)) && n.live == o.live[id := Permit(None, chat)]
              && n.active.free == o.active.free && n.releasing == o.releasing && n.active.sessions == o.active.sessions
  {
    assert chat in o.active.chats <==> exists i :: i in o.live && o.live[i].chat == chat;
  }

  /** Which reason a refused generation is given: a busy chat comes first, then the session's own permits, then the
      tokens of the process. */
  lemma RefusedExactly(o: Office, maxGlobal: nat, maxPerSession: nat, session: Uuid, chat: Uuid)
    requires Accounted(o, maxGlobal, maxPerSession)
    ensures var r := TryAcquire(o.active, maxPerSession, session, chat).1;
            var held := |Holders(Generating(o.live), session)|;
            && (r == Refused(ChatGenerationActive) <==> Busy(o, chat))
            && (r == Refused(GenerationSessionCapacity) <==> !Busy(o, chat) && held >= maxPerSession)
            && (r == Refused(GenerationProcessCapacity) <==>
                  && !Busy(o, chat) && held < maxPerSession
                  && |Generating(o.live)| + o.releasing >= maxGlobal)
            && (r.Granted? ==> r.permit == Permit(Some(session), chat))
            && r != Refused(ClearConflict)
  {
    assert CountAt(o.active.sessions, session) == |Holders(Generating(o.live), session)|;
    assert chat in o.active.chats <==> exists i :: i in o.live && o.live[i].chat == chat;
  }

  /** A granted permit that is dropped and released restores the limiter. */
  lemma AcquireDropRestores(a: Active, maxPerSession: nat, session: Uuid, chat: Uuid)
    requires forall s :: s in a.sessions ==> a.sessions[s] > 0
    ensures var r := TryAcquire(a, maxPerSession, session, chat);
            if r.1.Granted?
            then var dropped := DropBody(r.0, r.1.permit); dropped.(free := dropped.free + 1) == a
            else r.0 == a
  {
    IncrementDecrement(a.sessions, session);
    if chat !in a.chats { assert a.chats + {chat} - {chat} == a.chats; }
  }
}
