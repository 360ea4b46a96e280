/**
 Which rooms a cleanup may take: never an occupied one, and every empty one once its time is over.
 */
module CafeCleanup {
  import opened Basics
  import opened CafeModel
  import opened CafeFloor
  import opened CafeRooms
  import opened CafeWorld

  /** An occupied room has been joined and carries no date of emptiness; one that was left carries it. */
  ghost predicate Dated(room: Room) {
    if room.players != map[] then room.everJoined && room.emptySince.None?
    else room.everJoined ==> room.emptySince.Some?
  }

  ghost predicate SameDates(before: Room, after: Room) {
    && after.players.Keys == before.players.Keys
    && after.everJoined == before.everJoined
    && after.emptySince == before.emptySince && after.createdAt == before.createdAt
  }

  lemma SameDatesDated(before: Room, after: Room)
    requires Dated(before) && SameDates(before, after)
    ensures Dated(after)
  {
    assert before.players == map[] <==> before.players.Keys == {};
    assert after.players == map[] <==> after.players.Keys == {};
  }

  lemma ApplyDates(room: Room, o: Outcome)
    requires o.players.Keys == room.players.Keys
    ensures SameDates(room, Apply(room, o))
  {
    hide View;
  }

  lemma InteractDates(room: Room, pid: Uuid, connection: Uuid, target: Target, now: Now)
    ensures SameDates(room, Interact(room, pid, connection, target, now))
  {
    if Owns(room, pid, connection) {
      hide Act, View, Apply;
      var o := Act(room.players, room.activity, pid, target, now.millis);
      ActTidy(room.players, room.activity, pid, target, now.millis);
      ApplyDates(room, o);
    }
  }

  lemma RoundDates(room: Room, round: nat, now: Now)
    ensures SameDates(room, StartNextRound(room, round, now)) && SameDates(room, ExpireCafeRush(room, round, now))
  {
    hide ForRound, View;
  }

  lemma QuietDates(room: Room, pid: Uuid, connection: Uuid, m: Movement, root: real,
                   text: string, ids: seq<Uuid>, stars: nat, now: Now)
    ensures SameDates(room, Move(room, pid, connection, m, root, now))
    ensures SameDates(room, Chat(room, pid, connection, text, now))
    ensures SameDates(room, Emote(room, pid, connection, text))
    ensures SameDates(room, Reward(room, ids, stars))
    ensures SameDates(room, Flush(room))
  {
    hide MovedPose, LastOf, Poses;
  }

  lemma EquipDates(room: Room, owner: Owner, cosmetic: Option<string>, avatar: string)
    ensures SameDates(room, EquipCosmetic(room, owner, cosmetic)) && SameDates(room, EquipAvatar(room, owner, avatar))
  {
    hide View;
  }

  lemma JoinDated(room: Room, pid: Uuid, player: Player, tick: nat, now: Now)
    ensures Dated(Join(room, pid, player, tick, now)) && Join(room, pid, player, tick, now).createdAt == room.createdAt
  {
    hide View, LastOf, Seated;
    assert pid in Join(room, pid, player, tick, now).players;
  }

  lemma LeaveDated(room: Room, pid: Uuid, connection: Uuid, now: Now)
    requires Dated(room)
    ensures Dated(Leave(room, pid, connection, now))
  {
    hide View, LastOf, Depart;
  }

  lemma StepDated(w: World, e: Event)
    requires Dated(w.room)
    ensures Dated(Next(w, e).room)
  {
    hide Dated, SameDates, Join, Leave, Move, Interact, Chat, Emote, Reward, EquipCosmetic, EquipAvatar, StartNextRound,
         ExpireCafeRush, Flush, Receive, CompletedRound, NewClient, NewPlayer, SignalStop, Becomes,
         FlushOutcome, TtlOver;
    match e
    case Joins(pid, owner, name, cosmetic, avatar, connection, tick, now) =>
      JoinDated(w.room, pid, NewPlayer(owner, name, cosmetic, avatar, connection, now), tick, now);
    case Leaves(pid, connection, now) => LeaveDated(w.room, pid, connection, now);
    case Interacts(pid, connection, target, now) =>
      InteractDates(w.room, pid, connection, target, now);
      SameDatesDated(w.room, Interact(w.room, pid, connection, target, now));
    case StartFires(round, now) =>
      RoundDates(w.room, round, now);
      SameDatesDated(w.room, StartNextRound(w.room, round, now));
    case RushFires(round, now) =>
      RoundDates(w.room, round, now);
      SameDatesDated(w.room, ExpireCafeRush(w.room, round, now));
    case Moves(pid, connection, m, root, now) =>
      QuietDates(w.room, pid, connection, m, root, "", [], 0, now);
      SameDatesDated(w.room, Move(w.room, pid, connection, m, root, now));
    case Chats(pid, connection, text, now) =>
      QuietDates(w.room, pid, connection, Movement(None, None, Up, false, 0), 0.0, text, [], 0, now);
      SameDatesDated(w.room, Chat(w.room, pid, connection, text, now));
    case Emotes(pid, connection, emote) =>
      QuietDates(w.room, pid, connection, Movement(None, None, Up, false, 0), 0.0, emote, [], 0, Now(0.0, 0));
      SameDatesDated(w.room, Emote(w.room, pid, connection, emote));
    case Rewards(ids, stars) =>
      QuietDates(w.room, 0, 0, Movement(None, None, Up, false, 0), 0.0, "", ids, stars, Now(0.0, 0));
      SameDatesDated(w.room, Reward(w.room, ids, stars));
    case EquipsCosmetic(owner, cosmetic) =>
      EquipDates(w.room, owner, cosmetic, "");
      SameDatesDated(w.room, EquipCosmetic(w.room, owner, cosmetic));
    case EquipsAvatar(owner, avatar) =>
      EquipDates(w.room, owner, None, avatar);
      SameDatesDated(w.room, EquipAvatar(w.room, owner, avatar));
    case TickFlushes(t) =>
      QuietDates(w.room, 0, 0, Movement(None, None, Up, false, 0), 0.0, "", [], 0, Now(0.0, 0));
      SameDatesDated(w.room, Flush(w.room));
    case Cleans(_, _, _) => CleanDated(w, e);
    case SpawnsStart(_) =>
    case SpawnsRush(_) =>
    case SpawnsTick(_) =>
    case TickWakes(_) =>
    case Delivers(_) =>
  }

  lemma CleanDated(w: World, e: Event)
    requires Dated(w.room) && e.Cleans?
    ensures Dated(Next(w, e).room)
  {
  }

  lemma {:induction false} RunDated(w: World, es: seq<Event>)
    requires Dated(w.room)
    ensures Dated(Run(w, es).room)
    decreases es
  {
    hide Dated, Next;
    if es != [] {
      StepDated(w, es[0]);
      RunDated(Next(w, es[0]), es[1..]);
    }
  }

  /** When the time of an empty room is over: counted from the last leave, or from creation if nobody ever joined. */
  function Due(room: Room, neverJoinedTtl: real, emptyTtl: real): real {
    if room.everJoined && room.emptySince.Some? then room.emptySince.value + emptyTtl
    else room.createdAt + neverJoinedTtl
  }

  /** After any run, a cleanup removes the room exactly if nobody is present and its time is over. */
  lemma CleanupExactly(code: string, isPrivate: bool, created: Now, es: seq<Event>,
                       now: Now, neverJoinedTtl: real, emptyTtl: real)
    requires neverJoinedTtl > 0.0 && emptyTtl > 0.0
    ensures var w := Run(NewWorld(code, isPrivate, created), es);
            !w.gone ==>
              (Next(w, Cleans(now, neverJoinedTtl, emptyTtl)).gone <==>
                w.room.players == map[] && now.instant >= Due(w.room, neverJoinedTtl, emptyTtl))
  {
    RunDated(NewWorld(code, isPrivate, created), es);
    hide Run, NewWorld;
  }
}
