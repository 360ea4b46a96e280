/**
 Movement ticks: an occupied room has exactly one live tick that has not been told to
 stop, an empty room has none, whatever the order of spawns, leaves and rejoins.
 */
module CafeTicks {
  import opened Basics
  import opened CafeModel
  import opened CafeFloor
  import opened CafeRooms
  import opened CafeWorld

  ghost predicate Ticking(w: World) {
    && (w.room.tickStop.Some? <==> w.room.players != map[])
    && (w.room.tickStop.Some? ==> w.room.tickStop.value in w.ticks)
    && (w.gone ==> w.room.players == map[])
    && (forall t :: t in w.ticks ==> (!w.ticks[t].stopSent <==> w.room.tickStop == Some(t)))
    && (forall t :: t in w.ticks ==> w.ticks[t].done ==> w.ticks[t].stopSent)
  }

  /** The ticks that are running, or about to, and have not been told to stop. */
  ghost function Unstopped(w: World): set<nat> {
    set t | t in w.ticks && !w.ticks[t].done && !w.ticks[t].stopSent
  }

  lemma NewWorldTicking(code: string, isPrivate: bool, now: Now)
    ensures Ticking(NewWorld(code, isPrivate, now))
  {
  }

  /** The number of unstopped ticks is one when somebody is present and zero otherwise. */
  lemma OneTickPerOccupiedRoom(w: World)
    requires Ticking(w)
    ensures |Unstopped(w)| == if w.room.players != map[] then 1 else 0
    ensures w.room.tickStop.Some? ==> Unstopped(w) == {w.room.tickStop.value}
  {
    if w.room.tickStop.Some? {
      assert Unstopped(w) == {w.room.tickStop.value};
    } else {
      assert Unstopped(w) == {};
    }
  }

  // ----- what the room operations do to presence and to the stop channel -----

  ghost predicate SamePresence(before: Room, after: Room) {
    after.players.Keys == before.players.Keys && after.tickStop == before.tickStop
  }

  lemma JoinPresence(room: Room, pid: Uuid, player: Player, tick: nat, now: Now)
    ensures var after := Join(room, pid, player, tick, now);
            && after.players.Keys == room.players.Keys + {pid}
            && after.tickStop == if room.players == map[] then Some(tick) else room.tickStop
  {
  }

  lemma LeavePresence(room: Room, pid: Uuid, connection: Uuid, now: Now)
    requires Owns(room, pid, connection)
    ensures var after := Leave(room, pid, connection, now);
            && after.players == room.players - {pid}
            && after.tickStop == if after.players == map[] then None else room.tickStop
  {
  }

  lemma InteractPresence(room: Room, pid: Uuid, connection: Uuid, target: Target, now: Now)
    ensures SamePresence(room, Interact(room, pid, connection, target, now))
  {
    if Owns(room, pid, connection) {
      ActTidy(room.players, room.activity, pid, target, now.millis);
      hide Act;
    }
  }

  lemma RoundPresence(room: Room, round: nat, now: Now)
    ensures SamePresence(room, StartNextRound(room, round, now))
    ensures SamePresence(room, ExpireCafeRush(room, round, now))
  {
    hide ForRound;
  }

  // ----- preservation -----

  lemma JoinTicking(w: World, pid: Uuid, player: Player, connection: Uuid, tick: nat, now: Now)
    requires Ticking(w) && tick !in w.ticks
    ensures Ticking(JoinStep(w, pid, player, connection, tick, now))
  {
    JoinPresence(w.room, pid, player, tick, now);
    hide Join, NewClient;
    var v := JoinStep(w, pid, player, connection, tick, now);
    if !w.gone && CanJoin(w.room, pid) {
      assert pid in v.room.players;
    }
  }

  lemma LeaveTicking(w: World, pid: Uuid, connection: Uuid, now: Now)
    requires Ticking(w)
    ensures Ticking(LeaveStep(w, pid, connection, now))
  {
    if !w.gone && Owns(w.room, pid, connection) {
      LeavePresence(w.room, pid, connection, now);
      hide Leave;
    }
  }

  lemma UpdateTicking(w: World, room: Room)
    requires Ticking(w) && SamePresence(w.room, room)
    ensures Ticking(Update(w, room))
  {
  }

  lemma InteractTicking(w: World, pid: Uuid, connection: Uuid, target: Target, now: Now)
    requires Ticking(w)
    ensures Ticking(InteractStep(w, pid, connection, target, now))
  {
    InteractPresence(w.room, pid, connection, target, now);
    hide Interact, CompletedRound;
  }

  lemma StartTicking(w: World, round: nat, now: Now)
    requires Ticking(w)
    ensures Ticking(StartStep(w, round, now))
  {
    RoundPresence(w.room, round, now);
    hide StartNextRound, ExpireCafeRush;
  }

  lemma RushTicking(w: World, round: nat, now: Now)
    requires Ticking(w)
    ensures Ticking(RushStep(w, round, now))
  {
    RoundPresence(w.room, round, now);
    hide StartNextRound, ExpireCafeRush;
  }

  lemma TickTicking(w: World, t: nat, e: Event)
    requires Ticking(w) && (e.SpawnsTick? || e.TickWakes? || e.TickFlushes?)
    ensures Ticking(TickStep(w, t, e))
  {
    hide BroadcastMovement;
    var v := TickStep(w, t, e);
    assert v.room.players == w.room.players && v.room.tickStop == w.room.tickStop by {
      FlushPresence(w.room);
      hide Flush;
    }
    hide Flush;
  }

  lemma FlushPresence(room: Room)
    ensures Flush(room).players == room.players && Flush(room).tickStop == room.tickStop
  {
  }

  lemma StepTicking(w: World, e: Event)
    requires Ticking(w) && Enabled(w, e)
    ensures Ticking(Next(w, e))
  {
    hide JoinStep, LeaveStep, TickStep, InteractStep, StartStep, RushStep, Update, NewPlayer, Receive,
         Move, Chat, Emote, Reward, EquipCosmetic, EquipAvatar;
    match e
    case Joins(pid, owner, name, cosmetic, avatar, connection, tick, now) =>
      JoinTicking(w, pid, NewPlayer(owner, name, cosmetic, avatar, connection, now), connection, tick, now);
    case Leaves(pid, connection, now) => LeaveTicking(w, pid, connection, now);
    case Moves(pid, connection, m, root, now) =>
      MovePresence(w.room, pid, connection, m, root, now);
      UpdateTicking(w, Move(w.room, pid, connection, m, root, now));
    case Interacts(pid, connection, target, now) => InteractTicking(w, pid, connection, target, now);
    case Chats(pid, connection, text, now) =>
      ChatPresence(w.room, pid, connection, text, now);
      UpdateTicking(w, Chat(w.room, pid, connection, text, now));
    case Emotes(pid, connection, emote) =>
      EmotePresence(w.room, pid, connection, emote);
      UpdateTicking(w, Emote(w.room, pid, connection, emote));
    case Rewards(ids, stars) => RewardPresence(w.room, ids, stars); UpdateTicking(w, Reward(w.room, ids, stars));
    case EquipsCosmetic(owner, cosmetic) =>
      EquipPresence(w.room, owner, cosmetic, "");
      UpdateTicking(w, EquipCosmetic(w.room, owner, cosmetic));
    case EquipsAvatar(owner, avatar) =>
      EquipPresence(w.room, owner, None, avatar);
      UpdateTicking(w, EquipAvatar(w.room, owner, avatar));
    case StartFires(round, now) => StartTicking(w, round, now);
    case RushFires(round, now) => RushTicking(w, round, now);
    case SpawnsTick(t) => TickTicking(w, t, e);
    case TickWakes(t) => TickTicking(w, t, e);
    case TickFlushes(t) => TickTicking(w, t, e);
    case _ => OtherTicking(w, e);
  }

  lemma OtherTicking(w: World, e: Event)
    requires Ticking(w) && (e.SpawnsStart? || e.SpawnsRush? || e.Delivers? || e.Cleans?)
    ensures Ticking(Next(w, e))
  {
    hide Receive;
  }

  lemma EquipPresence(room: Room, owner: Owner, cosmetic: Option<string>, avatar: string)
    ensures SamePresence(room, EquipCosmetic(room, owner, cosmetic))
    ensures SamePresence(room, EquipAvatar(room, owner, avatar))
  {
    hide View;
  }

  lemma MovePresence(room: Room, pid: Uuid, connection: Uuid, m: Movement, root: real, now: Now)
    ensures SamePresence(room, Move(room, pid, connection, m, root, now))
  {
    hide MovedPose;
  }

  lemma ChatPresence(room: Room, pid: Uuid, connection: Uuid, text: string, now: Now)
    ensures SamePresence(room, Chat(room, pid, connection, text, now))
  {
  }

  lemma EmotePresence(room: Room, pid: Uuid, connection: Uuid, emote: string)
    ensures SamePresence(room, Emote(room, pid, connection, emote))
  {
  }

  lemma RewardPresence(room: Room, ids: seq<Uuid>, stars: nat)
    ensures SamePresence(room, Reward(room, ids, stars))
  {
  }

  /** A tick ends at its own turn of the loop exactly if it was told to stop: one that was not goes on, also after a
      flush; one that was ends, and flushes at most once more if it had already chosen to. */
  lemma TicksEndExactlyWhenStopped(w: World, t: nat)
    requires Ticking(w) && t in w.ticks && w.ticks[t].spawned && !w.ticks[t].done
    ensures !w.ticks[t].flushing ==> (Next(w, TickWakes(t)).ticks[t].done <==> w.ticks[t].stopSent)
    ensures w.ticks[t].flushing ==>
              && !Next(w, TickFlushes(t)).ticks[t].flushing
              && (!w.ticks[t].stopSent ==> !Next(w, TickFlushes(t)).ticks[t].done)
    ensures w.ticks[t].stopSent ==> Next(Next(w, TickFlushes(t)), TickWakes(t)).ticks[t].done
    ensures w.ticks[t].stopSent && !w.ticks[t].flushing ==> Next(w, TickFlushes(t)) == w
  {
    hide Flush;
  }

  // ----- a stopped tick over whole runs -----

  /** The tick was told to stop and is not in the middle of a flush. */
  predicate Stopped(w: World, t: nat) {
    t in w.ticks && w.ticks[t].stopSent && !w.ticks[t].flushing
  }

  lemma StoppedStep(w: World, e: Event, t: nat)
    requires Stopped(w, t) && Enabled(w, e)
    ensures Stopped(Next(w, e), t)
  {
    hide Join, NewClient, Leave, Interact, CompletedRound, StartNextRound, ExpireCafeRush, Flush, FlushOutcome, Receive,
         Move, Chat, Emote, Reward, EquipCosmetic, EquipAvatar, TtlOver, CanJoin, Owns, NewPlayer, Becomes;
  }

  /** Once told to stop, and past a flush under way, a tick never flushes again in any run: its flushes change
      nothing. */
  lemma {:induction false} StoppedForever(w: World, es: seq<Event>, t: nat)
    requires Stopped(w, t) && Legal(w, es)
    ensures Stopped(Run(w, es), t) && Next(Run(w, es), TickFlushes(t)) == Run(w, es)
    decreases es
  {
    if es != [] {
      StoppedStep(w, es[0], t);
      hide Next, Enabled;
      StoppedForever(Next(w, es[0]), es[1..], t);
    }
  }
}
