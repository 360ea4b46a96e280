/**
 Reconnects: a player who joins again keeps its state under the new connection, and the connection
 that was replaced can do nothing in any later state.
 */
module CafeConnections {
  import opened Basics
  import opened CafeModel
  import opened CafeFloor
  import opened CafeRooms
  import opened CafeWorld

  /** Joining again keeps position and hands, and moves nobody else. */
  lemma RejoinKeepsState(room: Room, pid: Uuid, player: Player, tick: nat, now: Now)
    requires pid in room.players
    ensures var after := Join(room, pid, player, tick, now);
            && after.players.Keys == room.players.Keys && after.activity == room.activity
            && after.chatHistory == room.chatHistory && after.tickStop == room.tickStop
            && (forall p :: p in room.players && p != pid ==> after.players[p] == room.players[p])
            && (var was, is_ := room.players[pid], after.players[pid];
                && At(is_.pose) == At(was.pose) && is_.pose.direction == was.pose.direction && !is_.pose.moving
                && is_.carriedTea == was.carriedTea && is_.carriedRush == was.carriedRush
                && is_.carriedOrder == was.carriedOrder)
  {
    hide View, LastOf;
  }

  // ----- who owns a player -----

  /** Nobody comes in, and nobody changes connection. */
  ghost predicate SameConnections(before: Room, after: Room) {
    forall p :: p in after.players ==>
      p in before.players && after.players[p].connection == before.players[p].connection
  }

  lemma InteractConnections(room: Room, pid: Uuid, connection: Uuid, target: Target, now: Now)
    ensures SameConnections(room, Interact(room, pid, connection, target, now))
  {
    if Owns(room, pid, connection) {
      var o := Act(room.players, room.activity, pid, target, now.millis);
      ActTidy(room.players, room.activity, pid, target, now.millis);
      hide Act, View;
      forall p | p in o.players ensures p in room.players && o.players[p].connection == room.players[p].connection {
        assert EmptyHands(o.players[p]).connection == EmptyHands(room.players[p]).connection;
      }
    }
  }

  lemma RoundConnections(room: Room, round: nat, now: Now)
    ensures SameConnections(room, StartNextRound(room, round, now))
    ensures SameConnections(room, ExpireCafeRush(room, round, now))
  {
    hide ForRound, View;
  }

  lemma QuietConnections(room: Room, pid: Uuid, connection: Uuid, m: Movement, root: real, text: string,
                         ids: seq<Uuid>, stars: nat, now: Now)
    ensures SameConnections(room, Move(room, pid, connection, m, root, now))
    ensures SameConnections(room, Chat(room, pid, connection, text, now))
    ensures SameConnections(room, Emote(room, pid, connection, text))
    ensures SameConnections(room, Reward(room, ids, stars))
    ensures SameConnections(room, Flush(room))
  {
    hide MovedPose, LastOf, Poses;
  }

  lemma EquipConnections(room: Room, owner: Owner, cosmetic: Option<string>, avatar: string)
    ensures SameConnections(room, EquipCosmetic(room, owner, cosmetic))
    ensures SameConnections(room, EquipAvatar(room, owner, avatar))
  {
    hide View, Dressed, WithAvatar;
    DressedConnections(room.players, owner, cosmetic);
    AvatarConnections(room.players, owner, avatar);
  }

  lemma DressedConnections(players: Players, owner: Owner, cosmetic: Option<string>)
    ensures forall p :: p in Dressed(players, owner, cosmetic) ==>
              p in players && Dressed(players, owner, cosmetic)[p].connection == players[p].connection
  {
  }

  lemma AvatarConnections(players: Players, owner: Owner, avatar: string)
    ensures forall p :: p in WithAvatar(players, owner, avatar) ==>
              p in players && WithAvatar(players, owner, avatar)[p].connection == players[p].connection
  {
  }

  lemma LeaveConnections(room: Room, pid: Uuid, connection: Uuid, now: Now)
    ensures SameConnections(room, Leave(room, pid, connection, now))
  {
    hide View, LastOf, Depart;
  }

  lemma JoinConnections(room: Room, pid: Uuid, player: Player, tick: nat, now: Now)
    ensures var after := Join(room, pid, player, tick, now);
            && pid in after.players && after.players[pid].connection == player.connection
            && forall p :: p in after.players && p != pid ==> p in room.players && after.players[p] == room.players[p]
  {
    hide View, LastOf;
  }

  /** The connection was made for some client, and does not own the player. */
  ghost predicate Replaced(w: World, pid: Uuid, connection: Uuid) {
    connection in w.clients && !Owns(w.room, pid, connection)
  }

  lemma SameConnectionsReplaced(w: World, v: World, pid: Uuid, connection: Uuid)
    requires Replaced(w, pid, connection) && SameConnections(w.room, v.room) && w.clients.Keys <= v.clients.Keys
    ensures Replaced(v, pid, connection)
  {
  }

  lemma JoinReplaced(w: World, pid: Uuid, connection: Uuid, id: Uuid, player: Player, fresh_: Uuid, tick: nat, now: Now)
    requires Replaced(w, pid, connection) && fresh_ !in w.clients && player.connection == fresh_
    ensures Replaced(JoinStep(w, id, player, fresh_, tick, now), pid, connection)
  {
    JoinConnections(w.room, id, player, tick, now);
    hide Join, NewClient;
  }

  lemma ReplacedStep(w: World, e: Event, pid: Uuid, connection: Uuid)
    requires Replaced(w, pid, connection) && Enabled(w, e)
    ensures Replaced(Next(w, e), pid, connection)
  {
    hide Replaced, SameConnections, Join, JoinStep, Leave, Move, Interact, Chat, Emote, Reward, EquipCosmetic,
         EquipAvatar, StartNextRound, ExpireCafeRush, Flush, Receive, CompletedRound, NewClient, SignalStop, Becomes,
         FlushOutcome, TtlOver;
    var still := Movement(None, None, Up, false, 0);
    var v := Next(w, e);
    NobodyMoves(w.room);
    match e {
      case Joins(id, owner, name, cosmetic, avatar, fresh_, tick, now) =>
        JoinReplaced(w, pid, connection, id, NewPlayer(owner, name, cosmetic, avatar, fresh_, now), fresh_, tick, now);
      case Leaves(id, c, now) => LeaveConnections(w.room, id, c, now); SameConnectionsReplaced(w, v, pid, connection);
      case Moves(id, c, m, root, now) =>
        QuietConnections(w.room, id, c, m, root, "", [], 0, now); SameConnectionsReplaced(w, v, pid, connection);
      case Interacts(id, c, target, now) =>
        InteractConnections(w.room, id, c, target, now); SameConnectionsReplaced(w, v, pid, connection);
      case Chats(id, c, text, now) =>
        QuietConnections(w.room, id, c, still, 0.0, text, [], 0, now); SameConnectionsReplaced(w, v, pid, connection);
      case Emotes(id, c, emote) =>
        QuietConnections(w.room, id, c, still, 0.0, emote, [], 0, Now(0.0, 0));
        SameConnectionsReplaced(w, v, pid, connection);
      case Rewards(ids, stars) =>
        QuietConnections(w.room, 0, 0, still, 0.0, "", ids, stars, Now(0.0, 0));
        SameConnectionsReplaced(w, v, pid, connection);
      case EquipsCosmetic(owner, cosmetic) =>
        EquipConnections(w.room, owner, cosmetic, ""); SameConnectionsReplaced(w, v, pid, connection);
      case EquipsAvatar(owner, avatar) =>
        EquipConnections(w.room, owner, None, avatar); SameConnectionsReplaced(w, v, pid, connection);
      case StartFires(round, now) =>
        RoundConnections(w.room, round, now); SameConnectionsReplaced(w, v, pid, connection);
      case RushFires(round, now) =>
        RoundConnections(w.room, round, now); SameConnectionsReplaced(w, v, pid, connection);
      case TickFlushes(t) =>
        QuietConnections(w.room, 0, 0, still, 0.0, "", [], 0, Now(0.0, 0));
        SameConnectionsReplaced(w, v, pid, connection);
      case Cleans(_, _, _) => SamePlayers(w.room, v.room); SameConnectionsReplaced(w, v, pid, connection);
      case _ => SameConnectionsReplaced(w, v, pid, connection);
    }
  }

  lemma SamePlayers(room: Room, after: Room)
    requires after.players == room.players
    ensures SameConnections(room, after)
  {
  }

  lemma NobodyMoves(room: Room)
    ensures SameConnections(room, room)
  {
  }

  /** A successful rejoin under a fresh connection replaces every connection made before. */
  lemma RejoinReplaces(w: World, pid: Uuid, player: Player, fresh_: Uuid, tick: nat, now: Now, connection: Uuid)
    requires !w.gone && CanJoin(w.room, pid) && player.connection == fresh_
    requires connection in w.clients && fresh_ !in w.clients
    ensures Replaced(JoinStep(w, pid, player, fresh_, tick, now), pid, connection)
  {
    JoinConnections(w.room, pid, player, tick, now);
    hide Join, NewClient;
  }

  lemma Powerless(w: World, pid: Uuid, connection: Uuid, m: Movement, root: real, target: Target,
                  text: string, now: Now)
    requires !Owns(w.room, pid, connection)
    ensures Next(w, Leaves(pid, connection, now)) == w
    ensures Next(w, Moves(pid, connection, m, root, now)) == w
    ensures Next(w, Interacts(pid, connection, target, now)) == w
    ensures Next(w, Chats(pid, connection, text, now)) == w
    ensures Next(w, Emotes(pid, connection, text)) == w
  {
  }

  /** Over every run: once a connection has lost its player, whatever else happens, it never owns the player again and
      nothing that arrives on it changes anything. */
  lemma {:induction false} ReplacedForever(w: World, es: seq<Event>, pid: Uuid, connection: Uuid,
                                           m: Movement, root: real, target: Target, text: string, now: Now)
    requires Replaced(w, pid, connection) && Legal(w, es)
    ensures var v := Run(w, es);
            && !Owns(v.room, pid, connection)
            && Next(v, Leaves(pid, connection, now)) == v && Next(v, Moves(pid, connection, m, root, now)) == v
            && Next(v, Interacts(pid, connection, target, now)) == v
            && Next(v, Chats(pid, connection, text, now)) == v && Next(v, Emotes(pid, connection, text)) == v
    decreases es
  {
    if es != [] {
      ReplacedStep(w, es[0], pid, connection);
      hide Next, Replaced, Enabled, Owns;
      ReplacedForever(Next(w, es[0]), es[1..], pid, connection, m, root, target, text, now);
    } else {
      assert !Owns(w.room, pid, connection);
      hide Next, Owns;
      Powerless(w, pid, connection, m, root, target, text, now);
    }
  }
}
