/**
 What clients are shown, field by field: name, place, hands and looks of every player, and the
 activity; and that what changed is shown once the tick has run and the channels are drained.
 */
module CafeViews {
  import opened Basics
  import opened CafeModel
  import opened CafeFloor
  import opened CafeRooms
  import opened CafeWorld
  import opened CafeStreams
  import opened CafeTicks
  import opened CafeRun
  import opened CafePlay

  /** The view has exactly these players, each with its name, hands and looks, and this activity. */
  ghost predicate ShowsAllButPoses(v: RoomView, room: Room) {
    && v.players.Keys == room.players.Keys && v.activity == room.activity
    && forall p :: p in room.players ==>
         var shown, player := v.players[p], room.players[p];
         && shown.name == player.name
         && shown.carriedTea == player.carriedTea && shown.carriedOrder == player.carriedOrder
         && shown.cosmetic == player.cosmetic && shown.avatar == player.avatar
  }

  /** And each where it stands, with the direction it looks in and whether it moves. */
  ghost predicate ShowsExactly(v: RoomView, room: Room) {
    ShowsAllButPoses(v, room) && forall p :: p in room.players ==> v.players[p].pose == room.players[p].pose
  }

  lemma ViewShows(room: Room)
    ensures ShowsExactly(View(room), room)
  {
  }

  lemma StillShows(v: RoomView, room: Room)
    requires Still(v) == Still(View(room))
    ensures ShowsAllButPoses(v, room)
  {
    StillKeys(v, View(room));
    ViewShows(room);
    hide Still, View;
    forall p | p in room.players ensures v.players[p].(pose := View(room).players[p].pose) == View(room).players[p] {
    }
  }

  /** After any run, a client of an occupied room that has drained both channels shows exactly the players of the room,
      each as it is, and the activity, unless a move is waiting for its tick. */
  lemma ReachableClientsShowTheRoom(code: string, isPrivate: bool, created: Now, es: seq<Event>, id: Uuid)
    requires Legal(NewWorld(code, isPrivate, created), es)
    ensures var w := Run(NewWorld(code, isPrivate, created), es);
            id in w.clients && Drained(w.room, w.clients[id]) && w.room.players != map[] && !w.room.dirty ==>
              ShowsExactly(Shown(w.clients[id]), w.room)
  {
    hide Run, Legal, NewWorld, Drained, Shown, View, ShowsExactly;
    ReachableClientsConverge(code, isPrivate, created, es, id);
    ViewShows(Run(NewWorld(code, isPrivate, created), es).room);
  }

  /** Even while a move is waiting, a client that has drained the reliable channel shows all the rest. */
  lemma ReachableSnapshotsShowTheRest(code: string, isPrivate: bool, created: Now, es: seq<Event>, id: Uuid)
    requires Legal(NewWorld(code, isPrivate, created), es)
    ensures var w := Run(NewWorld(code, isPrivate, created), es);
            id in w.clients && w.clients[id].cursor == |w.room.reliable| && w.room.players != map[] ==>
              ShowsAllButPoses(w.clients[id].snap, w.room)
  {
    ReachableInv(code, isPrivate, created, es);
    var w := Run(NewWorld(code, isPrivate, created), es);
    hide Run, Legal, NewWorld, Synced, Following, Still, View, ShowsAllButPoses;
    if id in w.clients && w.clients[id].cursor == |w.room.reliable| && w.room.players != map[] {
      DrainedClientStill(w.room, w.clients[id]);
      StillShows(w.clients[id].snap, w.room);
    }
  }

  /** The welcome shows the newcomer the room as it is with the newcomer in it, and the chat as it was before. */
  lemma WelcomeShowsTheRoom(w: World, e: Event)
    requires e.Joins? && !w.gone && CanJoin(w.room, e.pid)
    ensures var v := Next(w, e);
            && e.connection in v.clients && e.pid in v.room.players
            && ShowsExactly(Shown(v.clients[e.connection]), v.room)
            && v.clients[e.connection].history == w.room.chatHistory && v.clients[e.connection].chat == []
  {
    var player := NewPlayer(e.owner, e.name, e.cosmetic, e.avatar, e.connection, e.now);
    JoinFacts(w.room, e.pid, player, e.tick, e.now);
    hide Join, View;
    ViewShows(Next(w, e).room);
    hide ShowsAllButPoses;
  }

  /** A delivery closes a connection exactly if it lags by more than 128 messages, or if the room is gone and nothing
      reliable is left to deliver; nothing opens it again. */
  lemma ClosesExactly(c: Client, room: Room, gone: bool)
    requires c.cursor <= |room.reliable|
    ensures Receive(c, room, gone).open <==>
              && c.open && |room.reliable| <= c.cursor + 128
              && !(gone && c.cursor == |room.reliable|)
  {
  }

  // ----- moves reach the clients -----

  predicate AcceptedMove(w: World, e: Event) {
    e.Moves? && !w.gone && Accepts(w.room, e.pid, e.connection, e.m)
  }

  /** Nothing new is waiting, and what was waiting has gone out with any new revision, or with the last player. */
  ghost predicate Settles(before: Room, after: Room) {
    after.dirty <==>
      before.dirty && after.revision == before.revision && (after.players == map[] ==> before.players == map[])
  }

  lemma JoinSettles(room: Room, pid: Uuid, player: Player, tick: nat, now: Now)
    ensures Settles(room, Join(room, pid, player, tick, now))
  {
    hide View, LastOf, Seated;
  }

  lemma LeaveSettles(room: Room, pid: Uuid, connection: Uuid, now: Now)
    ensures Settles(room, Leave(room, pid, connection, now))
  {
    hide View, LastOf, Depart;
  }

  lemma InteractSettles(room: Room, pid: Uuid, connection: Uuid, target: Target, now: Now)
    ensures Settles(room, Interact(room, pid, connection, target, now))
  {
    if Owns(room, pid, connection) {
      ActTidy(room.players, room.activity, pid, target, now.millis);
      hide Act, View;
      assert pid in Interact(room, pid, connection, target, now).players;
    }
  }

  lemma RoundSettles(room: Room, round: nat, now: Now)
    ensures Settles(room, StartNextRound(room, round, now)) && Settles(room, ExpireCafeRush(room, round, now))
  {
    hide ForRound, View, Expired;
    SameEmptiness(room.players, AllHandsEmptied(room.players));
    hide AllHandsEmptied;
  }

  lemma SameEmptiness(before: Players, after: Players)
    requires after.Keys == before.Keys
    ensures after == map[] <==> before == map[]
  {
  }

  lemma EquipSettles(room: Room, owner: Owner, cosmetic: Option<string>, avatar: string)
    ensures Settles(room, EquipCosmetic(room, owner, cosmetic)) && Settles(room, EquipAvatar(room, owner, avatar))
  {
    DressedOnly(room.players, owner, cosmetic, avatar);
    SameEmptiness(room.players, Dressed(room.players, owner, cosmetic));
    SameEmptiness(room.players, WithAvatar(room.players, owner, avatar));
    hide View, Dressed, WithAvatar;
  }

  lemma QuietSettles(room: Room, pid: Uuid, connection: Uuid, text: string, ids: seq<Uuid>, stars: nat, now: Now)
    ensures Settles(room, Chat(room, pid, connection, text, now)) && Settles(room, Emote(room, pid, connection, text))
    ensures Settles(room, Reward(room, ids, stars)) && Settles(room, Flush(room)) && Settles(room, room)
  {
    hide LastOf, Poses, AllowedEmote;
  }

  /** A move is waiting exactly since the last accepted movement message, until a snapshot or a tick goes out or the
      room empties. */
  lemma WaitingExactly(w: World, e: Event)
    ensures if AcceptedMove(w, e) then Next(w, e).room.dirty else Settles(w.room, Next(w, e).room)
  {
    hide Settles, Join, Leave, Interact, Chat, Emote, Reward, EquipCosmetic, EquipAvatar, StartNextRound,
         ExpireCafeRush, Flush, Receive, CompletedRound, NewClient, SignalStop, Becomes, FlushOutcome, TtlOver,
         MovedPose;
    QuietSettles(w.room, 0, 0, "", [], 0, Now(0.0, 0));
    match e
    case Joins(id, owner, name, cosmetic, avatar, connection, tick, now) =>
      JoinSettles(w.room, id, NewPlayer(owner, name, cosmetic, avatar, connection, now), tick, now);
    case Leaves(id, c, now) => LeaveSettles(w.room, id, c, now);
    case Interacts(id, c, target, now) => InteractSettles(w.room, id, c, target, now);
    case Chats(id, c, text, now) => QuietSettles(w.room, id, c, text, [], 0, now);
    case Emotes(id, c, emote) => QuietSettles(w.room, id, c, emote, [], 0, Now(0.0, 0));
    case Rewards(ids, stars) => QuietSettles(w.room, 0, 0, "", ids, stars, Now(0.0, 0));
    case EquipsCosmetic(owner, cosmetic) => EquipSettles(w.room, owner, cosmetic, "");
    case EquipsAvatar(owner, avatar) => EquipSettles(w.room, owner, None, avatar);
    case StartFires(round, now) => RoundSettles(w.room, round, now);
    case RushFires(round, now) => RoundSettles(w.room, round, now);
    case Cleans(_, _, _) => CleanSettles(w, e);
    case _ =>
  }

  lemma CleanSettles(w: World, e: Event)
    requires e.Cleans?
    ensures Settles(w.room, Next(w, e).room)
  {
    hide TtlOver, SignalStop;
  }

  /** What a receiver of the movement channel and the room's tick do leaves the room as it is. */
  ghost predicate SameRoom(w: World, v: World) {
    v.room.players == w.room.players && v.room.activity == w.room.activity && v.gone == w.gone
  }

  function TickTurn(t: nat): seq<Event> {
    [SpawnsTick(t), TickWakes(t), TickFlushes(t)]
  }

  /** The tick of an occupied room, left to run, leaves no move waiting and tells nobody to stop. */
  lemma TickSendsMoves(w: World) returns (t: nat, v: World)
    requires WorldInv(w) && !w.gone && w.room.players != map[]
    ensures v == Next(Next(Next(w, SpawnsTick(t)), TickWakes(t)), TickFlushes(t))
    ensures SameRoom(w, v) && v.clients == w.clients && !v.room.dirty && v.room.reliable == w.room.reliable
  {
    hide WorldInv, Next;
    t := TickOf(w);
    var u := Next(w, SpawnsTick(t));
    Spawns(w, t);
    WakesAndFlushes(u, t);
    v := Next(Next(u, TickWakes(t)), TickFlushes(t));
  }

  lemma Spawns(w: World, t: nat)
    requires t in w.ticks && !w.ticks[t].done
    ensures Next(w, SpawnsTick(t)) == w.(ticks := w.ticks[t := w.ticks[t].(spawned := true)])
  {
  }

  lemma WakesAndFlushes(w: World, t: nat)
    requires t in w.ticks && w.ticks[t].spawned && !w.ticks[t].stopSent && !w.ticks[t].done
    requires !w.gone && w.room.players != map[]
    ensures var v := Next(Next(w, TickWakes(t)), TickFlushes(t));
            SameRoom(w, v) && v.clients == w.clients && !v.room.dirty && v.room.reliable == w.room.reliable
  {
    var u := Next(w, TickWakes(t));
    assert u == w.(ticks := w.ticks[t := w.ticks[t].(flushing := true)]);
    FlushSends(w.room);
    hide Flush;
    assert FlushOutcome(u.room) != Stop;
    assert Next(u, TickFlushes(t)).room == Flush(w.room);
  }

  lemma FlushSends(room: Room)
    requires room.players != map[]
    ensures var after := Flush(room);
            && after.players == room.players && after.activity == room.activity
            && !after.dirty && after.reliable == room.reliable
  {
    hide Poses;
  }

  lemma TickOf(w: World) returns (t: nat)
    requires WorldInv(w) && w.room.players != map[]
    ensures w.room.tickStop == Some(t) && t in w.ticks && !w.ticks[t].stopSent && !w.ticks[t].done
  {
    assert Ticking(w);
    hide Consistent;
    t := w.room.tickStop.value;
  }

  lemma {:induction false} Drains(w: World, from: Now, id: Uuid) returns (es: seq<Event>, v: World)
    requires WorldInv(w) && !w.gone && id in w.clients && w.clients[id].open
    requires |w.room.reliable| - w.clients[id].cursor <= BROADCAST_CAPACITY
    ensures Leads(w, from, es, v, from) && v.room == w.room && !v.gone
    ensures id in v.clients && Drained(v.room, v.clients[id])
    decreases |w.room.reliable| - w.clients[id].cursor
  {
    InvFollowing(w, id);
    hide WorldInv, Leads, Next, Synced, Following;
    var e := Delivers(id);
    var u := Next(w, e);
    DeliverLeads(w, from, id);
    var c := w.clients[id];
    ReceivesOne(c, w.room);
    hide Receive;
    if c.cursor < |w.room.reliable| {
      LeadsLegal(w, from, [e], u, from);
      var rest;
      rest, v := Drains(u, from, id);
      LeadsOn(w, from, [e], u, from, rest, v, from);
      es := [e] + rest;
    } else {
      es, v := [e], u;
    }
  }

  lemma ReceivesOne(c: Client, room: Room)
    requires c.open && c.cursor <= |room.reliable| <= c.cursor + BROADCAST_CAPACITY
    requires c.seenVersion <= room.movementVersion
    ensures var d := Receive(c, room, false);
            if c.cursor < |room.reliable| then d.open && d.cursor == c.cursor + 1 else Drained(room, d)
  {
  }

  lemma DeliverLeads(w: World, from: Now, id: Uuid)
    requires id in w.clients
    ensures var v := Next(w, Delivers(id));
            && Leads(w, from, [Delivers(id)], v, from) && v.room == w.room && v.gone == w.gone
            && v.clients == w.clients[id := Receive(w.clients[id], w.room, w.gone)]
  {
    hide Receive;
    LeadsOne(w, from, Delivers(id));
  }

  lemma InvFollowing(w: World, id: Uuid)
    requires WorldInv(w) && id in w.clients
    ensures w.clients[id].cursor <= |w.room.reliable| && w.clients[id].seenVersion <= w.room.movementVersion
    ensures Synced(w.room) && Following(w.room, w.clients[id])
  {
    assert Consistent(w);
    hide Ticking, Synced;
    ConsistentRoom(w);
    assert RoomInv(w.room) && ClientInv(w.room, w.clients[id]);
  }

  /** After any run, whatever clients are still shown: the room's tick and the deliveries to an open client that does
      not lag bring it to show exactly the room, which they leave as it is. */
  lemma EveryMoveGetsShown(code: string, isPrivate: bool, created: Now, es: seq<Event>, id: Uuid, from: Now)
    returns (more: seq<Event>, v: World)
    requires Legal(NewWorld(code, isPrivate, created), es)
    requires var w := Run(NewWorld(code, isPrivate, created), es);
             && !w.gone && w.room.players != map[] && id in w.clients && w.clients[id].open
             && |w.room.reliable| - w.clients[id].cursor <= BROADCAST_CAPACITY
    ensures var w := Run(NewWorld(code, isPrivate, created), es);
            Legal(w, more) && Run(w, more) == v && SameRoom(w, v)
    ensures id in v.clients && ShowsExactly(Shown(v.clients[id]), v.room)
  {
    var w0 := NewWorld(code, isPrivate, created);
    var w := Run(w0, es);
    NewWorldInv(code, isPrivate, created);
    RunInv(w0, es);
    hide Run, Legal, NewWorld, WorldInv, Leads, Synced, Following, ShowsExactly, Shown, View, Drained, Next;
    var t, u := TickSendsMoves(w);
    TickTurnLeads(w, from, t, u);
    LeadsLegal(w, from, TickTurn(t), u, from);
    var rest;
    rest, v := Drains(u, from, id);
    LeadsLegal(u, from, rest, v, from);
    LeadsOn(w, from, TickTurn(t), u, from, rest, v, from);
    more := TickTurn(t) + rest;
    LeadsLegal(w, from, more, v, from);
    InvFollowing(v, id);
    DrainedClientConverges(v.room, v.clients[id]);
    ViewShows(v.room);
  }

  lemma TickTurnLeads(w: World, from: Now, t: nat, v: World)
    requires v == Next(Next(Next(w, SpawnsTick(t)), TickWakes(t)), TickFlushes(t))
    ensures Leads(w, from, TickTurn(t), v, from)
  {
    hide Next;
    var e, f, g := SpawnsTick(t), TickWakes(t), TickFlushes(t);
    LeadsOne(w, from, e);
    LeadsOne(Next(w, e), from, f);
    LeadsOne(Next(Next(w, e), f), from, g);
    hide Leads;
    LeadsOn(w, from, [e], Next(w, e), from, [f], Next(Next(w, e), f), from);
    LeadsOn(w, from, [e] + [f], Next(Next(w, e), f), from, [g], v, from);
    assert [e] + [f] + [g] == TickTurn(t);
  }
}
