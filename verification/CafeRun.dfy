/**
 All invariants of a room's world together, kept by every event and therefore true after
 every legal run from the creation of the room.
 */
module CafeRun {
  import opened Basics
  import opened CafeModel
  import opened CafeFloor
  import opened CafeInventory
  import opened CafeProgress
  import opened CafeMovement
  import opened CafeRooms
  import opened CafeWorld
  import opened CafeRounds
  import opened CafeTicks
  import opened CafeStreams
  import opened CafeChat

  ghost predicate RoomInv(room: Room) {
    Balanced(room.players, room.activity) && AllStanding(room.players) && Synced(room) && ChatSynced(room)
  }

  ghost predicate ClientInv(room: Room, c: Client) {
    Following(room, c) && ChatFollowing(room, c)
  }

  /** `after` keeps the room invariant and leaves every receiver consistent. */
  ghost predicate Keeps(room: Room, after: Room) {
    RoomInv(after) && forall c :: ClientInv(room, c) ==> ClientInv(after, c)
  }

  lemma KeepsTransitive(a: Room, b: Room, c: Room)
    requires Keeps(a, b) && Keeps(b, c)
    ensures Keeps(a, c)
  {
    hide RoomInv, ClientInv;
  }

  // ----- the building blocks of room operations -----

  lemma SendKeeps(room: Room, m: ServerMessage)
    requires RoomInv(room) && !m.Snapshot? && !m.ChatMessage?
    ensures Keeps(room, Send(room, m))
  {
    var after := Send(room, m);
    hide Balanced, Synced, ChatSynced, Following, ChatFollowing, ChatQuiet;
    SendSynced(room, m);
    SendQuiet(room, m);
    QuietSynced(room, after);
    forall c | ClientInv(room, c)
      ensures ClientInv(after, c)
    {
      SendFollowing(room, m, c);
      GrowsFollowing(room, after, c);
    }
  }

  /** An edit of players and activity that is broadcast at once. */
  lemma EditKeeps(room: Room, players: Players, activity: Activity)
    requires RoomInv(room) && players.Keys == room.players.Keys
    requires Balanced(players, activity)
    requires AllStanding(players)
    ensures Keeps(room, BroadcastSnapshot(room.(players := players, activity := activity)))
  {
    var edited := room.(players := players, activity := activity);
    var after := BroadcastSnapshot(edited);
    hide Balanced, Synced, ChatSynced, Following, ChatFollowing, ChatQuiet, AllStanding, View;
    BroadcastSynced(room, edited);
    SamePeople(room, edited);
    BroadcastQuiet(edited);
    QuietSynced(edited, after);
    forall c | ClientInv(room, c)
      ensures ClientInv(after, c)
    {
      BroadcastFollowing(room, edited, c);
      GrowsFollowing(room, after, c);
    }
  }

  /** A chat event goes out; who is present is accounted for by CafeChat. */
  lemma PushStreams(room: Room, event: ChatEvent)
    requires Synced(room)
    ensures Synced(PushChatEvent(room, event))
    ensures forall c :: Following(room, c) ==> Following(PushChatEvent(room, event), c)
  {
    hide Synced, Following;
    var side := room.(chatHistory := LastOf(room.chatHistory + [event], CHAT_HISTORY_LIMIT));
    SideSynced(room, side);
    SendSynced(side, ChatMessage(event));
    forall c | Following(room, c)
      ensures Following(PushChatEvent(room, event), c)
    {
      SideFollowing(room, side, c);
      SendFollowing(side, ChatMessage(event), c);
    }
  }

  // ----- room operations -----

  lemma ChatKeeps(room: Room, pid: Uuid, connection: Uuid, text: string, now: Now)
    requires RoomInv(room)
    ensures Keeps(room, Chat(room, pid, connection, text, now))
  {
    hide Balanced, Synced, ChatSynced, Following, ChatFollowing;
    var after := Chat(room, pid, connection, text, now);
    ChatChat(room, pid, connection, text, now);
    if Owns(room, pid, connection) {
      PushStreams(room, ChatEvent(MessageEvent, pid, room.players[pid].name, Some(text), now.millis));
    }
    forall c | ClientInv(room, c)
      ensures ClientInv(after, c)
    {
      GrowsFollowing(room, after, c);
    }
  }

  lemma MoveKeeps(room: Room, pid: Uuid, connection: Uuid, m: Movement, root: real, now: Now)
    requires RoomInv(room)
    requires Accepts(room, pid, connection, m) ==>
               IsDistance(root, At(room.players[pid].pose), Point(m.x.value, m.y.value))
    ensures Keeps(room, Move(room, pid, connection, m, root, now))
  {
    var after := Move(room, pid, connection, m, root, now);
    MoveLegal(room, pid, connection, m, root, now);
    MoveSynced(room, pid, connection, m, root, now);
    MoveHands(room, pid, connection, m, root, now);
    BalancedKept(room.players, after.players, room.activity);
    hide Balanced, Synced, ChatSynced, Following, ChatFollowing, AllStanding, Within;
    SamePeople(room, after);
    forall c | ClientInv(room, c)
      ensures ClientInv(after, c)
    {
      MoveFollowing(room, pid, connection, m, root, now, c);
      GrowsFollowing(room, after, c);
    }
  }

  lemma MoveHands(room: Room, pid: Uuid, connection: Uuid, m: Movement, root: real, now: Now)
    ensures var after := Move(room, pid, connection, m, root, now);
            && SameStockHeld(room.players, after.players) && SameOrdersHeld(room.players, after.players)
            && after.activity == room.activity && after.reliable == room.reliable
            && after.chatHistory == room.chatHistory
  {
    hide MovedPose;
  }

  lemma FlushKeeps(room: Room)
    requires RoomInv(room)
    ensures Keeps(room, Flush(room))
  {
    var after := Flush(room);
    hide Balanced, Synced, ChatSynced, Following, ChatFollowing, Standable;
    FlushSynced(room);
    SamePeople(room, after);
    forall c | ClientInv(room, c)
      ensures ClientInv(after, c)
    {
      FlushFollowing(room, c);
      GrowsFollowing(room, after, c);
    }
  }

  lemma ApplyKeeps(room: Room, o: Outcome)
    requires RoomInv(room) && Tidy(room.players, room.activity, o) && Balanced(o.players, o.activity)
    ensures Keeps(room, Apply(room, o))
  {
    hide RoomInv, Balanced, ClientInv, BroadcastSnapshot, Keeps, AllStanding;
    var said := if o.say.Some? then Say(room, o.say.value) else room;
    assert RoomInv(said) && Keeps(room, said) by {
      if o.say.Some? { SendKeeps(room, DialogueMessage(o.say.value)); }
      KeepsSelf(room);
      KeepsRoom(room, said);
    }
    if o.changed {
      StandingHands(room, o.players);
      EditKeeps(said, o.players, o.activity);
      KeepsTransitive(room, said, Apply(room, o));
    } else {
      assert room.(players := o.players, activity := o.activity) == room;
    }
  }

  lemma KeepsSelf(room: Room)
    ensures RoomInv(room) ==> Keeps(room, room)
  {
  }

  lemma KeepsRoom(room: Room, after: Room)
    ensures Keeps(room, after) ==> RoomInv(after)
  {
  }

  /** Hands change without moving anybody. */
  lemma StandingHands(room: Room, players: Players)
    requires RoomInv(room) && players.Keys == room.players.Keys
    requires forall p :: p in players ==> EmptyHands(players[p]) == EmptyHands(room.players[p])
    ensures AllStanding(players)
  {
    hide Balanced, Synced, ChatSynced, Standable;
    forall p | p in players
      ensures Standable(players[p].pose.x, players[p].pose.y)
    {
      assert EmptyHands(players[p]).pose == EmptyHands(room.players[p]).pose;
    }
  }

  lemma InteractKeeps(room: Room, pid: Uuid, connection: Uuid, target: Target, now: Now)
    requires RoomInv(room)
    ensures Keeps(room, Interact(room, pid, connection, target, now))
  {
    if Owns(room, pid, connection) {
      ActTidy(room.players, room.activity, pid, target, now.millis);
      ActBalanced(room.players, room.activity, pid, target, now.millis);
      ApplyKeeps(room, Act(room.players, room.activity, pid, target, now.millis));
    } else {
      KeepsSelf(room);
    }
  }

  lemma EmptiedStanding(room: Room)
    requires RoomInv(room)
    ensures AllStanding(AllHandsEmptied(room.players)) && AllHandsEmptied(room.players).Keys == room.players.Keys
  {
    StandingHands(room, AllHandsEmptied(room.players));
  }

  lemma StartKeeps(room: Room, round: nat, now: Now)
    requires RoomInv(room)
    ensures Keeps(room, StartNextRound(room, round, now))
  {
    hide RoomInv, Balanced, ClientInv, ForRound, AllStanding, BroadcastSnapshot, Keeps, AllHandsEmptied;
    if CanStart(room, round) {
      var activity := ForRound(NextRound(round), |room.players|, now.millis);
      var players := AllHandsEmptied(room.players);
      ForRoundBalanced(room.players, NextRound(round), |room.players|, now.millis);
      EmptiedStanding(room);
      var shown := BroadcastSnapshot(room.(players := players, activity := activity));
      EditKeeps(room, players, activity);
      KeepsRoom(room, shown);
      SendKeeps(shown, DialogueMessage(RoundReady(activity.kind)));
      KeepsTransitive(room, shown, StartNextRound(room, round, now));
    } else {
      KeepsSelf(room);
    }
  }

  lemma ExpireKeeps(room: Room, round: nat, now: Now)
    requires RoomInv(room)
    ensures Keeps(room, ExpireCafeRush(room, round, now))
  {
    if CanExpire(room, round) {
      var players := AllHandsEmptied(room.players);
      var activity := Expired(room.activity, now.millis);
      assert Balanced(players, activity) by { ExpiredBalanced(room.players, room.activity, now.millis); }
      hide RoomInv, Balanced, ClientInv, AllStanding, BroadcastSnapshot, Keeps, Expired, AllHandsEmptied;
      EmptiedStanding(room);
      var said := Say(room, RushTimeUp);
      SendKeeps(room, DialogueMessage(RushTimeUp));
      KeepsRoom(room, said);
      EditKeeps(said, players, activity);
      KeepsTransitive(room, said, ExpireCafeRush(room, round, now));
    } else {
      KeepsSelf(room);
    }
  }

  lemma {:induction false} RewardKeeps(room: Room, ids: seq<Uuid>, stars: nat)
    requires RoomInv(room)
    ensures Keeps(room, Reward(room, ids, stars))
    decreases |ids|
  {
    hide RoomInv, ClientInv, Keeps;
    if ids == [] {
      assert Reward(room, ids, stars).reliable == room.reliable;
      KeepsSelf(room);
    } else {
      var n := |ids| - 1;
      var most := Reward(room, ids[..n], stars);
      RewardKeeps(room, ids[..n], stars);
      KeepsRoom(room, most);
      SendKeeps(most, RewardMessage(ids[n], stars));
      assert Reward(room, ids, stars).reliable == Send(most, RewardMessage(ids[n], stars)).reliable;
      KeepsTransitive(room, most, Send(most, RewardMessage(ids[n], stars)));
    }
  }

  lemma EmoteKeeps(room: Room, pid: Uuid, connection: Uuid, emote: string)
    requires RoomInv(room)
    ensures Keeps(room, Emote(room, pid, connection, emote))
  {
    hide RoomInv, ClientInv, Keeps;
    if AllowedEmote(emote) && Owns(room, pid, connection) {
      SendKeeps(room, EmoteMessage(pid, emote));
    } else {
      KeepsSelf(room);
    }
  }

  /** A change of clothes leaves hands and positions alone. */
  ghost predicate OnlyDressed(players: Players, dressed: Players) {
    && SameStockHeld(players, dressed) && SameOrdersHeld(players, dressed)
    && forall p :: p in players ==>
         dressed[p].pose == players[p].pose && dressed[p].lastMoveAt == players[p].lastMoveAt
  }

  lemma DressedOnly(players: Players, owner: Owner, cosmetic: Option<string>, avatar: string)
    ensures OnlyDressed(players, Dressed(players, owner, cosmetic))
    ensures OnlyDressed(players, WithAvatar(players, owner, avatar))
  {
  }

  lemma DressKeeps(room: Room, dressed: Players)
    requires RoomInv(room) && OnlyDressed(room.players, dressed)
    ensures Keeps(room, BroadcastSnapshot(room.(players := dressed)))
  {
    BalancedKept(room.players, dressed, room.activity);
    assert AllStanding(dressed) by { hide Balanced, Synced, ChatSynced, Standable; }
    hide RoomInv, Balanced, AllStanding, ClientInv, BroadcastSnapshot, Keeps;
    EditKeeps(room, dressed, room.activity);
  }

  lemma EquipKeeps(room: Room, owner: Owner, cosmetic: Option<string>, avatar: string)
    requires RoomInv(room)
    ensures Keeps(room, EquipCosmetic(room, owner, cosmetic))
    ensures Keeps(room, EquipAvatar(room, owner, avatar))
  {
    hide RoomInv, BroadcastSnapshot, Keeps, OnlyDressed, Dressed, WithAvatar;
    KeepsSelf(room);
    DressedOnly(room.players, owner, cosmetic, avatar);
    DressKeeps(room, Dressed(room.players, owner, cosmetic));
    DressKeeps(room, WithAvatar(room.players, owner, avatar));
  }

  // ----- joining and leaving -----

  lemma JoinBalanced(room: Room, pid: Uuid, player: Player)
    requires Balanced(room.players, room.activity) && HandsEmpty(player)
    ensures Balanced(room.players[pid := Seated(room, pid, player)], room.activity)
  {
    var seated := room.players[pid := Seated(room, pid, player)];
    if pid in room.players {
      BalancedKept(room.players, seated, room.activity);
    } else {
      ArrivalBalanced(room.players, room.activity, pid, player);
    }
  }

  lemma JoinStanding(room: Room, pid: Uuid, player: Player)
    requires AllStanding(room.players) && Standable(player.pose.x, player.pose.y)
    ensures AllStanding(room.players[pid := Seated(room, pid, player)])
  {
    hide Standable;
  }

  lemma JoinStreams(room: Room, pid: Uuid, player: Player, tick: nat, now: Now)
    requires Synced(room)
    ensures var after := Join(room, pid, player, tick, now);
            Synced(after) && forall c :: Following(room, c) ==> Following(after, c)
  {
    hide Synced, Following, View;
    var edited := room.(players := room.players[pid := Seated(room, pid, player)],
                          everJoined := true, emptySince := None);
    var seated := BroadcastSnapshot(edited);
    var event := ChatEvent(JoinedEvent, pid, player.name, None, now.millis);
    var announced := if pid in room.players then seated else PushChatEvent(seated, event);
    var after := Join(room, pid, player, tick, now);
    BroadcastSynced(room, edited);
    PushStreams(seated, event);
    SideSynced(announced, after);
    forall c | Following(room, c)
      ensures Following(after, c)
    {
      BroadcastFollowing(room, edited, c);
      SideFollowing(announced, after, c);
    }
  }

  lemma JoinKeeps(room: Room, pid: Uuid, player: Player, tick: nat, now: Now)
    requires RoomInv(room) && HandsEmpty(player) && Standable(player.pose.x, player.pose.y)
    ensures var after := Join(room, pid, player, tick, now);
            Keeps(room, after) && ClientInv(after, NewClient(pid, room, after))
  {
    hide Balanced, Synced, ChatSynced, Following, ChatFollowing, AllStanding, Join, NewClient, Seated,
         HandsEmpty, Standable;
    var after := Join(room, pid, player, tick, now);
    JoinBalanced(room, pid, player);
    JoinStanding(room, pid, player);
    JoinStreams(room, pid, player, tick, now);
    JoinChat(room, pid, player, tick, now);
    NewClientFollowing(room, pid, player, tick, now);
    NewClientChat(room, pid, after);
    JoinFacts(room, pid, player, tick, now);
    forall c | ClientInv(room, c)
      ensures ClientInv(after, c)
    {
      GrowsFollowing(room, after, c);
    }
  }

  lemma JoinFacts(room: Room, pid: Uuid, player: Player, tick: nat, now: Now)
    ensures var after := Join(room, pid, player, tick, now);
            && after.players == room.players[pid := Seated(room, pid, player)]
            && after.activity == room.activity
  {
  }

  lemma LeaveFacts(room: Room, pid: Uuid, connection: Uuid, now: Now)
    requires Owns(room, pid, connection)
    ensures var after := Leave(room, pid, connection, now);
            && after.players == room.players - {pid}
            && after.activity == Depart(room.activity, room.players[pid], pid)
  {
    hide Depart;
  }

  lemma LeaveStreams(room: Room, pid: Uuid, connection: Uuid, now: Now)
    requires Synced(room) && Owns(room, pid, connection)
    ensures var after := Leave(room, pid, connection, now);
            Synced(after) && forall c :: Following(room, c) ==> Following(after, c)
  {
    hide Synced, Following, View, Depart;
    var player := room.players[pid];
    var event := ChatEvent(LeftEvent, pid, player.name, None, now.millis);
    var rest := room.(players := room.players - {pid}, activity := Depart(room.activity, player, pid));
    var after := Leave(room, pid, connection, now);
    if rest.players == map[] {
      SideSynced(room, rest);
      PushStreams(rest, event);
      SideSynced(PushChatEvent(rest, event), after);
      forall c | Following(room, c)
        ensures Following(after, c)
      {
        SideFollowing(room, rest, c);
        SideFollowing(PushChatEvent(rest, event), after, c);
      }
    } else {
      BroadcastSynced(room, rest);
      PushStreams(BroadcastSnapshot(rest), event);
      forall c | Following(room, c)
        ensures Following(after, c)
      {
        BroadcastFollowing(room, rest, c);
      }
    }
  }

  lemma StaleLeave(room: Room, pid: Uuid, connection: Uuid, now: Now)
    requires !Owns(room, pid, connection)
    ensures Leave(room, pid, connection, now) == room
  {
  }

  lemma LeaveKeeps(room: Room, pid: Uuid, connection: Uuid, now: Now)
    requires RoomInv(room)
    ensures Keeps(room, Leave(room, pid, connection, now))
  {
    hide Balanced, Synced, ChatSynced, Following, ChatFollowing, Standable, Leave, Depart;
    if Owns(room, pid, connection) {
      var after := Leave(room, pid, connection, now);
      DepartBalanced(room.players, room.activity, pid);
      LeaveFacts(room, pid, connection, now);
      LeaveStreams(room, pid, connection, now);
      LeaveChat(room, pid, connection, now);
      forall c | ClientInv(room, c)
        ensures ClientInv(after, c)
      {
        GrowsFollowing(room, after, c);
      }
    } else {
      StaleLeave(room, pid, connection, now);
      KeepsSelf(room);
    }
  }

  // ----- the world -----

  ghost predicate Consistent(w: World) {
    RoomInv(w.room) && forall id :: id in w.clients ==> ClientInv(w.room, w.clients[id])
  }

  lemma ConsistentRoom(w: World)
    requires Consistent(w)
    ensures RoomInv(w.room)
    ensures forall id :: id in w.clients ==> ClientInv(w.room, w.clients[id])
  {
  }

  lemma UpdateConsistent(w: World, room: Room, v: World)
    requires Consistent(w) && Keeps(w.room, room) && v.clients == w.clients && v.room == room
    ensures Consistent(v)
  {
    hide RoomInv, ClientInv;
  }

  lemma JoinConsistent(w: World, pid: Uuid, player: Player, connection: Uuid, tick: nat, now: Now)
    requires Consistent(w) && HandsEmpty(player) && Standable(player.pose.x, player.pose.y)
    ensures Consistent(JoinStep(w, pid, player, connection, tick, now))
  {
    hide RoomInv, ClientInv, Join, NewClient, HandsEmpty, Standable;
    if !w.gone && CanJoin(w.room, pid) {
      JoinKeeps(w.room, pid, player, tick, now);
      var v := JoinStep(w, pid, player, connection, tick, now);
      UpdateConsistent(w, v.room, w.(room := v.room));
    }
  }

  lemma ReceiveClient(room: Room, gone: bool, c: Client)
    requires RoomInv(room) && ClientInv(room, c)
    ensures ClientInv(room, Receive(c, room, gone))
  {
    hide Balanced, AllStanding, Synced, ChatSynced, Following, ChatFollowing, Receive;
    ReceiveFollowing(room, gone, c);
    ReceiveChat(room, gone, c);
  }

  lemma DeliverConsistent(w: World, connection: Uuid)
    requires Consistent(w)
    ensures Consistent(Next(w, Delivers(connection)))
  {
    hide RoomInv, ClientInv, Receive;
    if connection in w.clients {
      ReceiveClient(w.room, w.gone, w.clients[connection]);
    }
  }

  lemma TickConsistent(w: World, t: nat, e: Event)
    requires Consistent(w) && (e.SpawnsTick? || e.TickWakes? || e.TickFlushes?)
    ensures Consistent(TickStep(w, t, e))
  {
    hide Consistent, RoomInv, Keeps, Flush, FlushOutcome;
    ConsistentRoom(w);
    FlushKeeps(w.room);
    KeepsSelf(w.room);
    var v := TickStep(w, t, e);
    UpdateConsistent(w, v.room, v);
  }

  lemma CleanConsistent(w: World, e: Event)
    requires Consistent(w) && e.Cleans?
    ensures Consistent(Next(w, e))
  {
    var v := Next(w, e);
    if v.room != w.room {
      hide Balanced, AllStanding, Synced, ChatSynced, Following, ChatFollowing;
      SideSynced(w.room, v.room);
      SamePeople(w.room, v.room);
      forall id | id in v.clients
        ensures ClientInv(v.room, v.clients[id])
      {
        SideFollowing(w.room, v.room, w.clients[id]);
        GrowsFollowing(w.room, v.room, w.clients[id]);
      }
    }
  }

  lemma InteractConsistent(w: World, pid: Uuid, connection: Uuid, target: Target, now: Now)
    requires Consistent(w)
    ensures Consistent(InteractStep(w, pid, connection, target, now))
  {
    hide Consistent, RoomInv, Keeps, Interact, CompletedRound;
    ConsistentRoom(w);
    InteractKeeps(w.room, pid, connection, target, now);
    var v := InteractStep(w, pid, connection, target, now);
    if !w.gone { UpdateConsistent(w, v.room, v); }
  }

  lemma StartConsistent(w: World, round: nat, now: Now)
    requires Consistent(w)
    ensures Consistent(StartStep(w, round, now))
  {
    hide Consistent, RoomInv, Keeps, StartNextRound;
    ConsistentRoom(w);
    StartKeeps(w.room, round, now);
    KeepsSelf(w.room);
    var v := StartStep(w, round, now);
    UpdateConsistent(w, v.room, v);
  }

  lemma RushConsistent(w: World, round: nat, now: Now)
    requires Consistent(w)
    ensures Consistent(RushStep(w, round, now))
  {
    hide Consistent, RoomInv, Keeps, ExpireCafeRush;
    ConsistentRoom(w);
    ExpireKeeps(w.room, round, now);
    KeepsSelf(w.room);
    var v := RushStep(w, round, now);
    UpdateConsistent(w, v.room, v);
  }

  lemma LeaveConsistent(w: World, pid: Uuid, connection: Uuid, now: Now)
    requires Consistent(w)
    ensures Consistent(LeaveStep(w, pid, connection, now))
  {
    hide Consistent, RoomInv, Keeps, Leave;
    ConsistentRoom(w);
    LeaveKeeps(w.room, pid, connection, now);
    KeepsSelf(w.room);
    var v := LeaveStep(w, pid, connection, now);
    UpdateConsistent(w, v.room, v);
  }

  lemma QuietConsistent(w: World, room: Room)
    requires Consistent(w) && Keeps(w.room, room)
    ensures Consistent(Update(w, room))
  {
    hide RoomInv, ClientInv;
  }

  lemma MoveConsistent(w: World, pid: Uuid, connection: Uuid, m: Movement, root: real, now: Now)
    requires Consistent(w) && Enabled(w, Moves(pid, connection, m, root, now))
    ensures Consistent(Update(w, Move(w.room, pid, connection, m, root, now)))
  {
    hide Consistent, RoomInv, Keeps, Update, Move;
    ConsistentRoom(w);
    MoveKeeps(w.room, pid, connection, m, root, now);
    QuietConsistent(w, Move(w.room, pid, connection, m, root, now));
  }

  lemma TalkConsistent(w: World, pid: Uuid, connection: Uuid, text: string, ids: seq<Uuid>, stars: nat, now: Now)
    requires Consistent(w)
    ensures Consistent(Update(w, Chat(w.room, pid, connection, text, now)))
    ensures Consistent(Update(w, Emote(w.room, pid, connection, text)))
    ensures Consistent(Update(w, Reward(w.room, ids, stars)))
  {
    hide Consistent, RoomInv, Keeps, Update, Chat, Emote, Reward;
    ConsistentRoom(w);
    ChatKeeps(w.room, pid, connection, text, now);
    EmoteKeeps(w.room, pid, connection, text);
    RewardKeeps(w.room, ids, stars);
    QuietConsistent(w, Chat(w.room, pid, connection, text, now));
    QuietConsistent(w, Emote(w.room, pid, connection, text));
    QuietConsistent(w, Reward(w.room, ids, stars));
  }

  lemma EquipConsistent(w: World, owner: Owner, cosmetic: Option<string>, avatar: string)
    requires Consistent(w)
    ensures Consistent(Update(w, EquipCosmetic(w.room, owner, cosmetic)))
    ensures Consistent(Update(w, EquipAvatar(w.room, owner, avatar)))
  {
    hide Consistent, RoomInv, Keeps, Update, EquipCosmetic, EquipAvatar;
    ConsistentRoom(w);
    EquipKeeps(w.room, owner, cosmetic, avatar);
    QuietConsistent(w, EquipCosmetic(w.room, owner, cosmetic));
    QuietConsistent(w, EquipAvatar(w.room, owner, avatar));
  }

  lemma StepConsistent(w: World, e: Event)
    requires Consistent(w) && Enabled(w, e)
    ensures Consistent(Next(w, e))
  {
    hide Consistent, JoinStep, LeaveStep, TickStep, InteractStep, StartStep, RushStep, Update, Receive,
         Move, Chat, Emote, Reward, EquipCosmetic, EquipAvatar, TtlOver, SignalStop, Becomes;
    match e
    case Joins(pid, owner, name, cosmetic, avatar, connection, tick, now) =>
      SpawnStandable();
      JoinConsistent(w, pid, NewPlayer(owner, name, cosmetic, avatar, connection, now), connection, tick, now);
    case Leaves(pid, connection, now) => LeaveConsistent(w, pid, connection, now);
    case Moves(pid, connection, m, root, now) => MoveConsistent(w, pid, connection, m, root, now);
    case Interacts(pid, connection, target, now) => InteractConsistent(w, pid, connection, target, now);
    case Chats(pid, connection, text, now) => TalkConsistent(w, pid, connection, text, [], 0, now);
    case Emotes(pid, connection, emote) => TalkConsistent(w, pid, connection, emote, [], 0, Now(0.0, 0));
    case Rewards(ids, stars) => TalkConsistent(w, 0, 0, "", ids, stars, Now(0.0, 0));
    case EquipsCosmetic(owner, cosmetic) => EquipConsistent(w, owner, cosmetic, "");
    case EquipsAvatar(owner, avatar) => EquipConsistent(w, owner, None, avatar);
    case StartFires(round, now) => StartConsistent(w, round, now);
    case RushFires(round, now) => RushConsistent(w, round, now);
    case SpawnsTick(t) => TickConsistent(w, t, e);
    case TickWakes(t) => TickConsistent(w, t, e);
    case TickFlushes(t) => TickConsistent(w, t, e);
    case Delivers(connection) => DeliverConsistent(w, connection);
    case Cleans(_, _, _) => CleanConsistent(w, e);
    case SpawnsStart(_) => SameConsistent(w, Next(w, e));
    case SpawnsRush(_) => SameConsistent(w, Next(w, e));
  }

  lemma SameConsistent(w: World, v: World)
    requires Consistent(w) && v.room == w.room && v.clients == w.clients
    ensures Consistent(v)
  {
  }

  // ----- runs -----

  ghost predicate WorldInv(w: World) {
    Consistent(w) && Rounds(w) && Ticking(w)
  }

  lemma NewWorldInv(code: string, isPrivate: bool, now: Now)
    ensures WorldInv(NewWorld(code, isPrivate, now))
  {
    var w := NewWorld(code, isPrivate, now);
    NewWorldRounds(code, isPrivate, now);
    NewWorldTicking(code, isPrivate, now);
    ForRoundBalanced(map[], 1, 0, now.millis);
    assert AllHandsEmptied(map[]) == map[];
    hide Balanced, ForRound, Rounds, Ticking;
  }

  lemma StepInv(w: World, e: Event)
    requires WorldInv(w) && Enabled(w, e)
    ensures WorldInv(Next(w, e))
  {
    assert Balanced(w.room.players, w.room.activity) by { assert RoomInv(w.room); }
    hide Consistent, Rounds, Ticking, Balanced, Next, Enabled;
    StepConsistent(w, e);
    StepRounds(w, e);
    StepTicking(w, e);
  }

  lemma InvBalanced(w: World)
    requires WorldInv(w)
    ensures Balanced(w.room.players, w.room.activity)
  {
    hide Rounds, Ticking, Balanced;
    assert Consistent(w);
    ConsistentRoom(w);
    assert RoomInv(w.room);
  }

  lemma InvStanding(w: World)
    requires WorldInv(w)
    ensures AllStanding(w.room.players)
  {
    hide Rounds, Ticking, Balanced, AllStanding;
    assert Consistent(w);
    ConsistentRoom(w);
    assert RoomInv(w.room);
  }

  /** The invariants hold after every legal run from any state that has them. */
  lemma {:induction false} RunInv(w: World, es: seq<Event>)
    requires WorldInv(w) && Legal(w, es)
    ensures WorldInv(Run(w, es))
    decreases es
  {
    hide WorldInv, Next, Enabled;
    if es != [] {
      StepInv(w, es[0]);
      RunInv(Next(w, es[0]), es[1..]);
    }
  }

  /** Claims, conservation, legal positions, rounds, ticks, channels and chat are in order
      in every world that a room can reach. */
  lemma ReachableInv(code: string, isPrivate: bool, now: Now, es: seq<Event>)
    requires Legal(NewWorld(code, isPrivate, now), es)
    ensures var w := Run(NewWorld(code, isPrivate, now), es);
            && Balanced(w.room.players, w.room.activity) && AllStanding(w.room.players)
            && Synced(w.room) && ChatSynced(w.room) && Rounds(w) && Ticking(w)
            && forall id :: id in w.clients ==> Following(w.room, w.clients[id]) && ChatFollowing(w.room, w.clients[id])
  {
    var w0 := NewWorld(code, isPrivate, now);
    NewWorldInv(code, isPrivate, now);
    RunInv(w0, es);
    hide Run, Legal, NewWorld, Balanced, AllStanding, Synced, ChatSynced, Rounds, Ticking, Following, ChatFollowing;
  }

  /** After any run, presence events of the room's log alternate for every player, the last one is Joined exactly if the
      player is present, and the history is the last 30 events of the log. */
  lemma ReachablePresence(code: string, isPrivate: bool, now: Now, es: seq<Event>, p: Uuid)
    requires Legal(NewWorld(code, isPrivate, now), es)
    ensures var room := Run(NewWorld(code, isPrivate, now), es).room;
            var log := ChatOf(room.reliable);
            && Alternating(log)
            && (p in room.players <==> LastPresence(log, p) == Some(JoinedEvent))
            && room.chatHistory == LastOf(log, CHAT_HISTORY_LIMIT)
  {
    ReachableInv(code, isPrivate, now, es);
    hide Run, Legal, NewWorld, Balanced, AllStanding, Synced, Rounds, Ticking, Following, ChatFollowing, Alternating;
  }

  /** After any run, a receiver of an occupied room that has drained both channels shows
      the room exactly as it is, unless a move is still waiting for its tick. */
  lemma ReachableClientsConverge(code: string, isPrivate: bool, now: Now, es: seq<Event>, id: Uuid)
    requires Legal(NewWorld(code, isPrivate, now), es)
    ensures var w := Run(NewWorld(code, isPrivate, now), es);
            id in w.clients && Drained(w.room, w.clients[id]) && w.room.players != map[] && !w.room.dirty ==>
              Shown(w.clients[id]) == View(w.room) && w.clients[id].poseRevision == w.room.revision
  {
    ReachableInv(code, isPrivate, now, es);
    var w := Run(NewWorld(code, isPrivate, now), es);
    hide Run, Legal, NewWorld, Synced, Following, Drained, Shown, View;
    if id in w.clients && Drained(w.room, w.clients[id]) && w.room.players != map[] && !w.room.dirty {
      DrainedClientConverges(w.room, w.clients[id]);
    }
  }
}
