/**
 The room as the service holds it: a record whose fields are updated in place under
 the room lock.  Every method is proved equal to the operation of CafeRooms.
 */
module CafeRoomObject {
  import opened Basics
  import opened CafeModel
  import opened CafeFloor
  import opened CafeRooms
  import opened CafeProgress

  datatype JoinReply =
    | RoomFull
    | Welcome(revision: nat, snapshot: RoomView, chatHistory: seq<ChatEvent>, startTick: bool)

  lemma SameView(room: Room, after: Room)
    requires after.players == room.players && after.activity == room.activity
    ensures View(after) == View(room)
  {
  }

  class CafeRoom {
    var inviteCode: string
    var isPrivate: bool
    var players: Players
    var activity: Activity
    var chatHistory: seq<ChatEvent>
    var reliable: seq<ServerMessage>
    var movement: MovementUpdate
    var movementVersion: nat
    var revision: nat
    var dirty: bool
    var tickStop: Option<nat>
    var createdAt: real
    var everJoined: bool
    var emptySince: Option<real>

    function Model(): Room
      reads this
    {
      Room(inviteCode, isPrivate, players, activity, chatHistory, reliable, movement, movementVersion,
           revision, dirty, tickStop, createdAt, everJoined, emptySince)
    }

    constructor (code: string, isPrivate: bool, now: Now)
      ensures Model() == NewRoom(code, isPrivate, now)
    {
      inviteCode, this.isPrivate := code, isPrivate;
      players, activity := map[], ForRound(1, 0, now.millis);
      chatHistory, reliable := [], [];
      movement, movementVersion := MovementUpdate(0, map[]), 0;
      revision, dirty, tickStop := 0, false, None;
      createdAt, everJoined, emptySince := now.instant, false, None;
    }

    method SendMessage(m: ServerMessage)
      modifies `reliable
      ensures Model() == Send(old(Model()), m)
    {
      reliable := reliable + [m];
    }

    method BroadcastRoomSnapshot()
      modifies `revision, `dirty, `reliable
      ensures Model() == BroadcastSnapshot(old(Model()))
    {
      revision := revision + 1;
      var view := View(Model());
      dirty := false;
      SendMessage(Snapshot(revision, view));
    }

    method BroadcastRoomMovement()
      modifies `revision, `dirty, `movement, `movementVersion
      ensures Model() == BroadcastMovement(old(Model()))
    {
      revision := revision + 1;
      dirty := false;
      movement := MovementUpdate(revision, Poses(players));
      movementVersion := movementVersion + 1;
    }

    /** Appends the event and drops the oldest ones beyond the history limit. */
    method PushEvent(event: ChatEvent)
      requires |chatHistory| <= CHAT_HISTORY_LIMIT
      modifies `chatHistory, `reliable
      ensures Model() == PushChatEvent(old(Model()), event)
      ensures |chatHistory| <= CHAT_HISTORY_LIMIT
    {
      chatHistory := chatHistory + [event];
      ghost var all := chatHistory;
      while |chatHistory| > CHAT_HISTORY_LIMIT
        invariant |chatHistory| <= |all| && chatHistory == all[|all| - |chatHistory|..]
        invariant |all| <= CHAT_HISTORY_LIMIT ==> chatHistory == all
        invariant |all| > CHAT_HISTORY_LIMIT ==> |chatHistory| >= CHAT_HISTORY_LIMIT
        invariant reliable == old(reliable)
      {
        chatHistory := chatHistory[1..];
      }
      SendMessage(ChatMessage(event));
    }

    method JoinRoom(pid: Uuid, newcomer: Player, tick: nat, now: Now) returns (reply: JoinReply)
      requires |chatHistory| <= CHAT_HISTORY_LIMIT
      modifies this
      ensures |chatHistory| <= CHAT_HISTORY_LIMIT
      ensures !CanJoin(old(Model()), pid) ==> reply == RoomFull && Model() == old(Model())
      ensures CanJoin(old(Model()), pid) ==>
                && Model() == Join(old(Model()), pid, newcomer, tick, now)
                && reply == Welcome(revision, View(Model()), old(chatHistory), old(players) == map[])
    {
      hide View, LastOf;
      if pid !in players && |players| >= ROOM_CAPACITY {
        return RoomFull;
      }
      var wasPresent := pid in players;
      var startTick := players == map[];
      var player := newcomer;
      if pid in players {
        var existing := players[pid];
        player := player.(pose := existing.pose.(moving := false));
        player := player.(carriedTea := existing.carriedTea);
        player := player.(carriedRush := existing.carriedRush);
        player := player.(carriedOrder := existing.carriedOrder);
      }
      var history := chatHistory;
      players := players[pid := player];
      everJoined := true;
      emptySince := None;
      BroadcastRoomSnapshot();
      ghost var shown := Model();
      var snapshot := View(Model());
      if !wasPresent {
        PushEvent(ChatEvent(JoinedEvent, pid, newcomer.name, None, now.millis));
      }
      if startTick {
        tickStop := Some(tick);
      }
      SameView(shown, Model());
      reply := Welcome(revision, snapshot, history, startTick);
    }

    /** The loop over a departing player's ingredients. */
    method ReturnIngredients(ids: seq<Target>)
      modifies `activity
      ensures activity == old(activity).(leaves := ReturnLeaves(old(activity).leaves, ids))
    {
      var k := 0;
      while k < |ids|
        invariant 0 <= k <= |ids|
        invariant activity == old(activity).(leaves := activity.leaves)
        invariant ReturnLeaves(activity.leaves, ids[k..]) == ReturnLeaves(old(activity).leaves, ids)
      {
        var i := LeafIndex(activity.leaves, ids[k]);
        assert ids[k..][1..] == ids[k + 1..];
        if i.Some? {
          var leaves := activity.leaves;
          activity := activity.(leaves := leaves[i.value := leaves[i.value].(available := true)]);
        }
        k := k + 1;
      }
    }

    method ReleaseCarriedOrder(carried: Option<Target>, pid: Uuid)
      modifies `activity
      ensures activity == old(activity).(orders := ReleaseOrder(old(activity).orders, carried, pid))
    {
      if carried.Some? {
        var i := ClaimedIndex(activity.orders, carried.value, pid);
        if i.Some? {
          var orders := activity.orders;
          activity := activity.(orders := orders[i.value := orders[i.value].(status := Available, claimedBy := None)]);
        }
      }
    }

    method RemovePlayer(pid: Uuid) returns (player: Player)
      requires pid in players
      modifies `players, `activity
      ensures player == old(players)[pid] && players == old(players) - {pid}
      ensures activity == Depart(old(activity), player, pid)
    {
      player := players[pid];
      players := players - {pid};
      ReturnIngredients(player.carriedRush);
      ReleaseCarriedOrder(player.carriedOrder, pid);
    }

    /** What the room does once a player is gone; a returned id is a stop channel that was signalled. */
    method Farewell(left: ChatEvent, now: Now) returns (stopped: Option<nat>)
      requires |chatHistory| <= CHAT_HISTORY_LIMIT
      modifies this
      ensures |chatHistory| <= CHAT_HISTORY_LIMIT && players == old(players)
      ensures Model() ==
              if players == map[]
              then PushChatEvent(old(Model()), left).(dirty := false, emptySince := Some(now.instant), tickStop := None)
              else PushChatEvent(BroadcastSnapshot(old(Model())), left)
      ensures stopped == if players == map[] then old(tickStop) else None
    {
      hide View, LastOf;
      stopped := None;
      if players == map[] {
        PushEvent(left);
        dirty := false;
        emptySince := Some(now.instant);
        stopped, tickStop := tickStop, None;
      } else {
        BroadcastRoomSnapshot();
        PushEvent(left);
      }
    }

    method LeaveForConnection(pid: Uuid, connection: Uuid, now: Now) returns (stopped: Option<nat>)
      requires |chatHistory| <= CHAT_HISTORY_LIMIT
      modifies this
      ensures |chatHistory| <= CHAT_HISTORY_LIMIT
      ensures Model() == Leave(old(Model()), pid, connection, now)
      ensures stopped == if Owns(old(Model()), pid, connection) && players == map[] then old(tickStop) else None
    {
      hide Depart, PushChatEvent, BroadcastSnapshot;
      if pid !in players || players[pid].connection != connection {
        return None;
      }
      var player := RemovePlayer(pid);
      stopped := Farewell(ChatEvent(LeftEvent, pid, player.name, None, now.millis), now);
    }

    /** `root` is the square root the service computes for the requested distance. */
    method UpdatePlayerForConnection(pid: Uuid, connection: Uuid, m: Movement, root: real, now: Now)
      modifies `players, `dirty
      ensures Model() == Move(old(Model()), pid, connection, m, root, now)
    {
      if pid !in players || players[pid].connection != connection {
        return;
      }
      var player := players[pid];
      if m.sequence <= player.lastSequence || m.x.None? || m.y.None? {
        return;
      }
      var maxDelta := MaxDelta(now.instant - player.lastMoveAt);
      var next := Limited(At(player.pose), Point(m.x.value, m.y.value), maxDelta, root);
      next := Clamped(next);
      if !Collides(next.x, next.y) {
        player := player.(pose := player.pose.(x := next.x, y := next.y));
      }
      player := player.(pose := player.pose.(direction := m.direction, moving := m.moving));
      player := player.(lastSequence := m.sequence, lastMoveAt := now.instant);
      players := players[pid := player];
      dirty := true;
    }

    method FlushDirtyMovementSnapshot() returns (outcome: TickOutcome)
      modifies this
      ensures Model() == Flush(old(Model())) && outcome == FlushOutcome(old(Model()))
    {
      if players == map[] { return Stop; }
      if !dirty { return Clean; }
      BroadcastRoomMovement();
      return Sent;
    }

    method InteractForConnection(pid: Uuid, connection: Uuid, target: Target, now: Now)
        returns (awarded: map<Uuid, Owner>, completedRound: Option<nat>)
      modifies this
      ensures Model() == Interact(old(Model()), pid, connection, target, now)
      ensures completedRound == CompletedRound(old(Model()), pid, connection, target, now)
      ensures completedRound.Some? ==>
                awarded.Keys == old(players).Keys && forall p :: p in awarded ==> awarded[p] == old(players)[p].owner
      ensures awarded == if completedRound.Some? then Owners(old(players)) else map[]
    {
      awarded, completedRound := map[], None;
      if pid !in players || players[pid].connection != connection {
        return;
      }
      var pose := players[pid].pose;
      if activity.phase == Intermission {
        if target == AikoTarget && InRange(pose, AIKO, HOST_INTERACTION_RADIUS) {
          SendMessage(DialogueMessage(IntermissionLine));
        }
        return;
      }
      if activity.kind == TableService {
        awarded, completedRound := InteractTableService(pid, target, now);
        return;
      }
      var leafIndex := AvailableLeafIndex(activity.leaves, target);
      if leafIndex.Some? {
        CollectLeaf(pid, leafIndex.value);
        return;
      }
      if activity.kind == CafeRush {
        awarded, completedRound := InteractCafeRush(pid, target, now);
        return;
      }
      awarded, completedRound := HandOverTea(pid, target, now);
    }

    method CollectLeaf(pid: Uuid, i: nat)
      requires pid in players && i < |activity.leaves|
      modifies this
      ensures Model() == Apply(old(Model()), Collect(old(players), old(activity), pid, i))
    {
      var leaf := activity.leaves[i];
      if InRange(players[pid].pose, leaf.at, INTERACTION_RADIUS) {
        activity := activity.(leaves := activity.leaves[i := leaf.(available := false)]);
        var player := players[pid];
        player := player.(carriedTea := SaturatingAdd8(player.carriedTea, 1));
        if activity.kind == CafeRush {
          player := player.(carriedRush := player.carriedRush + [leaf.id]);
        }
        players := players[pid := player];
        assert old(players)[pid].carriedRush + [] == old(players)[pid].carriedRush;
        SendMessage(DialogueMessage(if activity.kind == CafeRush then RushIngredientCollected else TeaCollected));
        BroadcastRoomSnapshot();
      }
    }

    method HandOverTea(pid: Uuid, target: Target, now: Now)
        returns (awarded: map<Uuid, Owner>, completedRound: Option<nat>)
      requires pid in players && activity.phase == Active
      modifies this
      ensures var o := DeliverTea(old(players), old(activity), pid, target, now.millis);
              Model() == Apply(old(Model()), o) && completedRound == o.completedRound
      ensures awarded == if completedRound.Some? then Owners(old(players)) else map[]
    {
      awarded, completedRound := map[], None;
      if target != AikoTarget || !InRange(players[pid].pose, AIKO, HOST_INTERACTION_RADIUS) {
        return;
      }
      var carried := players[pid].carriedTea;
      if carried == 0 {
        SendMessage(DialogueMessage(TeaSearch));
        return;
      }
      players := players[pid := players[pid].(carriedTea := 0)];
      activity := activity.(delivered := Min(SaturatingAdd8(activity.delivered, carried), activity.target));
      var completedNow := !activity.completed && activity.delivered >= activity.target;
      if completedNow {
        activity := activity.(completed := true);
        activity := activity.(phase := Intermission, nextRoundAt := Some(now.millis + ROUND_INTERMISSION_MS));
        completedRound := Some(activity.round);
        awarded := Owners(players);
        assert awarded == Owners(old(players));
      }
      SendMessage(DialogueMessage(if completedNow then RoundComplete else TeaProgress));
      BroadcastRoomSnapshot();
    }

    method InteractTableService(pid: Uuid, target: Target, now: Now)
        returns (awarded: map<Uuid, Owner>, completedRound: Option<nat>)
      requires pid in players && activity.phase == Active
      modifies this
      ensures var o := ActTableService(old(players), old(activity), pid, target, now.millis);
              Model() == Apply(old(Model()), o) && completedRound == o.completedRound
      ensures awarded == if completedRound.Some? then Owners(old(players)) else map[]
    {
      awarded, completedRound := map[], None;
      if target != CounterTarget {
        awarded, completedRound := ServeClaimedOrder(pid, target, now);
        return;
      }
      if !InRange(players[pid].pose, SERVICE_COUNTER, HOST_INTERACTION_RADIUS) {
        return;
      }
      if players[pid].carriedOrder.Some? {
        SendMessage(DialogueMessage(ServiceAlreadyCarrying));
        return;
      }
      var i := FirstWithStatus(activity.orders, Available);
      if i.None? {
        SendMessage(DialogueMessage(ServiceOrdersClaimed));
        return;
      }
      ClaimOrder(pid, i.value, ServicePickedUp);
    }

    method ClaimOrder(pid: Uuid, i: nat, say: Dialogue)
      requires pid in players && i < |activity.orders|
      modifies this
      ensures Model() == Apply(old(Model()), Claim(old(players), old(activity), pid, i, say))
    {
      var order := activity.orders[i].(status := Claimed, claimedBy := Some(pid));
      activity := activity.(orders := activity.orders[i := order]);
      players := players[pid := players[pid].(carriedOrder := Some(order.id))];
      SendMessage(DialogueMessage(say));
      BroadcastRoomSnapshot();
    }

    method InteractCafeRush(pid: Uuid, target: Target, now: Now)
        returns (awarded: map<Uuid, Owner>, completedRound: Option<nat>)
      requires pid in players && activity.phase == Active
      modifies this
      ensures var o := ActCafeRush(old(players), old(activity), pid, target, now.millis);
              Model() == Apply(old(Model()), o) && completedRound == o.completedRound
      ensures awarded == if completedRound.Some? then Owners(old(players)) else map[]
    {
      awarded, completedRound := map[], None;
      if target != CounterTarget {
        awarded, completedRound := ServeClaimedOrder(pid, target, now);
        return;
      }
      if !InRange(players[pid].pose, SERVICE_COUNTER, HOST_INTERACTION_RADIUS) {
        return;
      }
      if players[pid].carriedOrder.Some? {
        SendMessage(DialogueMessage(ServiceAlreadyCarrying));
        return;
      }
      var waiting := FirstWithStatus(activity.orders, WaitingIngredient);
      if players[pid].carriedRush != [] && waiting.Some? {
        PrepareOrder(pid, waiting.value);
        return;
      }
      var available := FirstWithStatus(activity.orders, Available);
      if available.Some? {
        ClaimOrder(pid, available.value, RushOrderPickedUp);
        return;
      }
      SendMessage(DialogueMessage(if waiting.Some? then RushFindIngredient else ServiceOrdersClaimed));
    }

    method PrepareOrder(pid: Uuid, i: nat)
      requires pid in players && i < |activity.orders| && players[pid].carriedRush != []
      modifies this
      ensures Model() == Apply(old(Model()), Prepare(old(players), old(activity), pid, i))
    {
      activity := activity.(orders := activity.orders[i := activity.orders[i].(status := Available)]);
      var player := players[pid];
      player := player.(carriedTea := SaturatingSub(player.carriedTea, 1));
      player := player.(carriedRush := player.carriedRush[..|player.carriedRush| - 1]);
      players := players[pid := player];
      SendMessage(DialogueMessage(RushOrderPrepared));
      BroadcastRoomSnapshot();
    }

    method CountCombo(now: Now)
      modifies `activity
      ensures activity == Timed(old(activity), now.millis)
    {
      if activity.kind == CafeRush {
        activity := activity.(combo := if activity.comboExpiresAt.Some? && activity.comboExpiresAt.value >= now.millis
                                       then SaturatingAdd8(activity.combo, 1) else 1);
        activity := activity.(bestCombo := Max(activity.bestCombo, activity.combo));
        activity := activity.(comboExpiresAt := Some(now.millis + CAFE_RUSH_COMBO_WINDOW_MS));
      }
    }

    method FinishOrderRound(now: Now)
      modifies `activity
      ensures activity == Finished(old(activity), now.millis)
    {
      activity := activity.(completed := true);
      activity := activity.(phase := Intermission, endsAt := None, comboExpiresAt := None);
      activity := activity.(nextRoundAt := Some(now.millis + ROUND_INTERMISSION_MS));
    }

    method ServeClaimedOrder(pid: Uuid, target: Target, now: Now)
        returns (awarded: map<Uuid, Owner>, completedRound: Option<nat>)
      requires pid in players && activity.phase == Active
      modifies this
      ensures var o := Serve(old(players), old(activity), pid, target, now.millis);
              Model() == Apply(old(Model()), o) && completedRound == o.completedRound
      ensures awarded == if completedRound.Some? then Owners(old(players)) else map[]
    {
      awarded, completedRound := map[], None;
      var index := OrderIndex(activity.orders, target);
      if index.None? {
        return;
      }
      var order := activity.orders[index.value];
      if order.status != Claimed || order.claimedBy != Some(pid)
         || !InRange(players[pid].pose, order.at, INTERACTION_RADIUS)
         || players[pid].carriedOrder != Some(order.id) {
        return;
      }
      var done := RecordServing(pid, index.value, now);
      if done {
        completedRound := Some(activity.round);
        awarded := Owners(players);
        assert awarded == Owners(old(players));
      }
      SendMessage(DialogueMessage(
        if done then RoundComplete
        else if activity.kind == CafeRush then RushOrderDelivered else ServiceDelivered));
      BroadcastRoomSnapshot();
    }

    method RecordServing(pid: Uuid, i: nat, now: Now) returns (done: bool)
      requires pid in players && i < |activity.orders|
      modifies `players, `activity
      ensures var o := ServeAt(old(players), old(activity), pid, i, now.millis);
              players == o.players && activity == o.activity && done == o.completedRound.Some?
    {
      var order := activity.orders[i];
      activity := activity.(orders := activity.orders[i := order.(status := Served, claimedBy := None)]);
      players := players[pid := players[pid].(carriedOrder := None)];
      activity := activity.(delivered := Min(SaturatingAdd8(activity.delivered, 1), activity.target));
      CountCombo(now);
      done := !activity.completed && activity.delivered >= activity.target;
      if done {
        FinishOrderRound(now);
      }
    }

    /** The loop over `players.values_mut()` that empties every pair of hands. */
    method EmptyAllHands()
      modifies `players
      ensures players == AllHandsEmptied(old(players))
    {
      var pending := players.Keys;
      while pending != {}
        invariant pending <= players.Keys == old(players).Keys
        invariant forall p :: p in players ==>
                    players[p] == if p in pending then old(players)[p] else EmptyHands(old(players)[p])
        decreases pending
      {
        var p :| p in pending;
        players := players[p := players[p].(carriedTea := 0, carriedRush := [], carriedOrder := None)];
        pending := pending - {p};
      }
    }

    method StartRound(completed: nat, now: Now) returns (started: bool, startsRush: bool)
      modifies this
      ensures Model() == StartNextRound(old(Model()), completed, now)
      ensures started == CanStart(old(Model()), completed)
      ensures startsRush == (started && activity.kind == CafeRush)
    {
      if activity.round != completed || activity.phase != Intermission {
        return false, false;
      }
      activity := ForRound(NextRound(completed), |players|, now.millis);
      EmptyAllHands();
      BroadcastRoomSnapshot();
      SendMessage(DialogueMessage(RoundReady(activity.kind)));
      return true, activity.kind == CafeRush;
    }

    method ExpireRush(round: nat, now: Now) returns (expired: bool)
      modifies this
      ensures Model() == ExpireCafeRush(old(Model()), round, now)
      ensures expired == CanExpire(old(Model()), round)
    {
      if activity.kind != CafeRush || activity.round != round || activity.phase != Active || activity.completed {
        return false;
      }
      activity := activity.(phase := Intermission, endsAt := None, comboExpiresAt := None);
      activity := activity.(nextRoundAt := Some(now.millis + ROUND_INTERMISSION_MS));
      EmptyAllHands();
      SendMessage(DialogueMessage(RushTimeUp));
      BroadcastRoomSnapshot();
      return true;
    }

    method ChatForConnection(pid: Uuid, connection: Uuid, text: string, now: Now)
      requires |chatHistory| <= CHAT_HISTORY_LIMIT
      modifies this
      ensures |chatHistory| <= CHAT_HISTORY_LIMIT
      ensures Model() == Chat(old(Model()), pid, connection, text, now)
    {
      if pid in players && players[pid].connection == connection {
        PushEvent(ChatEvent(MessageEvent, pid, players[pid].name, Some(text), now.millis));
      }
    }

    method EmoteForConnection(pid: Uuid, connection: Uuid, emote: string)
      modifies this
      ensures Model() == Emote(old(Model()), pid, connection, emote)
    {
      if AllowedEmote(emote) && pid in players && players[pid].connection == connection {
        SendMessage(EmoteMessage(pid, emote));
      }
    }

    method RewardPlayers(ids: seq<Uuid>, stars: nat)
      modifies this
      ensures Model() == Reward(old(Model()), ids, stars)
    {
      for k := 0 to |ids|
        invariant Model() == Reward(old(Model()), ids[..k], stars)
      {
        SendMessage(RewardMessage(ids[k], stars));
        assert Reward(old(Model()), ids[..k + 1], stars).reliable
            == Reward(old(Model()), ids[..k], stars).reliable + [RewardMessage(ids[k], stars)];
      }
      assert ids[..|ids|] == ids;
    }

    /** The loop over `players.values_mut()` that changes one owner's players. */
    method DressPlayers(owner: Owner, cosmetic: Option<string>) returns (changed: bool)
      modifies `players
      ensures players == Dressed(old(players), owner, cosmetic)
      ensures changed <==> players != old(players)
    {
      changed := false;
      var pending := players.Keys;
      ghost var before, dressed := players, Dressed(players, owner, cosmetic);
      while pending != {}
        invariant pending <= players.Keys == before.Keys
        invariant forall p :: p in before ==> players[p] == (if p in pending then before[p] else dressed[p])
        invariant changed <==> players != before
        decreases pending
      {
        var p :| p in pending;
        assert before[p] == players[p];
        if SameOwner(players[p].owner, owner) && players[p].cosmetic != cosmetic {
          players := players[p := players[p].(cosmetic := cosmetic)];
          changed := true;
        } else {
          assert dressed[p] == before[p];
        }
        pending := pending - {p};
      }
    }

    method EquipCosmeticFor(owner: Owner, cosmetic: Option<string>)
      modifies this
      ensures Model() == EquipCosmetic(old(Model()), owner, cosmetic)
    {
      var changed := DressPlayers(owner, cosmetic);
      if changed {
        BroadcastRoomSnapshot();
      }
    }

    method ChangeAvatars(owner: Owner, avatar: string) returns (changed: bool)
      modifies `players
      ensures players == WithAvatar(old(players), owner, avatar)
      ensures changed <==> players != old(players)
    {
      changed := false;
      var pending := players.Keys;
      ghost var before, dressed := players, WithAvatar(players, owner, avatar);
      while pending != {}
        invariant pending <= players.Keys == before.Keys
        invariant forall p :: p in before ==> players[p] == (if p in pending then before[p] else dressed[p])
        invariant changed <==> players != before
        decreases pending
      {
        var p :| p in pending;
        assert before[p] == players[p];
        if SameOwner(players[p].owner, owner) && players[p].avatar != avatar {
          players := players[p := players[p].(avatar := avatar)];
          changed := true;
        } else {
          assert dressed[p] == before[p];
        }
        pending := pending - {p};
      }
    }

    method EquipAvatarFor(owner: Owner, avatar: string)
      modifies this
      ensures Model() == EquipAvatar(old(Model()), owner, avatar)
    {
      var changed := ChangeAvatars(owner, avatar);
      if changed {
        BroadcastRoomSnapshot();
      }
    }
  }
}
