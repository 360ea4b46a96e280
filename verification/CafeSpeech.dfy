/**
 What is said in a room: the line that answers each interaction, the chat log over whole runs, and
 emotes and rewards.
 */
module CafeSpeech {
  import opened Basics
  import opened MapSums
  import opened CafeModel
  import opened CafeFloor
  import opened CafeInventory
  import opened CafeReach
  import opened CafeRooms
  import opened CafeWorld
  import opened CafeChat
  import opened CafeRun
  import opened CafeViews

  // ----- dialogue -----

  /** The line that goes with a change, told from the activity before and after it. */
  ghost function LineFor(a: Activity, b: Activity): Dialogue {
    var rush := a.kind == CafeRush;
    if a.phase == Active && b.phase == Intermission then RoundComplete
    else if CountLeaves(b.leaves) < CountLeaves(a.leaves) then
      (if rush then RushIngredientCollected else TeaCollected)
    else if a.kind == TeaDelivery then TeaProgress
    else if CountOrders(b.orders, Served) > CountOrders(a.orders, Served) then
      (if rush then RushOrderDelivered else ServiceDelivered)
    else if CountOrders(b.orders, WaitingIngredient) < CountOrders(a.orders, WaitingIngredient) then RushOrderPrepared
    else (if rush then RushOrderPickedUp else ServicePickedUp)
  }

  /** The line when nothing changes. */
  ghost function LineWithout(a: Activity, player: Player, target: Target): Option<Dialogue> {
    var atHost := InRange(player.pose, Point(640.0, 272.0), 132.0);
    if a.phase == Intermission then
      if target == AikoTarget && atHost then Some(IntermissionLine) else None
    else if a.kind == TeaDelivery then
      if target == AikoTarget && atHost then Some(TeaSearch) else None
    else if target == CounterTarget && atHost then
      Some(if player.carriedOrder.Some? then ServiceAlreadyCarrying
           else if a.kind == CafeRush && SomeOrder(a, WaitingIngredient) then RushFindIngredient
           else ServiceOrdersClaimed)
    else None
  }

  lemma CollectSays(players: Players, a: Activity, pid: Uuid, i: nat)
    requires pid in players && a.phase == Active && i < |a.leaves| && a.leaves[i].available
    ensures var o := Collect(players, a, pid, i);
            o.say == if o.changed then Some(LineFor(a, o.activity)) else None
  {
    CountLeavesSet(a.leaves, i, a.leaves[i].(available := false));
  }

  lemma TeaSays(players: Players, a: Activity, pid: Uuid, target: Target, now: int)
    requires pid in players && a.phase == Active && a.kind == TeaDelivery
    ensures var o := DeliverTea(players, a, pid, target, now);
            o.say == if o.changed then Some(LineFor(a, o.activity)) else LineWithout(a, players[pid], target)
  {
  }

  lemma ServeSays(players: Players, a: Activity, pid: Uuid, target: Target, now: int)
    requires pid in players && a.phase == Active && a.kind != TeaDelivery && target != CounterTarget
    ensures var o := Serve(players, a, pid, target, now);
            o.say == if o.changed then Some(LineFor(a, o.activity)) else LineWithout(a, players[pid], target)
  {
    var o := Serve(players, a, pid, target, now);
    if o.changed {
      var i := OrderIndex(a.orders, target).value;
      CountOrdersSet(a.orders, i, a.orders[i].(status := Served, claimedBy := None), Served);
    }
    hide InRange;
  }

  lemma ClaimSays(players: Players, a: Activity, pid: Uuid, i: nat, say: Dialogue)
    requires pid in players && a.phase == Active && a.kind != TeaDelivery
    requires i < |a.orders| && a.orders[i].status == Available
    ensures LineFor(a, Claim(players, a, pid, i, say).activity) ==
            if a.kind == CafeRush then RushOrderPickedUp else ServicePickedUp
  {
    var order := a.orders[i].(status := Claimed, claimedBy := Some(pid));
    CountOrdersSet(a.orders, i, order, Served);
    CountOrdersSet(a.orders, i, order, WaitingIngredient);
  }

  lemma PrepareSays(players: Players, a: Activity, pid: Uuid, i: nat)
    requires pid in players && a.phase == Active && a.kind == CafeRush && players[pid].carriedRush != []
    requires i < |a.orders| && a.orders[i].status == WaitingIngredient
    ensures LineFor(a, Prepare(players, a, pid, i).activity) == RushOrderPrepared
  {
    var order := a.orders[i].(status := Available);
    CountOrdersSet(a.orders, i, order, Served);
    CountOrdersSet(a.orders, i, order, WaitingIngredient);
  }

  lemma TableCounterSays(players: Players, a: Activity, pid: Uuid, now: int)
    requires pid in players && a.phase == Active && a.kind == TableService
    ensures var o := ActTableService(players, a, pid, CounterTarget, now);
            o.say == if o.changed then Some(LineFor(a, o.activity)) else LineWithout(a, players[pid], CounterTarget)
  {
    var i := FirstWithStatus(a.orders, Available);
    if i.Some? { ClaimSays(players, a, pid, i.value, ServicePickedUp); }
    hide InRange, LineFor;
  }

  lemma RushCounterSays(players: Players, a: Activity, pid: Uuid, now: int)
    requires pid in players && a.phase == Active && a.kind == CafeRush
    ensures var o := ActCafeRush(players, a, pid, CounterTarget, now);
            o.say == if o.changed then Some(LineFor(a, o.activity)) else LineWithout(a, players[pid], CounterTarget)
  {
    var waiting := FirstWithStatus(a.orders, WaitingIngredient);
    var i := FirstWithStatus(a.orders, Available);
    if i.Some? { ClaimSays(players, a, pid, i.value, RushOrderPickedUp); }
    if waiting.Some? && players[pid].carriedRush != [] { PrepareSays(players, a, pid, waiting.value); }
    hide InRange, LineFor;
  }

  /** Every interaction is answered by at most one line: with a change by the line for it, and otherwise by what is
      missing at the host or the counter. */
  lemma AnswersExactly(players: Players, a: Activity, pid: Uuid, target: Target, now: int)
    requires Shape(a) && pid in players
    ensures var o := Act(players, a, pid, target, now);
            o.say == if o.changed then Some(LineFor(a, o.activity)) else LineWithout(a, players[pid], target)
  {
    var leaf := AvailableLeafIndex(a.leaves, target);
    assert leaf.Some? ==> target.TeaId?;
    assert a.kind == TableService ==> a.leaves == [];
    hide LineFor, LineWithout, Shape, Serve, Collect, DeliverTea, InRange;
    if a.phase == Intermission {
      RestSays(players, a, pid, target, now);
    } else if a.kind != TableService && leaf.Some? {
      CollectSays(players, a, pid, leaf.value);
      LeafSaysNothing(a, players[pid], target);
    } else if a.kind == TeaDelivery {
      TeaSays(players, a, pid, target, now);
    } else if target != CounterTarget {
      ServeSays(players, a, pid, target, now);
    } else if a.kind == TableService {
      TableCounterSays(players, a, pid, now);
    } else {
      RushCounterSays(players, a, pid, now);
    }
  }

  lemma RestSays(players: Players, a: Activity, pid: Uuid, target: Target, now: int)
    requires pid in players && a.phase == Intermission
    ensures var o := Act(players, a, pid, target, now);
            !o.changed && o.say == LineWithout(a, players[pid], target)
  {
  }

  lemma LeafSaysNothing(a: Activity, player: Player, target: Target)
    requires target.TeaId?
    ensures LineWithout(a, player, target).None?
  {
  }

  // ----- the counter serves in order -----

  /** An order taken or prepared at the counter is the first one that can be. */
  lemma CounterTakesTheFirst(players: Players, a: Activity, pid: Uuid, now: int)
    requires pid in players && a.phase == Active && a.kind != TeaDelivery
    requires forall i :: 0 <= i < |a.leaves| ==> a.leaves[i].id.TeaId?
    ensures var o := Act(players, a, pid, CounterTarget, now);
            o.changed ==> exists i ::
              && 0 <= i < |a.orders|
              && (forall k :: 0 <= k < |a.orders| && k != i ==> o.activity.orders[k] == a.orders[k])
              && (forall k :: 0 <= k < i ==> a.orders[k].status != a.orders[i].status)
              && (if a.orders[i].status == WaitingIngredient then
                    o.activity.orders[i] == a.orders[i].(status := Available)
                  else
                    && a.orders[i].status == Available
                    && o.activity.orders[i] == a.orders[i].(status := Claimed, claimedBy := Some(pid)))
  {
    assert AvailableLeafIndex(a.leaves, CounterTarget).None?;
    hide InRange;
    var o := Act(players, a, pid, CounterTarget, now);
    if o.changed {
      var i := CounterPicks(players, a, pid, now);
      hide Act;
      assert o.activity.orders == a.orders[i := o.activity.orders[i]];
    }
  }

  lemma CounterPicks(players: Players, a: Activity, pid: Uuid, now: int) returns (i: nat)
    requires pid in players && a.phase == Active && a.kind != TeaDelivery
    requires AvailableLeafIndex(a.leaves, CounterTarget).None? && Act(players, a, pid, CounterTarget, now).changed
    ensures i < |a.orders| && forall k :: 0 <= k < i ==> a.orders[k].status != a.orders[i].status
    ensures var b := Act(players, a, pid, CounterTarget, now).activity;
            if a.orders[i].status == WaitingIngredient then
              b.orders == a.orders[i := a.orders[i].(status := Available)]
            else
              && a.orders[i].status == Available
              && b.orders == a.orders[i := a.orders[i].(status := Claimed, claimedBy := Some(pid))]
  {
    hide InRange;
    var waiting := FirstWithStatus(a.orders, WaitingIngredient);
    i := if a.kind == CafeRush && players[pid].carriedRush != [] && waiting.Some? then waiting.value
         else FirstWithStatus(a.orders, Available).value;
  }

  /** Preparing uses up the ingredient that was collected last: whoever collects a leaf, prepares an order and leaves
      has used up that leaf, and puts back all that was carried before. */
  lemma PrepareUsesTheLast(players: Players, a: Activity, pid: Uuid, i: nat, k: nat)
    requires Balanced(players, a) && a.phase == Active && a.kind == CafeRush && pid in players
    requires i < |a.leaves| && a.leaves[i].available && Collect(players, a, pid, i).changed
    requires k < |a.orders| && a.orders[k].status == WaitingIngredient
    ensures var o := Collect(players, a, pid, i);
            var p := Prepare(o.players, o.activity, pid, k);
            var b := Depart(p.activity, p.players[pid], pid);
            && p.players[pid].carriedRush == players[pid].carriedRush
            && p.players[pid].carriedTea == players[pid].carriedTea
            && |b.leaves| == |a.leaves| && !b.leaves[i].available
            && forall n :: 0 <= n < |a.leaves| && n != i ==>
                 (b.leaves[n].available <==> a.leaves[n].available || a.leaves[n].id in players[pid].carriedRush)
  {
    hide Balanced, Depart, InRange;
    var o := Collect(players, a, pid, i);
    var p := Prepare(o.players, o.activity, pid, k);
    CollectBalanced(players, a, pid, i);
    PrepareBalanced(o.players, o.activity, pid, k);
    LeafNotCarried(players, a, pid, i);
    FewTeas(players, a, pid);
    CollectThenPrepare(players, a, pid, i, k);
    hide Collect, Prepare;
    LeavesAfterDeparture(p.players, p.activity, pid);
  }

  lemma CollectThenPrepare(players: Players, a: Activity, pid: Uuid, i: nat, k: nat)
    requires a.phase == Active && a.kind == CafeRush && pid in players && players[pid].carriedTea < U8_MAX
    requires i < |a.leaves| && Collect(players, a, pid, i).changed && k < |a.orders|
    ensures var o := Collect(players, a, pid, i);
            var p := Prepare(o.players, o.activity, pid, k);
            && p.players[pid].carriedRush == players[pid].carriedRush
            && p.players[pid].carriedTea == players[pid].carriedTea && pid in p.players
            && p.activity.leaves == a.leaves[i := a.leaves[i].(available := false)]
            && p.activity.phase == Active
  {
    hide InRange;
  }

  lemma LeavesAfterDeparture(players: Players, a: Activity, pid: Uuid)
    requires Balanced(players, a) && a.phase == Active && pid in players
    ensures var b := Depart(a, players[pid], pid);
            && |b.leaves| == |a.leaves|
            && forall n :: 0 <= n < |a.leaves| ==>
                 (b.leaves[n].available <==> a.leaves[n].available || a.leaves[n].id in players[pid].carriedRush)
  {
    assert Shape(a) && Stock(players, a);
    hide Shape, Stock, Claims, Books, Depart;
    DepartLeaves(players, a, pid);
  }

  lemma LeafNotCarried(players: Players, a: Activity, pid: Uuid, i: nat)
    requires Balanced(players, a) && a.phase == Active && a.kind == CafeRush && pid in players
    requires i < |a.leaves| && a.leaves[i].available
    ensures a.leaves[i].id !in players[pid].carriedRush
  {
    forall j | 0 <= j < |players[pid].carriedRush| ensures players[pid].carriedRush[j] != a.leaves[i].id {
      assert Taken(a, players[pid].carriedRush[j]);
    }
  }

  lemma FewTeas(players: Players, a: Activity, pid: Uuid)
    requires Balanced(players, a) && a.phase == Active && a.kind == CafeRush && pid in players
    ensures players[pid].carriedTea < U8_MAX
  {
    SumAtLeast(Teas(players), pid);
    assert Teas(players)[pid] <= Sum(Teas(players));
    CountOrdersTotal(a.orders);
  }

  // ----- the chat log of a run -----

  /** What an event adds to the chat: an arrival, a departure, or an accepted message, under the player's name and with
      the wall-clock time of the event. */
  function Spoken(w: World, e: Event): seq<ChatEvent> {
    if w.gone then []
    else if e.Joins? && e.pid !in w.room.players && |w.room.players| < 8 then
      [ChatEvent(JoinedEvent, e.pid, e.name, None, e.now.millis)]
    else if e.Leaves? && Owns(w.room, e.pid, e.connection) then
      [ChatEvent(LeftEvent, e.pid, w.room.players[e.pid].name, None, e.now.millis)]
    else if e.Chats? && Owns(w.room, e.pid, e.connection) then
      [ChatEvent(MessageEvent, e.pid, w.room.players[e.pid].name, Some(e.text), e.now.millis)]
    else []
  }

  function AllSpoken(w: World, es: seq<Event>): seq<ChatEvent>
    decreases es
  {
    if es == [] then [] else Spoken(w, es[0]) + AllSpoken(Next(w, es[0]), es[1..])
  }

  lemma PushLogs(room: Room, event: ChatEvent)
    ensures ChatOf(PushChatEvent(room, event).reliable) == ChatOf(room.reliable) + [event]
  {
    ChatOfAppend(room.reliable, ChatMessage(event));
  }

  lemma JoinLogs(w: World, e: Event)
    requires e.Joins?
    ensures ChatOf(Next(w, e).room.reliable) == ChatOf(w.room.reliable) + Spoken(w, e)
  {
    if !w.gone && CanJoin(w.room, e.pid) {
      var player := NewPlayer(e.owner, e.name, e.cosmetic, e.avatar, e.connection, e.now);
      var edited := w.room.(players := w.room.players[e.pid := Seated(w.room, e.pid, player)],
                            everJoined := true, emptySince := None);
      BroadcastQuiet(edited);
      PushLogs(BroadcastSnapshot(edited), ChatEvent(JoinedEvent, e.pid, e.name, None, e.now.millis));
      hide BroadcastSnapshot, PushChatEvent, NewClient;
    }
  }

  lemma LeaveLogs(w: World, e: Event)
    requires e.Leaves?
    ensures ChatOf(Next(w, e).room.reliable) == ChatOf(w.room.reliable) + Spoken(w, e)
  {
    if !w.gone && Owns(w.room, e.pid, e.connection) {
      var player := w.room.players[e.pid];
      var left := ChatEvent(LeftEvent, e.pid, player.name, None, e.now.millis);
      var rest := w.room.(players := w.room.players - {e.pid}, activity := Depart(w.room.activity, player, e.pid));
      BroadcastQuiet(rest);
      PushLogs(rest, left);
      PushLogs(BroadcastSnapshot(rest), left);
      hide BroadcastSnapshot, PushChatEvent, Depart;
    }
  }

  lemma ChatLogs(w: World, e: Event)
    requires e.Chats?
    ensures ChatOf(Next(w, e).room.reliable) == ChatOf(w.room.reliable) + Spoken(w, e)
  {
    if !w.gone && Owns(w.room, e.pid, e.connection) {
      PushLogs(w.room, ChatEvent(MessageEvent, e.pid, w.room.players[e.pid].name, Some(e.text), e.now.millis));
    }
    hide PushChatEvent;
  }

  lemma {:induction false} RewardLogs(room: Room, ids: seq<Uuid>, stars: nat)
    ensures ChatOf(Reward(room, ids, stars).reliable) == ChatOf(room.reliable)
    decreases |ids|
  {
    if ids == [] {
      assert Reward(room, ids, stars).reliable == room.reliable;
    } else {
      var front := ids[..|ids| - 1];
      RewardLogs(room, front, stars);
      ChatOfAppend(Reward(room, front, stars).reliable, RewardMessage(ids[|ids| - 1], stars));
      assert Reward(room, ids, stars).reliable
          == Reward(room, front, stars).reliable + [RewardMessage(ids[|ids| - 1], stars)];
    }
  }

  lemma OutcomeLogs(room: Room, o: Outcome)
    ensures ChatOf(Apply(room, o).reliable) == ChatOf(room.reliable)
  {
    var updated := room.(players := o.players, activity := o.activity);
    var said := if o.say.Some? then Say(updated, o.say.value) else updated;
    if o.say.Some? { SendQuiet(updated, DialogueMessage(o.say.value)); }
    BroadcastQuiet(said);
    hide BroadcastSnapshot;
  }

  lemma RoundLogs(room: Room, round: nat, now: Now)
    ensures ChatOf(StartNextRound(room, round, now).reliable) == ChatOf(room.reliable)
    ensures ChatOf(ExpireCafeRush(room, round, now).reliable) == ChatOf(room.reliable)
  {
    var activity := ForRound(NextRound(round), |room.players|, now.millis);
    var started := room.(activity := activity, players := AllHandsEmptied(room.players));
    BroadcastQuiet(started);
    SendQuiet(BroadcastSnapshot(started), DialogueMessage(RoundReady(activity.kind)));
    var expired := room.(activity := Expired(room.activity, now.millis), players := AllHandsEmptied(room.players));
    SendQuiet(expired, DialogueMessage(RushTimeUp));
    BroadcastQuiet(Say(expired, RushTimeUp));
    hide BroadcastSnapshot, ForRound, AllHandsEmptied, Send;
  }

  lemma EquipLogs(room: Room, owner: Owner, cosmetic: Option<string>, avatar: string)
    ensures ChatOf(EquipCosmetic(room, owner, cosmetic).reliable) == ChatOf(room.reliable)
    ensures ChatOf(EquipAvatar(room, owner, avatar).reliable) == ChatOf(room.reliable)
  {
    BroadcastQuiet(room.(players := Dressed(room.players, owner, cosmetic)));
    BroadcastQuiet(room.(players := WithAvatar(room.players, owner, avatar)));
    hide BroadcastSnapshot, Dressed, WithAvatar;
  }

  lemma EmoteLogs(room: Room, pid: Uuid, connection: Uuid, emote: string)
    ensures ChatOf(Emote(room, pid, connection, emote).reliable) == ChatOf(room.reliable)
  {
    SendQuiet(room, EmoteMessage(pid, emote));
    hide AllowedEmote;
  }

  lemma StepLogs(w: World, e: Event)
    ensures ChatOf(Next(w, e).room.reliable) == ChatOf(w.room.reliable) + Spoken(w, e)
  {
    hide ChatOf, Join, Leave, Apply, Chat, Emote, Reward, EquipCosmetic, EquipAvatar, StartNextRound, ExpireCafeRush,
         Receive, NewClient, SignalStop, Becomes, TtlOver, MovedPose, Act, Poses;
    match e
    case Joins(_, _, _, _, _, _, _, _) => JoinLogs(w, e);
    case Leaves(_, _, _) => LeaveLogs(w, e);
    case Chats(_, _, _, _) => ChatLogs(w, e);
    case Interacts(pid, connection, target, now) =>
      if Owns(w.room, pid, connection) {
        OutcomeLogs(w.room, Act(w.room.players, w.room.activity, pid, target, now.millis));
      }
    case Emotes(pid, connection, emote) => EmoteLogs(w.room, pid, connection, emote);
    case Rewards(ids, stars) => RewardLogs(w.room, ids, stars);
    case EquipsCosmetic(owner, cosmetic) => EquipLogs(w.room, owner, cosmetic, "");
    case EquipsAvatar(owner, avatar) => EquipLogs(w.room, owner, None, avatar);
    case StartFires(round, now) => RoundLogs(w.room, round, now);
    case RushFires(round, now) => RoundLogs(w.room, round, now);
    case _ =>
  }

  lemma {:induction false} RunLogs(w: World, es: seq<Event>)
    ensures ChatOf(Run(w, es).room.reliable) == ChatOf(w.room.reliable) + AllSpoken(w, es)
    decreases es
  {
    hide Next, ChatOf, Spoken;
    if es != [] {
      StepLogs(w, es[0]);
      RunLogs(Next(w, es[0]), es[1..]);
    }
  }

  /** The chat log of every run is what its arrivals, departures and accepted messages said, in that order. */
  lemma LogIsWhatWasSaid(code: string, isPrivate: bool, created: Now, es: seq<Event>)
    ensures var w0 := NewWorld(code, isPrivate, created);
            ChatOf(Run(w0, es).room.reliable) == AllSpoken(w0, es)
  {
    RunLogs(NewWorld(code, isPrivate, created), es);
  }

  // ----- emotes and rewards -----

  /** An emote is shown exactly if it is one of the four and comes from the player's present connection. */
  lemma EmotesExactly(room: Room, pid: Uuid, connection: Uuid, emote: string)
    ensures Emote(room, pid, connection, emote) ==
            if pid in room.players && room.players[pid].connection == connection
               && (emote == "wave" || emote == "heart" || emote == "happy" || emote == "tea")
            then room.(reliable := room.reliable + [EmoteMessage(pid, emote)]) else room
  {
  }

  /** Rewards are announced one for each player, in order, and nothing else happens. */
  lemma RewardsExactly(room: Room, ids: seq<Uuid>, stars: nat)
    ensures var after := Reward(room, ids, stars);
            && after == room.(reliable := after.reliable) && |after.reliable| == |room.reliable| + |ids|
            && room.reliable <= after.reliable
            && forall i :: 0 <= i < |ids| ==> after.reliable[|room.reliable| + i] == RewardMessage(ids[i], stars)
  {
  }

  // ----- the order of messages -----

  /** An interaction sends its line first and then, if something changed, a snapshot that shows the room after it. */
  lemma InteractionSends(room: Room, pid: Uuid, connection: Uuid, target: Target, now: Now)
    requires Owns(room, pid, connection)
    ensures var o := Act(room.players, room.activity, pid, target, now.millis);
            var after := Interact(room, pid, connection, target, now);
            var line := if o.say.Some? then [DialogueMessage(o.say.value)] else [];
            if o.changed then
              && |after.reliable| == |room.reliable| + |line| + 1
              && after.reliable[..|after.reliable| - 1] == room.reliable + line
              && ShowsNow(after)
            else after.reliable == room.reliable + line
  {
    ViewShows(Interact(room, pid, connection, target, now));
    hide Act, View, ShowsExactly;
    SameRoomShown(Interact(room, pid, connection, target, now));
  }

  /** The last message is a snapshot that shows the room, under its present revision. */
  ghost predicate ShowsNow(room: Room) {
    && room.reliable != [] && room.reliable[|room.reliable| - 1].Snapshot?
    && room.reliable[|room.reliable| - 1].revision == room.revision
    && ShowsExactly(room.reliable[|room.reliable| - 1].view, room)
  }

  lemma SameRoomShown(room: Room)
    ensures forall before: Room :: before.players == room.players && before.activity == room.activity ==>
              View(before) == View(room)
  {
  }

  /** A new round sends a snapshot that shows it and then the line of its kind; an expiry first says that time is up. */
  lemma RoundsSend(room: Room, round: nat, now: Now)
    ensures CanStart(room, round) ==>
              var after := StartNextRound(room, round, now);
              && |after.reliable| == |room.reliable| + 2 && room.reliable <= after.reliable
              && after.reliable[|room.reliable|].Snapshot?
              && ShowsExactly(after.reliable[|room.reliable|].view, after)
              && after.reliable[|room.reliable| + 1] == DialogueMessage(
                   match after.activity.kind
                   case TeaDelivery => TeaRoundReady
                   case TableService => ServiceRoundReady
                   case CafeRush => RushRoundReady)
    ensures CanExpire(room, round) ==>
              var after := ExpireCafeRush(room, round, now);
              && |after.reliable| == |room.reliable| + 2
              && after.reliable[..|room.reliable| + 1] == room.reliable + [DialogueMessage(RushTimeUp)]
              && ShowsNow(after)
  {
    var started, expired := StartNextRound(room, round, now), ExpireCafeRush(room, round, now);
    ViewShows(started);
    ViewShows(expired);
    SameRoomShown(started);
    SameRoomShown(expired);
    hide ForRound, View, ShowsExactly, AllHandsEmptied;
  }
}
