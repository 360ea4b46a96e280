/**
 What an interaction, a departure and a round change do to the players' hands and to
 the activity.  Messages and revisions are added on top of this in CafeRooms.
 */
module CafeFloor {
  import opened Basics
  import opened CafeModel

  type Players = map<Uuid, Player>

  datatype Dialogue =
    | IntermissionLine | RushIngredientCollected | TeaCollected | TeaSearch | TeaProgress
    | RoundComplete | ServiceAlreadyCarrying | ServiceOrdersClaimed | ServicePickedUp
    | RushOrderPrepared | RushOrderPickedUp | RushFindIngredient | RushOrderDelivered
    | ServiceDelivered | TeaRoundReady | ServiceRoundReady | RushRoundReady | RushTimeUp

  /** The effect of one interaction; `changed` says that a snapshot is broadcast. */
  datatype Outcome = Outcome(
    players: Players,
    activity: Activity,
    say: Option<Dialogue>,
    changed: bool,
    completedRound: Option<nat>)

  function Quiet(players: Players, a: Activity, say: Option<Dialogue>): Outcome {
    Outcome(players, a, say, false, None)
  }

  function FirstWithStatus(orders: seq<Order>, status: OrderStatus): (r: Option<nat>)
    ensures r.Some? ==> r.value < |orders| && orders[r.value].status == status
    ensures forall i :: 0 <= i < (if r.Some? then r.value else |orders|) ==> orders[i].status != status
  {
    Position(orders, (o: Order) => o.status == status)
  }

  function OrderIndex(orders: seq<Order>, id: Target): (r: Option<nat>)
    ensures r.Some? ==> r.value < |orders| && orders[r.value].id == id
    ensures forall i :: 0 <= i < (if r.Some? then r.value else |orders|) ==> orders[i].id != id
  {
    Position(orders, (o: Order) => o.id == id)
  }

  function ClaimedIndex(orders: seq<Order>, id: Target, pid: Uuid): (r: Option<nat>)
    ensures r.Some? ==> r.value < |orders| && orders[r.value].id == id && orders[r.value].claimedBy == Some(pid)
    ensures forall i :: 0 <= i < (if r.Some? then r.value else |orders|) ==>
                          !(orders[i].id == id && orders[i].claimedBy == Some(pid))
  {
    Position(orders, (o: Order) => o.id == id && o.claimedBy == Some(pid))
  }

  function LeafIndex(leaves: seq<Leaf>, id: Target): (r: Option<nat>)
    ensures r.Some? ==> r.value < |leaves| && leaves[r.value].id == id
    ensures forall i :: 0 <= i < (if r.Some? then r.value else |leaves|) ==> leaves[i].id != id
  {
    Position(leaves, (leaf: Leaf) => leaf.id == id)
  }

  function AvailableLeafIndex(leaves: seq<Leaf>, id: Target): (r: Option<nat>)
    ensures r.Some? ==> r.value < |leaves| && leaves[r.value].id == id && leaves[r.value].available
    ensures forall i :: 0 <= i < (if r.Some? then r.value else |leaves|) ==>
                          !(leaves[i].id == id && leaves[i].available)
  {
    Position(leaves, (leaf: Leaf) => leaf.id == id && leaf.available)
  }

  function EmptyHands(player: Player): Player {
    player.(carriedTea := 0, carriedRush := [], carriedOrder := None)
  }

  /** What every interaction guarantees: only hands and the activity change, a change is
      always broadcast, and a round is reported completed exactly when it ends. */
  ghost predicate Tidy(players: Players, a: Activity, o: Outcome) {
    && o.players.Keys == players.Keys
    && (forall p :: p in players ==> EmptyHands(o.players[p]) == EmptyHands(players[p]))
    && o.activity.round == a.round && o.activity.kind == a.kind && o.activity.target == a.target
    && (!o.changed ==> o.players == players && o.activity == a)
    && (a.phase == Intermission ==> !o.changed)
    && o.completedRound == (if a.phase == Active && o.activity.phase == Intermission then Some(a.round) else None)
    && (o.completedRound.Some? ==> o.activity.completed)
  }

  // ----- interactions -----

  /** The activity part of `interact_for_connection`, once the connection is accepted. */
  function Act(players: Players, a: Activity, pid: Uuid, target: Target, now: int): Outcome
    requires pid in players
  {
    if a.phase == Intermission then
      Quiet(players, a,
            if target == AikoTarget && InRange(players[pid].pose, AIKO, HOST_INTERACTION_RADIUS)
            then Some(IntermissionLine) else None)
    else if a.kind == TableService then ActTableService(players, a, pid, target, now)
    else
      match AvailableLeafIndex(a.leaves, target)
      case Some(i) => Collect(players, a, pid, i)
      case None =>
        if a.kind == CafeRush then ActCafeRush(players, a, pid, target, now)
        else DeliverTea(players, a, pid, target, now)
  }

  function Collect(players: Players, a: Activity, pid: Uuid, i: nat): Outcome
    requires pid in players && i < |a.leaves|
  {
    var leaf := a.leaves[i];
    if !InRange(players[pid].pose, leaf.at, INTERACTION_RADIUS) then Quiet(players, a, None)
    else
      var rush := a.kind == CafeRush;
      var player := players[pid].(
          carriedTea := SaturatingAdd8(players[pid].carriedTea, 1),
          carriedRush := players[pid].carriedRush + (if rush then [leaf.id] else []));
      Outcome(players[pid := player],
              a.(leaves := a.leaves[i := leaf.(available := false)]),
              Some(if rush then RushIngredientCollected else TeaCollected), true, None)
  }

  function DeliverTea(players: Players, a: Activity, pid: Uuid, target: Target, now: int): Outcome
    requires pid in players
  {
    var carried := players[pid].carriedTea;
    if target != AikoTarget || !InRange(players[pid].pose, AIKO, HOST_INTERACTION_RADIUS) then
      Quiet(players, a, None)
    else if carried == 0 then Quiet(players, a, Some(TeaSearch))
    else
      var delivered := Min(SaturatingAdd8(a.delivered, carried), a.target);
      var done := !a.completed && delivered >= a.target;
      Outcome(players[pid := players[pid].(carriedTea := 0)],
              a.(delivered := delivered, completed := a.completed || done,
                 phase := if done then Intermission else a.phase,
                 nextRoundAt := if done then Some(now + ROUND_INTERMISSION_MS) else a.nextRoundAt),
              Some(if done then RoundComplete else TeaProgress), true,
              if done then Some(a.round) else None)
  }

  function Claim(players: Players, a: Activity, pid: Uuid, i: nat, say: Dialogue): Outcome
    requires pid in players && i < |a.orders|
  {
    var order := a.orders[i].(status := Claimed, claimedBy := Some(pid));
    Outcome(players[pid := players[pid].(carriedOrder := Some(order.id))],
            a.(orders := a.orders[i := order]), Some(say), true, None)
  }

  function Prepare(players: Players, a: Activity, pid: Uuid, i: nat): Outcome
    requires pid in players && i < |a.orders| && players[pid].carriedRush != []
  {
    var player := players[pid];
    Outcome(players[pid := player.(carriedTea := SaturatingSub(player.carriedTea, 1),
                                   carriedRush := player.carriedRush[..|player.carriedRush| - 1])],
            a.(orders := a.orders[i := a.orders[i].(status := Available)]),
            Some(RushOrderPrepared), true, None)
  }

  function ActTableService(players: Players, a: Activity, pid: Uuid, target: Target, now: int): Outcome
    requires pid in players
  {
    if target != CounterTarget then Serve(players, a, pid, target, now)
    else if !InRange(players[pid].pose, SERVICE_COUNTER, HOST_INTERACTION_RADIUS) then Quiet(players, a, None)
    else if players[pid].carriedOrder.Some? then Quiet(players, a, Some(ServiceAlreadyCarrying))
    else
      match FirstWithStatus(a.orders, Available)
      case None => Quiet(players, a, Some(ServiceOrdersClaimed))
      case Some(i) => Claim(players, a, pid, i, ServicePickedUp)
  }

  function ActCafeRush(players: Players, a: Activity, pid: Uuid, target: Target, now: int): Outcome
    requires pid in players
  {
    if target != CounterTarget then Serve(players, a, pid, target, now)
    else if !InRange(players[pid].pose, SERVICE_COUNTER, HOST_INTERACTION_RADIUS) then Quiet(players, a, None)
    else if players[pid].carriedOrder.Some? then Quiet(players, a, Some(ServiceAlreadyCarrying))
    else
      var waiting := FirstWithStatus(a.orders, WaitingIngredient);
      if players[pid].carriedRush != [] && waiting.Some? then Prepare(players, a, pid, waiting.value)
      else
        match FirstWithStatus(a.orders, Available)
        case Some(i) => Claim(players, a, pid, i, RushOrderPickedUp)
        case None => Quiet(players, a, Some(if waiting.Some? then RushFindIngredient else ServiceOrdersClaimed))
  }

  function Serve(players: Players, a: Activity, pid: Uuid, target: Target, now: int): Outcome
    requires pid in players
  {
    match OrderIndex(a.orders, target)
    case None => Quiet(players, a, None)
    case Some(i) =>
      var order := a.orders[i];
      if order.status != Claimed || order.claimedBy != Some(pid)
         || !InRange(players[pid].pose, order.at, INTERACTION_RADIUS)
         || players[pid].carriedOrder != Some(order.id)
      then Quiet(players, a, None)
      else ServeAt(players, a, pid, i, now)
  }

  function ServeAt(players: Players, a: Activity, pid: Uuid, i: nat, now: int): Outcome
    requires pid in players && i < |a.orders|
  {
    var delivered := Min(SaturatingAdd8(a.delivered, 1), a.target);
    var b := Timed(a, now).(delivered := delivered,
                            orders := a.orders[i := a.orders[i].(status := Served, claimedBy := None)]);
    var done := !a.completed && delivered >= a.target;
    Outcome(players[pid := players[pid].(carriedOrder := None)],
            if done then Finished(b, now) else b,
            Some(if done then RoundComplete
                 else if a.kind == CafeRush then RushOrderDelivered else ServiceDelivered),
            true,
            if done then Some(a.round) else None)
  }

  /** The combo counters of a cafe rush when an order is served at `now`. */
  function Timed(a: Activity, now: int): Activity {
    if a.kind != CafeRush then a
    else
      var combo := if a.comboExpiresAt.Some? && a.comboExpiresAt.value >= now
                   then SaturatingAdd8(a.combo, 1) else 1;
      a.(combo := combo, bestCombo := Max(a.bestCombo, combo),
         comboExpiresAt := Some(now + CAFE_RUSH_COMBO_WINDOW_MS))
  }

  function Finished(a: Activity, now: int): Activity {
    a.(completed := true, phase := Intermission, endsAt := None, comboExpiresAt := None,
       nextRoundAt := Some(now + ROUND_INTERMISSION_MS))
  }

  lemma TableCounterTidy(players: Players, a: Activity, pid: Uuid, now: int)
    requires pid in players && a.phase == Active
    ensures Tidy(players, a, ActTableService(players, a, pid, CounterTarget, now))
  {
  }

  lemma RushCounterTidy(players: Players, a: Activity, pid: Uuid, now: int)
    requires pid in players && a.phase == Active
    ensures Tidy(players, a, ActCafeRush(players, a, pid, CounterTarget, now))
  {
  }

  lemma ServeTidy(players: Players, a: Activity, pid: Uuid, target: Target, now: int)
    requires pid in players && a.phase == Active
    ensures Tidy(players, a, Serve(players, a, pid, target, now))
  {
  }

  lemma TeaTidy(players: Players, a: Activity, pid: Uuid, target: Target, now: int)
    requires pid in players && a.phase == Active
    ensures Tidy(players, a, DeliverTea(players, a, pid, target, now))
  {
  }

  lemma CollectTidy(players: Players, a: Activity, pid: Uuid, i: nat)
    requires pid in players && a.phase == Active && i < |a.leaves|
    ensures Tidy(players, a, Collect(players, a, pid, i))
  {
  }

  lemma ActTidy(players: Players, a: Activity, pid: Uuid, target: Target, now: int)
    requires pid in players
    ensures Tidy(players, a, Act(players, a, pid, target, now))
  {
    if a.phase == Active {
      var leaf := AvailableLeafIndex(a.leaves, target);
      if a.kind != TableService && leaf.Some? {
        CollectTidy(players, a, pid, leaf.value);
      } else if a.kind == TeaDelivery {
        TeaTidy(players, a, pid, target, now);
      } else if target == CounterTarget && a.kind == TableService {
        TableCounterTidy(players, a, pid, now);
      } else if target == CounterTarget {
        RushCounterTidy(players, a, pid, now);
      } else {
        ServeTidy(players, a, pid, target, now);
      }
    }
  }

  // ----- departures and round changes -----

  function ReturnLeaves(leaves: seq<Leaf>, ids: seq<Target>): seq<Leaf>
    decreases ids
  {
    if ids == [] then leaves
    else
      match LeafIndex(leaves, ids[0])
      case None => ReturnLeaves(leaves, ids[1..])
      case Some(i) => ReturnLeaves(leaves[i := leaves[i].(available := true)], ids[1..])
  }

  function ReleaseOrder(orders: seq<Order>, carried: Option<Target>, pid: Uuid): seq<Order> {
    if carried.None? then orders
    else
      match ClaimedIndex(orders, carried.value, pid)
      case None => orders
      case Some(i) => orders[i := orders[i].(status := Available, claimedBy := None)]
  }

  /** What a departing player's hands put back. */
  function Depart(a: Activity, player: Player, pid: Uuid): Activity {
    a.(leaves := ReturnLeaves(a.leaves, player.carriedRush),
       orders := ReleaseOrder(a.orders, player.carriedOrder, pid))
  }

  function AllHandsEmptied(players: Players): Players {
    map p | p in players :: EmptyHands(players[p])
  }

  /** The activity part of `expire_cafe_rush`. */
  function Expired(a: Activity, now: int): Activity {
    a.(phase := Intermission, endsAt := None, comboExpiresAt := None,
       nextRoundAt := Some(now + ROUND_INTERMISSION_MS))
  }
}
