/**
 Order rounds (table service and cafe rush) cannot get stuck: some present player
 always has an effective interaction, and each one lowers a rank by exactly one.
 Also: the fixed room map, and where a player may stand.
 */
module CafeProgress {
  import opened Basics
  import opened MapSums
  import opened CafeModel
  import opened CafeFloor
  import opened CafeInventory

  // ----- the rank -----

  function Rank(a: Activity): nat {
    3 * CountOrders(a.orders, WaitingIngredient) + 2 * CountOrders(a.orders, Available)
    + CountOrders(a.orders, Claimed) + CountLeaves(a.leaves)
  }

  function Weight(status: OrderStatus): nat {
    match status
    case WaitingIngredient => 3
    case Available => 2
    case Claimed => 1
    case Served => 0
  }

  lemma RankOrderSet(a: Activity, b: Activity, i: nat, o: Order)
    requires i < |a.orders| && b.orders == a.orders[i := o] && b.leaves == a.leaves
    ensures Rank(b) + Weight(a.orders[i].status) == Rank(a) + Weight(o.status)
  {
    CountOrdersSet(a.orders, i, o, WaitingIngredient);
    CountOrdersSet(a.orders, i, o, Available);
    CountOrdersSet(a.orders, i, o, Claimed);
  }

  lemma ServeLowersRank(players: Players, a: Activity, pid: Uuid, target: Target, now: int)
    requires Balanced(players, a) && pid in players && a.phase == Active
    requires Serve(players, a, pid, target, now).changed
    ensures Rank(Serve(players, a, pid, target, now).activity) + 1 == Rank(a)
  {
    var i := OrderIndex(a.orders, target).value;
    RankOrderSet(a, Serve(players, a, pid, target, now).activity, i,
                 a.orders[i].(status := Served, claimedBy := None));
  }

  lemma ClaimLowersRank(players: Players, a: Activity, pid: Uuid, i: nat, say: Dialogue)
    requires pid in players && a.phase == Active && i < |a.orders| && a.orders[i].status == Available
    ensures Rank(Claim(players, a, pid, i, say).activity) + 1 == Rank(a)
  {
    RankOrderSet(a, Claim(players, a, pid, i, say).activity, i,
                 a.orders[i].(status := Claimed, claimedBy := Some(pid)));
  }

  lemma PrepareLowersRank(players: Players, a: Activity, pid: Uuid, i: nat)
    requires pid in players && a.phase == Active && players[pid].carriedRush != []
    requires i < |a.orders| && a.orders[i].status == WaitingIngredient
    ensures Rank(Prepare(players, a, pid, i).activity) + 1 == Rank(a)
  {
    RankOrderSet(a, Prepare(players, a, pid, i).activity, i, a.orders[i].(status := Available));
  }

  lemma CollectLowersRank(players: Players, a: Activity, pid: Uuid, i: nat)
    requires pid in players && a.phase == Active && i < |a.leaves| && a.leaves[i].available
    requires Collect(players, a, pid, i).changed
    ensures Rank(Collect(players, a, pid, i).activity) + 1 == Rank(a)
  {
    CountLeavesSet(a.leaves, i, a.leaves[i].(available := false));
  }

  lemma EffectiveLowersRank(players: Players, a: Activity, pid: Uuid, target: Target, now: int)
    requires Balanced(players, a) && pid in players && a.phase == Active && a.kind != TeaDelivery
    requires Act(players, a, pid, target, now).changed
    ensures Rank(Act(players, a, pid, target, now).activity) + 1 == Rank(a)
  {
    var leaf := AvailableLeafIndex(a.leaves, target);
    var waiting := FirstWithStatus(a.orders, WaitingIngredient);
    var available := FirstWithStatus(a.orders, Available);
    if a.kind == CafeRush && leaf.Some? {
      CollectLowersRank(players, a, pid, leaf.value);
    } else if target != CounterTarget {
      ServeLowersRank(players, a, pid, target, now);
    } else if a.kind == CafeRush && players[pid].carriedRush != [] && waiting.Some? {
      PrepareLowersRank(players, a, pid, waiting.value);
    } else {
      ClaimLowersRank(players, a, pid, available.value,
                      if a.kind == CafeRush then RushOrderPickedUp else ServicePickedUp);
    }
  }

  lemma CompletedIffRankZero(players: Players, a: Activity)
    requires Balanced(players, a) && a.kind != TeaDelivery && !TimedOut(a)
    ensures a.completed <==> Rank(a) == 0
  {
    CountOrdersTotal(a.orders);
    if a.leaves == [] { CountLeavesAll(a.leaves); }
  }

  lemma FreshRank(round: nat, playerCount: nat, now: int)
    requires round >= 1 && round % 3 != 1
    ensures var a := ForRound(round, playerCount, now);
            Rank(a) == if a.kind == CafeRush then 4 * a.target else 6
  {
    var a := ForRound(round, playerCount, now);
    CountOrdersAll(a.orders, a.orders[0].status);
    CountLeavesAll(a.leaves);
  }

  // ----- runs without departures -----

  datatype FloorStep =
    | Acts(pid: Uuid, target: Target, now: int)
    | Repositions(pid: Uuid, pose: Pose)
    | Arrives(pid: Uuid, player: Player)

  datatype Floor = Floor(players: Players, activity: Activity, effective: nat)

  function Step(f: Floor, s: FloorStep): Floor {
    match s
    case Acts(pid, target, now) =>
      if pid !in f.players then f
      else
        var o := Act(f.players, f.activity, pid, target, now);
        Floor(o.players, o.activity, f.effective + (if o.changed then 1 else 0))
    case Repositions(pid, pose) =>
      if pid !in f.players then f else f.(players := f.players[pid := f.players[pid].(pose := pose)])
    case Arrives(pid, player) =>
      if pid in f.players then f else f.(players := f.players[pid := EmptyHands(player)])
  }

  function Steps(f: Floor, ss: seq<FloorStep>): Floor
    decreases ss
  {
    if ss == [] then f else Steps(Step(f, ss[0]), ss[1..])
  }

  ghost predicate OrderRound(f: Floor) {
    Balanced(f.players, f.activity) && f.activity.kind != TeaDelivery && !TimedOut(f.activity)
  }

  lemma StepConservesWork(f: Floor, s: FloorStep)
    requires OrderRound(f)
    ensures var g := Step(f, s);
            OrderRound(g) && g.effective + Rank(g.activity) == f.effective + Rank(f.activity)
            && g.activity.kind == f.activity.kind
  {
    match s
    case Acts(pid, target, now) =>
      if pid in f.players {
        ActBalanced(f.players, f.activity, pid, target, now);
        ActTidy(f.players, f.activity, pid, target, now);
        var o := Act(f.players, f.activity, pid, target, now);
        if o.changed {
          EffectiveLowersRank(f.players, f.activity, pid, target, now);
        }
      }
    case Repositions(pid, pose) =>
      if pid in f.players {
        BalancedKept(f.players, f.players[pid := f.players[pid].(pose := pose)], f.activity);
      }
    case Arrives(pid, player) =>
      if pid !in f.players {
        ArrivalBalanced(f.players, f.activity, pid, EmptyHands(player));
      }
  }

  lemma {:induction false} StepsConserveWork(f: Floor, ss: seq<FloorStep>)
    requires OrderRound(f)
    ensures var g := Steps(f, ss);
            OrderRound(g) && g.effective + Rank(g.activity) == f.effective + Rank(f.activity)
            && g.activity.kind == f.activity.kind
    decreases ss
  {
    if ss != [] {
      StepConservesWork(f, ss[0]);
      StepsConserveWork(Step(f, ss[0]), ss[1..]);
    }
  }

  /** While nobody leaves and no timer fires, a rush with `t` orders is completed by its
      `4 * t`-th effective interaction and no other, a table round by its sixth. */
  lemma RoundTakesExactly(players: Players, round: nat, playerCount: nat, now: int, ss: seq<FloorStep>)
    requires round >= 1 && round % 3 != 1
    ensures var a := ForRound(round, playerCount, now);
            var g := Steps(Floor(AllHandsEmptied(players), a, 0), ss);
            var needed := if a.kind == CafeRush then 4 * a.target else 6;
            g.effective <= needed && (g.activity.completed <==> g.effective == needed)
  {
    var a := ForRound(round, playerCount, now);
    var f := Floor(AllHandsEmptied(players), a, 0);
    ForRoundBalanced(players, round, playerCount, now);
    FreshRank(round, playerCount, now);
    StepsConserveWork(f, ss);
    CompletedIffRankZero(Steps(f, ss).players, Steps(f, ss).activity);
  }

  // ----- the room map -----

  datatype Collider = Collider(x: real, y: real, width: real, height: real)

  const COLLIDERS: seq<Collider> := [
    Collider(366.0, 182.0, 488.0, 120.0),
    Collider(190.0, 322.0, 120.0, 122.0),
    Collider(188.0, 540.0, 108.0, 100.0),
    Collider(990.0, 338.0, 114.0, 106.0),
    Collider(990.0, 544.0, 112.0, 104.0),
    Collider(460.0, 523.0, 352.0, 98.0)]

  predicate ContainsPlayer(c: Collider, x: real, y: real) {
    && x + COLLISION_RADIUS > c.x
    && x - COLLISION_RADIUS < c.x + c.width
    && y + COLLISION_RADIUS > c.y
    && y - COLLISION_RADIUS < c.y + c.height
  }

  predicate Collides(x: real, y: real) {
    exists i :: 0 <= i < |COLLIDERS| && ContainsPlayer(COLLIDERS[i], x, y)
  }

  predicate Standable(x: real, y: real) {
    && COLLISION_RADIUS <= x <= MAP_WIDTH - COLLISION_RADIUS
    && COLLISION_RADIUS <= y <= MAP_HEIGHT - COLLISION_RADIUS
    && !Collides(x, y)
  }

  /** Some position that the movement rules allow is within reach of the counter. */
  lemma CounterReachable() returns (spot: Pose)
    ensures Standable(spot.x, spot.y) && InRange(spot, SERVICE_COUNTER, HOST_INTERACTION_RADIUS)
  {
    spot := Pose(640.0, 320.0, Up, false);
  }

  lemma TableReachable(t: Table) returns (spot: Pose)
    ensures Standable(spot.x, spot.y) && InRange(spot, TablePoint(t), INTERACTION_RADIUS)
  {
    match t
    case WindowTable => spot := Pose(250.0, 460.0, Up, false);
    case GardenTable => spot := Pose(1047.0, 460.0, Up, false);
    case LongTable => spot := Pose(636.0, 640.0, Up, false);
  }

  lemma IngredientReachable(i: nat) returns (spot: Pose)
    requires i < 6
    ensures Standable(spot.x, spot.y) && InRange(spot, CAFE_RUSH_INGREDIENTS[i], INTERACTION_RADIUS)
  {
    var p := CAFE_RUSH_INGREDIENTS[i];
    if i == 4 {
      spot := Pose(1120.0, 570.0, Left, false);
    } else if i == 5 {
      spot := Pose(870.0, 300.0, Left, false);
    } else {
      spot := Pose(p.x, p.y, Up, false);
    }
  }

  // ----- no deadlock -----

  ghost predicate EffectiveAt(players: Players, a: Activity, pid: Uuid, spot: Pose, target: Target, now: int)
    requires pid in players
  {
    && Standable(spot.x, spot.y)
    && Act(players[pid := players[pid].(pose := spot)], a, pid, target, now).changed
  }

  /** From every balanced active order round with a player present, some present player,
      standing at an allowed spot, has an interaction that changes the round. */
  lemma NoDeadlock(players: Players, a: Activity, now: int) returns (pid: Uuid, spot: Pose, target: Target)
    requires Balanced(players, a) && a.phase == Active && a.kind != TeaDelivery && players != map[]
    ensures pid in players && EffectiveAt(players, a, pid, spot, target, now)
  {
    CountOrdersPositive(a.orders, Claimed);
    if CountOrders(a.orders, Claimed) > 0 {
      var i :| 0 <= i < |a.orders| && a.orders[i].status == Claimed;
      pid, spot, target := ServeClaimedOrder(players, a, i, now);
    } else {
      NobodyCarriesOrders(players, a);
      if CountOrders(a.orders, Available) == 0 && CountLeaves(a.leaves) > 0 {
        pid :| pid in players;
        spot, target := CollectLeaf(players, a, pid, now);
      } else {
        pid := WhoHasWork(players, a);
        spot := WorkAtCounter(players, a, pid, now);
        target := CounterTarget;
      }
    }
  }

  /** With nothing claimed and nothing left to collect, either an order is available to
      anyone or some player holds the ingredient of a waiting order. */
  lemma WhoHasWork(players: Players, a: Activity) returns (pid: Uuid)
    requires Balanced(players, a) && a.phase == Active && a.kind != TeaDelivery && players != map[]
    requires CountOrders(a.orders, Claimed) == 0
    requires CountOrders(a.orders, Available) > 0 || CountLeaves(a.leaves) == 0
    ensures pid in players
    ensures CountOrders(a.orders, Available) > 0 ||
            (a.kind == CafeRush && players[pid].carriedRush != [] && CountOrders(a.orders, WaitingIngredient) > 0)
  {
    CountOrdersTotal(a.orders);
    if CountOrders(a.orders, Available) > 0 {
      pid :| pid in players;
    } else {
      pid := SumPositive(Teas(players));
      assert players[pid].carriedTea > 0;
    }
  }

  lemma WorkAtCounter(players: Players, a: Activity, pid: Uuid, now: int) returns (spot: Pose)
    requires a.phase == Active && a.kind != TeaDelivery && pid in players && players[pid].carriedOrder.None?
    requires CountOrders(a.orders, Available) > 0 ||
             (a.kind == CafeRush && players[pid].carriedRush != [] && CountOrders(a.orders, WaitingIngredient) > 0)
    requires forall i :: 0 <= i < |a.leaves| ==> a.leaves[i].id.TeaId?
    ensures EffectiveAt(players, a, pid, spot, CounterTarget, now)
  {
    CountOrdersPositive(a.orders, Available);
    CountOrdersPositive(a.orders, WaitingIngredient);
    spot := CounterReachable();
    assert AvailableLeafIndex(a.leaves, CounterTarget).None?;
  }

  lemma ServeClaimedOrder(players: Players, a: Activity, i: nat, now: int)
    returns (pid: Uuid, spot: Pose, target: Target)
    requires Balanced(players, a) && a.phase == Active && a.kind != TeaDelivery
    requires i < |a.orders| && a.orders[i].status == Claimed
    ensures pid in players && EffectiveAt(players, a, pid, spot, target, now)
  {
    hide Act, Standable, InRange, Stock, Books;
    pid, target := ClaimFound(players, a, i);
    spot := TableReachable(a.orders[i].recipe.table);
    ClaimServed(players[pid := players[pid].(pose := spot)], a, i, pid, now);
  }

  /** A claimed order has a carrier, and its id names nothing else. */
  lemma ClaimFound(players: Players, a: Activity, i: nat) returns (pid: Uuid, target: Target)
    requires Shape(a) && Claims(players, a) && i < |a.orders| && a.orders[i].status == Claimed
    ensures a.orders[i].claimedBy == Some(pid) && target == a.orders[i].id
    ensures pid in players && players[pid].carriedOrder == Some(target)
    ensures OrderIndex(a.orders, target) == Some(i) && AvailableLeafIndex(a.leaves, target).None?
    ensures target != CounterTarget && a.orders[i].at == TablePoint(a.orders[i].recipe.table)
  {
    pid := a.orders[i].claimedBy.value;
    assert a.orders[i].claimedBy == Some(pid);
    target := a.orders[i].id;
  }

  lemma ClaimServed(players: Players, a: Activity, i: nat, pid: Uuid, now: int)
    requires a.phase == Active && a.kind != TeaDelivery && i < |a.orders| && a.orders[i].status == Claimed
    requires pid in players && a.orders[i].claimedBy == Some(pid) && a.orders[i].id != CounterTarget
    requires players[pid].carriedOrder == Some(a.orders[i].id)
    requires InRange(players[pid].pose, a.orders[i].at, INTERACTION_RADIUS)
    requires OrderIndex(a.orders, a.orders[i].id) == Some(i) && AvailableLeafIndex(a.leaves, a.orders[i].id).None?
    ensures Act(players, a, pid, a.orders[i].id, now).changed
  {
    hide InRange;
  }

  lemma NobodyCarriesOrders(players: Players, a: Activity)
    requires Balanced(players, a) && !TimedOut(a) && CountOrders(a.orders, Claimed) == 0
    ensures forall p :: p in players ==> players[p].carriedOrder.None?
  {
    CountOrdersPositive(a.orders, Claimed);
    forall p | p in players
      ensures players[p].carriedOrder.None?
    {
      if players[p].carriedOrder.Some? {
        OneCarrierPerOrder(players, a, p, p);
      }
    }
  }

  lemma CollectLeaf(players: Players, a: Activity, pid: Uuid, now: int) returns (spot: Pose, target: Target)
    requires Balanced(players, a) && a.phase == Active && a.kind == CafeRush && pid in players
    requires CountLeaves(a.leaves) > 0
    ensures EffectiveAt(players, a, pid, spot, target, now)
  {
    var i := CountLeavesPositive(a.leaves);
    target := a.leaves[i].id;
    spot := IngredientReachable(i);
    assert AvailableLeafIndex(a.leaves, target) == Some(i);
  }
}
