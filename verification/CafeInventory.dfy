/**
 Who holds what: claims of orders and conservation of tea, ingredients and orders.
 `Balanced` is kept by every interaction, arrival, departure and round change.
 */
module CafeInventory {
  import opened Basics
  import opened MapSums
  import opened CafeModel
  import opened CafeFloor

  // ----- counting -----

  function CountOrders(orders: seq<Order>, status: OrderStatus): nat {
    if orders == [] then 0
    else CountOrders(orders[..|orders| - 1], status) + (if orders[|orders| - 1].status == status then 1 else 0)
  }

  function CountLeaves(leaves: seq<Leaf>): nat {
    if leaves == [] then 0
    else CountLeaves(leaves[..|leaves| - 1]) + (if leaves[|leaves| - 1].available then 1 else 0)
  }

  lemma {:induction false} CountOrdersSet(orders: seq<Order>, i: nat, o: Order, status: OrderStatus)
    requires i < |orders|
    ensures CountOrders(orders[i := o], status) + (if orders[i].status == status then 1 else 0)
            == CountOrders(orders, status) + (if o.status == status then 1 else 0)
  {
    var n := |orders| - 1;
    if i == n {
      assert orders[i := o][..n] == orders[..n];
    } else {
      assert orders[i := o][..n] == orders[..n][i := o];
      CountOrdersSet(orders[..n], i, o, status);
    }
  }

  lemma {:induction false} CountLeavesSet(leaves: seq<Leaf>, i: nat, leaf: Leaf)
    requires i < |leaves|
    ensures CountLeaves(leaves[i := leaf]) + (if leaves[i].available then 1 else 0)
            == CountLeaves(leaves) + (if leaf.available then 1 else 0)
  {
    var n := |leaves| - 1;
    if i == n {
      assert leaves[i := leaf][..n] == leaves[..n];
    } else {
      assert leaves[i := leaf][..n] == leaves[..n][i := leaf];
      CountLeavesSet(leaves[..n], i, leaf);
    }
  }

  lemma {:induction false} CountOrdersTotal(orders: seq<Order>)
    ensures CountOrders(orders, WaitingIngredient) + CountOrders(orders, Available)
            + CountOrders(orders, Claimed) + CountOrders(orders, Served) == |orders|
  {
    if orders != [] { CountOrdersTotal(orders[..|orders| - 1]); }
  }

  /** A status has a positive count exactly when some order has it. */
  lemma {:induction false} CountOrdersPositive(orders: seq<Order>, status: OrderStatus)
    ensures CountOrders(orders, status) > 0 <==> exists i :: 0 <= i < |orders| && orders[i].status == status
  {
    if orders != [] {
      var n := |orders| - 1;
      CountOrdersPositive(orders[..n], status);
      if orders[n].status != status && (exists i :: 0 <= i < |orders| && orders[i].status == status) {
        var i :| 0 <= i < |orders| && orders[i].status == status;
        assert orders[..n][i].status == status;
      }
    }
  }

  lemma {:induction false} CountOrdersAll(orders: seq<Order>, status: OrderStatus)
    requires forall i :: 0 <= i < |orders| ==> orders[i].status == status
    ensures CountOrders(orders, status) == |orders|
    ensures forall s :: s != status ==> CountOrders(orders, s) == 0
  {
    if orders != [] { CountOrdersAll(orders[..|orders| - 1], status); }
  }

  lemma {:induction false} CountLeavesAll(leaves: seq<Leaf>)
    requires forall i :: 0 <= i < |leaves| ==> leaves[i].available
    ensures CountLeaves(leaves) == |leaves|
  {
    if leaves != [] { CountLeavesAll(leaves[..|leaves| - 1]); }
  }

  lemma {:induction false} CountLeavesPositive(leaves: seq<Leaf>) returns (i: nat)
    requires CountLeaves(leaves) > 0
    ensures i < |leaves| && leaves[i].available
  {
    i := |leaves| - 1;
    if !leaves[i].available { i := CountLeavesPositive(leaves[..i]); }
  }

  ghost function Teas(players: Players): map<Uuid, nat> {
    map p | p in players :: players[p].carriedTea
  }

  lemma TeasSet(players: Players, pid: Uuid, player: Player)
    ensures Sum(Teas(players[pid := player])) + (if pid in players then players[pid].carriedTea else 0)
            == Sum(Teas(players)) + player.carriedTea
  {
    assert Teas(players[pid := player]) == Teas(players)[pid := player.carriedTea];
    SumSet(Teas(players), pid, player.carriedTea);
  }

  // ----- the invariant -----

  function KindOf(round: nat): ActivityKind {
    if round % 3 == 1 then TeaDelivery else if round % 3 == 2 then TableService else CafeRush
  }

  ghost predicate Shape(a: Activity) {
    && a.kind == KindOf(a.round)
    && (forall i :: 0 <= i < |a.leaves| ==> a.leaves[i].id == TeaId(a.round, i + 1))
    && (forall i :: 0 <= i < |a.orders| ==>
          && a.orders[i].id == OrderId(a.round, i + 1)
          && a.orders[i].at == TablePoint(a.orders[i].recipe.table)
          && (a.orders[i].claimedBy.Some? <==> a.orders[i].status == Claimed))
    && match a.kind
       case TeaDelivery =>
         && a.target == 3 == |a.leaves| && a.orders == []
         && forall i :: 0 <= i < |a.leaves| ==> a.leaves[i].at == TEA_LAYOUTS[0][i]
       case TableService => a.target == 3 == |a.orders| && a.leaves == []
         && CountOrders(a.orders, WaitingIngredient) == 0
       case CafeRush =>
         && 3 <= a.target <= 6 && |a.leaves| == |a.orders| == a.target
         && forall i :: 0 <= i < |a.leaves| ==> a.leaves[i].at == CAFE_RUSH_INGREDIENTS[i]
  }

  /** An order is claimed by `p` exactly when `p` is present and carries it. */
  ghost predicate Claims(players: Players, a: Activity) {
    && (forall i, p :: 0 <= i < |a.orders| ==>
          (a.orders[i].claimedBy == Some(p) <==> p in players && players[p].carriedOrder == Some(a.orders[i].id)))
    && (forall p :: p in players && players[p].carriedOrder.Some? ==>
          CarriesKnownOrder(players[p].carriedOrder.value, a))
  }

  ghost predicate CarriesKnownOrder(id: Target, a: Activity) {
    id.OrderId? && id.round == a.round && 1 <= id.index <= |a.orders|
  }

  /** `id` names a leaf that has been taken. */
  ghost predicate Taken(a: Activity, id: Target) {
    id.TeaId? && id.round == a.round && 1 <= id.index <= |a.leaves| && !a.leaves[id.index - 1].available
  }

  ghost predicate CarriedDistinct(players: Players) {
    forall p, q, i, j |
      && p in players && 0 <= i < |players[p].carriedRush|
      && q in players && 0 <= j < |players[q].carriedRush|
      && players[p].carriedRush[i] == players[q].carriedRush[j] :: p == q && i == j
  }

  /** Conservation of leaves and ingredients. */
  ghost predicate Stock(players: Players, a: Activity) {
    match a.kind
    case TeaDelivery =>
      && (forall p :: p in players ==> players[p].carriedRush == [])
      && CountLeaves(a.leaves) + Sum(Teas(players)) + a.delivered <= a.target
    case TableService =>
      forall p :: p in players ==> players[p].carriedRush == [] && players[p].carriedTea == 0
    case CafeRush =>
      && (forall p :: p in players ==> players[p].carriedTea == |players[p].carriedRush|)
      && CarriedDistinct(players)
      && (forall p, i :: p in players && 0 <= i < |players[p].carriedRush| ==> Taken(a, players[p].carriedRush[i]))
      && CountLeaves(a.leaves) + Sum(Teas(players)) + (a.target - CountOrders(a.orders, WaitingIngredient)) == a.target
  }

  /** What has been delivered, and when the activity counts as completed. */
  ghost predicate Books(a: Activity) {
    && a.delivered <= a.target
    && (a.kind != TeaDelivery ==> a.delivered == CountOrders(a.orders, Served))
    && (a.completed <==> a.delivered == a.target)
    && (a.completed ==> a.phase == Intermission)
    && (a.phase == Intermission && a.kind != CafeRush ==> a.completed)
  }

  predicate TimedOut(a: Activity) {
    a.phase == Intermission && !a.completed
  }

  predicate HandsEmpty(player: Player) {
    player.carriedTea == 0 && player.carriedRush == [] && player.carriedOrder == None
  }

  ghost predicate Balanced(players: Players, a: Activity) {
    && Shape(a)
    && Books(a)
    && if TimedOut(a) then forall p :: p in players ==> HandsEmpty(players[p])
       else Claims(players, a) && Stock(players, a)
  }

  // ----- what a change has to leave alone -----

  /** Hands that hold the same tea and ingredients, leaf for leaf. */
  ghost predicate SameStockHeld(before: Players, after: Players) {
    && before.Keys == after.Keys
    && forall p :: p in before ==>
         after[p].carriedTea == before[p].carriedTea && after[p].carriedRush == before[p].carriedRush
  }

  ghost predicate SameOrdersHeld(before: Players, after: Players) {
    && before.Keys == after.Keys
    && forall p :: p in before ==> after[p].carriedOrder == before[p].carriedOrder
  }

  lemma StockKept(players: Players, a: Activity, after: Players, b: Activity)
    requires Stock(players, a) && SameStockHeld(players, after)
    requires b.kind == a.kind && b.round == a.round && b.target == a.target && b.leaves == a.leaves
    requires CountOrders(b.orders, WaitingIngredient) == CountOrders(a.orders, WaitingIngredient)
    requires a.kind == TeaDelivery ==> b.delivered == a.delivered
    ensures Stock(after, b)
  {
    assert Teas(after) == Teas(players);
  }

  lemma ClaimsKept(players: Players, a: Activity, after: Players, b: Activity)
    requires Claims(players, a) && SameOrdersHeld(players, after)
    requires b.round == a.round && |b.orders| == |a.orders|
    requires forall i :: 0 <= i < |a.orders| ==>
                           b.orders[i].id == a.orders[i].id && b.orders[i].claimedBy == a.orders[i].claimedBy
    ensures Claims(after, b)
  {
  }

  /** Changing the status of one order, within the rules for claims, keeps the shape. */
  lemma ShapeKept(a: Activity, b: Activity, i: nat)
    requires Shape(a) && i < |a.orders| && |b.orders| == |a.orders| && b.orders == a.orders[i := b.orders[i]]
    requires b.kind == a.kind && b.round == a.round && b.target == a.target && b.leaves == a.leaves
    requires b.orders[i].id == a.orders[i].id && b.orders[i].at == a.orders[i].at
    requires b.orders[i].recipe == a.orders[i].recipe
    requires b.orders[i].claimedBy.Some? <==> b.orders[i].status == Claimed
    requires b.orders[i].status != WaitingIngredient
    ensures Shape(b)
  {
    CountOrdersSet(a.orders, i, b.orders[i], WaitingIngredient);
  }

  lemma BalancedKept(players: Players, after: Players, a: Activity)
    requires Balanced(players, a) && SameStockHeld(players, after) && SameOrdersHeld(players, after)
    ensures Balanced(after, a)
  {
    if !TimedOut(a) {
      StockKept(players, a, after, a);
      ClaimsKept(players, a, after, a);
    }
  }

  // ----- interactions keep the balance -----

  /** A leaf that was still available is in nobody's hands, so it can be added to one. */
  lemma CollectHands(players: Players, a: Activity, pid: Uuid, i: nat, after: Players, b: Activity)
    requires Shape(a) && Stock(players, a) && pid in players && a.kind == CafeRush
    requires i < |a.leaves| && a.leaves[i].available
    requires after.Keys == players.Keys && after[pid].carriedRush == players[pid].carriedRush + [a.leaves[i].id]
    requires forall p :: p in players && p != pid ==> after[p].carriedRush == players[p].carriedRush
    requires b.round == a.round && b.leaves == a.leaves[i := a.leaves[i].(available := false)]
    ensures CarriedDistinct(after)
    ensures forall p, j :: p in after && 0 <= j < |after[p].carriedRush| ==> Taken(b, after[p].carriedRush[j])
  {
    CollectTaken(players, a, pid, i, after, b);
    assert CarriedDistinct(players);
    hide Taken, Shape, Stock;
  }

  lemma CollectTaken(players: Players, a: Activity, pid: Uuid, i: nat, after: Players, b: Activity)
    requires Shape(a) && Stock(players, a) && pid in players && a.kind == CafeRush
    requires i < |a.leaves| && a.leaves[i].available
    requires after.Keys == players.Keys && after[pid].carriedRush == players[pid].carriedRush + [a.leaves[i].id]
    requires forall p :: p in players && p != pid ==> after[p].carriedRush == players[p].carriedRush
    requires b.round == a.round && b.leaves == a.leaves[i := a.leaves[i].(available := false)]
    ensures forall p, j :: p in after && 0 <= j < |after[p].carriedRush| ==>
              && Taken(b, after[p].carriedRush[j])
              && (after[p].carriedRush[j] == a.leaves[i].id <==> p == pid && j == |players[pid].carriedRush|)
  {
    hide CarriedDistinct;
    forall p, j | p in after && 0 <= j < |after[p].carriedRush|
      ensures Taken(b, after[p].carriedRush[j])
      ensures after[p].carriedRush[j] == a.leaves[i].id <==> p == pid && j == |players[pid].carriedRush|
    {
      if p != pid || j < |players[pid].carriedRush| {
        assert after[p].carriedRush[j] == players[p].carriedRush[j];
        assert Taken(a, players[p].carriedRush[j]);
      }
    }
  }

  lemma CollectStock(players: Players, a: Activity, pid: Uuid, i: nat)
    requires Shape(a) && Stock(players, a) && pid in players && a.kind != TableService && a.phase == Active
    requires i < |a.leaves| && a.leaves[i].available
    requires InRange(players[pid].pose, a.leaves[i].at, INTERACTION_RADIUS)
    ensures var o := Collect(players, a, pid, i); Stock(o.players, o.activity)
  {
    var o := Collect(players, a, pid, i);
    assert CountLeaves(o.activity.leaves) + 1 == CountLeaves(a.leaves) by {
      CountLeavesSet(a.leaves, i, a.leaves[i].(available := false));
    }
    assert players[pid].carriedTea <= 6 by {
      SumAtLeast(Teas(players), pid);
      assert Teas(players)[pid] <= Sum(Teas(players));
      CountOrdersTotal(a.orders);
    }
    assert Sum(Teas(o.players)) == Sum(Teas(players)) + 1 by {
      TeasSet(players, pid, o.players[pid]);
    }
    if a.kind == CafeRush {
      CollectHands(players, a, pid, i, o.players, o.activity);
    }
  }

  lemma CollectBalanced(players: Players, a: Activity, pid: Uuid, i: nat)
    requires Balanced(players, a) && pid in players && a.phase == Active && a.kind != TableService
    requires i < |a.leaves| && a.leaves[i].available
    ensures var o := Collect(players, a, pid, i); Balanced(o.players, o.activity)
  {
    var o := Collect(players, a, pid, i);
    if o.changed {
      assert Shape(o.activity) && Books(o.activity);
      hide Shape, Books;
      assert Claims(o.players, o.activity) by { ClaimsKept(players, a, o.players, o.activity); }
      hide Claims, Collect;
      CollectStock(players, a, pid, i);
      hide Stock;
    }
  }

  lemma DeliverTeaBalanced(players: Players, a: Activity, pid: Uuid, target: Target, now: int)
    requires Balanced(players, a) && pid in players && a.phase == Active && a.kind == TeaDelivery
    ensures var o := DeliverTea(players, a, pid, target, now); Balanced(o.players, o.activity)
  {
    var o := DeliverTea(players, a, pid, target, now);
    if o.changed {
      SumAtLeast(Teas(players), pid);
      assert players[pid].carriedTea <= Sum(Teas(players));
      assert Shape(o.activity) && Books(o.activity);
      hide Shape, Books;
      assert Claims(o.players, o.activity) by {
        hide Stock;
        ClaimsKept(players, a, o.players, o.activity);
      }
      hide Claims;
      TeasSet(players, pid, o.players[pid]);
    }
  }

  /** Giving an order to an empty-handed player keeps claims and hands in step. */
  lemma ClaimClaims(players: Players, a: Activity, pid: Uuid, i: nat, say: Dialogue)
    requires Shape(a) && Claims(players, a) && pid in players && a.phase == Active
    requires i < |a.orders| && a.orders[i].status == Available && players[pid].carriedOrder.None?
    ensures var o := Claim(players, a, pid, i, say); Claims(o.players, o.activity)
  {
    var o := Claim(players, a, pid, i, say);
    var b := o.activity;
    forall j, p | 0 <= j < |b.orders|
      ensures b.orders[j].claimedBy == Some(p) <==>
              p in o.players && o.players[p].carriedOrder == Some(b.orders[j].id)
    {
      assert a.orders[i].claimedBy != Some(p);
      assert a.orders[j].claimedBy == Some(p) <==>
             p in players && players[p].carriedOrder == Some(a.orders[j].id);
    }
  }

  lemma ClaimBalanced(players: Players, a: Activity, pid: Uuid, i: nat, say: Dialogue)
    requires Balanced(players, a) && pid in players && a.phase == Active
    requires i < |a.orders| && a.orders[i].status == Available && players[pid].carriedOrder.None?
    ensures var o := Claim(players, a, pid, i, say); Balanced(o.players, o.activity)
  {
    hide Stock, Claims, Shape;
    var o := Claim(players, a, pid, i, say);
    assert Shape(o.activity) by { ShapeKept(a, o.activity, i); }
    assert Books(o.activity) by { CountOrdersSet(a.orders, i, o.activity.orders[i], Served); }
    assert Claims(o.players, o.activity) by { ClaimClaims(players, a, pid, i, say); }
    assert Stock(o.players, o.activity) by {
      CountOrdersSet(a.orders, i, o.activity.orders[i], WaitingIngredient);
      StockKept(players, a, o.players, o.activity);
    }
  }

  /** Handing over the last carried leaf leaves the others as they were. */
  lemma PrepareHands(players: Players, a: Activity, pid: Uuid, after: Players, b: Activity)
    requires CarriedDistinct(players) && pid in players && players[pid].carriedRush != []
    requires forall p, i :: p in players && 0 <= i < |players[p].carriedRush| ==> Taken(a, players[p].carriedRush[i])
    requires after.Keys == players.Keys
    requires after[pid].carriedRush == players[pid].carriedRush[..|players[pid].carriedRush| - 1]
    requires forall p :: p in players && p != pid ==> after[p].carriedRush == players[p].carriedRush
    requires b.round == a.round && b.leaves == a.leaves
    ensures CarriedDistinct(after)
    ensures forall p, i :: p in after && 0 <= i < |after[p].carriedRush| ==> Taken(b, after[p].carriedRush[i])
  {
    forall p, i | p in after && 0 <= i < |after[p].carriedRush|
      ensures i < |players[p].carriedRush| && after[p].carriedRush[i] == players[p].carriedRush[i]
      ensures Taken(b, after[p].carriedRush[i])
    {
      assert Taken(a, players[p].carriedRush[i]);
    }
  }

  lemma PrepareStock(players: Players, a: Activity, pid: Uuid, i: nat)
    requires Shape(a) && Stock(players, a) && pid in players && a.kind == CafeRush && a.phase == Active
    requires i < |a.orders| && a.orders[i].status == WaitingIngredient && players[pid].carriedRush != []
    ensures var o := Prepare(players, a, pid, i); Stock(o.players, o.activity)
  {
    var o := Prepare(players, a, pid, i);
    assert players[pid].carriedTea == |players[pid].carriedRush|;
    PrepareHands(players, a, pid, o.players, o.activity);
    PrepareCounts(players, a, pid, i, o.players[pid], o.activity);
  }

  lemma PrepareCounts(players: Players, a: Activity, pid: Uuid, i: nat, player: Player, b: Activity)
    requires pid in players && i < |a.orders| && a.orders[i].status == WaitingIngredient
    requires player.carriedTea + 1 == players[pid].carriedTea
    requires b.leaves == a.leaves && b.orders == a.orders[i := a.orders[i].(status := Available)]
    ensures CountOrders(b.orders, WaitingIngredient) + 1 == CountOrders(a.orders, WaitingIngredient)
    ensures Sum(Teas(players[pid := player])) + 1 == Sum(Teas(players))
  {
    CountOrdersSet(a.orders, i, b.orders[i], WaitingIngredient);
    TeasSet(players, pid, player);
  }

  lemma PrepareBalanced(players: Players, a: Activity, pid: Uuid, i: nat)
    requires Balanced(players, a) && pid in players && a.phase == Active && a.kind == CafeRush
    requires i < |a.orders| && a.orders[i].status == WaitingIngredient && players[pid].carriedRush != []
    ensures var o := Prepare(players, a, pid, i); Balanced(o.players, o.activity)
  {
    hide CarriedDistinct;
    var o := Prepare(players, a, pid, i);
    assert Shape(o.activity) by { ShapeKept(a, o.activity, i); }
    assert Books(o.activity) by { CountOrdersSet(a.orders, i, o.activity.orders[i], Served); }
    assert Stock(o.players, o.activity) by { PrepareStock(players, a, pid, i); }
    assert Claims(o.players, o.activity) by { ClaimsKept(players, a, o.players, o.activity); }
  }

  lemma ServeClaims(players: Players, a: Activity, pid: Uuid, i: nat, after: Players, b: Activity)
    requires Shape(a) && Claims(players, a) && pid in players && i < |a.orders|
    requires a.orders[i].claimedBy == Some(pid) && players[pid].carriedOrder == Some(a.orders[i].id)
    requires after == players[pid := players[pid].(carriedOrder := None)]
    requires b.round == a.round && |b.orders| == |a.orders| && b.orders == a.orders[i := b.orders[i]]
    requires b.orders[i].id == a.orders[i].id && b.orders[i].claimedBy.None?
    ensures Claims(after, b)
  {
    forall j, p | 0 <= j < |b.orders|
      ensures b.orders[j].claimedBy == Some(p) <==> p in after && after[p].carriedOrder == Some(b.orders[j].id)
    {
      assert a.orders[j].claimedBy == Some(p) <==>
             p in players && players[p].carriedOrder == Some(a.orders[j].id);
      assert a.orders[i].claimedBy == Some(p) <==>
             p in players && players[p].carriedOrder == Some(a.orders[i].id);
      assert b.orders[j].id == a.orders[j].id;
    }
  }

  lemma ServedBalanced(players: Players, a: Activity, pid: Uuid, i: nat, after: Players, b: Activity)
    requires Balanced(players, a) && pid in players && i < |a.orders| && a.phase == Active && a.kind != TeaDelivery
    requires a.orders[i].claimedBy == Some(pid) && players[pid].carriedOrder == Some(a.orders[i].id)
    requires after == players[pid := players[pid].(carriedOrder := None)]
    requires b.kind == a.kind && b.round == a.round && b.target == a.target && b.leaves == a.leaves
    requires b.orders == a.orders[i := a.orders[i].(status := Served, claimedBy := None)]
    requires b.delivered == Min(SaturatingAdd8(a.delivered, 1), a.target)
    requires b.completed <==> b.delivered >= a.target
    requires b.phase == if b.completed then Intermission else Active
    ensures Balanced(after, b)
  {
    hide Stock, Claims;
    assert Shape(b) by { ShapeKept(a, b, i); }
    assert Claims(after, b) by { ServeClaims(players, a, pid, i, after, b); }
    assert Stock(after, b) by {
      CountOrdersSet(a.orders, i, b.orders[i], WaitingIngredient);
      StockKept(players, a, after, b);
    }
    assert Books(b) by {
      CountOrdersSet(a.orders, i, b.orders[i], Served);
      CountOrdersTotal(b.orders);
    }
  }

  lemma ServeBalanced(players: Players, a: Activity, pid: Uuid, target: Target, now: int)
    requires Balanced(players, a) && pid in players && a.phase == Active && a.kind != TeaDelivery
    ensures var o := Serve(players, a, pid, target, now); Balanced(o.players, o.activity)
  {
    var o := Serve(players, a, pid, target, now);
    if o.changed {
      ServedBalanced(players, a, pid, OrderIndex(a.orders, target).value, o.players, o.activity);
    }
  }

  lemma ActTableServiceBalanced(players: Players, a: Activity, pid: Uuid, target: Target, now: int)
    requires Balanced(players, a) && pid in players && a.phase == Active && a.kind == TableService
    ensures var o := ActTableService(players, a, pid, target, now); Balanced(o.players, o.activity)
  {
    var available := FirstWithStatus(a.orders, Available);
    if target != CounterTarget {
      ServeBalanced(players, a, pid, target, now);
    } else if players[pid].carriedOrder.None? && available.Some? {
      ClaimBalanced(players, a, pid, available.value, ServicePickedUp);
    }
  }

  lemma ActCafeRushBalanced(players: Players, a: Activity, pid: Uuid, target: Target, now: int)
    requires Balanced(players, a) && pid in players && a.phase == Active && a.kind == CafeRush
    ensures var o := ActCafeRush(players, a, pid, target, now); Balanced(o.players, o.activity)
  {
    hide Balanced, Serve, Prepare, Claim;
    var waiting := FirstWithStatus(a.orders, WaitingIngredient);
    var available := FirstWithStatus(a.orders, Available);
    if target != CounterTarget {
      ServeBalanced(players, a, pid, target, now);
    } else if players[pid].carriedOrder.Some? {
    } else if players[pid].carriedRush != [] && waiting.Some? {
      PrepareBalanced(players, a, pid, waiting.value);
    } else if available.Some? {
      ClaimBalanced(players, a, pid, available.value, RushOrderPickedUp);
    }
  }

  lemma ActBalanced(players: Players, a: Activity, pid: Uuid, target: Target, now: int)
    requires Balanced(players, a) && pid in players
    ensures var o := Act(players, a, pid, target, now); Balanced(o.players, o.activity)
  {
    if a.phase == Active {
      var leaf := AvailableLeafIndex(a.leaves, target);
      if a.kind == TableService {
        ActTableServiceBalanced(players, a, pid, target, now);
      } else if leaf.Some? {
        CollectBalanced(players, a, pid, leaf.value);
      } else if a.kind == TeaDelivery {
        DeliverTeaBalanced(players, a, pid, target, now);
      } else {
        ActCafeRushBalanced(players, a, pid, target, now);
      }
    }
  }

  // ----- departures, arrivals and round changes keep the balance -----

  /** Returning distinct taken leaves makes exactly those available again. */
  lemma {:induction false} ReturnLeavesEffect(leaves: seq<Leaf>, ids: seq<Target>, round: nat)
    requires forall k :: 0 <= k < |leaves| ==> leaves[k].id == TeaId(round, k + 1)
    requires forall j :: 0 <= j < |ids| ==>
               && ids[j].TeaId? && ids[j].round == round && 1 <= ids[j].index <= |leaves|
               && !leaves[ids[j].index - 1].available
    requires forall i, j :: 0 <= i < |ids| && 0 <= j < |ids| && ids[i] == ids[j] ==> i == j
    ensures var r := ReturnLeaves(leaves, ids);
            && |r| == |leaves|
            && CountLeaves(r) == CountLeaves(leaves) + |ids|
            && forall k :: 0 <= k < |leaves| ==>
                 && r[k].id == leaves[k].id && r[k].at == leaves[k].at
                 && (r[k].available <==> leaves[k].available || leaves[k].id in ids)
    decreases ids
  {
    if ids != [] {
      var i := ids[0].index - 1;
      var next := leaves[i := leaves[i].(available := true)];
      assert ReturnLeaves(leaves, ids) == ReturnLeaves(next, ids[1..]) by {
        assert LeafIndex(leaves, ids[0]) == Some(i);
      }
      CountLeavesSet(leaves, i, leaves[i].(available := true));
      RestStillTaken(leaves, ids, i);
      ReturnLeavesEffect(next, ids[1..], round);
      hide ReturnLeaves, CountLeaves;
      assert forall id :: id in ids <==> id == ids[0] || id in ids[1..];
      assert next[i].id == ids[0] && forall k :: 0 <= k < |leaves| && k != i ==> leaves[k].id != ids[0];
    }
  }

  lemma RestStillTaken(leaves: seq<Leaf>, ids: seq<Target>, i: nat)
    requires ids != [] && i < |leaves| && ids[0].TeaId? && ids[0].index == i + 1
    requires forall j :: 0 <= j < |ids| ==>
               && ids[j].TeaId? && ids[j].round == ids[0].round && 1 <= ids[j].index <= |leaves|
               && !leaves[ids[j].index - 1].available
    requires forall i, j :: 0 <= i < |ids| && 0 <= j < |ids| && ids[i] == ids[j] ==> i == j
    ensures var next := leaves[i := leaves[i].(available := true)];
            forall j :: 0 <= j < |ids[1..]| ==>
              && ids[1..][j].TeaId? && ids[1..][j].round == ids[0].round && 1 <= ids[1..][j].index <= |next|
              && !next[ids[1..][j].index - 1].available
  {
    forall j | 0 <= j < |ids[1..]|
      ensures ids[1..][j] == ids[j + 1] && ids[j + 1].index != i + 1
    {
      assert ids[j + 1] != ids[0];
    }
  }

  lemma DepartLeaves(players: Players, a: Activity, pid: Uuid)
    requires Shape(a) && Stock(players, a) && pid in players
    ensures var b := Depart(a, players[pid], pid);
            && |b.leaves| == |a.leaves|
            && CountLeaves(b.leaves) == CountLeaves(a.leaves) + |players[pid].carriedRush|
            && (forall k :: 0 <= k < |a.leaves| ==>
                  b.leaves[k].id == a.leaves[k].id && b.leaves[k].at == a.leaves[k].at)
            && (forall k :: 0 <= k < |a.leaves| ==>
                  (b.leaves[k].available <==> a.leaves[k].available || a.leaves[k].id in players[pid].carriedRush))
  {
    if a.kind == CafeRush {
      ReturnLeavesEffect(a.leaves, players[pid].carriedRush, a.round);
    }
  }

  lemma DepartOrders(players: Players, a: Activity, pid: Uuid)
    requires Shape(a) && Claims(players, a) && pid in players
    ensures var b := Depart(a, players[pid], pid);
            && Claims(players - {pid}, b) && Shape(b.(leaves := a.leaves))
            && (forall s :: s != Claimed && s != Available ==> CountOrders(b.orders, s) == CountOrders(a.orders, s))
  {
    var b := Depart(a, players[pid], pid);
    if players[pid].carriedOrder.Some? {
      var i := CarriedIndex(players, a, pid);
      assert b.orders == a.orders[i := a.orders[i].(status := Available, claimedBy := None)];
      hide Depart;
      forall s | s != Claimed && s != Available
        ensures CountOrders(b.orders, s) == CountOrders(a.orders, s)
      {
        CountOrdersSet(a.orders, i, b.orders[i], s);
      }
      DepartClaims(players, a, pid, i, b);
      hide Claims;
      ShapeKept(a, b.(leaves := a.leaves), i);
    }
  }

  /** Where the order is that a player carries. */
  lemma CarriedIndex(players: Players, a: Activity, pid: Uuid) returns (i: nat)
    requires Shape(a) && Claims(players, a) && pid in players && players[pid].carriedOrder.Some?
    ensures i < |a.orders| && players[pid].carriedOrder == Some(a.orders[i].id) && a.orders[i].status == Claimed
    ensures ClaimedIndex(a.orders, a.orders[i].id, pid) == Some(i)
  {
    var id := players[pid].carriedOrder.value;
    assert CarriesKnownOrder(id, a);
    i := id.index - 1;
    assert a.orders[i].id == id;
    assert a.orders[i].claimedBy == Some(pid);
  }

  lemma DepartClaims(players: Players, a: Activity, pid: Uuid, i: nat, b: Activity)
    requires Shape(a) && Claims(players, a) && pid in players && i < |a.orders|
    requires players[pid].carriedOrder == Some(a.orders[i].id)
    requires b.round == a.round && b.orders == a.orders[i := a.orders[i].(status := Available, claimedBy := None)]
    ensures Claims(players - {pid}, b)
  {
    forall j, p | 0 <= j < |b.orders|
      ensures b.orders[j].claimedBy == Some(p) <==>
              p in players - {pid} && players[p].carriedOrder == Some(b.orders[j].id)
    {
      assert a.orders[j].claimedBy == Some(p) <==>
             p in players && players[p].carriedOrder == Some(a.orders[j].id);
      assert a.orders[i].claimedBy == Some(p) <==>
             p in players && players[p].carriedOrder == Some(a.orders[i].id);
      assert a.orders[i].claimedBy == Some(pid);
      assert b.orders[j].id == a.orders[j].id;
    }
  }

  lemma DepartTeas(players: Players, pid: Uuid)
    requires pid in players
    ensures Sum(Teas(players)) == players[pid].carriedTea + Sum(Teas(players - {pid}))
  {
    SumRemove(Teas(players), pid);
    assert Teas(players - {pid}) == Teas(players) - {pid};
  }

  lemma DepartStock(players: Players, a: Activity, pid: Uuid)
    requires Shape(a) && Claims(players, a) && Stock(players, a) && pid in players
    ensures Stock(players - {pid}, Depart(a, players[pid], pid))
  {
    hide Shape, Claims, Stock, Depart;
    DepartLeaves(players, a, pid);
    DepartOrders(players, a, pid);
    DepartKeepsKind(a, players[pid], pid);
    StockWithout(players, a, pid, Depart(a, players[pid], pid));
  }

  lemma DepartKeepsKind(a: Activity, player: Player, pid: Uuid)
    ensures var b := Depart(a, player, pid);
            b.kind == a.kind && b.round == a.round && b.target == a.target && b.delivered == a.delivered
  {
    hide ReturnLeaves, ReleaseOrder;
  }

  /** What a departing player held is back on the leaves, or gone with its tea. */
  lemma StockWithout(players: Players, a: Activity, pid: Uuid, b: Activity)
    requires Shape(a) && Stock(players, a) && pid in players && |b.leaves| == |a.leaves|
    requires b.kind == a.kind && b.round == a.round && b.target == a.target && b.delivered == a.delivered
    requires CountOrders(b.orders, WaitingIngredient) == CountOrders(a.orders, WaitingIngredient)
    requires CountLeaves(b.leaves) == CountLeaves(a.leaves) + |players[pid].carriedRush|
    requires forall k :: 0 <= k < |a.leaves| && b.leaves[k].available ==>
                           a.leaves[k].available || a.leaves[k].id in players[pid].carriedRush
    ensures Stock(players - {pid}, b)
  {
    hide Taken, CarriedDistinct;
    DepartTeas(players, pid);
    if a.kind == CafeRush {
      StillDistinct(players, pid);
      StillTaken(players, a, pid, b);
    }
    hide Shape;
  }

  lemma StillDistinct(players: Players, pid: Uuid)
    requires CarriedDistinct(players)
    ensures CarriedDistinct(players - {pid})
  {
  }

  /** The leaves that the others hold stay taken. */
  lemma StillTaken(players: Players, a: Activity, pid: Uuid, b: Activity)
    requires Shape(a) && CarriedDistinct(players) && pid in players && b.round == a.round && |b.leaves| == |a.leaves|
    requires forall p, i :: p in players && 0 <= i < |players[p].carriedRush| ==> Taken(a, players[p].carriedRush[i])
    requires forall k :: 0 <= k < |a.leaves| && b.leaves[k].available ==>
                           a.leaves[k].available || a.leaves[k].id in players[pid].carriedRush
    ensures forall p, i :: p in players - {pid} && 0 <= i < |players[p].carriedRush| ==>
                             Taken(b, players[p].carriedRush[i])
  {
    forall p, i | p in players - {pid} && 0 <= i < |players[p].carriedRush|
      ensures Taken(b, players[p].carriedRush[i])
    {
      assert Taken(a, players[p].carriedRush[i]);
      var k := players[p].carriedRush[i].index - 1;
      assert a.leaves[k].id == players[p].carriedRush[i];
      assert a.leaves[k].id !in players[pid].carriedRush;
    }
  }

  lemma DepartEmptyHanded(a: Activity, player: Player, pid: Uuid)
    requires HandsEmpty(player)
    ensures Depart(a, player, pid) == a
  {
  }

  lemma DepartBalanced(players: Players, a: Activity, pid: Uuid)
    requires Balanced(players, a) && pid in players
    ensures Balanced(players - {pid}, Depart(a, players[pid], pid))
  {
    hide Stock, Claims, ReturnLeaves, ReleaseOrder;
    var b := Depart(a, players[pid], pid);
    if !TimedOut(a) {
      DepartLeaves(players, a, pid);
      DepartOrders(players, a, pid);
      assert Shape(b) && Books(b);
      hide Shape, Books;
      DepartStock(players, a, pid);
    } else {
      DepartEmptyHanded(a, players[pid], pid);
    }
  }

  lemma ArrivalBalanced(players: Players, a: Activity, pid: Uuid, player: Player)
    requires Balanced(players, a) && pid !in players && HandsEmpty(player)
    ensures Balanced(players[pid := player], a)
  {
    if !TimedOut(a) {
      hide Shape, Books;
      assert Claims(players[pid := player], a) by {
        hide Stock;
        ArrivalClaims(players, a, pid, player);
      }
      hide Claims;
      TeasSet(players, pid, player);
    }
  }

  lemma ArrivalClaims(players: Players, a: Activity, pid: Uuid, player: Player)
    requires Claims(players, a) && pid !in players && player.carriedOrder.None?
    ensures Claims(players[pid := player], a)
  {
    forall i, p | 0 <= i < |a.orders|
      ensures a.orders[i].claimedBy == Some(p) <==>
              p in players[pid := player] && players[pid := player][p].carriedOrder == Some(a.orders[i].id)
    {
      assert a.orders[i].claimedBy == Some(p) <==>
             p in players && players[p].carriedOrder == Some(a.orders[i].id);
    }
  }

  /** Only the first of the tea layouts is ever used: tea rounds are rounds 1, 4, 7 and so on. */
  lemma TeaLayoutNeverRotates(round: nat, playerCount: nat, now: int)
    requires round >= 1 && KindOf(round) == TeaDelivery
    ensures ForRound(round, playerCount, now).leaves == FreshLeaves(round, TEA_LAYOUTS[0])
  {
    assert SaturatingSub(round, 1) % 3 == 0;
  }

  lemma TeaRoundShape(round: nat, playerCount: nat, now: int)
    requires round >= 1 && KindOf(round) == TeaDelivery
    ensures Shape(ForRound(round, playerCount, now)) && Books(ForRound(round, playerCount, now))
  {
    TeaLayoutNeverRotates(round, playerCount, now);
  }

  lemma OrderRoundShape(round: nat, playerCount: nat, now: int)
    requires round >= 1 && KindOf(round) != TeaDelivery
    ensures var a := ForRound(round, playerCount, now);
            && Shape(a) && Books(a)
            && (a.kind == CafeRush ==> CountOrders(a.orders, WaitingIngredient) == a.target)
  {
    if KindOf(round) == CafeRush {
      RushRoundShape(round, playerCount, now);
    } else {
      TableRoundShape(round, playerCount, now);
    }
    hide ForRound, Shape, Books;
  }

  lemma TableRoundShape(round: nat, playerCount: nat, now: int)
    requires round >= 1 && KindOf(round) == TableService
    ensures var a := ForRound(round, playerCount, now); Shape(a) && Books(a) && a.kind == TableService
  {
    CountOrdersAll(ForRound(round, playerCount, now).orders, Available);
  }

  lemma RushRoundShape(round: nat, playerCount: nat, now: int)
    requires round >= 1 && KindOf(round) == CafeRush
    ensures var a := ForRound(round, playerCount, now);
            Shape(a) && Books(a) && CountOrders(a.orders, WaitingIngredient) == a.target
  {
    var target := CafeRushTarget(playerCount);
    CountOrdersAll(FreshOrders(round, CAFE_RUSH_ORDERS[..target], WaitingIngredient), WaitingIngredient);
  }

  lemma ForRoundShape(round: nat, playerCount: nat, now: int)
    requires round >= 1
    ensures var a := ForRound(round, playerCount, now);
            && Shape(a) && Books(a)
            && CountLeaves(a.leaves) == |a.leaves|
            && (a.kind == CafeRush ==> CountOrders(a.orders, WaitingIngredient) == a.target)
  {
    hide Shape, Books;
    if KindOf(round) == TeaDelivery {
      TeaRoundShape(round, playerCount, now);
    } else {
      OrderRoundShape(round, playerCount, now);
    }
    CountLeavesAll(ForRound(round, playerCount, now).leaves);
  }

  lemma NoClaimsInEmptyHands(players: Players, a: Activity)
    requires forall p :: p in players ==> HandsEmpty(players[p])
    requires forall i :: 0 <= i < |a.orders| ==> a.orders[i].claimedBy.None?
    ensures Claims(players, a)
  {
  }

  lemma ForRoundBalanced(players: Players, round: nat, playerCount: nat, now: int)
    requires round >= 1
    ensures Balanced(AllHandsEmptied(players), ForRound(round, playerCount, now))
  {
    var a := ForRound(round, playerCount, now);
    var emptied := AllHandsEmptied(players);
    ForRoundShape(round, playerCount, now);
    NoClaimsInEmptyHands(emptied, a);
    SumZero(Teas(emptied));
  }

  lemma ExpiredBalanced(players: Players, a: Activity, now: int)
    requires Balanced(players, a) && a.phase == Active && a.kind == CafeRush
    ensures Balanced(AllHandsEmptied(players), Expired(a, now))
  {
  }

  // ----- what the invariant says to a reader -----

  /** No two players carry the same order, and no order in hand is unclaimed. */
  lemma OneCarrierPerOrder(players: Players, a: Activity, p: Uuid, q: Uuid)
    requires Balanced(players, a) && p in players && q in players
    requires players[p].carriedOrder.Some? && players[p].carriedOrder == players[q].carriedOrder
    ensures p == q
    ensures var k := players[p].carriedOrder.value.index - 1;
            0 <= k < |a.orders| && a.orders[k].status == Claimed && a.orders[k].claimedBy == Some(p)
  {
    var id := players[p].carriedOrder.value;
    assert CarriesKnownOrder(id, a);
    var k := id.index - 1;
    assert a.orders[k].id == id;
    assert a.orders[k].claimedBy == Some(p) && a.orders[k].claimedBy == Some(q);
  }

  /** The saturating addition and `min(target)` never bite: a hand-over in a tea
      round raises `delivered` by exactly the tea that leaves the player's hands. */
  lemma TeaNeverClipped(players: Players, a: Activity, pid: Uuid, target: Target, now: int)
    requires Balanced(players, a) && pid in players && a.phase == Active && a.kind == TeaDelivery
    ensures var o := DeliverTea(players, a, pid, target, now);
            o.activity.delivered + o.players[pid].carriedTea == a.delivered + players[pid].carriedTea
  {
    SumAtLeast(Teas(players), pid);
    assert players[pid].carriedTea <= Sum(Teas(players));
  }
}
