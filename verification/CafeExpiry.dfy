/**
 An expired cafe rush empties all hands but leaves the orders as they were: claims and hands still
 agree exactly if no order was claimed.
 */
module CafeExpiry {
  import opened Basics
  import opened CafeModel
  import opened CafeFloor
  import opened CafeInventory
  import opened CafeProgress
  import opened CafeRooms
  import opened CafeWorld
  import opened CafeRounds
  import opened CafeRun
  import opened CafeStuck
  import opened CafePlay
  import opened CafeSequel

  lemma ExpiredClaimsExactly(players: Players, a: Activity, now: int)
    requires Balanced(players, a) && a.phase == Active && a.kind == CafeRush
    ensures Claims(AllHandsEmptied(players), Expired(a, now)) <==> CountOrders(a.orders, Claimed) == 0
  {
    var emptied, b := AllHandsEmptied(players), Expired(a, now);
    CountOrdersPositive(a.orders, Claimed);
    if CountOrders(a.orders, Claimed) > 0 {
      var i :| 0 <= i < |a.orders| && a.orders[i].status == Claimed;
      ClaimWithoutCarrier(emptied, b, i, a.orders[i].claimedBy.value);
    } else {
      NoClaimsInEmptyHands(emptied, b);
    }
  }

  lemma ClaimWithoutCarrier(players: Players, a: Activity, i: nat, p: Uuid)
    requires i < |a.orders| && a.orders[i].claimedBy == Some(p)
    requires p in players ==> players[p].carriedOrder.None?
    ensures !Claims(players, a)
  {
  }

  // ----- a run to a rush that expires with a claimed order -----

  /** A rush that is being played, with some order claimed. */
  ghost predicate ClaimedRush(w: World) {
    !w.gone && w.room.activity.kind == CafeRush && w.room.activity.phase == Active
    && CountOrders(w.room.activity.orders, Claimed) > 0
  }

  /** While nothing is claimed, the next effective interaction does not complete a rush. */
  lemma NotTheLastOne(w: World, v: World)
    requires Playing(w) && w.room.activity.kind == CafeRush && CountOrders(w.room.activity.orders, Claimed) == 0
    requires WorldInv(v) && Onward(w, v)
    ensures Playing(v) && v.room.activity.kind == CafeRush
  {
    InvBalanced(v);
    hide WorldInv;
    CompletedIffRankZero(w.room.players, w.room.activity);
    CountOrdersTotal(w.room.activity.orders);
    if v.room.activity.completed {
      CompletedIffRankZero(v.room.players, v.room.activity);
    }
    assert v.room.players != map[] by { KeysKept(w.room.players, v.room.players); }
  }

  /** Players who go on in a rush come to claim an order. */
  lemma {:induction false} ClaimSomething(w: World, from: Now) returns (es: seq<Event>, v: World, to: Now)
    requires WorldInv(w) && Playing(w) && w.room.activity.kind == CafeRush
    ensures Leads(w, from, es, v, to) && ClaimedRush(v) && v.room.activity.round == w.room.activity.round
    decreases Todo(w.room.activity)
  {
    hide WorldInv, Leads, Playable, Todo;
    if CountOrders(w.room.activity.orders, Claimed) > 0 {
      es, v, to := [], w, from;
      LeadsNowhere(w, from);
      assert ClaimedRush(w) by { PlayableIsActive(w); }
    } else {
      var pid, spot, target := SomebodyCan(w.room.players, w.room.activity);
      var u, at, rest;
      es, u, at := Errand(w, from, pid, spot, target);
      LeadsLegal(w, from, es, u, at);
      NotTheLastOne(w, u);
      rest, v, to := ClaimSomething(u, at);
      LeadsOn(w, from, es, u, at, rest, v, to);
      es := es + rest;
    }
  }

  lemma PlayableIsActive(w: World)
    requires Playable(w.room.players, w.room.activity)
    ensures w.room.activity.phase == Active
  {
  }

  /** The rush timer, which is pending, ends the rush and leaves its claims without carriers. */
  lemma ExpiryStrandsClaims(w: World, from: Now)
    requires WorldInv(w) && ClaimedRush(w) && w.room.activity.round < U32_MAX
    ensures var v := Run(w, NudgeEvents(w, from));
            && Leads(w, from, NudgeEvents(w, from), v, from)
            && TimedOut(v.room.activity) && !Claims(v.room.players, v.room.activity)
  {
    var es := NudgeEvents(w, from);
    InvBalanced(w);
    assert Rounds(w);
    NudgeLeads(w, from);
    NeverStuck(w, from);
    RunTwo(w, es[0], es[1]);
    ExpiredClaimsExactly(w.room.players, w.room.activity, from.millis);
    hide WorldInv, Rounds, Leads, Run, Claims;
    ExpiryLooks(w, from);
    BalancedPhase(w.room.players, w.room.activity);
  }

  lemma ExpiryLooks(w: World, from: Now)
    requires ClaimedRush(w)
    ensures var es := NudgeEvents(w, from);
            var v := Next(Next(w, es[0]), es[1]);
            v.room.activity.phase == Intermission ==>
              && v.room.players == AllHandsEmptied(w.room.players)
              && v.room.activity == Expired(w.room.activity, from.millis)
  {
    var r := w.room.activity.round;
    NextOfTimers(w, r, from);
    var u := Next(w, SpawnsRush(r));
    NextOfTimers(u, r, from);
    hide ExpireCafeRush, Next, Becomes, StartStep;
    if CanExpire(w.room, r) { ExpireFacts(w.room, r, from); }
  }

  /** From every new room a run leads to a rush that timed out while an order was claimed, so that the order stays
      claimed by a player with empty hands. */
  lemma ExpiryCanLeaveAClaim(code: string, isPrivate: bool, created: Now)
    returns (es: seq<Event>, v: World, to: Now)
    ensures Leads(NewWorld(code, isPrivate, created), created, es, v, to)
    ensures Legal(NewWorld(code, isPrivate, created), es) && Run(NewWorld(code, isPrivate, created), es) == v
    ensures TimedOut(v.room.activity) && !Claims(v.room.players, v.room.activity)
  {
    var w := NewWorld(code, isPrivate, created);
    NewWorldInv(code, isPrivate, created);
    FreshTea(map[], 1, 0, created.millis);
    assert AllHandsEmptied(map[]) == map[];
    assert Lively(w) && w.room.activity.round == 1;
    hide NewWorld, WorldInv, Leads, Claims, Playing, Run, Legal;
    var u, at, rest, p, on;
    es, u, at := GoesOn(w, created, 3);
    LeadsLegal(w, created, es, u, at);
    InThirdRound(u);
    rest, p, on := ClaimSomething(u, at);
    LeadsOn(w, created, es, u, at, rest, p, on);
    es := es + rest;
    LeadsLegal(w, created, es, p, on);
    ExpiryStrandsClaims(p, on);
    v, to := Run(p, NudgeEvents(p, on)), on;
    LeadsOn(w, created, es, p, on, NudgeEvents(p, on), v, to);
    es := es + NudgeEvents(p, on);
    LeadsLegal(w, created, es, v, to);
  }

  lemma InThirdRound(w: World)
    requires WorldInv(w) && w.room.activity.round == 3
    ensures w.room.activity.kind == CafeRush
  {
    InvBalanced(w);
    hide WorldInv;
    BalancedPhase(w.room.players, w.room.activity);
  }
}
