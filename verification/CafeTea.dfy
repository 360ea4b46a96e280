/**
 The tea of a tea round: interactions move it, a departure takes some of it away, and the round can
 be brought on exactly while a leaf or carried tea is left.
 */
module CafeTea {
  import opened Basics
  import opened MapSums
  import opened CafeModel
  import opened CafeFloor
  import opened CafeInventory
  import opened CafeProgress

  // ----- the tea in the round -----

  /** Tea on the leaves, in hands and delivered. */
  ghost function TeaSum(players: Players, a: Activity): nat {
    CountLeaves(a.leaves) + Sum(Teas(players)) + a.delivered
  }

  lemma CollectKeepsTea(players: Players, a: Activity, pid: Uuid, i: nat)
    requires Balanced(players, a) && pid in players && a.phase == Active && a.kind == TeaDelivery
    requires i < |a.leaves| && a.leaves[i].available
    ensures var o := Collect(players, a, pid, i); TeaSum(o.players, o.activity) == TeaSum(players, a)
  {
    var o := Collect(players, a, pid, i);
    if o.changed {
      CountLeavesSet(a.leaves, i, a.leaves[i].(available := false));
      SumAtLeast(Teas(players), pid);
      assert players[pid].carriedTea <= Sum(Teas(players));
      TeasSet(players, pid, o.players[pid]);
    }
  }

  lemma DeliverKeepsTea(players: Players, a: Activity, pid: Uuid, target: Target, now: int)
    requires Balanced(players, a) && pid in players && a.phase == Active && a.kind == TeaDelivery
    ensures var o := DeliverTea(players, a, pid, target, now); TeaSum(o.players, o.activity) == TeaSum(players, a)
  {
    var o := DeliverTea(players, a, pid, target, now);
    if o.changed {
      TeaNeverClipped(players, a, pid, target, now);
      TeasSet(players, pid, o.players[pid]);
    }
  }

  /** Every interaction of a tea round keeps the tea. */
  lemma ActKeepsTea(players: Players, a: Activity, pid: Uuid, target: Target, now: int)
    requires Balanced(players, a) && pid in players && a.kind == TeaDelivery
    ensures var o := Act(players, a, pid, target, now); TeaSum(o.players, o.activity) == TeaSum(players, a)
  {
    if a.phase == Active {
      var leaf := AvailableLeafIndex(a.leaves, target);
      if leaf.Some? {
        CollectKeepsTea(players, a, pid, leaf.value);
      } else {
        DeliverKeepsTea(players, a, pid, target, now);
      }
    }
  }

  /** A departure takes away exactly the tea in the player's hands. */
  lemma DepartLosesTea(players: Players, a: Activity, pid: Uuid)
    requires Balanced(players, a) && pid in players && a.kind == TeaDelivery
    ensures TeaSum(players - {pid}, Depart(a, players[pid], pid)) + players[pid].carriedTea == TeaSum(players, a)
  {
    assert !TimedOut(a);
    DepartLeaves(players, a, pid);
    SumRemove(Teas(players), pid);
    assert Teas(players - {pid}) == Teas(players) - {pid};
  }

  // ----- what is left to do -----

  lemma TeaLeafReachable(i: nat) returns (spot: Pose)
    requires i < 3
    ensures Standable(spot.x, spot.y) && InRange(spot, TEA_LAYOUTS[0][i], INTERACTION_RADIUS)
  {
    spot := IngredientReachable(i);
    assert TEA_LAYOUTS[0][i] == CAFE_RUSH_INGREDIENTS[i];
  }

  lemma LeafEffective(players: Players, a: Activity, pid: Uuid, now: int) returns (spot: Pose, target: Target)
    requires Balanced(players, a) && a.phase == Active && a.kind == TeaDelivery && pid in players
    requires CountLeaves(a.leaves) > 0
    ensures EffectiveAt(players, a, pid, spot, target, now)
    ensures var o := Act(players[pid := players[pid].(pose := spot)], a, pid, target, now);
            CountLeaves(o.activity.leaves) + 1 == CountLeaves(a.leaves)
  {
    var i := CountLeavesPositive(a.leaves);
    target := a.leaves[i].id;
    spot := TeaLeafReachable(i);
    assert AvailableLeafIndex(a.leaves, target) == Some(i);
    CountLeavesSet(a.leaves, i, a.leaves[i].(available := false));
  }

  lemma TeaEffective(players: Players, a: Activity, pid: Uuid, now: int) returns (spot: Pose)
    requires Balanced(players, a) && a.phase == Active && a.kind == TeaDelivery && pid in players
    requires players[pid].carriedTea > 0
    ensures EffectiveAt(players, a, pid, spot, AikoTarget, now)
    ensures var o := Act(players[pid := players[pid].(pose := spot)], a, pid, AikoTarget, now);
            o.activity.leaves == a.leaves && o.activity.delivered == a.delivered + players[pid].carriedTea
  {
    spot := CounterReachable();
    var placed := players[pid := players[pid].(pose := spot)];
    assert AvailableLeafIndex(a.leaves, AikoTarget).None?;
    BalancedKept(players, placed, a);
    TeaNeverClipped(placed, a, pid, AikoTarget, now);
  }

  lemma NothingEffective(players: Players, a: Activity, pid: Uuid, spot: Pose, target: Target, now: int)
    requires Balanced(players, a) && a.phase == Active && a.kind == TeaDelivery && pid in players
    requires CountLeaves(a.leaves) == 0 && Sum(Teas(players)) == 0
    ensures !EffectiveAt(players, a, pid, spot, target, now)
  {
    SumAtLeast(Teas(players), pid);
    assert players[pid].carriedTea <= Sum(Teas(players));
    if AvailableLeafIndex(a.leaves, target).Some? {
      CountLeavesSet(a.leaves, AvailableLeafIndex(a.leaves, target).value,
                     a.leaves[AvailableLeafIndex(a.leaves, target).value].(available := false));
    }
  }

  /** In an active tea round some present player, suitably placed, has an interaction that changes the round if and only
      if a leaf or some carried tea is left. */
  lemma EffectiveExactly(players: Players, a: Activity, now: int)
    requires Balanced(players, a) && a.phase == Active && a.kind == TeaDelivery && players != map[]
    ensures (exists pid, spot, target :: pid in players && EffectiveAt(players, a, pid, spot, target, now))
       <==> CountLeaves(a.leaves) > 0 || Sum(Teas(players)) > 0
  {
    if CountLeaves(a.leaves) > 0 {
      var pid :| pid in players;
      var spot, target := LeafEffective(players, a, pid, now);
    } else if Sum(Teas(players)) > 0 {
      var pid := SumPositive(Teas(players));
      var spot := TeaEffective(players, a, pid, now);
    } else {
      forall pid, spot, target | pid in players ensures !EffectiveAt(players, a, pid, spot, target, now) {
        NothingEffective(players, a, pid, spot, target, now);
      }
    }
  }
}
