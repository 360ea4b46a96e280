/** Which interactions change a round, what they may touch, and how the combo of a rush is counted. */
module CafeReach {
  import opened Basics
  import opened CafeModel
  import opened CafeFloor
  import opened CafeInventory

  // ----- effective interactions -----

  predicate SomeOrder(a: Activity, status: OrderStatus) {
    exists i :: 0 <= i < |a.orders| && a.orders[i].status == status
  }

  /** What a player has to be near, and to hold, for a target to answer. */
  predicate Effective(a: Activity, player: Player, pid: Uuid, target: Target) {
    && a.phase == Active
    && match target
       case AikoTarget =>
         a.kind == TeaDelivery && InRange(player.pose, AIKO, HOST_INTERACTION_RADIUS) && player.carriedTea > 0
       case CounterTarget =>
         && a.kind != TeaDelivery && InRange(player.pose, SERVICE_COUNTER, HOST_INTERACTION_RADIUS)
         && player.carriedOrder.None?
         && (SomeOrder(a, Available)
             || (a.kind == CafeRush && player.carriedRush != [] && SomeOrder(a, WaitingIngredient)))
       case TeaId(round, k) =>
         && a.kind != TableService && round == a.round && 1 <= k <= |a.leaves|
         && a.leaves[k - 1].available && InRange(player.pose, a.leaves[k - 1].at, INTERACTION_RADIUS)
       case OrderId(round, k) =>
         && a.kind != TeaDelivery && round == a.round && 1 <= k <= |a.orders|
         && a.orders[k - 1].claimedBy == Some(pid) && InRange(player.pose, a.orders[k - 1].at, INTERACTION_RADIUS)
       case OtherTarget(_) => false
  }

  predicate OnlyTouches(before: Players, after: Players, pid: Uuid) {
    forall p :: p in before && p != pid ==> p in after && after[p] == before[p]
  }

  lemma LeafFoundExactly(a: Activity, target: Target)
    requires Shape(a)
    ensures var i := AvailableLeafIndex(a.leaves, target);
            && (i.Some? <==> target.TeaId? && target.round == a.round && 1 <= target.index <= |a.leaves|
                             && a.leaves[target.index - 1].available)
            && (i.Some? ==> i.value == target.index - 1)
  {
    if target.TeaId? && target.round == a.round && 1 <= target.index <= |a.leaves| {
      assert a.leaves[target.index - 1].id == target;
    }
  }

  lemma OrderFoundExactly(a: Activity, target: Target)
    requires Shape(a)
    ensures var i := OrderIndex(a.orders, target);
            && (i.Some? <==> target.OrderId? && target.round == a.round && 1 <= target.index <= |a.orders|)
            && (i.Some? ==> i.value == target.index - 1)
  {
    if target.OrderId? && target.round == a.round && 1 <= target.index <= |a.orders| {
      assert a.orders[target.index - 1].id == target;
    }
  }

  lemma ServeExactly(players: Players, a: Activity, pid: Uuid, target: Target, now: int)
    requires Shape(a) && Claims(players, a) && pid in players && a.phase == Active && a.kind != TeaDelivery
    requires target != CounterTarget && !AvailableLeafIndex(a.leaves, target).Some?
    ensures Serve(players, a, pid, target, now).changed <==> Effective(a, players[pid], pid, target)
  {
    hide ServeAt;
    OrderFoundExactly(a, target);
    LeafFoundExactly(a, target);
    ServeAtChanges(players, a, pid, target, now);
    if target.OrderId? && OrderIndex(a.orders, target).Some? {
      var i := OrderIndex(a.orders, target).value;
      assert a.orders[i].claimedBy == Some(pid) <==> players[pid].carriedOrder == Some(a.orders[i].id);
    }
  }

  lemma ServeAtChanges(players: Players, a: Activity, pid: Uuid, target: Target, now: int)
    requires pid in players
    ensures var i := OrderIndex(a.orders, target); i.Some? ==> ServeAt(players, a, pid, i.value, now).changed
  {
  }

  lemma CounterExactly(players: Players, a: Activity, pid: Uuid, now: int)
    requires pid in players && a.phase == Active && a.kind != TeaDelivery
    ensures (if a.kind == CafeRush then ActCafeRush(players, a, pid, CounterTarget, now)
             else ActTableService(players, a, pid, CounterTarget, now)).changed
       <==> Effective(a, players[pid], pid, CounterTarget)
  {
  }

  /** In a balanced room an interaction changes something exactly when its target answers, and it touches no
      other player. */
  lemma ChangedExactly(players: Players, a: Activity, pid: Uuid, target: Target, now: int)
    requires Balanced(players, a) && pid in players
    ensures var o := Act(players, a, pid, target, now);
            (o.changed <==> Effective(a, players[pid], pid, target)) && OnlyTouches(players, o.players, pid)
  {
    if a.phase == Active {
      assert Shape(a) && Claims(players, a);
      hide Balanced, Act, Shape, Claims, Effective;
      ChangedWhenActive(players, a, pid, target, now);
    }
  }

  lemma ChangedWhenActive(players: Players, a: Activity, pid: Uuid, target: Target, now: int)
    requires Shape(a) && Claims(players, a) && pid in players && a.phase == Active
    ensures var o := Act(players, a, pid, target, now);
            (o.changed <==> Effective(a, players[pid], pid, target)) && OnlyTouches(players, o.players, pid)
  {
    hide Serve, ActCafeRush, ActTableService, DeliverTea, Collect, Shape, Claims, InRange, OnlyTouches;
    LeafFoundExactly(a, target);
    LeafAndTea(players, a, pid, target, now);
    OthersUntouched(players, a, pid, target, now);
    TableHasNoLeaves(a);
    if a.kind != TeaDelivery {
      CounterExactly(players, a, pid, now);
      if target != CounterTarget {
        CounterOrServe(players, a, pid, target, now);
        if !AvailableLeafIndex(a.leaves, target).Some? { ServeExactly(players, a, pid, target, now); }
      }
    }
  }

  lemma TableHasNoLeaves(a: Activity)
    requires Shape(a)
    ensures a.kind == TableService ==> a.leaves == []
  {
  }

  lemma LeafAndTea(players: Players, a: Activity, pid: Uuid, target: Target, now: int)
    requires pid in players
    ensures var i := AvailableLeafIndex(a.leaves, target);
            i.Some? ==>
              && (Collect(players, a, pid, i.value).changed <==>
                    InRange(players[pid].pose, a.leaves[i.value].at, INTERACTION_RADIUS))
              && OnlyTouches(players, Collect(players, a, pid, i.value).players, pid)
    ensures DeliverTea(players, a, pid, target, now).changed <==>
              target == AikoTarget && InRange(players[pid].pose, AIKO, HOST_INTERACTION_RADIUS)
              && players[pid].carriedTea > 0
    ensures OnlyTouches(players, DeliverTea(players, a, pid, target, now).players, pid)
  {
    hide InRange;
  }

  lemma CounterOrServe(players: Players, a: Activity, pid: Uuid, target: Target, now: int)
    requires pid in players && target != CounterTarget
    ensures ActCafeRush(players, a, pid, target, now) == Serve(players, a, pid, target, now)
    ensures ActTableService(players, a, pid, target, now) == Serve(players, a, pid, target, now)
  {
    hide Serve;
  }

  lemma OthersUntouched(players: Players, a: Activity, pid: Uuid, target: Target, now: int)
    requires pid in players
    ensures OnlyTouches(players, Serve(players, a, pid, target, now).players, pid)
    ensures OnlyTouches(players, ActCafeRush(players, a, pid, target, now).players, pid)
    ensures OnlyTouches(players, ActTableService(players, a, pid, target, now).players, pid)
  {
    hide InRange;
  }

  // ----- combos -----

  /** `times[from..upTo]` leaves no gap beyond the combo window. */
  ghost predicate Streak(times: seq<int>, from: nat, upTo: nat)
    requires from <= upTo <= |times|
  {
    forall i :: from < i < upTo ==> times[i] - times[i - 1] <= CAFE_RUSH_COMBO_WINDOW_MS
  }

  ghost predicate LastStreak(times: seq<int>, length: nat) {
    && 0 < length <= |times| && Streak(times, |times| - length, |times|)
    && (length < |times| ==> !Streak(times, |times| - length - 1, |times|))
  }

  ghost predicate LongestStreak(times: seq<int>, length: nat) {
    && (exists from, upTo :: 0 <= from <= upTo <= |times| && upTo - from == length && Streak(times, from, upTo))
    && (forall from, upTo :: 0 <= from <= upTo <= |times| && Streak(times, from, upTo) ==> upTo - from <= length)
  }

  predicate Prompt(times: seq<int>)
    requires |times| > 1
  {
    times[|times| - 1] - times[|times| - 2] <= CAFE_RUSH_COMBO_WINDOW_MS
  }

  lemma StreakExtends(times: seq<int>, from: nat)
    requires from < |times| && |times| > 1
    ensures Streak(times, from, |times|) <==>
            Streak(times[..|times| - 1], from, |times| - 1) && (from < |times| - 1 ==> Prompt(times))
  {
    var n := |times|;
    var before := times[..n - 1];
    if Streak(before, from, n - 1) && (from < n - 1 ==> Prompt(times)) {
      forall i | from < i < n ensures times[i] - times[i - 1] <= CAFE_RUSH_COMBO_WINDOW_MS {
        if i < n - 1 { assert before[i] - before[i - 1] <= CAFE_RUSH_COMBO_WINDOW_MS; }
      }
    }
  }

  lemma EmptyStreak(times: seq<int>)
    ensures Streak(times, |times|, |times|)
  {
  }

  lemma LastStreakStep(times: seq<int>, previous: nat)
    requires |times| > 1 && LastStreak(times[..|times| - 1], previous)
    ensures LastStreak(times, if Prompt(times) then previous + 1 else 1)
  {
    hide Streak, Prompt;
    var n := |times|;
    StreakExtends(times, n - 1);
    StreakExtends(times, n - 2);
    EmptyStreak(times[..n - 1]);
    StreakExtends(times, n - 1 - previous);
    if previous + 1 < n { StreakExtends(times, n - previous - 2); }
  }

  lemma BrokenStays(times: seq<int>, from: nat, later: nat)
    requires from <= later <= |times| && !Streak(times, later, |times|)
    ensures !Streak(times, from, |times|)
  {
    var i :| later < i < |times| && times[i] - times[i - 1] > CAFE_RUSH_COMBO_WINDOW_MS;
  }

  lemma StreakOfPrefix(times: seq<int>, from: nat, upTo: nat)
    requires from <= upTo < |times|
    ensures Streak(times[..|times| - 1], from, upTo) <==> Streak(times, from, upTo)
  {
    var before := times[..|times| - 1];
    assert forall i :: 0 <= i < |before| ==> before[i] == times[i];
  }

  lemma LongestStreakStep(times: seq<int>, last: nat, longest: nat)
    requires |times| > 1 && LastStreak(times, last) && LongestStreak(times[..|times| - 1], longest)
    ensures LongestStreak(times, Max(longest, last))
  {
    hide Streak;
    var n := |times|;
    var before := times[..n - 1];
    var from, upTo :| 0 <= from <= upTo <= n - 1 && upTo - from == longest && Streak(before, from, upTo);
    StreakOfPrefix(times, from, upTo);
    forall f, u | 0 <= f <= u <= n && Streak(times, f, u) ensures u - f <= Max(longest, last) {
      if u < n {
        StreakOfPrefix(times, f, u);
      } else if f < n - last {
        BrokenStays(times, f, n - last - 1);
      }
    }
  }

  lemma OneServing(t: int)
    ensures LastStreak([t], 1) && LongestStreak([t], 1)
  {
    assert Streak([t], 0, 1);
  }
}
