/**
 Combos over whole runs: in every reachable rush the combo is the length of the last streak of
 servings of the round, and the best combo that of the longest.
 */
module CafeServings {
  import opened Basics
  import opened CafeModel
  import opened CafeFloor
  import opened CafeInventory
  import opened CafeReach
  import opened CafeRooms
  import opened CafeWorld
  import opened CafeRun

  // ----- the servings of the present round -----

  function ServedCount(a: Activity): nat {
    CountOrders(a.orders, Served)
  }

  /** An interaction after which one more order is served. */
  predicate Serves(w: World, e: Event) {
    && e.Interacts? && w.room.activity.kind == CafeRush
    && ServedCount(Next(w, e).room.activity) > ServedCount(w.room.activity)
  }

  function ServingsAfter(w: World, times: seq<int>, e: Event): seq<int> {
    if Next(w, e).room.activity.round != w.room.activity.round then []
    else if Serves(w, e) then times + [e.now.millis]
    else times
  }

  /** The wall-clock times of the servings since the present round began. */
  function Servings(w: World, times: seq<int>, es: seq<Event>): seq<int>
    decreases es
  {
    if es == [] then times else Servings(Next(w, es[0]), ServingsAfter(w, times, es[0]), es[1..])
  }

  ghost predicate Combos(a: Activity, times: seq<int>) {
    if a.kind != CafeRush then times == []
    else
      && |times| == ServedCount(a)
      && if times == [] then a.combo == 0 == a.bestCombo && a.comboExpiresAt.None?
         else
           && LastStreak(times, a.combo) && LongestStreak(times, a.bestCombo)
           && (a.phase == Active ==> a.comboExpiresAt == Some(times[|times| - 1] + CAFE_RUSH_COMBO_WINDOW_MS))
  }

  // ----- one serving -----

  /** The same combo, and the same number of orders served. */
  ghost predicate SameCombo(a: Activity, b: Activity) {
    && b.kind == a.kind && b.round == a.round && b.phase == a.phase && ServedCount(b) == ServedCount(a)
    && b.combo == a.combo && b.bestCombo == a.bestCombo && b.comboExpiresAt == a.comboExpiresAt
  }

  ghost predicate OneMore(a: Activity, b: Activity, now: int) {
    && b.kind == a.kind && b.round == a.round && ServedCount(b) == ServedCount(a) + 1
    && b.combo == Timed(a, now).combo && b.bestCombo == Timed(a, now).bestCombo
    && (b.phase == Active ==> b.comboExpiresAt == Timed(a, now).comboExpiresAt)
  }

  lemma ServeCombo(players: Players, a: Activity, pid: Uuid, target: Target, now: int)
    requires pid in players && a.phase == Active && a.kind == CafeRush
    ensures var b := Serve(players, a, pid, target, now).activity; SameCombo(a, b) || OneMore(a, b, now)
  {
    var o := Serve(players, a, pid, target, now);
    if o.changed {
      var i := OrderIndex(a.orders, target).value;
      CountOrdersSet(a.orders, i, o.activity.orders[i], Served);
    }
  }

  lemma ClaimCombo(players: Players, a: Activity, pid: Uuid, i: nat, say: Dialogue)
    requires pid in players && i < |a.orders| && a.orders[i].status == Available
    ensures SameCombo(a, Claim(players, a, pid, i, say).activity)
  {
    CountOrdersSet(a.orders, i, Claim(players, a, pid, i, say).activity.orders[i], Served);
  }

  lemma PrepareCombo(players: Players, a: Activity, pid: Uuid, i: nat)
    requires pid in players && i < |a.orders| && players[pid].carriedRush != []
    requires a.orders[i].status == WaitingIngredient
    ensures SameCombo(a, Prepare(players, a, pid, i).activity)
  {
    CountOrdersSet(a.orders, i, Prepare(players, a, pid, i).activity.orders[i], Served);
  }

  lemma CollectCombo(players: Players, a: Activity, pid: Uuid, i: nat)
    requires pid in players && i < |a.leaves|
    ensures SameCombo(a, Collect(players, a, pid, i).activity)
  {
  }

  lemma ActCombo(players: Players, a: Activity, pid: Uuid, target: Target, now: int)
    requires pid in players && a.phase == Active && a.kind == CafeRush
    ensures var b := Act(players, a, pid, target, now).activity; SameCombo(a, b) || OneMore(a, b, now)
  {
    hide SameCombo, OneMore, Serve, Claim, Prepare, Collect;
    NothingServed(a);
    var leaf := AvailableLeafIndex(a.leaves, target);
    var waiting := FirstWithStatus(a.orders, WaitingIngredient);
    var available := FirstWithStatus(a.orders, Available);
    if leaf.Some? {
      CollectCombo(players, a, pid, leaf.value);
    } else if target != CounterTarget {
      ServeCombo(players, a, pid, target, now);
    } else {
      if players[pid].carriedRush != [] && waiting.Some? { PrepareCombo(players, a, pid, waiting.value); }
      if available.Some? { ClaimCombo(players, a, pid, available.value, RushOrderPickedUp); }
    }
  }

  lemma NothingServed(a: Activity)
    ensures SameCombo(a, a)
  {
  }

  /** Orders keep their rules: a rush has at most six. */
  lemma FewServings(players: Players, a: Activity)
    requires Balanced(players, a)
    ensures ServedCount(a) <= 6
  {
    CountOrdersTotal(a.orders);
  }

  lemma SameCombos(a: Activity, b: Activity, times: seq<int>)
    requires Combos(a, times) && SameCombo(a, b)
    ensures Combos(b, times)
  {
  }

  lemma OneMoreCombos(a: Activity, b: Activity, times: seq<int>, now: int)
    requires Combos(a, times) && OneMore(a, b, now) && a.kind == CafeRush && a.phase == Active && |times| <= 6
    ensures Combos(b, times + [now])
  {
    hide Streak, LongestStreak, ServedCount;
    var more := times + [now];
    if times == [] {
      assert more == [now];
      OneServing(now);
    } else {
      assert more[..|more| - 1] == times;
      LastStreakStep(more, a.combo);
      LongestStreakStep(more, if Prompt(more) then a.combo + 1 else 1, a.bestCombo);
    }
  }

  // ----- the events -----

  lemma InteractActivity(w: World, e: Event)
    requires Balanced(w.room.players, w.room.activity) && e.Interacts?
    ensures var a, b := w.room.activity, Next(w, e).room.activity;
            && b.round == a.round && b.kind == a.kind && (a.phase == Intermission ==> b == a)
            && (a.kind == CafeRush ==> b == a || SameCombo(a, b) || OneMore(a, b, e.now.millis))
  {
    hide Balanced, SameCombo, OneMore;
    if !w.gone && Owns(w.room, e.pid, e.connection) {
      var a := w.room.activity;
      ApplyFacts(w.room, Act(w.room.players, a, e.pid, e.target, e.now.millis));
      ActTidy(w.room.players, a, e.pid, e.target, e.now.millis);
      if a.kind == CafeRush && a.phase == Active { ActCombo(w.room.players, a, e.pid, e.target, e.now.millis); }
      hide Act, Apply;
    }
  }

  lemma InteractCombos(w: World, times: seq<int>, e: Event)
    requires Combos(w.room.activity, times) && Balanced(w.room.players, w.room.activity) && e.Interacts?
    ensures Combos(Next(w, e).room.activity, ServingsAfter(w, times, e))
  {
    hide Next, Balanced, Combos, ServedCount;
    var a, b := w.room.activity, Next(w, e).room.activity;
    FewServings(w.room.players, a);
    InteractActivity(w, e);
    NothingServed(a);
    if a.kind != CafeRush {
      NoCombos(a, b, times);
    } else if b == a || SameCombo(a, b) {
      SameCombos(a, b, times);
    } else {
      TimesOf(a, times);
      OneMoreCombos(a, b, times, e.now.millis);
    }
  }

  lemma TimesOf(a: Activity, times: seq<int>)
    requires Combos(a, times) && a.kind == CafeRush
    ensures |times| == ServedCount(a)
  {
  }

  lemma NoCombos(a: Activity, b: Activity, times: seq<int>)
    requires Combos(a, times) && a.kind != CafeRush && b.kind == a.kind
    ensures Combos(b, times)
  {
  }

  lemma DepartCombo(players: Players, a: Activity, pid: Uuid)
    requires Balanced(players, a) && pid in players
    ensures SameCombo(a, Depart(a, players[pid], pid))
  {
    if TimedOut(a) {
      DepartEmptyHanded(a, players[pid], pid);
    } else {
      DepartOrders(players, a, pid);
    }
  }

  lemma LeaveCombos(w: World, times: seq<int>, e: Event)
    requires Combos(w.room.activity, times) && Balanced(w.room.players, w.room.activity) && e.Leaves?
    ensures Combos(Next(w, e).room.activity, ServingsAfter(w, times, e))
  {
    if !w.gone && Owns(w.room, e.pid, e.connection) {
      LeaveFacts(w.room, e.pid, e.connection, e.now);
      DepartCombo(w.room.players, w.room.activity, e.pid);
      SameCombos(w.room.activity, Depart(w.room.activity, w.room.players[e.pid], e.pid), times);
      hide Leave, Combos, Balanced, Depart;
    }
  }

  lemma FreshCombos(round: nat, playerCount: nat, now: int)
    requires round >= 1
    ensures Combos(ForRound(round, playerCount, now), [])
  {
    var a := ForRound(round, playerCount, now);
    ForRoundBalanced(map[], round, playerCount, now);
    if a.orders != [] { CountOrdersAll(a.orders, a.orders[0].status); }
  }

  lemma StartCombos(w: World, times: seq<int>, e: Event)
    requires Combos(w.room.activity, times) && e.StartFires? && Enabled(w, e)
    ensures Combos(Next(w, e).room.activity, ServingsAfter(w, times, e))
  {
    if CanStart(w.room, e.round) {
      StartFacts(w.room, e.round, e.now);
      FreshCombos(NextRound(e.round), |w.room.players|, e.now.millis);
    }
    hide StartNextRound, ForRound, Combos;
    var v := Next(w, e);
    assert v.room == w.room || (CanStart(w.room, e.round) && v.room == StartNextRound(w.room, e.round, e.now));
    if CanStart(w.room, e.round) { RoundOf(NextRound(e.round), |w.room.players|, e.now.millis); }
  }

  lemma RoundOf(round: nat, playerCount: nat, now: int)
    ensures ForRound(round, playerCount, now).round == round
  {
  }

  lemma RushCombos(w: World, times: seq<int>, e: Event)
    requires Combos(w.room.activity, times) && e.RushFires?
    ensures Combos(Next(w, e).room.activity, ServingsAfter(w, times, e))
  {
    if CanExpire(w.room, e.round) { ExpireFacts(w.room, e.round, e.now); }
    hide ExpireCafeRush, LastStreak, LongestStreak;
  }

  lemma QuietCombos(w: World, times: seq<int>, e: Event)
    requires Combos(w.room.activity, times) && !e.Interacts? && Next(w, e).room.activity == w.room.activity
    ensures Combos(Next(w, e).room.activity, ServingsAfter(w, times, e))
  {
  }

  lemma ActivityStays(w: World, e: Event)
    requires !e.Interacts? && !e.Leaves? && !e.StartFires? && !e.RushFires?
    ensures Next(w, e).room.activity == w.room.activity
  {
    hide View, LastOf, Dressed, WithAvatar, MovedPose, Receive, Seated, Poses, TtlOver, SignalStop, Becomes, NewClient,
         FlushOutcome;
  }

  lemma StepCombos(w: World, times: seq<int>, e: Event)
    requires Combos(w.room.activity, times) && Balanced(w.room.players, w.room.activity) && Enabled(w, e)
    ensures Combos(Next(w, e).room.activity, ServingsAfter(w, times, e))
  {
    hide Next, Enabled, Combos, Balanced, ServingsAfter;
    match e {
      case Interacts(_, _, _, _) => InteractCombos(w, times, e);
      case Leaves(_, _, _) => LeaveCombos(w, times, e);
      case StartFires(_, _) => StartCombos(w, times, e);
      case RushFires(_, _) => RushCombos(w, times, e);
      case _ =>
        ActivityStays(w, e);
        QuietCombos(w, times, e);
    }
  }

  lemma {:induction false} RunCombos(w: World, times: seq<int>, es: seq<Event>)
    requires WorldInv(w) && Combos(w.room.activity, times) && Legal(w, es)
    ensures Combos(Run(w, es).room.activity, Servings(w, times, es))
    decreases es
  {
    hide WorldInv, Combos, Next, Enabled, ServingsAfter;
    if es != [] {
      InvBalanced(w);
      StepInv(w, es[0]);
      StepCombos(w, times, es[0]);
      hide Balanced;
      RunCombos(Next(w, es[0]), ServingsAfter(w, times, es[0]), es[1..]);
    }
  }

  /** After any run, a rush has delivered exactly the servings of its round; its combo is the length of their last
      streak and its best combo that of the longest, and both are zero before the first. */
  lemma ReachableCombos(code: string, isPrivate: bool, created: Now, es: seq<Event>)
    requires Legal(NewWorld(code, isPrivate, created), es)
    requires Run(NewWorld(code, isPrivate, created), es).room.activity.kind == CafeRush
    ensures var a := Run(NewWorld(code, isPrivate, created), es).room.activity;
            var times := Servings(NewWorld(code, isPrivate, created), [], es);
            && |times| == a.delivered
            && (if times == [] then a.combo == 0 == a.bestCombo
                else LastStreak(times, a.combo) && LongestStreak(times, a.bestCombo))
  {
    var w0 := NewWorld(code, isPrivate, created);
    var w := Run(w0, es);
    NewWorldInv(code, isPrivate, created);
    FreshCombos(1, 0, created.millis);
    RunInv(w0, es);
    RunCombos(w0, [], es);
    InvBalanced(w);
    hide Run, Legal, NewWorld, Servings, WorldInv, LastStreak, LongestStreak;
    assert Books(w.room.activity);
  }
}
