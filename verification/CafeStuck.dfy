/**
 Tea rounds in the world of all events: tea is lost exactly in the hands of leaving players.  Once some
 is lost the round is never completed and never gives way to another; and a run that leads there.
 */
module CafeStuck {
  import opened Basics
  import opened CafeModel
  import opened CafeFloor
  import opened CafeInventory
  import opened CafeProgress
  import opened CafeRooms
  import opened CafeWorld
  import opened CafeRounds
  import opened CafeRun
  import opened CafeTea
  import opened MapSums

  // ----- the tea of a run -----

  /** The tea that a leaving player takes along. */
  function TakenAlong(w: World, e: Event): nat {
    if e.Leaves? && !w.gone && Owns(w.room, e.pid, e.connection) then w.room.players[e.pid].carriedTea else 0
  }

  function LostAfter(w: World, lost: nat, e: Event): nat {
    if Next(w, e).room.activity.round != w.room.activity.round then 0 else lost + TakenAlong(w, e)
  }

  /** The tea that players took along since the present round began. */
  function TeaLost(w: World, lost: nat, es: seq<Event>): nat
    decreases es
  {
    if es == [] then lost else TeaLost(Next(w, es[0]), LostAfter(w, lost, es[0]), es[1..])
  }

  /** Tea in a round and tea taken along make up its target. */
  ghost predicate TeaBooks(room: Room, lost: nat) {
    room.activity.kind == TeaDelivery ==> TeaSum(room.players, room.activity) + lost == room.activity.target
  }

  ghost predicate SameTea(before: Players, after: Players) {
    after.Keys == before.Keys && forall p :: p in before ==> after[p].carriedTea == before[p].carriedTea
  }

  /** The same round goes on, and the same tea is in it. */
  ghost predicate TeaKept(room: Room, after: Room) {
    && after.activity == room.activity && SameTea(room.players, after.players)
  }

  lemma TeaKeptBooks(w: World, e: Event, lost: nat)
    requires TeaBooks(w.room, lost) && TeaKept(w.room, Next(w, e).room) && !e.Leaves?
    ensures TeaBooks(Next(w, e).room, LostAfter(w, lost, e))
  {
    hide Next;
    assert Teas(Next(w, e).room.players) == Teas(w.room.players);
  }

  lemma JoinTea(w: World, e: Event, lost: nat)
    requires TeaBooks(w.room, lost) && e.Joins?
    ensures TeaBooks(Next(w, e).room, LostAfter(w, lost, e))
  {
    var player := NewPlayer(e.owner, e.name, e.cosmetic, e.avatar, e.connection, e.now);
    JoinFacts(w.room, e.pid, player, e.tick, e.now);
    TeasSet(w.room.players, e.pid, Seated(w.room, e.pid, player));
    hide Join, NewClient;
  }

  lemma LeaveTea(w: World, e: Event, lost: nat)
    requires TeaBooks(w.room, lost) && e.Leaves? && Balanced(w.room.players, w.room.activity)
    ensures TeaBooks(Next(w, e).room, LostAfter(w, lost, e))
  {
    hide Leave, SignalStop, TeaSum;
    if !w.gone && Owns(w.room, e.pid, e.connection) {
      LeaveFacts(w.room, e.pid, e.connection, e.now);
      if w.room.activity.kind == TeaDelivery { DepartLosesTea(w.room.players, w.room.activity, e.pid); }
      hide Balanced;
    }
  }

  lemma InteractTea(w: World, e: Event, lost: nat)
    requires TeaBooks(w.room, lost) && e.Interacts? && Balanced(w.room.players, w.room.activity)
    ensures TeaBooks(Next(w, e).room, LostAfter(w, lost, e))
  {
    hide Act, Apply, TeaSum, Balanced;
    if !w.gone && Owns(w.room, e.pid, e.connection) {
      var o := Act(w.room.players, w.room.activity, e.pid, e.target, e.now.millis);
      ActTidy(w.room.players, w.room.activity, e.pid, e.target, e.now.millis);
      ApplyFacts(w.room, o);
      if w.room.activity.kind == TeaDelivery {
        ActKeepsTea(w.room.players, w.room.activity, e.pid, e.target, e.now.millis);
      }
    }
  }

  /** A new tea round has all its tea on its leaves. */
  lemma FreshTea(players: Players, round: nat, playerCount: nat, now: int)
    requires round >= 1
    ensures var a := ForRound(round, playerCount, now);
            a.round == round && (a.kind == TeaDelivery ==> TeaSum(AllHandsEmptied(players), a) == a.target)
  {
    ForRoundShape(round, playerCount, now);
    SumZero(Teas(AllHandsEmptied(players)));
    hide Balanced;
  }

  lemma StartTea(w: World, e: Event, lost: nat)
    requires TeaBooks(w.room, lost) && e.StartFires? && Enabled(w, e)
    ensures TeaBooks(Next(w, e).room, LostAfter(w, lost, e))
  {
    if CanStart(w.room, e.round) {
      StartFacts(w.room, e.round, e.now);
      FreshTea(w.room.players, NextRound(e.round), |w.room.players|, e.now.millis);
    }
    hide StartNextRound, ForRound, TeaSum;
    var v := Next(w, e);
    assert v.room == w.room || (CanStart(w.room, e.round) && v.room == StartNextRound(w.room, e.round, e.now));
  }

  lemma RushTea(w: World, e: Event, lost: nat)
    requires TeaBooks(w.room, lost) && e.RushFires?
    ensures TeaBooks(Next(w, e).room, LostAfter(w, lost, e))
  {
    if CanExpire(w.room, e.round) { ExpireFacts(w.room, e.round, e.now); }
    hide ExpireCafeRush, TeaSum;
  }

  lemma EquipTea(room: Room, owner: Owner, cosmetic: Option<string>, avatar: string)
    ensures TeaKept(room, EquipCosmetic(room, owner, cosmetic))
    ensures TeaKept(room, EquipAvatar(room, owner, avatar))
  {
    hide View, Dressed, WithAvatar;
    DressedOnly(room.players, owner, cosmetic, avatar);
  }

  lemma QuietTea(w: World, e: Event)
    requires !e.Joins? && !e.Interacts? && !e.Leaves? && !e.StartFires? && !e.RushFires?
    ensures TeaKept(w.room, Next(w, e).room)
  {
    hide View, LastOf, EquipCosmetic, EquipAvatar, MovedPose, Receive, Poses, TtlOver, SignalStop, Becomes, NewClient,
         FlushOutcome;
    match e
    case EquipsCosmetic(owner, cosmetic) => EquipTea(w.room, owner, cosmetic, "");
    case EquipsAvatar(owner, avatar) => EquipTea(w.room, owner, None, avatar);
    case _ =>
  }

  lemma StepTea(w: World, e: Event, lost: nat)
    requires TeaBooks(w.room, lost) && Balanced(w.room.players, w.room.activity) && Enabled(w, e)
    ensures TeaBooks(Next(w, e).room, LostAfter(w, lost, e))
  {
    hide Next, Enabled, TeaBooks, TeaKept, Balanced, LostAfter;
    match e {
      case Joins(_, _, _, _, _, _, _, _) => JoinTea(w, e, lost);
      case Interacts(_, _, _, _) => InteractTea(w, e, lost);
      case Leaves(_, _, _) => LeaveTea(w, e, lost);
      case StartFires(_, _) => StartTea(w, e, lost);
      case RushFires(_, _) => RushTea(w, e, lost);
      case _ =>
        QuietTea(w, e);
        TeaKeptBooks(w, e, lost);
    }
  }

  lemma {:induction false} RunTea(w: World, lost: nat, es: seq<Event>)
    requires WorldInv(w) && TeaBooks(w.room, lost) && Legal(w, es)
    ensures TeaBooks(Run(w, es).room, TeaLost(w, lost, es))
    decreases es
  {
    hide WorldInv, TeaBooks, Next, Enabled, LostAfter;
    if es != [] {
      InvBalanced(w);
      StepInv(w, es[0]);
      StepTea(w, es[0], lost);
      hide Balanced;
      RunTea(Next(w, es[0]), LostAfter(w, lost, es[0]), es[1..]);
    }
  }

  /** After any run, leaves, hands and deliveries of a tea round hold all its tea but what players took along. */
  lemma ReachableTea(code: string, isPrivate: bool, created: Now, es: seq<Event>)
    requires Legal(NewWorld(code, isPrivate, created), es)
    requires Run(NewWorld(code, isPrivate, created), es).room.activity.kind == TeaDelivery
    ensures var w0 := NewWorld(code, isPrivate, created);
            var room := Run(w0, es).room;
            TeaSum(room.players, room.activity) + TeaLost(w0, 0, es) == room.activity.target
  {
    var w0 := NewWorld(code, isPrivate, created);
    NewWorldInv(code, isPrivate, created);
    FreshTea(map[], 1, 0, created.millis);
    assert AllHandsEmptied(map[]) == map[];
    RunTea(w0, 0, es);
    hide Run, Legal, NewWorld, TeaLost, WorldInv, TeaSum;
  }

  // ----- a stranded round -----

  /** An active tea round from which tea is missing. */
  ghost predicate Short(room: Room) {
    && room.activity.kind == TeaDelivery && room.activity.phase == Active
    && TeaSum(room.players, room.activity) < room.activity.target
  }

  /** A round that is being played is not followed by another yet. */
  lemma ActiveRoundStays(w: World, e: Event)
    requires w.room.activity.phase == Active && Balanced(w.room.players, w.room.activity)
    ensures Next(w, e).room.activity.round == w.room.activity.round
  {
    hide InteractStep, StartStep, RushStep, LeaveStep, TickStep, JoinStep, Balanced, KindOf;
    match e
    case Interacts(pid, connection, target, now) => InteractCycle(w, pid, connection, target, now);
    case StartFires(round, now) => StartCycle(w, round, now);
    case RushFires(round, now) => RushCycle(w, round, now);
    case SpawnsStart(_) =>
    case SpawnsRush(_) =>
    case Cleans(_, _, _) =>
    case _ => QuietCycle(w, e);
  }

  lemma StepShort(w: World, e: Event)
    requires Short(w.room) && WorldInv(w) && Enabled(w, e)
    ensures Short(Next(w, e).room) && Next(w, e).room.activity.round == w.room.activity.round
  {
    var v := Next(w, e);
    var lost := w.room.activity.target - TeaSum(w.room.players, w.room.activity);
    hide Next, Enabled, WorldInv, Balanced, TeaSum;
    InvBalanced(w);
    StepInv(w, e);
    InvBalanced(v);
    StepTea(w, e, lost);
    ActiveRoundStays(w, e);
    TeaTarget(w.room.players, w.room.activity);
    TeaTarget(v.room.players, v.room.activity);
  }

  lemma TeaTarget(players: Players, a: Activity)
    requires Balanced(players, a)
    ensures a.kind == KindOf(a.round)
    ensures a.kind == TeaDelivery ==> a.target == 3
    ensures a.kind == TeaDelivery ==> TeaSum(players, a) <= 3 && (a.phase == Intermission ==> TeaSum(players, a) == 3)
    ensures a.kind == TeaDelivery && TeaSum(players, a) < 3 ==> !a.completed
  {
  }

  /** Whatever happens from now on, the same tea round goes on, unfinished. */
  lemma {:induction false} ShortForever(w: World, es: seq<Event>)
    requires WorldInv(w) && Short(w.room) && Legal(w, es)
    ensures var v := Run(w, es);
            && v.room.activity.round == w.room.activity.round
            && v.room.activity.phase == Active && !v.room.activity.completed
    decreases es
  {
    if es != [] {
      StepInv(w, es[0]);
      StepShort(w, es[0]);
      hide WorldInv, Next, Enabled, Short;
      ShortForever(Next(w, es[0]), es[1..]);
    } else {
      InvBalanced(w);
      TeaTarget(w.room.players, w.room.activity);
      hide WorldInv;
    }
  }

  // ----- a run that loses tea -----

  const DAY := Now(0.0, 0)
  const NEW_ROOM := NewWorld("000000", false, DAY)
  const FIRST := Owner(101, None)
  const SECOND := Owner(102, None)

  function East(x: real, sequence: nat): Movement {
    Movement(Some(x), Some(704.0), Right, true, sequence)
  }

  /** Two players join, the first walks to a leaf, takes it and leaves. */
  const LOSING: seq<Event> := [
    Joins(1, FIRST, "first", None, "", 11, 21, DAY), Joins(2, SECOND, "second", None, "", 12, 22, DAY),
    Moves(1, 11, East(760.0, 1), 120.0, Now(1.0, 1000)), Moves(1, 11, East(880.0, 2), 120.0, Now(2.0, 2000)),
    Moves(1, 11, East(980.0, 3), 100.0, Now(3.0, 3000)),
    Interacts(1, 11, TeaId(1, 3), Now(4.0, 4000)), Leaves(1, 11, Now(5.0, 5000))]

  /** What matters of the room until the leaf is taken. */
  ghost predicate Scene(w: World, player: Player, joined: nat) {
    && !w.gone && w.room.activity == NEW_ROOM.room.activity
    && w.room.players.Keys == (if joined >= 2 then {1, 2} else {1})
    && w.room.players[1] == player && player.connection == 11
    && w.clients.Keys == (if joined >= 2 then {11, 12} else {11})
    && w.ticks.Keys == {21}
  }

  const ARRIVED := NewPlayer(FIRST, "first", None, "", 11, DAY)

  lemma FirstJoins()
    ensures Enabled(NEW_ROOM, LOSING[0]) && Scene(Next(NEW_ROOM, LOSING[0]), ARRIVED, 1)
  {
    JoinFacts(NEW_ROOM.room, 1, ARRIVED, 21, DAY);
    hide Join, NewClient, ForRound;
  }

  lemma SecondJoins(w: World)
    requires Scene(w, ARRIVED, 1)
    ensures Enabled(w, LOSING[1]) && Scene(Next(w, LOSING[1]), ARRIVED, 2)
  {
    JoinFacts(w.room, 2, NewPlayer(SECOND, "second", None, "", 12, DAY), 22, DAY);
    hide Join, NewClient, ForRound;
    assert |w.room.players| == |w.room.players.Keys| == 1;
  }

  lemma Walks(w: World, player: Player, x: real, sequence: nat, root: real, now: Now)
    requires Scene(w, player, 2) && player.lastSequence < sequence
    requires player.pose.y == 704.0 && 640.0 <= player.pose.x < x <= 980.0 && root == x - player.pose.x
    requires root <= 127.0 && now.instant == player.lastMoveAt + 1.0
    ensures var e := Moves(1, 11, East(x, sequence), root, now);
            && Enabled(w, e)
            && Scene(Next(w, e), player.(pose := Pose(x, 704.0, Right, true), lastSequence := sequence,
                                         lastMoveAt := now.instant), 2)
  {
    assert MaxDelta(1.0) == 127.0;
    assert !Collides(x, 704.0);
    assert MovedPose(player.pose, East(x, sequence), 1.0, root) == Pose(x, 704.0, Right, true);
    hide ForRound, MovedPose;
  }

  /** The third leaf of the first round is within reach of the spot the player walked to. */
  lemma Takes(w: World, player: Player)
    requires Scene(w, player, 2) && player.pose == Pose(980.0, 704.0, Right, true) && player.carriedTea == 0
    ensures var v := Next(w, LOSING[5]);
            && !v.gone && v.room.players.Keys == {1, 2} && v.room.activity.round == 1
            && v.room.players[1].carriedTea == 1 && v.room.players[1].connection == 11
            && v.room.activity.phase == Active && v.room.activity.kind == TeaDelivery && v.room.activity.target == 3
  {
    var a := w.room.activity;
    FirstRoundLeaf();
    assert InRange(player.pose, a.leaves[2].at, INTERACTION_RADIUS);
    hide ForRound, View;
  }

  lemma FirstRoundLeaf()
    ensures var a := NEW_ROOM.room.activity;
            && a.kind == TeaDelivery && a.phase == Active && a.target == 3 && |a.leaves| == 3
            && a.leaves[2] == Leaf(TeaId(1, 3), Point(1064.0, 682.0), true)
            && AvailableLeafIndex(a.leaves, TeaId(1, 3)) == Some(2)
  {
    TeaLayoutNeverRotates(1, 0, 0);
    assert FreshLeaves(1, TEA_LAYOUTS[0])[2] == Leaf(TeaId(1, 3), TEA_LAYOUTS[0][2], true);
  }

  lemma Takeaway(w: World)
    requires WorldInv(w) && !w.gone && 1 in w.room.players && w.room.players[1].connection == 11
    requires w.room.activity.phase == Active && w.room.activity.kind == TeaDelivery
    requires w.room.players[1].carriedTea == 1
    ensures var v := Next(w, LOSING[6]);
            && Short(v.room) && v.room.players.Keys == w.room.players.Keys - {1}
            && v.room.activity.round == w.room.activity.round && v.room.activity.phase == Active
  {
    InvBalanced(w);
    TeaTarget(w.room.players, w.room.activity);
    DepartLosesTea(w.room.players, w.room.activity, 1);
    LeaveFacts(w.room, 1, 11, Now(5.0, 5000));
    hide Leave, WorldInv;
    assert Owns(w.room, 1, 11);
    hide Balanced;
  }

  lemma RunSeven(w: World, es: seq<Event>)
    requires |es| == 7
    ensures var v := Next(Next(Next(Next(Next(Next(w, es[0]), es[1]), es[2]), es[3]), es[4]), es[5]);
            Run(w, es) == Next(v, es[6])
    ensures var w1 := Next(w, es[0]); var w2 := Next(w1, es[1]); var w3 := Next(w2, es[2]);
            var w4 := Next(w3, es[3]); var w5 := Next(w4, es[4]); var w6 := Next(w5, es[5]);
            (&& Enabled(w, es[0]) && Enabled(w1, es[1]) && Enabled(w2, es[2]) && Enabled(w3, es[3])
             && Enabled(w4, es[4]) && Enabled(w5, es[5]) && Enabled(w6, es[6])) ==> Legal(w, es)
  {
    hide Next, Enabled;
    var w1 := Next(w, es[0]);
    var w2 := Next(w1, es[1]);
    var w3 := Next(w2, es[2]);
    var w4 := Next(w3, es[3]);
    var w5 := Next(w4, es[4]);
    var w6 := Next(w5, es[5]);
    RunLast(w6, es, 6);
    RunFrom(w5, es, 5);
    RunFrom(w4, es, 4);
    RunFrom(w3, es, 3);
    RunFrom(w2, es, 2);
    RunFrom(w1, es, 1);
    RunFrom(w, es, 0);
    assert es[0..] == es;
  }

  lemma RunFrom(w: World, es: seq<Event>, i: nat)
    requires i < |es|
    ensures Run(w, es[i..]) == Run(Next(w, es[i]), es[i + 1..])
    ensures Legal(w, es[i..]) <==> Enabled(w, es[i]) && Legal(Next(w, es[i]), es[i + 1..])
  {
    hide Next, Enabled;
    assert es[i..][0] == es[i] && es[i..][1..] == es[i + 1..];
  }

  lemma RunLast(w: World, es: seq<Event>, i: nat)
    requires i + 1 == |es|
    ensures Run(w, es[i..]) == Next(w, es[i])
    ensures Legal(w, es[i..]) <==> Enabled(w, es[i])
  {
    hide Next, Enabled;
    RunFrom(w, es, i);
    assert es[i + 1..] == [];
  }

  /** After this run the first round can never end, although the second player is still there. */
  lemma LeavingWithTeaStrandsTheRound(more: seq<Event>)
    ensures Legal(NEW_ROOM, LOSING)
    ensures 2 in Run(NEW_ROOM, LOSING).room.players && Run(NEW_ROOM, LOSING).room.activity.phase == Active
    ensures Legal(Run(NEW_ROOM, LOSING), more) ==>
              var v := Run(Run(NEW_ROOM, LOSING), more);
              v.room.activity.round == 1 && v.room.activity.phase == Active && !v.room.activity.completed
  {
    hide Run, Legal, Next, Enabled, WorldInv, Scene, Short, TeaSum;
    var es := LOSING;
    FirstJoins();
    var w1 := Next(NEW_ROOM, es[0]);
    SecondJoins(w1);
    var w2 := Next(w1, es[1]);
    Walks(w2, ARRIVED, 760.0, 1, 120.0, Now(1.0, 1000));
    var w3 := Next(w2, es[2]);
    var p3 := ARRIVED.(pose := Pose(760.0, 704.0, Right, true), lastSequence := 1, lastMoveAt := 1.0);
    Walks(w3, p3, 880.0, 2, 120.0, Now(2.0, 2000));
    var w4 := Next(w3, es[3]);
    var p4 := p3.(pose := Pose(880.0, 704.0, Right, true), lastSequence := 2, lastMoveAt := 2.0);
    Walks(w4, p4, 980.0, 3, 100.0, Now(3.0, 3000));
    var w5 := Next(w4, es[4]);
    var p5 := p4.(pose := Pose(980.0, 704.0, Right, true), lastSequence := 3, lastMoveAt := 3.0);
    Takes(w5, p5);
    var w6 := Next(w5, es[5]);
    InteractionsEnabled(w5, w6);
    RunSeven(NEW_ROOM, es);
    NewWorldInv("000000", false, DAY);
    StepInv(NEW_ROOM, es[0]);
    StepInv(w1, es[1]);
    StepInv(w2, es[2]);
    StepInv(w3, es[3]);
    StepInv(w4, es[4]);
    StepInv(w5, es[5]);
    StepInv(w6, es[6]);
    Takeaway(w6);
    if Legal(Next(w6, es[6]), more) { ShortForever(Next(w6, es[6]), more); }
  }

  lemma InteractionsEnabled(w: World, v: World)
    ensures Enabled(w, LOSING[5]) && Enabled(v, LOSING[6])
  {
  }
}
