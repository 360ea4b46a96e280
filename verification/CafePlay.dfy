/**
 What the players of a room can always do: walk to any spot where one may stand, and act there.
 Each is a legal run of the room's world whose clock readings never fall.
 */
module CafePlay {
  import opened Basics
  import opened MapSums
  import opened CafeModel
  import opened CafeFloor
  import opened CafeInventory
  import opened CafeProgress
  import opened CafePaths
  import opened CafeReach
  import opened CafeTea
  import opened CafeRooms
  import opened CafeWorld
  import opened CafeRun

  // ----- runs in the order of their clock readings -----

  predicate ReadsClock(e: Event) {
    e.Joins? || e.Leaves? || e.Moves? || e.Interacts? || e.Chats? || e.StartFires? || e.RushFires? || e.Cleans?
  }

  predicate NotBefore(a: Now, b: Now) {
    a.instant <= b.instant && a.millis <= b.millis
  }

  function ClockAfter(from: Now, e: Event): Now {
    if ReadsClock(e) then e.now else from
  }

  /** A legal run from `w` to `v` whose clock readings rise from `from` to `to`. */
  ghost predicate Leads(w: World, from: Now, es: seq<Event>, v: World, to: Now)
    decreases es
  {
    if es == [] then v == w && to == from
    else
      && Enabled(w, es[0]) && NotBefore(from, ClockAfter(from, es[0]))
      && Leads(Next(w, es[0]), ClockAfter(from, es[0]), es[1..], v, to)
  }

  lemma LeadsNowhere(w: World, from: Now)
    ensures Leads(w, from, [], w, from)
  {
  }

  lemma LeadsOne(w: World, from: Now, e: Event)
    requires Enabled(w, e) && NotBefore(from, ClockAfter(from, e))
    ensures Leads(w, from, [e], Next(w, e), ClockAfter(from, e))
  {
    hide Enabled, Next;
    assert [e][1..] == [];
  }

  lemma {:induction false} LeadsOn(w: World, from: Now, es: seq<Event>, u: World, at: Now,
                                   fs: seq<Event>, v: World, to: Now)
    requires Leads(w, from, es, u, at) && Leads(u, at, fs, v, to)
    ensures Leads(w, from, es + fs, v, to)
    decreases es
  {
    hide Enabled, Next;
    if es == [] {
      assert es + fs == fs;
    } else {
      LeadsOn(Next(w, es[0]), ClockAfter(from, es[0]), es[1..], u, at, fs, v, to);
      assert (es + fs)[1..] == es[1..] + fs;
    }
  }

  lemma {:induction false} LeadsLegal(w: World, from: Now, es: seq<Event>, v: World, to: Now)
    requires Leads(w, from, es, v, to)
    ensures Legal(w, es) && Run(w, es) == v
    ensures WorldInv(w) ==> WorldInv(v)
    decreases es
  {
    if es != [] {
      hide Enabled, Next, WorldInv;
      LeadsLegal(Next(w, es[0]), ClockAfter(from, es[0]), es[1..], v, to);
      if WorldInv(w) { StepInv(w, es[0]); }
    }
  }

  // ----- walking -----

  /** Only the player's pose has changed, and what the next message of that player is compared with. */
  ghost predicate Moved(w: World, v: World, pid: Uuid, pose: Pose) {
    && !v.gone && v.room.activity == w.room.activity
    && pid in w.room.players && pid in v.room.players
    && v.room.players == w.room.players[pid := w.room.players[pid].(
         pose := pose, lastSequence := v.room.players[pid].lastSequence, lastMoveAt := v.room.players[pid].lastMoveAt)]
  }

  lemma MovedOn(w: World, u: World, v: World, pid: Uuid, a: Pose, b: Pose)
    requires Moved(w, u, pid, a) && Moved(u, v, pid, b)
    ensures Moved(w, v, pid, b)
  {
  }

  /** One movement message takes a player exactly to a free point at most 127 away. */
  lemma Stride(w: World, from: Now, pid: Uuid, pose: Pose) returns (e: Event, to: Now)
    requires !w.gone && pid in w.room.players && Standable(pose.x, pose.y)
    requires var d := Gap(At(w.room.players[pid].pose), At(pose));
             d <= STRIDE && d * d == SquaredDistance(At(w.room.players[pid].pose), At(pose))
    ensures Leads(w, from, [e], Next(w, e), to) && Moved(w, Next(w, e), pid, pose)
  {
    var player := w.room.players[pid];
    to := Now((if from.instant < player.lastMoveAt then player.lastMoveAt else from.instant) + 1.0, from.millis + 1000);
    var m := Movement(Some(pose.x), Some(pose.y), pose.direction, pose.moving, player.lastSequence + 1);
    var root := Gap(At(player.pose), At(pose));
    e := Moves(pid, player.connection, m, root, to);
    StridePose(player.pose, pose, m, to.instant - player.lastMoveAt, root);
    hide MovedPose, Gap, SquaredDistance, Standable, Leads;
    StrideMoves(w, pid, m, root, to, pose);
    LeadsOne(w, from, e);
  }

  lemma StrideMoves(w: World, pid: Uuid, m: Movement, root: real, now: Now, pose: Pose)
    requires !w.gone && pid in w.room.players && Accepts(w.room, pid, w.room.players[pid].connection, m)
    requires MovedPose(w.room.players[pid].pose, m, now.instant - w.room.players[pid].lastMoveAt, root) == pose
    ensures Moved(w, Next(w, Moves(pid, w.room.players[pid].connection, m, root, now)), pid, pose)
  {
    hide MovedPose;
  }

  lemma StridePose(before: Pose, pose: Pose, m: Movement, elapsed: real, root: real)
    requires Standable(pose.x, pose.y) && root <= STRIDE && elapsed >= 1.0
    requires m.x == Some(pose.x) && m.y == Some(pose.y) && m.direction == pose.direction && m.moving == pose.moving
    ensures MovedPose(before, m, elapsed, root) == pose
  {
    assert MaxDelta(elapsed) == STRIDE;
    hide Collides;
  }

  lemma {:induction false} WalkLeg(w: World, from: Now, pid: Uuid, pose: Pose)
    returns (es: seq<Event>, v: World, to: Now)
    requires !w.gone && pid in w.room.players && Leg(At(w.room.players[pid].pose), At(pose))
    ensures Leads(w, from, es, v, to) && Moved(w, v, pid, pose)
    decreases Gap(At(w.room.players[pid].pose), At(pose))
  {
    var p := At(w.room.players[pid].pose);
    var n := Ahead(p, At(pose));
    StrideFacts(p, At(pose));
    hide Leg, Gap, Standable, Leads, Next, Moved, SquaredDistance, Ahead;
    var next := Pose(n.x, n.y, pose.direction, pose.moving);
    var e, at := Stride(w, from, pid, next);
    var u := Next(w, e);
    if n == At(pose) {
      es, v, to := [e], u, at;
    } else {
      assert !u.gone && pid in u.room.players && At(u.room.players[pid].pose) == n by { AfterMoving(w, u, pid, next); }
      var rest;
      rest, v, to := WalkLeg(u, at, pid, pose);
      es := [e] + rest;
      LeadsOn(w, from, [e], u, at, rest, v, to);
      MovedOn(w, u, v, pid, next, pose);
    }
  }

  lemma AfterMoving(w: World, v: World, pid: Uuid, pose: Pose)
    requires Moved(w, v, pid, pose)
    ensures !v.gone && pid in v.room.players && v.room.players[pid].pose == pose
    ensures v.room.activity == w.room.activity
    ensures SameStockHeld(w.room.players, v.room.players) && SameOrdersHeld(w.room.players, v.room.players)
  {
  }

  /** From wherever a player stands there is a way to every allowed spot. */
  lemma WalkTo(w: World, from: Now, pid: Uuid, pose: Pose) returns (es: seq<Event>, v: World, to: Now)
    requires !w.gone && pid in w.room.players
    requires Standable(w.room.players[pid].pose.x, w.room.players[pid].pose.y) && Standable(pose.x, pose.y)
    ensures Leads(w, from, es, v, to) && Moved(w, v, pid, pose)
  {
    hide Standable, Leg, Leads, Moved;
    var c, d := ToCrossing(At(w.room.players[pid].pose));
    var g, h := ToCrossing(At(pose));
    es, v, to := WalkVia(w, from, pid, [At(w.room.players[pid].pose), c, d, CROSSING, h, g, At(pose)], pose);
  }

  ghost predicate Legs(stops: seq<Point>) {
    forall i, j :: 0 <= i && j == i + 1 < |stops| ==> Leg(stops[i], stops[j])
  }

  lemma {:induction false} WalkVia(w: World, from: Now, pid: Uuid, stops: seq<Point>, pose: Pose)
    returns (es: seq<Event>, v: World, to: Now)
    requires !w.gone && pid in w.room.players && |stops| >= 2 && Legs(stops)
    requires stops[0] == At(w.room.players[pid].pose) && stops[|stops| - 1] == At(pose)
    ensures Leads(w, from, es, v, to) && Moved(w, v, pid, pose)
    decreases |stops|
  {
    hide Leg, Leads, Moved;
    var next := Pose(stops[1].x, stops[1].y, pose.direction, pose.moving);
    var u, at;
    assert At(next) == stops[1] && Leg(stops[0], stops[1]);
    es, u, at := WalkLeg(w, from, pid, next);
    AfterMoving(w, u, pid, next);
    if |stops| == 2 {
      v, to := u, at;
    } else {
      var rest;
      rest, v, to := WalkVia(u, at, pid, stops[1..], pose);
      LeadsOn(w, from, es, u, at, rest, v, to);
      MovedOn(w, u, v, pid, next, pose);
      es := es + rest;
    }
  }

  // ----- acting -----

  /** Interactions that a round needs at most. */
  function Todo(a: Activity): nat {
    if a.kind == TeaDelivery then 2 * CountLeaves(a.leaves) + SaturatingSub(a.target, a.delivered) else Rank(a)
  }

  /** An effective interaction brings the round on. */
  lemma EffectiveLowersTodo(players: Players, a: Activity, pid: Uuid, target: Target, now: int)
    requires Balanced(players, a) && pid in players && a.phase == Active
    requires Act(players, a, pid, target, now).changed
    ensures var b := Act(players, a, pid, target, now).activity;
            Todo(b) < Todo(a) && (a.kind != TeaDelivery ==> Todo(b) + 1 == Todo(a))
  {
    ActTidy(players, a, pid, target, now);
    if a.kind != TeaDelivery {
      EffectiveLowersRank(players, a, pid, target, now);
      hide Act, Balanced;
    } else if AvailableLeafIndex(a.leaves, target).Some? {
      var i := AvailableLeafIndex(a.leaves, target).value;
      CountLeavesSet(a.leaves, i, a.leaves[i].(available := false));
    } else {
      TeaNeverClipped(players, a, pid, target, now);
    }
  }

  /** An active round in which nothing that it needs is missing. */
  ghost predicate Playable(players: Players, a: Activity) {
    Balanced(players, a) && a.phase == Active && (a.kind == TeaDelivery ==> TeaSum(players, a) == a.target)
  }

  lemma SomebodyCan(players: Players, a: Activity) returns (pid: Uuid, spot: Pose, target: Target)
    requires Playable(players, a) && players != map[]
    ensures pid in players && Standable(spot.x, spot.y)
    ensures Effective(a, players[pid].(pose := spot), pid, target)
  {
    hide Act, Effective, Standable, Balanced, TeaSum;
    if a.kind == TeaDelivery {
      TeaLeft(players, a);
      EffectiveExactly(players, a, 0);
      var p, s, t :| p in players && EffectiveAt(players, a, p, s, t, 0);
      pid, spot, target := p, s, t;
    } else {
      pid, spot, target := NoDeadlock(players, a, 0);
    }
    hide Balanced, Playable;
    var placed := players[pid := players[pid].(pose := spot)];
    BalancedKept(players, placed, a);
    ChangedExactly(placed, a, pid, target, 0);
  }

  lemma TeaLeft(players: Players, a: Activity)
    requires Playable(players, a) && a.kind == TeaDelivery
    ensures CountLeaves(a.leaves) > 0 || Sum(Teas(players)) > 0
  {
  }

  /** The round has come closer to its end, which it reaches by being completed. */
  ghost predicate Onward(w: World, v: World) {
    && !v.gone && v.room.players.Keys == w.room.players.Keys
    && v.room.activity.round == w.room.activity.round && v.room.activity.kind == w.room.activity.kind
    && Todo(v.room.activity) < Todo(w.room.activity)
    && (v.room.activity.kind != TeaDelivery ==> Todo(v.room.activity) + 1 == Todo(w.room.activity))
    && if v.room.activity.phase == Active then Playable(v.room.players, v.room.activity) else v.room.activity.completed
  }

  lemma ActOnward(players: Players, a: Activity, pid: Uuid, target: Target, now: int)
    requires Playable(players, a) && pid in players && Effective(a, players[pid], pid, target)
    ensures var o := Act(players, a, pid, target, now);
            && o.players.Keys == players.Keys && o.activity.round == a.round && o.activity.kind == a.kind
            && Todo(o.activity) < Todo(a) && (a.kind != TeaDelivery ==> Todo(o.activity) + 1 == Todo(a))
            && if o.activity.phase == Active then Playable(o.players, o.activity) else o.activity.completed
  {
    hide Act, Effective, Todo;
    ChangedExactly(players, a, pid, target, now);
    ActTidy(players, a, pid, target, now);
    ActBalanced(players, a, pid, target, now);
    EffectiveLowersTodo(players, a, pid, target, now);
    hide Balanced, TeaSum;
    if a.kind == TeaDelivery { ActKeepsTea(players, a, pid, target, now); }
  }

  lemma InteractOnward(w: World, pid: Uuid, target: Target, now: Now)
    requires !w.gone && Playable(w.room.players, w.room.activity) && pid in w.room.players
    requires Effective(w.room.activity, w.room.players[pid], pid, target)
    ensures Onward(w, Next(w, Interacts(pid, w.room.players[pid].connection, target, now)))
  {
    hide Act, Effective, Todo, Playable, Apply;
    ActOnward(w.room.players, w.room.activity, pid, target, now.millis);
    ApplyFacts(w.room, Act(w.room.players, w.room.activity, pid, target, now.millis));
  }

  /** A player goes to a spot from where a target answers, and interacts with it. */
  lemma Errand(w: World, from: Now, pid: Uuid, spot: Pose, target: Target) returns (es: seq<Event>, v: World, to: Now)
    requires WorldInv(w) && !w.gone && Playable(w.room.players, w.room.activity) && pid in w.room.players
    requires Standable(spot.x, spot.y) && Effective(w.room.activity, w.room.players[pid].(pose := spot), pid, target)
    ensures Leads(w, from, es, v, to) && Onward(w, v)
  {
    InvStanding(w);
    hide WorldInv, Playable, Standable, Leads, Next, Moved, Effective, Onward, Enabled;
    var u, at;
    es, u, at := WalkTo(w, from, pid, spot);
    MovedPlayable(w, u, pid, spot, target);
    var e := Interacts(pid, u.room.players[pid].connection, target, at);
    InteractOnward(u, pid, target, at);
    v, to := Next(u, e), at;
    assert Leads(u, at, [e], v, to) by { InteractLeads(u, at, e); }
    LeadsOn(w, from, es, u, at, [e], v, to);
    OnwardFrom(w, u, v);
    es := es + [e];
  }

  lemma InteractLeads(w: World, from: Now, e: Event)
    requires e.Interacts? && e.now == from
    ensures Leads(w, from, [e], Next(w, e), from)
  {
    hide Next;
    LeadsOne(w, from, e);
  }

  lemma OnwardFrom(w: World, u: World, v: World)
    requires Onward(u, v) && u.room.activity == w.room.activity && u.room.players.Keys == w.room.players.Keys
    ensures Onward(w, v)
  {
    hide Playable, Todo;
  }

  lemma MovedPlayable(w: World, v: World, pid: Uuid, spot: Pose, target: Target)
    requires Moved(w, v, pid, spot) && Playable(w.room.players, w.room.activity)
    requires Effective(w.room.activity, w.room.players[pid].(pose := spot), pid, target)
    ensures Playable(v.room.players, v.room.activity) && v.room.activity == w.room.activity
    ensures !v.gone && v.room.players.Keys == w.room.players.Keys && pid in v.room.players
    ensures Effective(v.room.activity, v.room.players[pid], pid, target)
  {
    hide Balanced, Effective, Standable;
    AfterMoving(w, v, pid, spot);
    hide Moved;
    assert Teas(v.room.players) == Teas(w.room.players);
    SameHandsEffective(w.room.activity, w.room.players[pid].(pose := spot), v.room.players[pid], pid, target);
    BalancedKept(w.room.players, v.room.players, w.room.activity);
  }

  /** Whether a target answers depends on the player's pose and hands alone. */
  lemma SameHandsEffective(a: Activity, p: Player, q: Player, pid: Uuid, target: Target)
    requires p.pose == q.pose && p.carriedTea == q.carriedTea && p.carriedRush == q.carriedRush
    requires p.carriedOrder == q.carriedOrder && Effective(a, p, pid, target)
    ensures Effective(a, q, pid, target)
  {
    hide InRange, SomeOrder;
  }
}
