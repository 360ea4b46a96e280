/** How fast players move: how far one movement message takes a player, from above and exactly, and over runs. */
module CafeSpeed {
  import opened Basics
  import opened CafeModel
  import opened CafeFloor
  import opened CafeProgress
  import opened CafeMovement
  import opened CafeRooms
  import opened CafeWorld
  import opened CafeRun
  import opened CafePlay
  import opened CafeWalks

  // ----- one message -----

  /** So many seconds after the last accepted message, the next one covers at most 210 a second and 22 more, where less
      than 16 ms count as 16 ms and more than half a second as half a second. */
  lemma StepSpeed(pose: Pose, m: Movement, elapsed: real, root: real)
    requires m.x.Some? && m.y.Some? && Standable(pose.x, pose.y)
    requires IsDistance(root, At(pose), Point(m.x.value, m.y.value))
    ensures var next := At(MovedPose(pose, m, elapsed, root));
            && (elapsed < 0.016 ==> Within(At(pose), next, 25.36))
            && (0.016 <= elapsed <= 0.5 ==> Within(At(pose), next, 210.0 * elapsed + 22.0))
            && (0.5 < elapsed ==> Within(At(pose), next, 127.0))
  {
    MovedPoseLegal(pose, m, elapsed, root);
    hide MovedPose, Within, Standable, IsDistance;
  }

  /** The reach of a message, in numbers. */
  function Reach(elapsed: real): real {
    if elapsed < 0.016 then 25.36 else if elapsed <= 0.5 then 210.0 * elapsed + 22.0 else 127.0
  }

  /** The point to which a request leads: itself if it is within reach, and otherwise the point of the straight line to
      it that is exactly the reach away. */
  ghost predicate LeadsTo(p: Point, q: Point, reach: real, spot: Point) {
    if SquaredDistance(p, q) <= reach * reach then spot == q
    else
      && SquaredDistance(p, spot) == reach * reach
      && exists t :: 0.0 <= t <= 1.0 && spot == Along(p, q, t)
  }

  function Along(p: Point, q: Point, t: real): Point {
    Point(p.x + t * (q.x - p.x), p.y + t * (q.y - p.y))
  }

  lemma AlongDistance(p: Point, q: Point, t: real)
    ensures SquaredDistance(p, Along(p, q, t)) == t * t * SquaredDistance(p, q)
  {
    var dx, dy := q.x - p.x, q.y - p.y;
    Offset(p, t * dx, t * dy);
    Offset(p, dx, dy);
    assert q == Point(p.x + dx, p.y + dy);
    ScaledSquare(t, dx);
    ScaledSquare(t, dy);
    Factor(t * t, dx * dx, dy * dy);
  }

  lemma Factor(a: real, b: real, c: real)
    ensures a * b + a * c == a * (b + c)
  {
  }

  lemma Quotient(d: real, root: real, reach: real, t: real)
    requires root > 0.0 && t * root == reach
    ensures d / root * reach == t * d
  {
    var u := d / root;
    assert u * root == d;
    Regroup(u, t, root);
  }

  lemma Regroup(u: real, t: real, root: real)
    ensures u * (t * root) == t * (u * root)
  {
  }

  /** The service's arithmetic finds that point. */
  lemma LimitedExactly(p: Point, q: Point, reach: real, root: real, spot: Point)
    requires IsDistance(root, p, q) && reach > 0.0 && LeadsTo(p, q, reach, spot)
    ensures Limited(p, q, reach, root) == spot
  {
    SquareMonotone(root, reach);
    if root > reach {
      var t :| 0.0 <= t <= 1.0 && spot == Along(p, q, t);
      AlongDistance(p, q, t);
      Portion(t, root, SquaredDistance(p, q), reach);
      hide SquaredDistance;
      LimitedAlong(p, q, reach, root, t);
    }
  }

  /** The part `t` of a way of length `root` has length `reach`. */
  lemma Portion(t: real, root: real, square: real, reach: real)
    requires t >= 0.0 && root >= 0.0 && reach >= 0.0 && square == root * root && t * t * square == reach * reach
    ensures t * root == reach
  {
    ScaledSquare(t, root);
    NonNegative(t, root);
    SameRoot(t * root, reach);
  }

  lemma LimitedAlong(p: Point, q: Point, reach: real, root: real, t: real)
    requires root > reach > 0.0 && t * root == reach
    ensures Limited(p, q, reach, root) == Along(p, q, t)
  {
    LimitedBy(p, q, reach, root, q.x - p.x, q.y - p.y, t);
  }

  lemma LimitedBy(p: Point, q: Point, reach: real, root: real, dx: real, dy: real, t: real)
    requires root > reach > 0.0 && t * root == reach && dx == q.x - p.x && dy == q.y - p.y
    ensures Limited(p, q, reach, root) == Along(p, q, t)
  {
    Quotient(dx, root, reach, t);
    Quotient(dy, root, reach, t);
    assert Limited(p, q, reach, root) == Point(p.x + dx / root * reach, p.y + dy / root * reach);
    assert Along(p, q, t) == Point(p.x + t * dx, p.y + t * dy);
  }

  lemma NonNegative(a: real, b: real)
    requires a >= 0.0 && b >= 0.0
    ensures a * b >= 0.0
  {
  }

  lemma SameRoot(a: real, b: real)
    requires a >= 0.0 && b >= 0.0 && a * a == b * b
    ensures a == b
  {
    SquareMonotone(a, b);
    SquareMonotone(b, a);
  }

  /** The nearest point inside the walls. */
  function Inside(p: Point): Point {
    Point(if p.x < 10.0 then 10.0 else if p.x > 1270.0 then 1270.0 else p.x,
          if p.y < 10.0 then 10.0 else if p.y > 790.0 then 790.0 else p.y)
  }

  /** An accepted message takes the player exactly to the point to which it leads, or to the nearest point inside the
      walls; but if that is on the furniture the player stays.  Direction and gait are taken over in any case. */
  lemma MovesExactly(pose: Pose, m: Movement, elapsed: real, root: real, spot: Point)
    requires m.x.Some? && m.y.Some?
    requires IsDistance(root, At(pose), Point(m.x.value, m.y.value))
    requires LeadsTo(At(pose), Point(m.x.value, m.y.value), Reach(elapsed), spot)
    ensures var next := MovedPose(pose, m, elapsed, root);
            && At(next) == (if Standable(Inside(spot).x, Inside(spot).y) then Inside(spot) else At(pose))
            && next.direction == m.direction && next.moving == m.moving
  {
    var q := Point(m.x.value, m.y.value);
    assert MaxDelta(elapsed) == Reach(elapsed) > 0.0;
    LimitedExactly(At(pose), q, Reach(elapsed), root, spot);
    hide Limited, LeadsTo, IsDistance, Collides, MaxDelta, Reach;
    assert Clamped(spot) == Inside(spot);
  }

  /** What an accepted message leaves in the room, and that nothing else is accepted. */
  lemma MessageExactly(w: World, e: Event)
    requires e.Moves? && !w.gone
    ensures var v := Next(w, e);
            if e.pid in w.room.players && w.room.players[e.pid].connection == e.connection
               && e.m.sequence > w.room.players[e.pid].lastSequence && e.m.x.Some? && e.m.y.Some?
            then
              var before, after := w.room.players[e.pid], v.room.players[e.pid];
              && v.room.players.Keys == w.room.players.Keys
              && after.pose == MovedPose(before.pose, e.m, e.now.instant - before.lastMoveAt, e.root)
              && after.lastSequence == e.m.sequence && after.lastMoveAt == e.now.instant
              && after.carriedTea == before.carriedTea && after.carriedRush == before.carriedRush
              && after.carriedOrder == before.carriedOrder
            else v == w
  {
    hide MovedPose;
  }

  // ----- speed over runs -----

  /** The instants that the events read do not fall. */
  ghost predicate ClocksRise(from: real, es: seq<Event>)
    decreases es
  {
    es == [] ||
    (&& (ReadsClock(es[0]) ==> from <= es[0].now.instant)
     && ClocksRise(InstantAfter(from, es[0]), es[1..]))
  }

  function InstantAfter(from: real, e: Event): real {
    if ReadsClock(e) then e.now.instant else from
  }

  function LastInstant(from: real, es: seq<Event>): real
    decreases es
  {
    if es == [] then from else LastInstant(InstantAfter(from, es[0]), es[1..])
  }

  ghost predicate NotAhead(players: Players, clock: real) {
    forall p :: p in players ==> players[p].lastMoveAt <= clock
  }

  lemma JoinTimes(w: World, e: Event)
    requires e.Joins?
    ensures var v := Next(w, e);
            forall p :: p in v.room.players ==>
              || (p in w.room.players && v.room.players[p].lastMoveAt == w.room.players[p].lastMoveAt)
              || v.room.players[p].lastMoveAt == e.now.instant
  {
    var player := NewPlayer(e.owner, e.name, e.cosmetic, e.avatar, e.connection, e.now);
    JoinFacts(w.room, e.pid, player, e.tick, e.now);
    hide Join, NewClient;
  }

  lemma NobodyNew(w: World, e: Event)
    requires !e.Joins?
    ensures Next(w, e).room.players.Keys <= w.room.players.Keys
  {
    hide View, LastOf, EquipCosmetic, EquipAvatar, MovedPose, Receive, Poses, TtlOver, SignalStop, Becomes, NewClient,
         FlushOutcome, Depart, Interact, CompletedRound, StartNextRound, ExpireCafeRush;
    match e
    case Interacts(pid, connection, target, now) => InteractKeys(w.room, pid, connection, target, now);
    case StartFires(round, now) => RoundKeys(w.room, round, now);
    case RushFires(round, now) => RoundKeys(w.room, round, now);
    case EquipsCosmetic(owner, cosmetic) => EquipKeys(w.room, owner, cosmetic, "");
    case EquipsAvatar(owner, avatar) => EquipKeys(w.room, owner, None, avatar);
    case _ =>
  }

  lemma InteractKeys(room: Room, pid: Uuid, connection: Uuid, target: Target, now: Now)
    ensures Interact(room, pid, connection, target, now).players.Keys == room.players.Keys
  {
    if Owns(room, pid, connection) { ActTidy(room.players, room.activity, pid, target, now.millis); }
    hide Act, View;
  }

  lemma RoundKeys(room: Room, round: nat, now: Now)
    ensures StartNextRound(room, round, now).players.Keys == room.players.Keys
    ensures ExpireCafeRush(room, round, now).players.Keys == room.players.Keys
  {
    hide ForRound, View;
  }

  lemma EquipKeys(room: Room, owner: Owner, cosmetic: Option<string>, avatar: string)
    ensures EquipCosmetic(room, owner, cosmetic).players.Keys == room.players.Keys
    ensures EquipAvatar(room, owner, avatar).players.Keys == room.players.Keys
  {
    DressedOnly(room.players, owner, cosmetic, avatar);
    hide View, Dressed, WithAvatar;
  }

  lemma StepNotAhead(w: World, e: Event, clock: real)
    requires NotAhead(w.room.players, clock) && (ReadsClock(e) ==> clock <= e.now.instant)
    ensures NotAhead(Next(w, e).room.players, InstantAfter(clock, e))
  {
    hide Next;
    if e.Joins? {
      JoinTimes(w, e);
    } else if e.Moves? {
      MoveTimes(w, e);
    } else {
      StepPlaces(w, e);
      NobodyNew(w, e);
    }
  }

  lemma MoveTimes(w: World, e: Event)
    requires e.Moves?
    ensures var v := Next(w, e);
            && v.room.players.Keys == w.room.players.Keys
            && forall p :: p in v.room.players ==>
                 v.room.players[p].lastMoveAt ==
                 if MoveAccepted(w, e, p) then e.now.instant else w.room.players[p].lastMoveAt
  {
    hide MovedPose;
  }

  /** In one step a player covers nothing without an accepted message, and with one at most 210 a second and 25.36. */
  lemma StepCovers(w: World, e: Event, p: Uuid, clock: real)
    requires AllStanding(w.room.players) && Enabled(w, e) && p in w.room.players && p in Next(w, e).room.players
    requires NotAhead(w.room.players, clock) && (ReadsClock(e) ==> clock <= e.now.instant)
    ensures var before, after := w.room.players[p], Next(w, e).room.players[p];
            && before.lastMoveAt <= after.lastMoveAt
            && Covers(At(before.pose), At(after.pose), OneIf(MoveAccepted(w, e, p)),
                      after.lastMoveAt - before.lastMoveAt)
  {
    var before, after := w.room.players[p], Next(w, e).room.players[p];
    if e.Moves? {
      hide Next;
      MessageCovers(w, e, p, clock);
    } else {
      StepPlaces(w, e);
      if e.Joins? { JoinTimes(w, e); }
      hide Next;
      WithinSelf(At(before.pose), 210.0 * (after.lastMoveAt - before.lastMoveAt));
    }
  }

  lemma MessageCovers(w: World, e: Event, p: Uuid, clock: real)
    requires AllStanding(w.room.players) && Enabled(w, e) && e.Moves?
    requires p in w.room.players && p in Next(w, e).room.players
    requires NotAhead(w.room.players, clock) && clock <= e.now.instant
    ensures var before, after := w.room.players[p], Next(w, e).room.players[p];
            && before.lastMoveAt <= after.lastMoveAt
            && Covers(At(before.pose), At(after.pose), OneIf(MoveAccepted(w, e, p)),
                      after.lastMoveAt - before.lastMoveAt)
  {
    hide Next, MovedPose, Within, Standable, SquaredDistance;
    var before, after := w.room.players[p], Next(w, e).room.players[p];
    MoveTimes(w, e);
    if MoveAccepted(w, e, p) {
      MessageExactly(w, e);
      StepSpeed(before.pose, e.m, e.now.instant - before.lastMoveAt, e.root);
      ReachIsCovered(At(before.pose), At(after.pose), e.now.instant - before.lastMoveAt);
    } else {
      MoveWithin(w, e, p);
    }
  }

  ghost predicate Covers(p: Point, q: Point, messages: nat, seconds: real) {
    Within(p, q, 25.36 * messages as real + 210.0 * seconds)
  }

  lemma ReachIsCovered(p: Point, q: Point, elapsed: real)
    requires elapsed >= 0.0
    requires elapsed < 0.016 ==> Within(p, q, 25.36)
    requires 0.016 <= elapsed <= 0.5 ==> Within(p, q, 210.0 * elapsed + 22.0)
    requires 0.5 < elapsed ==> Within(p, q, 127.0)
    ensures Covers(p, q, 1, elapsed)
  {
    var reach := Reach(elapsed);
    assert Within(p, q, reach) && reach <= 25.36 + 210.0 * elapsed;
    hide Within;
    WithinMonotone(p, q, reach, 25.36 * 1 as real + 210.0 * elapsed);
  }

  lemma CoversOn(p: Point, q: Point, r: Point, one: nat, n: nat, s: real, t: real)
    requires Covers(p, q, one, s) && Covers(q, r, n, t)
    ensures Covers(p, r, one + n, s + t)
  {
    hide Within;
    Triangle(p, q, r, 25.36 * one as real + 210.0 * s, 25.36 * n as real + 210.0 * t);
    assert 25.36 * one as real + 210.0 * s + (25.36 * n as real + 210.0 * t)
        == 25.36 * (one + n) as real + 210.0 * (s + t);
  }

  lemma {:induction false} RunCovers(w: World, es: seq<Event>, p: Uuid, clock: real)
    requires WorldInv(w) && Legal(w, es) && Stays(w, es, p)
    requires NotAhead(w.room.players, clock) && ClocksRise(clock, es)
    ensures p in w.room.players && p in Run(w, es).room.players
    ensures var before, after := w.room.players[p], Run(w, es).room.players[p];
            Covers(At(before.pose), At(after.pose), MovesOf(w, es, p), after.lastMoveAt - before.lastMoveAt)
    decreases es
  {
    if es == [] {
      hide WorldInv, Next;
      WithinSelf(At(w.room.players[p].pose), 0.0);
    } else {
      hide WorldInv, Next, Enabled, Covers, MoveAccepted, Run, Legal, Stays, MovesOf, NotAhead;
      var v := Next(w, es[0]);
      Head(w, es, p);
      InvStanding(w);
      StepInv(w, es[0]);
      StepCovers(w, es[0], p, clock);
      StepNotAhead(w, es[0], clock);
      RunCovers(v, es[1..], p, InstantAfter(clock, es[0]));
      CoversOn(At(w.room.players[p].pose), At(v.room.players[p].pose), At(Run(v, es[1..]).room.players[p].pose),
               OneIf(MoveAccepted(w, es[0], p)), MovesOf(v, es[1..], p),
               v.room.players[p].lastMoveAt - w.room.players[p].lastMoveAt,
               Run(v, es[1..]).room.players[p].lastMoveAt - v.room.players[p].lastMoveAt);
    }
  }

  lemma {:induction false} RunNotAhead(w: World, es: seq<Event>, clock: real)
    requires NotAhead(w.room.players, clock) && ClocksRise(clock, es)
    ensures NotAhead(Run(w, es).room.players, LastInstant(clock, es))
    decreases es
  {
    hide Next, NotAhead;
    if es != [] {
      StepNotAhead(w, es[0], clock);
      RunNotAhead(Next(w, es[0]), es[1..], InstantAfter(clock, es[0]));
    }
  }

  /** Over every run with a rising clock, a player who stays covers at most 25.36 for each accepted message and 210 for
      each second between its first and its last reading of the clock. */
  lemma SpeedBounded(code: string, isPrivate: bool, created: Now, es: seq<Event>, more: seq<Event>, p: Uuid)
    requires Legal(NewWorld(code, isPrivate, created), es) && ClocksRise(created.instant, es)
    requires ClocksRise(LastInstant(created.instant, es), more)
    requires var w := Run(NewWorld(code, isPrivate, created), es); Legal(w, more) && Stays(w, more, p)
    ensures var w := Run(NewWorld(code, isPrivate, created), es);
            var v := Run(w, more);
            && p in w.room.players && p in v.room.players
            && var before, after := w.room.players[p], v.room.players[p];
               && after.lastMoveAt <= LastInstant(LastInstant(created.instant, es), more)
               && Within(At(before.pose), At(after.pose),
                         25.36 * MovesOf(w, more, p) as real + 210.0 * (after.lastMoveAt - before.lastMoveAt))
  {
    hide Run, Legal, WorldInv, Within, MovesOf, Stays, ClocksRise, LastInstant, NotAhead;
    var w0 := NewWorld(code, isPrivate, created);
    var w := Run(w0, es);
    NewWorldInv(code, isPrivate, created);
    assert NotAhead(w0.room.players, created.instant) by { NobodyAhead(created.instant); }
    RunInv(w0, es);
    RunNotAhead(w0, es, created.instant);
    hide NewWorld;
    RunCovers(w, more, p, LastInstant(created.instant, es));
    RunNotAhead(w, more, LastInstant(created.instant, es));
    AheadOf(Run(w, more).room.players, LastInstant(LastInstant(created.instant, es), more), p);
  }

  lemma NobodyAhead(clock: real)
    ensures NotAhead(map[], clock)
  {
  }

  lemma AheadOf(players: Players, clock: real, p: Uuid)
    requires NotAhead(players, clock) && p in players
    ensures players[p].lastMoveAt <= clock
  {
  }
}
