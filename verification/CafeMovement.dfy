/**
 Movement under exact arithmetic: positions stay inside the room and off the furniture,
 and no update moves a player further than its elapsed time allows.
 */
module CafeMovement {
  import opened Basics
  import opened CafeModel
  import opened CafeFloor
  import opened CafeProgress
  import opened CafeRooms

  /** `root` is the distance from `p` to `q`, i.e. a nonnegative square root. */
  ghost predicate IsDistance(root: real, p: Point, q: Point) {
    root >= 0.0 && root * root == SquaredDistance(p, q)
  }

  ghost predicate Within(p: Point, q: Point, reach: real) {
    reach >= 0.0 && SquaredDistance(p, q) <= reach * reach
  }

  lemma PositiveProduct(a: real, b: real, c: real)
    requires a > 0.0 && b > 0.0 && c == a * b
    ensures c > 0.0
  {
  }

  lemma SquareOfSum(x: real, y: real)
    ensures (x + y) * (x + y) == x * x + 2.0 * (x * y) + y * y
  {
  }

  lemma SquareStrict(a: real, b: real)
    requires 0.0 <= a < b
    ensures a * a < b * b
  {
    PositiveProduct(b - a, b + a, (b - a) * (b + a));
    assert (b - a) * (b + a) == b * b - a * a;
  }

  lemma SquareMonotone(a: real, b: real)
    requires 0.0 <= a && 0.0 <= b
    ensures a <= b <==> a * a <= b * b
  {
    if a < b { SquareStrict(a, b); }
    if b < a { SquareStrict(b, a); }
  }

  /** `InRange` is the comparison the service makes with the square root. */
  lemma InRangeIsDistance(pose: Pose, q: Point, radius: real, root: real)
    requires radius >= 0.0 && IsDistance(root, At(pose), q)
    ensures InRange(pose, q, radius) <==> root <= radius
  {
    SquareMonotone(root, radius);
  }

  // ----- one step -----

  lemma Cancel(s: real, t: real, c: real)
    requires c > 0.0 && s * c == t * c
    ensures s == t
  {
    if s > t { PositiveProduct(s - t, c, (s - t) * c); }
    if s < t { PositiveProduct(t - s, c, (t - s) * c); }
    assert (s - t) * c == s * c - t * c;
  }

  lemma UnitSquares(qx: real, qy: real, dx: real, dy: real, root: real, ss: real)
    requires ss > 0.0 && ss == root * root && ss == dx * dx + dy * dy
    requires qx * root == dx && qy * root == dy
    ensures qx * qx + qy * qy == 1.0
  {
    var a, b := qx * qx, qy * qy;
    calc {
      (a + b) * ss;
      { Distribute(a, b, ss); }
      a * ss + b * ss;
      { ScaledSquare(qx, root); ScaledSquare(qy, root); }
      (qx * root) * (qx * root) + (qy * root) * (qy * root);
      dx * dx + dy * dy;
      1.0 * ss;
    }
    Cancel(a + b, 1.0, ss);
  }

  /** A vector divided by its length has length one. */
  lemma UnitVector(dx: real, dy: real, root: real) returns (qx: real, qy: real)
    requires root > 0.0 && root * root == dx * dx + dy * dy
    ensures qx == dx / root && qy == dy / root && qx * qx + qy * qy == 1.0
  {
    var ss := root * root;
    PositiveProduct(root, root, ss);
    qx, qy := dx / root, dy / root;
    UnitSquares(qx, qy, dx, dy, root, ss);
  }

  lemma Offset(p: Point, ex: real, ey: real)
    ensures SquaredDistance(p, Point(p.x + ex, p.y + ey)) == ex * ex + ey * ey
  {
    assert p.x - (p.x + ex) == -ex && p.y - (p.y + ey) == -ey;
  }

  lemma Distribute(a: real, b: real, c: real)
    ensures (a + b) * c == a * c + b * c
  {
  }

  lemma ScaledSquare(q: real, r: real)
    ensures (q * r) * (q * r) == (q * q) * (r * r)
  {
  }

  /** The pulled-back point is at most `reach` away. */
  lemma LimitedWithin(p: Point, q: Point, reach: real, root: real)
    requires IsDistance(root, p, q) && reach >= 0.0
    ensures Within(p, Limited(p, q, reach, root), reach)
  {
    if root > reach && root > 0.0 {
      var dx, dy := q.x - p.x, q.y - p.y;
      Offset(p, dx, dy);
      assert q == Point(p.x + dx, p.y + dy);
      var qx, qy := UnitVector(dx, dy, root);
      Offset(p, qx * reach, qy * reach);
      ScaledSquare(qx, reach);
      ScaledSquare(qy, reach);
      Distribute(qx * qx, qy * qy, reach * reach);
    } else {
      SquareMonotone(root, reach);
    }
  }

  lemma ClampShortens(v: real, from: real, lo: real, hi: real)
    requires lo <= from <= hi
    ensures var c := ClampReal(v, lo, hi); (from - c) * (from - c) <= (from - v) * (from - v)
  {
    var c := ClampReal(v, lo, hi);
    var a, b := if from >= c then from - c else c - from, if from >= v then from - v else v - from;
    assert 0.0 <= a <= b;
    SquareMonotone(a, b);
    assert (from - c) * (from - c) == a * a && (from - v) * (from - v) == b * b;
  }

  /** Clamping to the room never lengthens a step that starts inside it. */
  lemma ClampedWithin(p: Point, q: Point, reach: real)
    requires Standable(p.x, p.y) && Within(p, q, reach)
    ensures Within(p, Clamped(q), reach)
  {
    ClampShortens(q.x, p.x, COLLISION_RADIUS, MAP_WIDTH - COLLISION_RADIUS);
    ClampShortens(q.y, p.y, COLLISION_RADIUS, MAP_HEIGHT - COLLISION_RADIUS);
  }

  lemma MovedPoseLegal(pose: Pose, m: Movement, elapsed: real, root: real)
    requires m.x.Some? && m.y.Some? && Standable(pose.x, pose.y)
    requires IsDistance(root, At(pose), Point(m.x.value, m.y.value))
    ensures var next := MovedPose(pose, m, elapsed, root);
            && Standable(next.x, next.y)
            && Within(At(pose), At(next), MaxDelta(elapsed))
            && 22.0 <= MaxDelta(elapsed) <= 127.0
  {
    var limited := Limited(At(pose), Point(m.x.value, m.y.value), MaxDelta(elapsed), root);
    LimitedWithin(At(pose), Point(m.x.value, m.y.value), MaxDelta(elapsed), root);
    ClampedWithin(At(pose), limited, MaxDelta(elapsed));
    WithinSelf(At(pose), MaxDelta(elapsed));
  }

  lemma WithinSelf(p: Point, reach: real)
    requires reach >= 0.0
    ensures Within(p, p, reach)
  {
    assert reach * reach >= 0.0;
  }

  // ----- several steps -----

  /** The triangle inequality, stated without roots. */
  lemma Triangle(p: Point, q: Point, r: Point, a: real, b: real)
    requires Within(p, q, a) && Within(q, r, b)
    ensures Within(p, r, a + b)
  {
    var ux, uy := q.x - p.x, q.y - p.y;
    var vx, vy := r.x - q.x, r.y - q.y;
    Offset(p, ux, uy);
    Offset(q, vx, vy);
    Offset(p, ux + vx, uy + vy);
    assert q == Point(p.x + ux, p.y + uy) && r == Point(q.x + vx, q.y + vy)
        && r == Point(p.x + (ux + vx), p.y + (uy + vy));
    VectorTriangle(ux, uy, vx, vy, a, b);
  }

  lemma VectorTriangle(ux: real, uy: real, vx: real, vy: real, a: real, b: real)
    requires a >= 0.0 && b >= 0.0 && ux * ux + uy * uy <= a * a && vx * vx + vy * vy <= b * b
    ensures (ux + vx) * (ux + vx) + (uy + vy) * (uy + vy) <= (a + b) * (a + b)
  {
    CauchySchwarz(ux, uy, vx, vy);
    SquareNonNegative(ux);
    SquareNonNegative(uy);
    SquareNonNegative(vx);
    SquareNonNegative(vy);
    DotBound(ux * vx + uy * vy, ux * ux + uy * uy, vx * vx + vy * vy, a, b);
    SquareOfSum(ux, vx);
    SquareOfSum(uy, vy);
    SquareOfSum(a, b);
  }

  lemma SquareNonNegative(x: real)
    ensures x * x >= 0.0
  {
  }

  lemma CauchySchwarz(ux: real, uy: real, vx: real, vy: real)
    ensures (ux * vx + uy * vy) * (ux * vx + uy * vy) <= (ux * ux + uy * uy) * (vx * vx + vy * vy)
  {
    var c := ux * vy - uy * vx;
    var d := ux * vx + uy * vy;
    assert c * c >= 0.0;
    assert d * d == ux * vx * (ux * vx) + 2.0 * (ux * vx * (uy * vy)) + uy * vy * (uy * vy);
    assert c * c == ux * vy * (ux * vy) - 2.0 * (ux * vy * (uy * vx)) + uy * vx * (uy * vx);
    assert ux * vx * (uy * vy) == ux * vy * (uy * vx);
    assert (ux * ux + uy * uy) * (vx * vx + vy * vy)
        == ux * vx * (ux * vx) + ux * vy * (ux * vy) + uy * vx * (uy * vx) + uy * vy * (uy * vy);
  }

  lemma DotBound(dot: real, uu: real, vv: real, a: real, b: real)
    requires dot * dot <= uu * vv && 0.0 <= uu <= a * a && 0.0 <= vv <= b * b && a >= 0.0 && b >= 0.0
    ensures dot <= a * b
  {
    assert uu * vv <= (a * a) * (b * b) by {
      assert uu * vv <= (a * a) * vv;
      assert (a * a) * vv <= (a * a) * (b * b);
    }
    assert (a * a) * (b * b) == (a * b) * (a * b);
    assert a * b >= 0.0;
    if dot > 0.0 {
      SquareMonotone(dot, a * b);
    }
  }

  lemma WithinMonotone(p: Point, q: Point, a: real, b: real)
    requires Within(p, q, a) && a <= b
    ensures Within(p, q, b)
  {
    SquareMonotone(a, b);
  }

  // ----- the room -----

  ghost predicate AllStanding(players: Players) {
    forall p :: p in players ==> Standable(players[p].pose.x, players[p].pose.y)
  }

  lemma SpawnStandable()
    ensures Standable(SPAWN.x, SPAWN.y)
  {
  }

  /** A request moves nobody but its sender, keeps everyone standing, and does nothing at
      all when it comes from a replaced connection or repeats an old sequence number. */
  lemma MoveLegal(room: Room, pid: Uuid, connection: Uuid, m: Movement, root: real, now: Now)
    requires AllStanding(room.players)
    requires Accepts(room, pid, connection, m) ==>
               IsDistance(root, At(room.players[pid].pose), Point(m.x.value, m.y.value))
    ensures var next := Move(room, pid, connection, m, root, now);
            && AllStanding(next.players)
            && next.players.Keys == room.players.Keys
            && (forall p :: p in room.players && p != pid ==> next.players[p] == room.players[p])
            && (pid in room.players && room.players[pid].connection != connection ==> next == room)
            && (pid in room.players && m.sequence <= room.players[pid].lastSequence ==> next == room)
            && (pid in room.players ==>
                  && room.players[pid].lastSequence <= next.players[pid].lastSequence
                  && Within(At(room.players[pid].pose), At(next.players[pid].pose),
                            MaxDelta(now.instant - room.players[pid].lastMoveAt)))
  {
    if Accepts(room, pid, connection, m) {
      MovedPoseLegal(room.players[pid].pose, m, now.instant - room.players[pid].lastMoveAt, root);
    } else if pid in room.players {
      WithinSelf(At(room.players[pid].pose), MaxDelta(now.instant - room.players[pid].lastMoveAt));
    }
  }
}
