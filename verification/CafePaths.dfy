/**
 The room map is connected: from any spot where a player may stand to any other there is a way
 along free axis-parallel legs.
 */
module CafePaths {
  import opened CafeModel
  import opened CafeProgress

  /** The middle of the room: columns 340 and 900 and the row 480 are free from wall to wall. */
  const CROSSING := Point(340.0, 480.0)

  predicate Between(v: real, a: real, b: real) {
    a <= v <= b || b <= v <= a
  }

  /** Straight along one axis, with nothing in the way. */
  ghost predicate Leg(p: Point, q: Point) {
    && (p.x == q.x || p.y == q.y)
    && forall x, y :: Between(x, p.x, q.x) && Between(y, p.y, q.y) ==> Standable(x, y)
  }

  /** The furniture, box by box. */
  predicate Free(x: real, y: real) {
    && !(356.0 < x < 864.0 && 172.0 < y < 312.0)
    && !(180.0 < x < 320.0 && 312.0 < y < 454.0)
    && !(178.0 < x < 306.0 && 530.0 < y < 650.0)
    && !(980.0 < x < 1114.0 && 328.0 < y < 454.0)
    && !(980.0 < x < 1112.0 && 534.0 < y < 658.0)
    && !(450.0 < x < 822.0 && 513.0 < y < 631.0)
  }

  lemma StandableExactly(x: real, y: real)
    ensures Standable(x, y) <==> 10.0 <= x <= 1270.0 && 10.0 <= y <= 790.0 && Free(x, y)
  {
    forall i | 0 <= i < 6
      ensures ContainsPlayer(COLLIDERS[i], x, y) <==>
              COLLIDERS[i].x - 10.0 < x < COLLIDERS[i].x + COLLIDERS[i].width + 10.0
              && COLLIDERS[i].y - 10.0 < y < COLLIDERS[i].y + COLLIDERS[i].height + 10.0
    {
    }
    assert Collides(x, y) <==> ContainsPlayer(COLLIDERS[0], x, y) || ContainsPlayer(COLLIDERS[1], x, y)
                               || ContainsPlayer(COLLIDERS[2], x, y) || ContainsPlayer(COLLIDERS[3], x, y)
                               || ContainsPlayer(COLLIDERS[4], x, y) || ContainsPlayer(COLLIDERS[5], x, y);
    hide Collides;
  }

  lemma FreeLeg(p: Point, q: Point)
    requires p.x == q.x || p.y == q.y
    requires 10.0 <= p.x <= 1270.0 && 10.0 <= q.x <= 1270.0 && 10.0 <= p.y <= 790.0 && 10.0 <= q.y <= 790.0
    requires forall x, y :: Between(x, p.x, q.x) && Between(y, p.y, q.y) ==> Free(x, y)
    ensures Leg(p, q) && Leg(q, p)
  {
    forall x, y | Between(x, p.x, q.x) && Between(y, p.y, q.y) ensures Standable(x, y) {
      StandableExactly(x, y);
    }
  }

  /** Two corners on the way from a spot to the crossing. */
  lemma ToCrossing(p: Point) returns (c: Point, d: Point)
    requires Standable(p.x, p.y)
    ensures Leg(p, c) && Leg(c, d) && Leg(d, CROSSING)
    ensures Leg(c, p) && Leg(d, c) && Leg(CROSSING, d)
  {
    hide Standable, Leg;
    StandableExactly(p.x, p.y);
    if StraightDown(p) {
      c, d := Point(p.x, 480.0), CROSSING;
    } else if p.x >= 864.0 && p.y > 172.0 {
      c, d := Point(900.0, p.y), Point(900.0, 480.0);
    } else {
      c, d := Point(340.0, p.y), CROSSING;
    }
    FreeLeg(p, c);
    FreeLeg(c, d);
    FreeLeg(d, CROSSING);
  }

  /** The column between the spot and the row 480 is free. */
  predicate StraightDown(p: Point) {
    if p.y <= 480.0 then
      && (356.0 < p.x < 864.0 ==> p.y >= 312.0)
      && (180.0 < p.x < 320.0 ==> p.y >= 454.0)
      && (980.0 < p.x < 1114.0 ==> p.y >= 454.0)
    else
      && (178.0 < p.x < 306.0 ==> p.y <= 530.0)
      && (980.0 < p.x < 1112.0 ==> p.y <= 534.0)
      && (450.0 < p.x < 822.0 ==> p.y <= 513.0)
  }

  // ----- steps along a leg -----

  const STRIDE: real := 127.0

  function Toward(from: real, to: real): real {
    if to - from > STRIDE then from + STRIDE else if from - to > STRIDE then from - STRIDE else to
  }

  function Gap(p: Point, q: Point): real {
    (if p.x <= q.x then q.x - p.x else p.x - q.x) + (if p.y <= q.y then q.y - p.y else p.y - q.y)
  }

  /** The next point on the way, one movement message further. */
  function Ahead(p: Point, q: Point): Point {
    Point(Toward(p.x, q.x), Toward(p.y, q.y))
  }

  lemma StrideFacts(p: Point, q: Point)
    requires Leg(p, q)
    ensures var n := Ahead(p, q);
            && Leg(n, q) && Standable(n.x, n.y) && Gap(p, n) <= STRIDE
            && Gap(p, n) * Gap(p, n) == SquaredDistance(p, n)
            && (n == q || Gap(n, q) <= Gap(p, q) - STRIDE)
  {
    var n := Ahead(p, q);
    assert Between(n.x, p.x, q.x) && Between(n.y, p.y, q.y);
    assert forall x, y :: Between(x, n.x, q.x) && Between(y, n.y, q.y) ==>
                            Between(x, p.x, q.x) && Between(y, p.y, q.y);
    if p.x == q.x {
      SquareOfGap(n.y - p.y);
    } else {
      SquareOfGap(n.x - p.x);
    }
  }

  lemma SquareOfGap(d: real)
    ensures (-d) * (-d) == d * d
  {
  }
}
