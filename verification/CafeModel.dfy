/**
 The data of one cafe room: players, the activity of the current round, and the
 fixed room map.  Positions are exact reals; ids of leaves and orders are kept as
 their (round, index) pair, which the printed form determines.
 */
module CafeModel {
  import opened Basics

  const ROOM_CAPACITY: nat := 8
  const ROUND_INTERMISSION_MS: int := 8_000
  const CAFE_RUSH_DURATION_MS: int := 90_000
  const CAFE_RUSH_COMBO_WINDOW_MS: int := 15_000
  const CHAT_HISTORY_LIMIT: nat := 30
  const BROADCAST_CAPACITY: nat := 128
  const U8_MAX: nat := 255
  const U32_MAX: nat := 0xFFFF_FFFF

  const MAP_WIDTH: real := 1280.0
  const MAP_HEIGHT: real := 800.0
  const COLLISION_RADIUS: real := 10.0
  const INTERACTION_RADIUS: real := 92.0
  const HOST_INTERACTION_RADIUS: real := 132.0

  datatype Point = Point(x: real, y: real)

  const SPAWN := Point(640.0, 704.0)
  const AIKO := Point(640.0, 272.0)
  const SERVICE_COUNTER := Point(640.0, 272.0)
  const TABLE_WINDOW := Point(250.0, 383.0)
  const TABLE_GARDEN := Point(1047.0, 391.0)
  const TABLE_LONG := Point(636.0, 573.0)

  const TEA_LAYOUTS: seq<seq<Point>> := [
    [Point(142.0, 224.0), Point(1138.0, 248.0), Point(1064.0, 682.0)],
    [Point(186.0, 666.0), Point(1094.0, 570.0), Point(832.0, 300.0)],
    [Point(322.0, 278.0), Point(950.0, 248.0), Point(912.0, 688.0)]]

  const CAFE_RUSH_INGREDIENTS: seq<Point> := [
    Point(142.0, 224.0), Point(1138.0, 248.0), Point(1064.0, 682.0),
    Point(186.0, 666.0), Point(1094.0, 570.0), Point(832.0, 300.0)]

  datatype Table = WindowTable | GardenTable | LongTable
  datatype Drink = Sakura | Mint | Classic
  datatype Recipe = Recipe(table: Table, drink: Drink)

  const TABLE_SERVICE_ORDERS: seq<Recipe> := [
    Recipe(WindowTable, Sakura), Recipe(GardenTable, Mint), Recipe(LongTable, Classic)]

  const CAFE_RUSH_ORDERS: seq<Recipe> := [
    Recipe(WindowTable, Sakura), Recipe(GardenTable, Mint), Recipe(LongTable, Classic),
    Recipe(GardenTable, Sakura), Recipe(WindowTable, Classic), Recipe(LongTable, Mint)]

  function TablePoint(t: Table): Point {
    match t
    case WindowTable => TABLE_WINDOW
    case GardenTable => TABLE_GARDEN
    case LongTable => TABLE_LONG
  }

  /** What a client may name as the target of an interaction. */
  datatype Target =
    | AikoTarget
    | CounterTarget
    | TeaId(round: nat, index: nat)
    | OrderId(round: nat, index: nat)
    | OtherTarget(name: string)

  datatype Direction = Up | Down | Left | Right

  /** The part of a player that movement messages carry. */
  datatype Pose = Pose(x: real, y: real, direction: Direction, moving: bool)

  datatype Owner = Owner(session: Uuid, user: Option<Uuid>)

  datatype Player = Player(
    owner: Owner,
    name: string,
    pose: Pose,
    carriedTea: nat,
    carriedRush: seq<Target>,
    carriedOrder: Option<Target>,
    cosmetic: Option<string>,
    avatar: string,
    lastSequence: nat,
    lastMoveAt: real,
    connection: Uuid)

  datatype ActivityKind = TeaDelivery | TableService | CafeRush
  datatype Phase = Active | Intermission
  datatype OrderStatus = WaitingIngredient | Available | Claimed | Served

  datatype Leaf = Leaf(id: Target, at: Point, available: bool)
  datatype Order = Order(id: Target, recipe: Recipe, at: Point, status: OrderStatus, claimedBy: Option<Uuid>)

  datatype Activity = Activity(
    kind: ActivityKind,
    round: nat,
    phase: Phase,
    nextRoundAt: Option<int>,
    endsAt: Option<int>,
    delivered: nat,
    target: nat,
    combo: nat,
    bestCombo: nat,
    comboExpiresAt: Option<int>,
    completed: bool,
    leaves: seq<Leaf>,
    orders: seq<Order>)

  function SaturatingAdd8(a: nat, b: nat): (r: nat)
    ensures a + b <= U8_MAX ==> r == a + b
    ensures r <= a + b
  {
    if a + b <= U8_MAX then a + b else U8_MAX
  }

  function SaturatingSub(a: nat, b: nat): nat {
    if a >= b then a - b else 0
  }

  function NextRound(round: nat): nat {
    if round < U32_MAX then round + 1 else U32_MAX
  }

  function SquaredDistance(p: Point, q: Point): real {
    (p.x - q.x) * (p.x - q.x) + (p.y - q.y) * (p.y - q.y)
  }

  function At(pose: Pose): Point {
    Point(pose.x, pose.y)
  }

  /** `distance_between(p, q) <= radius`, without naming the square root. */
  predicate InRange(pose: Pose, q: Point, radius: real) {
    SquaredDistance(At(pose), q) <= radius * radius
  }

  function Blank(kind: ActivityKind, round: nat, target: nat): Activity {
    Activity(kind, round, Active, None, None, 0, target, 0, 0, None, false, [], [])
  }

  function FreshLeaves(round: nat, spots: seq<Point>): seq<Leaf> {
    seq(|spots|, i requires 0 <= i < |spots| => Leaf(TeaId(round, i + 1), spots[i], true))
  }

  function FreshOrders(round: nat, recipes: seq<Recipe>, status: OrderStatus): seq<Order> {
    seq(|recipes|, i requires 0 <= i < |recipes| =>
      Order(OrderId(round, i + 1), recipes[i], TablePoint(recipes[i].table), status, None))
  }

  function CafeRushTarget(playerCount: nat): nat {
    Max(3, Min(playerCount + 2, 6))
  }

  /** `CafeActivity::for_round`: the three activities take turns. */
  function ForRound(round: nat, playerCount: nat, now: int): Activity {
    if round % 3 == 1 then
      Blank(TeaDelivery, round, 3).(leaves := FreshLeaves(round, TEA_LAYOUTS[SaturatingSub(round, 1) % 3]))
    else if round % 3 == 2 then
      Blank(TableService, round, 3).(orders := FreshOrders(round, TABLE_SERVICE_ORDERS, Available))
    else
      var target := CafeRushTarget(playerCount);
      Blank(CafeRush, round, target).(
        endsAt := Some(now + CAFE_RUSH_DURATION_MS),
        leaves := FreshLeaves(round, CAFE_RUSH_INGREDIENTS[..target]),
        orders := FreshOrders(round, CAFE_RUSH_ORDERS[..target], WaitingIngredient))
  }
}
