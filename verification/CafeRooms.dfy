/**
 One cafe room as a value: what every operation under the room lock does to the
 players, the activity, the revision, the two outgoing channels and the chat log.
 `reliable` is everything ever sent on the room's broadcast channel.
 */
module CafeRooms {
  import opened Basics
  import opened CafeModel
  import opened CafeFloor
  import opened CafeProgress

  /** A reading of the two clocks: monotonic seconds and wall-clock milliseconds. */
  datatype Now = Now(instant: real, millis: int)

  datatype ChatKind = MessageEvent | JoinedEvent | LeftEvent
  datatype ChatEvent = ChatEvent(kind: ChatKind, player: Uuid, name: string, text: Option<string>, createdAt: int)

  datatype PlayerView = PlayerView(
    name: string, pose: Pose, carriedTea: nat, carriedOrder: Option<Target>, cosmetic: Option<string>, avatar: string)
  datatype RoomView = RoomView(players: map<Uuid, PlayerView>, activity: Activity)
  datatype MovementUpdate = MovementUpdate(revision: nat, poses: map<Uuid, Pose>)

  datatype ServerMessage =
    | Snapshot(revision: nat, view: RoomView)
    | DialogueMessage(key: Dialogue)
    | EmoteMessage(player: Uuid, emote: string)
    | ChatMessage(event: ChatEvent)
    | RewardMessage(player: Uuid, stars: nat)

  datatype Room = Room(
    inviteCode: string,
    isPrivate: bool,
    players: Players,
    activity: Activity,
    chatHistory: seq<ChatEvent>,
    reliable: seq<ServerMessage>,
    movement: MovementUpdate,
    movementVersion: nat,
    revision: nat,
    dirty: bool,
    tickStop: Option<nat>,
    createdAt: real,
    everJoined: bool,
    emptySince: Option<real>)

  function NewRoom(code: string, isPrivate: bool, now: Now): Room {
    Room(code, isPrivate, map[], ForRound(1, 0, now.millis), [], [], MovementUpdate(0, map[]), 0, 0, false,
         None, now.instant, false, None)
  }

  function NewPlayer(owner: Owner, name: string, cosmetic: Option<string>, avatar: string,
                   connection: Uuid, now: Now): Player {
    Player(owner, name, Pose(SPAWN.x, SPAWN.y, Up, false), 0, [], None, cosmetic, avatar, 0, now.instant, connection)
  }

  // ----- projections -----

  function ViewPlayer(p: Player): PlayerView {
    PlayerView(p.name, p.pose, p.carriedTea, p.carriedOrder, p.cosmetic, p.avatar)
  }

  function View(room: Room): RoomView {
    RoomView(map p | p in room.players :: ViewPlayer(room.players[p]), room.activity)
  }

  function Poses(players: Players): map<Uuid, Pose> {
    map p | p in players :: players[p].pose
  }

  // ----- outgoing channels -----

  function Send(room: Room, m: ServerMessage): Room {
    room.(reliable := room.reliable + [m])
  }

  function Say(room: Room, key: Dialogue): Room {
    Send(room, DialogueMessage(key))
  }

  function BroadcastSnapshot(room: Room): Room {
    Send(room.(revision := room.revision + 1, dirty := false), Snapshot(room.revision + 1, View(room)))
  }

  function BroadcastMovement(room: Room): Room {
    room.(revision := room.revision + 1, dirty := false,
          movement := MovementUpdate(room.revision + 1, Poses(room.players)),
          movementVersion := room.movementVersion + 1)
  }

  function LastOf<T>(s: seq<T>, n: nat): seq<T> {
    if |s| <= n then s else s[|s| - n..]
  }

  function PushChatEvent(room: Room, event: ChatEvent): Room {
    Send(room.(chatHistory := LastOf(room.chatHistory + [event], CHAT_HISTORY_LIMIT)), ChatMessage(event))
  }

  // ----- joining and leaving -----

  predicate CanJoin(room: Room, pid: Uuid) {
    pid in room.players || |room.players| < ROOM_CAPACITY
  }

  /** A reconnecting player keeps position and hands, under the new connection. */
  function Seated(room: Room, pid: Uuid, player: Player): Player {
    if pid in room.players then
      var existing := room.players[pid];
      player.(pose := existing.pose.(moving := false), carriedTea := existing.carriedTea,
              carriedRush := existing.carriedRush, carriedOrder := existing.carriedOrder)
    else player
  }

  /** `join`, when `CanJoin`; `tick` is the stop channel made for a newly occupied room. */
  function Join(room: Room, pid: Uuid, player: Player, tick: nat, now: Now): Room {
    var seated := BroadcastSnapshot(room.(
        players := room.players[pid := Seated(room, pid, player)], everJoined := true, emptySince := None));
    var announced := if pid in room.players then seated
                     else PushChatEvent(seated, ChatEvent(JoinedEvent, pid, player.name, None, now.millis));
    if room.players == map[] then announced.(tickStop := Some(tick)) else announced
  }

  predicate Owns(room: Room, pid: Uuid, connection: Uuid) {
    pid in room.players && room.players[pid].connection == connection
  }

  function Leave(room: Room, pid: Uuid, connection: Uuid, now: Now): Room {
    if !Owns(room, pid, connection) then room
    else
      var player := room.players[pid];
      var left := ChatEvent(LeftEvent, pid, player.name, None, now.millis);
      var rest := room.(players := room.players - {pid}, activity := Depart(room.activity, player, pid));
      if rest.players == map[] then
        PushChatEvent(rest, left).(dirty := false, emptySince := Some(now.instant), tickStop := None)
      else PushChatEvent(BroadcastSnapshot(rest), left)
  }

  // ----- movement -----

  /** A move request; a coordinate is None when the float is not finite. */
  datatype Movement = Movement(x: Option<real>, y: Option<real>, direction: Direction, moving: bool, sequence: nat)

  function ClampReal(v: real, lo: real, hi: real): (r: real)
    requires lo <= hi
    ensures lo <= r <= hi
  {
    if v < lo then lo else if v > hi then hi else v
  }

  function MaxDelta(elapsed: real): real {
    210.0 * ClampReal(elapsed, 0.016, 0.5) + 22.0
  }

  /** The requested point, pulled back to `maxDelta` from `from`; `root` is the distance asked for. */
  function Limited(from: Point, to: Point, maxDelta: real, root: real): Point {
    if root > maxDelta && root > 0.0 then
      Point(from.x + (to.x - from.x) / root * maxDelta, from.y + (to.y - from.y) / root * maxDelta)
    else to
  }

  function Clamped(p: Point): Point {
    Point(ClampReal(p.x, COLLISION_RADIUS, MAP_WIDTH - COLLISION_RADIUS),
          ClampReal(p.y, COLLISION_RADIUS, MAP_HEIGHT - COLLISION_RADIUS))
  }

  predicate Accepts(room: Room, pid: Uuid, connection: Uuid, m: Movement) {
    Owns(room, pid, connection) && m.sequence > room.players[pid].lastSequence && m.x.Some? && m.y.Some?
  }

  function MovedPose(pose: Pose, m: Movement, elapsed: real, root: real): Pose
    requires m.x.Some? && m.y.Some?
  {
    var next := Clamped(Limited(At(pose), Point(m.x.value, m.y.value), MaxDelta(elapsed), root));
    if Collides(next.x, next.y) then Pose(pose.x, pose.y, m.direction, m.moving)
    else Pose(next.x, next.y, m.direction, m.moving)
  }

  function Move(room: Room, pid: Uuid, connection: Uuid, m: Movement, root: real, now: Now): Room {
    if !Accepts(room, pid, connection, m) then room
    else
      var player := room.players[pid];
      room.(dirty := true,
            players := room.players[pid := player.(
              pose := MovedPose(player.pose, m, now.instant - player.lastMoveAt, root),
              lastSequence := m.sequence, lastMoveAt := now.instant)])
  }

  datatype TickOutcome = Stop | Clean | Sent

  function FlushOutcome(room: Room): TickOutcome {
    if room.players == map[] then Stop else if room.dirty then Sent else Clean
  }

  function Flush(room: Room): Room {
    if FlushOutcome(room) == Sent then BroadcastMovement(room) else room
  }

  // ----- interactions and rounds -----

  /** The room after an outcome: the dialogue goes out before the snapshot. */
  function Apply(room: Room, o: Outcome): Room {
    var updated := room.(players := o.players, activity := o.activity);
    var said := if o.say.Some? then Say(updated, o.say.value) else updated;
    if o.changed then BroadcastSnapshot(said) else said
  }

  lemma ApplyFacts(room: Room, o: Outcome)
    ensures Apply(room, o).players == o.players && Apply(room, o).activity == o.activity
  {
  }

  function Owners(players: Players): map<Uuid, Owner> {
    map p | p in players :: players[p].owner
  }

  function Interact(room: Room, pid: Uuid, connection: Uuid, target: Target, now: Now): Room {
    if !Owns(room, pid, connection) then room
    else Apply(room, Act(room.players, room.activity, pid, target, now.millis))
  }

  function CompletedRound(room: Room, pid: Uuid, connection: Uuid, target: Target, now: Now): Option<nat> {
    if !Owns(room, pid, connection) then None
    else Act(room.players, room.activity, pid, target, now.millis).completedRound
  }

  predicate CanStart(room: Room, completed: nat) {
    room.activity.round == completed && room.activity.phase == Intermission
  }

  function RoundReady(kind: ActivityKind): Dialogue {
    match kind
    case TeaDelivery => TeaRoundReady
    case TableService => ServiceRoundReady
    case CafeRush => RushRoundReady
  }

  function StartNextRound(room: Room, completed: nat, now: Now): Room {
    if !CanStart(room, completed) then room
    else
      var activity := ForRound(NextRound(completed), |room.players|, now.millis);
      Say(BroadcastSnapshot(room.(activity := activity, players := AllHandsEmptied(room.players))),
          RoundReady(activity.kind))
  }

  lemma StartFacts(room: Room, completed: nat, now: Now)
    requires CanStart(room, completed)
    ensures var next := StartNextRound(room, completed, now);
            && next.activity == ForRound(NextRound(completed), |room.players|, now.millis)
            && next.players == AllHandsEmptied(room.players)
  {
  }

  lemma ExpireFacts(room: Room, round: nat, now: Now)
    requires CanExpire(room, round)
    ensures var next := ExpireCafeRush(room, round, now);
            && next.activity == Expired(room.activity, now.millis)
            && next.players == AllHandsEmptied(room.players)
  {
  }

  predicate CanExpire(room: Room, round: nat) {
    && room.activity.kind == CafeRush && room.activity.round == round
    && room.activity.phase == Active && !room.activity.completed
  }

  function ExpireCafeRush(room: Room, round: nat, now: Now): Room {
    if !CanExpire(room, round) then room
    else
      BroadcastSnapshot(Say(
        room.(activity := Expired(room.activity, now.millis), players := AllHandsEmptied(room.players)), RushTimeUp))
  }

  // ----- chat, emotes, rewards and loadouts -----

  function Chat(room: Room, pid: Uuid, connection: Uuid, text: string, now: Now): Room {
    if !Owns(room, pid, connection) then room
    else PushChatEvent(room, ChatEvent(MessageEvent, pid, room.players[pid].name, Some(text), now.millis))
  }

  predicate AllowedEmote(emote: string) {
    emote in ["wave", "heart", "happy", "tea"]
  }

  function Emote(room: Room, pid: Uuid, connection: Uuid, emote: string): Room {
    if AllowedEmote(emote) && Owns(room, pid, connection) then Send(room, EmoteMessage(pid, emote)) else room
  }

  function Reward(room: Room, ids: seq<Uuid>, stars: nat): Room {
    room.(reliable := room.reliable + seq(|ids|, i requires 0 <= i < |ids| => RewardMessage(ids[i], stars)))
  }

  predicate SameOwner(l: Owner, r: Owner) {
    if l.user.Some? && r.user.Some? then l.user == r.user else l.session == r.session
  }

  function Dressed(players: Players, owner: Owner, cosmetic: Option<string>): Players {
    map p | p in players ::
      if SameOwner(players[p].owner, owner) then players[p].(cosmetic := cosmetic) else players[p]
  }

  function EquipCosmetic(room: Room, owner: Owner, cosmetic: Option<string>): Room {
    var dressed := Dressed(room.players, owner, cosmetic);
    if dressed == room.players then room else BroadcastSnapshot(room.(players := dressed))
  }

  function WithAvatar(players: Players, owner: Owner, avatar: string): Players {
    map p | p in players ::
      if SameOwner(players[p].owner, owner) then players[p].(avatar := avatar) else players[p]
  }

  function EquipAvatar(room: Room, owner: Owner, avatar: string): Room {
    var dressed := WithAvatar(room.players, owner, avatar);
    if dressed == room.players then room else BroadcastSnapshot(room.(players := dressed))
  }
}
