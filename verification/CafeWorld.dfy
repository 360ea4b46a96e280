/**
 One room together with everything that acts on it concurrently: socket connections
 with their two channel cursors, delayed round and rush timers, and movement ticks.
 Each section under the room lock is one event; events interleave freely.
 */
module CafeWorld {
  import opened Basics
  import opened CafeModel
  import opened CafeRooms

  /** A delayed round timer, from the moment its cause is reported to its last sleep. */
  datatype Task =
    | CompletionReported(round: nat)
    | StartSleeping(round: nat)
    | RushReported(round: nat)
    | RushSleeping(round: nat)

  /** `flushing`: the loop chose its interval branch and has not flushed yet. */
  datatype Tick = Tick(spawned: bool, stopSent: bool, flushing: bool, done: bool)

  /** A connection: its receiver cursors and what its client has been shown so far.
      The client keeps the poses of the highest revision it has seen. */
  datatype Client = Client(
    player: Uuid,
    joinedAt: nat,
    cursor: nat,
    seenVersion: nat,
    open: bool,
    snapRevision: nat,
    snap: RoomView,
    poseRevision: nat,
    poses: map<Uuid, Pose>,
    history: seq<ChatEvent>,
    chat: seq<ChatEvent>)

  datatype Ending = Ending(round: nat, completed: bool)

  datatype World = World(
    room: Room,
    gone: bool,
    tasks: multiset<Task>,
    ticks: map<nat, Tick>,
    clients: map<Uuid, Client>,
    ended: seq<Ending>,
    started: seq<nat>)

  datatype Event =
    | Joins(pid: Uuid, owner: Owner, name: string, cosmetic: Option<string>, avatar: string,
            connection: Uuid, tick: nat, now: Now)
    | Leaves(pid: Uuid, connection: Uuid, now: Now)
    | Moves(pid: Uuid, connection: Uuid, m: Movement, root: real, now: Now)
    | Interacts(pid: Uuid, connection: Uuid, target: Target, now: Now)
    | Chats(pid: Uuid, connection: Uuid, text: string, now: Now)
    | Emotes(pid: Uuid, connection: Uuid, emote: string)
    | Rewards(ids: seq<Uuid>, stars: nat)
    | EquipsCosmetic(owner: Owner, cosmetic: Option<string>)
    | EquipsAvatar(owner: Owner, avatar: string)
    | SpawnsStart(round: nat)
    | StartFires(round: nat, now: Now)
    | SpawnsRush(round: nat)
    | RushFires(round: nat, now: Now)
    | SpawnsTick(tick: nat)
    | TickWakes(tick: nat)
    | TickFlushes(tick: nat)
    | Delivers(connection: Uuid)
    | Cleans(now: Now, neverJoinedTtl: real, emptyTtl: real)

  function NewWorld(code: string, isPrivate: bool, now: Now): World {
    World(NewRoom(code, isPrivate, now), false, multiset{}, map[], map[], [], [])
  }

  // ----- what a receiver does -----

  function ViewPoses(v: RoomView): map<Uuid, Pose> {
    map p | p in v.players :: v.players[p].pose
  }

  function TakePoses(c: Client, revision: nat, poses: map<Uuid, Pose>): Client {
    if revision > c.poseRevision then c.(poseRevision := revision, poses := poses) else c
  }

  function TakeReliable(c: Client, m: ServerMessage): Client {
    var next := c.(cursor := c.cursor + 1);
    match m
    case Snapshot(revision, view) =>
      TakePoses(next, revision, ViewPoses(view)).(snapRevision := revision, snap := view)
    case ChatMessage(event) => next.(chat := next.chat + [event])
    case _ => next
  }

  /** `receive_outbound_room_message`: reliable messages first, closing on lag. */
  function Receive(c: Client, room: Room, gone: bool): Client {
    if !c.open then c
    else if c.cursor < |room.reliable| then
      if |room.reliable| - c.cursor > BROADCAST_CAPACITY then c.(open := false)
      else TakeReliable(c, room.reliable[c.cursor])
    else if gone then c.(open := false)
    else if c.seenVersion < room.movementVersion then
      TakePoses(c.(seenVersion := room.movementVersion), room.movement.revision, room.movement.poses)
    else c
  }

  /** The receivers made by `join` and the welcome that is sent before them. */
  function NewClient(pid: Uuid, before: Room, after: Room): Client {
    var revision := before.revision + 1;
    Client(pid, |before.reliable|, |before.reliable|, after.movementVersion, true,
           revision, View(after), revision, Poses(after.players), before.chatHistory, [])
  }

  // ----- steps -----

  function JoinStep(w: World, pid: Uuid, player: Player, connection: Uuid, tick: nat, now: Now): World {
    if w.gone || !CanJoin(w.room, pid) then w
    else
      var room := Join(w.room, pid, player, tick, now);
      w.(room := room,
         clients := w.clients[connection := NewClient(pid, w.room, room)],
         ticks := if w.room.players == map[] then w.ticks[tick := Tick(false, false, false, false)] else w.ticks)
  }

  function SignalStop(ticks: map<nat, Tick>, stop: Option<nat>): map<nat, Tick> {
    if stop.Some? && stop.value in ticks then ticks[stop.value := ticks[stop.value].(stopSent := true)] else ticks
  }

  function LeaveStep(w: World, pid: Uuid, connection: Uuid, now: Now): World {
    if w.gone || !Owns(w.room, pid, connection) then w
    else
      var room := Leave(w.room, pid, connection, now);
      w.(room := room, ticks := if room.players == map[] then SignalStop(w.ticks, w.room.tickStop) else w.ticks)
  }

  function InteractStep(w: World, pid: Uuid, connection: Uuid, target: Target, now: Now): World {
    if w.gone then w
    else
      var completed := CompletedRound(w.room, pid, connection, target, now);
      var next := w.(room := Interact(w.room, pid, connection, target, now));
      if completed.None? then next
      else next.(tasks := w.tasks + multiset{CompletionReported(completed.value)},
                 ended := w.ended + [Ending(completed.value, true)])
  }

  function StartStep(w: World, round: nat, now: Now): World {
    if StartSleeping(round) !in w.tasks then w
    else
      var woken := w.(tasks := w.tasks - multiset{StartSleeping(round)});
      if w.gone || !CanStart(w.room, round) then woken
      else
        var room := StartNextRound(w.room, round, now);
        woken.(room := room, started := w.started + [round],
               tasks := woken.tasks + (if room.activity.kind == CafeRush
                                        then multiset{RushReported(room.activity.round)}
                                       else multiset{}))
  }

  function RushStep(w: World, round: nat, now: Now): World {
    if RushSleeping(round) !in w.tasks then w
    else
      var woken := w.(tasks := w.tasks - multiset{RushSleeping(round)});
      if w.gone || !CanExpire(w.room, round) then woken
      else woken.(room := ExpireCafeRush(w.room, round, now), ended := w.ended + [Ending(round, false)],
                  tasks := woken.tasks + multiset{StartSleeping(round)})
  }

  function Becomes(tasks: multiset<Task>, old_: Task, new_: Task): multiset<Task> {
    if old_ in tasks then tasks - multiset{old_} + multiset{new_} else tasks
  }

  function TickStep(w: World, t: nat, e: Event): World
    requires e.SpawnsTick? || e.TickWakes? || e.TickFlushes?
  {
    if t !in w.ticks || w.ticks[t].done then w
    else
      var tick := w.ticks[t];
      match e
      case SpawnsTick(_) => w.(ticks := w.ticks[t := tick.(spawned := true)])
      case TickWakes(_) =>
        if !tick.spawned || tick.flushing then w
        else w.(ticks := w.ticks[t := if tick.stopSent then tick.(done := true) else tick.(flushing := true)])
      case TickFlushes(_) =>
        if !tick.flushing then w
        else
          var over := w.gone || FlushOutcome(w.room) == Stop;
          w.(ticks := w.ticks[t := tick.(flushing := false, done := over)],
             room := if over then w.room else Flush(w.room))
  }

  /** `saturating_duration_since` on monotonic seconds. */
  function Since(now: real, then_: real): real {
    if now >= then_ then now - then_ else 0.0
  }

  predicate TtlOver(room: Room, now: Now, neverJoinedTtl: real, emptyTtl: real) {
    && room.players == map[]
    && if room.everJoined then room.emptySince.Some? && Since(now.instant, room.emptySince.value) >= emptyTtl
       else Since(now.instant, room.createdAt) >= neverJoinedTtl
  }

  function Update(w: World, room: Room): World {
    if w.gone then w else w.(room := room)
  }

  function Next(w: World, e: Event): World {
    match e
    case Joins(pid, owner, name, cosmetic, avatar, connection, tick, now) =>
      JoinStep(w, pid, NewPlayer(owner, name, cosmetic, avatar, connection, now), connection, tick, now)
    case Leaves(pid, connection, now) => LeaveStep(w, pid, connection, now)
    case Moves(pid, connection, m, root, now) => Update(w, Move(w.room, pid, connection, m, root, now))
    case Interacts(pid, connection, target, now) => InteractStep(w, pid, connection, target, now)
    case Chats(pid, connection, text, now) => Update(w, Chat(w.room, pid, connection, text, now))
    case Emotes(pid, connection, emote) => Update(w, Emote(w.room, pid, connection, emote))
    case Rewards(ids, stars) => Update(w, Reward(w.room, ids, stars))
    case EquipsCosmetic(owner, cosmetic) => Update(w, EquipCosmetic(w.room, owner, cosmetic))
    case EquipsAvatar(owner, avatar) => Update(w, EquipAvatar(w.room, owner, avatar))
    case SpawnsStart(round) => w.(tasks := Becomes(w.tasks, CompletionReported(round), StartSleeping(round)))
    case StartFires(round, now) => StartStep(w, round, now)
    case SpawnsRush(round) => w.(tasks := Becomes(w.tasks, RushReported(round), RushSleeping(round)))
    case RushFires(round, now) => RushStep(w, round, now)
    case SpawnsTick(t) => TickStep(w, t, e)
    case TickWakes(t) => TickStep(w, t, e)
    case TickFlushes(t) => TickStep(w, t, e)
    case Delivers(connection) =>
      if connection in w.clients
      then w.(clients := w.clients[connection := Receive(w.clients[connection], w.room, w.gone)])
      else w
    case Cleans(now, neverJoinedTtl, emptyTtl) =>
      if !w.gone && TtlOver(w.room, now, neverJoinedTtl, emptyTtl)
      then w.(gone := true, ticks := SignalStop(w.ticks, w.room.tickStop), room := w.room.(tickStop := None))
      else w
  }

  /** Connection ids and stop channels are fresh, a distance comes with its root, and a
      room plays fewer than 2^32 - 1 rounds. */
  ghost predicate Enabled(w: World, e: Event) {
    match e
    case Joins(_, _, _, _, _, connection, tick, _) => connection !in w.clients && tick !in w.ticks
    case Moves(pid, connection, m, root, _) =>
      Accepts(w.room, pid, connection, m) ==>
        root >= 0.0 && root * root == SquaredDistance(At(w.room.players[pid].pose), Point(m.x.value, m.y.value))
    case StartFires(round, _) => CanStart(w.room, round) ==> round < U32_MAX
    case _ => true
  }

  function Run(w: World, es: seq<Event>): World
    decreases es
  {
    if es == [] then w else Run(Next(w, es[0]), es[1..])
  }

  ghost predicate Legal(w: World, es: seq<Event>)
    decreases es
  {
    es == [] || (Enabled(w, es[0]) && Legal(Next(w, es[0]), es[1..]))
  }
}
