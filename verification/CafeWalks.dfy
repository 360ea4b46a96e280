/** How far players get over whole runs: 127 for each accepted movement message, and nowhere otherwise. */
module CafeWalks {
  import opened Basics
  import opened CafeModel
  import opened CafeFloor
  import opened CafeProgress
  import opened CafeMovement
  import opened CafeRooms
  import opened CafeWorld
  import opened CafeRun

  /** Whoever is there before and after stands where it stood. */
  ghost predicate SamePlaces(before: Players, after: Players) {
    forall p :: p in before && p in after ==> At(after[p].pose) == At(before[p].pose)
  }

  /** The service's clock of each player's last movement message is as it was. */
  ghost predicate SameTimes(before: Players, after: Players) {
    forall p :: p in before && p in after ==> after[p].lastMoveAt == before[p].lastMoveAt
  }

  lemma InteractPlaces(room: Room, pid: Uuid, connection: Uuid, target: Target, now: Now)
    ensures SamePlaces(room.players, Interact(room, pid, connection, target, now).players)
    ensures SameTimes(room.players, Interact(room, pid, connection, target, now).players)
  {
    if Owns(room, pid, connection) {
      var o := Act(room.players, room.activity, pid, target, now.millis);
      ActTidy(room.players, room.activity, pid, target, now.millis);
      ApplyFacts(room, o);
      hide Act, Apply;
      forall p | p in room.players && p in o.players
        ensures o.players[p].pose == room.players[p].pose && o.players[p].lastMoveAt == room.players[p].lastMoveAt
      {
        assert EmptyHands(o.players[p]) == EmptyHands(room.players[p]);
      }
    }
  }

  lemma RoundPlaces(room: Room, round: nat, now: Now)
    ensures SamePlaces(room.players, StartNextRound(room, round, now).players)
    ensures SamePlaces(room.players, ExpireCafeRush(room, round, now).players)
    ensures SameTimes(room.players, StartNextRound(room, round, now).players)
    ensures SameTimes(room.players, ExpireCafeRush(room, round, now).players)
  {
    hide ForRound, View;
  }

  lemma EquipPlaces(room: Room, owner: Owner, cosmetic: Option<string>, avatar: string)
    ensures SamePlaces(room.players, EquipCosmetic(room, owner, cosmetic).players)
    ensures SamePlaces(room.players, EquipAvatar(room, owner, avatar).players)
    ensures SameTimes(room.players, EquipCosmetic(room, owner, cosmetic).players)
    ensures SameTimes(room.players, EquipAvatar(room, owner, avatar).players)
  {
    hide View, Dressed, WithAvatar;
    DressedOnly(room.players, owner, cosmetic, avatar);
  }

  lemma JoinPlaces(room: Room, pid: Uuid, player: Player, tick: nat, now: Now)
    ensures SamePlaces(room.players, Join(room, pid, player, tick, now).players)
  {
    JoinFacts(room, pid, player, tick, now);
    hide Join;
  }

  lemma LeavePlaces(room: Room, pid: Uuid, connection: Uuid, now: Now)
    ensures SamePlaces(room.players, Leave(room, pid, connection, now).players)
    ensures SameTimes(room.players, Leave(room, pid, connection, now).players)
  {
    if Owns(room, pid, connection) { LeaveFacts(room, pid, connection, now); }
    hide Leave, Depart;
  }

  lemma QuietPlaces(w: World, e: Event)
    requires e.Chats? || e.Emotes? || e.Rewards? || e.SpawnsStart? || e.SpawnsRush? || e.SpawnsTick? || e.TickWakes?
          || e.TickFlushes? || e.Delivers? || e.Cleans?
    ensures Next(w, e).room.players == w.room.players
  {
    hide LastOf, Poses, Receive, Becomes, SignalStop, TtlOver, FlushOutcome, View, AllowedEmote;
  }

  /** Every event but a movement message leaves everybody in place. */
  lemma StepPlaces(w: World, e: Event)
    requires !e.Moves?
    ensures SamePlaces(w.room.players, Next(w, e).room.players)
    ensures !e.Joins? ==> SameTimes(w.room.players, Next(w, e).room.players)
  {
    hide SamePlaces, SameTimes, Join, Leave, Interact, EquipCosmetic, EquipAvatar, StartNextRound, ExpireCafeRush,
         CompletedRound, NewClient, SignalStop, Becomes, Receive, FlushOutcome, Flush, Chat, Emote, Reward, TtlOver;
    NobodyMoved(w.room.players);
    match e
    case Joins(pid, owner, name, cosmetic, avatar, connection, tick, now) =>
      JoinPlaces(w.room, pid, NewPlayer(owner, name, cosmetic, avatar, connection, now), tick, now);
    case Leaves(pid, connection, now) => LeavePlaces(w.room, pid, connection, now);
    case Interacts(pid, connection, target, now) => InteractPlaces(w.room, pid, connection, target, now);
    case EquipsCosmetic(owner, cosmetic) => EquipPlaces(w.room, owner, cosmetic, "");
    case EquipsAvatar(owner, avatar) => EquipPlaces(w.room, owner, None, avatar);
    case StartFires(round, now) => RoundPlaces(w.room, round, now);
    case RushFires(round, now) => RoundPlaces(w.room, round, now);
    case _ => QuietPlaces(w, e);
  }

  lemma NobodyMoved(players: Players)
    ensures SamePlaces(players, players) && SameTimes(players, players)
  {
  }

  predicate MoveAccepted(w: World, e: Event, p: Uuid) {
    e.Moves? && e.pid == p && !w.gone && Accepts(w.room, p, e.connection, e.m)
  }

  /** The accepted movement messages of a player in a run. */
  function MovesOf(w: World, es: seq<Event>, p: Uuid): nat
    decreases es
  {
    if es == [] then 0 else (if MoveAccepted(w, es[0], p) then 1 else 0) + MovesOf(Next(w, es[0]), es[1..], p)
  }

  /** The player is there throughout. */
  ghost predicate Stays(w: World, es: seq<Event>, p: Uuid)
    decreases es
  {
    p in w.room.players && (es != [] ==> Stays(Next(w, es[0]), es[1..], p))
  }

  lemma StepWithin(w: World, e: Event, p: Uuid)
    requires AllStanding(w.room.players) && Enabled(w, e) && p in w.room.players && p in Next(w, e).room.players
    ensures var before, after := At(w.room.players[p].pose), At(Next(w, e).room.players[p].pose);
            Within(before, after, if MoveAccepted(w, e, p) then 127.0 else 0.0)
  {
    var before, after := At(w.room.players[p].pose), At(Next(w, e).room.players[p].pose);
    if e.Moves? {
      MoveWithin(w, e, p);
    } else {
      StepPlaces(w, e);
      hide Next;
      WithinSelf(before, 0.0);
    }
  }

  lemma MoveWithin(w: World, e: Event, p: Uuid)
    requires AllStanding(w.room.players) && Enabled(w, e) && e.Moves? && p in w.room.players
    ensures p in Next(w, e).room.players
    ensures Within(At(w.room.players[p].pose), At(Next(w, e).room.players[p].pose),
                   if MoveAccepted(w, e, p) then 127.0 else 0.0)
  {
    var before := w.room.players[p].pose;
    hide Within, MovedPose, SquaredDistance;
    WithinSelf(At(before), 0.0);
    if MoveAccepted(w, e, p) {
      var elapsed := e.now.instant - w.room.players[p].lastMoveAt;
      MovedPoseLegal(before, e.m, elapsed, e.root);
      WithinMonotone(At(before), At(MovedPose(before, e.m, elapsed, e.root)), MaxDelta(elapsed), 127.0);
    }
  }

  /** At most `n` movement messages away. */
  ghost predicate Steps(p: Point, q: Point, n: nat) {
    Within(p, q, 127.0 * n as real)
  }

  lemma StepsOn(p: Point, q: Point, r: Point, one: nat, n: nat)
    requires Steps(p, q, one) && Steps(q, r, n)
    ensures Steps(p, r, one + n)
  {
    hide Within;
    Triangle(p, q, r, 127.0 * one as real, 127.0 * n as real);
    assert 127.0 * one as real + 127.0 * n as real == 127.0 * (one + n) as real;
  }

  function OneIf(b: bool): nat {
    if b then 1 else 0
  }

  lemma StepSteps(w: World, e: Event, p: Uuid)
    requires WorldInv(w) && Enabled(w, e) && p in w.room.players && p in Next(w, e).room.players
    ensures Steps(At(w.room.players[p].pose), At(Next(w, e).room.players[p].pose), OneIf(MoveAccepted(w, e, p)))
  {
    hide WorldInv, Next, Enabled, Within, MoveAccepted;
    InvStanding(w);
    StepWithin(w, e, p);
  }

  /** The first step of a run, spelled out. */
  lemma Head(w: World, es: seq<Event>, p: Uuid)
    requires es != [] && Stays(w, es, p)
    ensures p in w.room.players && p in Next(w, es[0]).room.players && Stays(Next(w, es[0]), es[1..], p)
    ensures Run(w, es) == Run(Next(w, es[0]), es[1..])
    ensures Legal(w, es) ==> Enabled(w, es[0]) && Legal(Next(w, es[0]), es[1..])
    ensures MovesOf(w, es, p) == OneIf(MoveAccepted(w, es[0], p)) + MovesOf(Next(w, es[0]), es[1..], p)
  {
    hide Next, Enabled, MoveAccepted;
    assert Stays(Next(w, es[0]), es[1..], p);
  }

  lemma {:induction false} RunSteps(w: World, es: seq<Event>, p: Uuid)
    requires WorldInv(w) && Legal(w, es) && Stays(w, es, p)
    ensures p in w.room.players && p in Run(w, es).room.players
    ensures Steps(At(w.room.players[p].pose), At(Run(w, es).room.players[p].pose), MovesOf(w, es, p))
    decreases es
  {
    if es == [] {
      hide WorldInv, Next;
      WithinSelf(At(w.room.players[p].pose), 0.0);
    } else {
      hide WorldInv, Next, Enabled, Steps, MoveAccepted, Run, Legal, Stays, MovesOf;
      var v := Next(w, es[0]);
      Head(w, es, p);
      StepInv(w, es[0]);
      StepSteps(w, es[0], p);
      RunSteps(v, es[1..], p);
      StepsOn(At(w.room.players[p].pose), At(v.room.players[p].pose), At(Run(v, es[1..]).room.players[p].pose),
              OneIf(MoveAccepted(w, es[0], p)), MovesOf(v, es[1..], p));
    }
  }

  /** From any state of a room on, a player who stays is always at an allowed spot, and at most 127 times as far away
      as it had movement messages accepted. */
  lemma WalkBounded(code: string, isPrivate: bool, created: Now, es: seq<Event>, more: seq<Event>, p: Uuid)
    requires Legal(NewWorld(code, isPrivate, created), es)
    requires var w := Run(NewWorld(code, isPrivate, created), es); Legal(w, more) && Stays(w, more, p)
    ensures var w := Run(NewWorld(code, isPrivate, created), es);
            var v := Run(w, more);
            && p in w.room.players && p in v.room.players
            && Standable(v.room.players[p].pose.x, v.room.players[p].pose.y)
            && Within(At(w.room.players[p].pose), At(v.room.players[p].pose), 127.0 * MovesOf(w, more, p) as real)
  {
    hide Run, Legal, NewWorld, WorldInv, Within, MovesOf, Standable, Stays;
    var w0 := NewWorld(code, isPrivate, created);
    var w := Run(w0, es);
    NewWorldInv(code, isPrivate, created);
    RunInv(w0, es);
    RunSteps(w, more, p);
    RunInv(w, more);
    InvStanding(Run(w, more));
  }
}
