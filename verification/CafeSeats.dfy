/** Seats and looks: who gets into a room, what a player brings along, and who is dressed by a change of loadout. */
module CafeSeats {
  import opened Basics
  import opened CafeModel
  import opened CafeFloor
  import opened CafeRooms
  import opened CafeWorld
  import opened CafeRun
  import opened CafeSpeed

  // ----- seats -----

  /** A player gets in exactly if already there or if fewer than eight are; then it looks as it introduced itself,
      under its new connection, and keeps its place and hands if it was there, or else starts at the spawn with empty
      hands. */
  lemma JoinsExactly(w: World, e: Event)
    requires e.Joins? && !w.gone
    ensures var v := Next(w, e);
            var known := e.pid in w.room.players;
            if known || |w.room.players| < 8 then
              && v.room.players.Keys == w.room.players.Keys + {e.pid}
              && (forall p :: p in w.room.players && p != e.pid ==> v.room.players[p] == w.room.players[p])
              && var player := v.room.players[e.pid];
                 && player.owner == e.owner && player.name == e.name
                 && player.cosmetic == e.cosmetic && player.avatar == e.avatar
                 && player.connection == e.connection && player.lastSequence == 0 && player.lastMoveAt == e.now.instant
                 && !player.pose.moving
                 && At(player.pose) == (if known then At(w.room.players[e.pid].pose) else Point(640.0, 704.0))
                 && player.pose.direction == (if known then w.room.players[e.pid].pose.direction else Up)
                 && player.carriedTea == (if known then w.room.players[e.pid].carriedTea else 0)
                 && player.carriedRush == (if known then w.room.players[e.pid].carriedRush else [])
                 && player.carriedOrder == (if known then w.room.players[e.pid].carriedOrder else None)
            else v == w
  {
    JoinFacts(w.room, e.pid, NewPlayer(e.owner, e.name, e.cosmetic, e.avatar, e.connection, e.now), e.tick, e.now);
    hide Join, NewClient;
  }

  lemma StepCapacity(w: World, e: Event)
    requires |w.room.players| <= 8
    ensures |Next(w, e).room.players| <= 8
  {
    var v := Next(w, e);
    hide Next;
    if e.Joins? {
      if w.gone { GoneJoin(w, e); } else { JoinsExactly(w, e); }
      SubsetSize(v.room.players.Keys,
                 if |w.room.players| < 8 then w.room.players.Keys + {e.pid} else w.room.players.Keys);
    } else {
      NobodyNew(w, e);
      SubsetSize(v.room.players.Keys, w.room.players.Keys);
    }
    assert |v.room.players| == |v.room.players.Keys| && |w.room.players| == |w.room.players.Keys|;
  }

  lemma GoneJoin(w: World, e: Event)
    requires w.gone && e.Joins?
    ensures Next(w, e) == w
  {
  }

  lemma {:induction false} RunCapacity(w: World, es: seq<Event>)
    requires |w.room.players| <= 8
    ensures |Run(w, es).room.players| <= 8
    decreases es
  {
    hide Next;
    if es != [] {
      StepCapacity(w, es[0]);
      RunCapacity(Next(w, es[0]), es[1..]);
    }
  }

  /** No run ever seats more than eight players in a room. */
  lemma NeverOverfull(code: string, isPrivate: bool, created: Now, es: seq<Event>)
    ensures |Run(NewWorld(code, isPrivate, created), es).room.players| <= 8
  {
    RunCapacity(NewWorld(code, isPrivate, created), es);
  }

  // ----- how much there is to do -----

  /** A rush has two orders more than players, but no fewer than three and no more than six; it draws them, and its
      ingredients, in the order of the menu. */
  lemma RushSize(round: nat, players: nat, now: int)
    requires round % 3 == 0
    ensures var a := ForRound(round, players, now);
            && a.kind == CafeRush && |a.orders| == |a.leaves| == a.target
            && (players <= 1 ==> a.target == 3) && (1 <= players <= 4 ==> a.target == players + 2)
            && (players >= 4 ==> a.target == 6)
            && (forall i :: 0 <= i < a.target ==>
                  && a.orders[i].recipe == CAFE_RUSH_ORDERS[i] && a.leaves[i].at == CAFE_RUSH_INGREDIENTS[i])
  {
  }

  lemma TableRoundSize(round: nat, players: nat, now: int)
    requires round % 3 == 2
    ensures var a := ForRound(round, players, now);
            && a.kind == TableService && a.target == 3
            && |a.orders| == 3 && forall i :: 0 <= i < 3 ==> a.orders[i].recipe == TABLE_SERVICE_ORDERS[i]
  {
  }

  // ----- looks -----

  /** Whose player this is: signed-in owners are compared by account, others by session. */
  ghost predicate BelongsToOwner(player: Player, owner: Owner) {
    match (player.owner.user, owner.user)
    case (Some(u), Some(v)) => u == v
    case _ => player.owner.session == owner.session
  }

  lemma DressedExactly(players: Players, owner: Owner, cosmetic: Option<string>)
    ensures var dressed := Dressed(players, owner, cosmetic);
            && dressed.Keys == players.Keys
            && forall p :: p in players ==>
                 dressed[p] == if BelongsToOwner(players[p], owner)
                               then players[p].(cosmetic := cosmetic) else players[p]
  {
  }

  /** A new cosmetic dresses exactly the owner's players, and is shown exactly if that changes somebody. */
  lemma DressesExactly(room: Room, owner: Owner, cosmetic: Option<string>)
    ensures var after := EquipCosmetic(room, owner, cosmetic);
            var changes := exists p :: p in room.players && BelongsToOwner(room.players[p], owner)
                                       && room.players[p].cosmetic != cosmetic;
            && after.players.Keys == room.players.Keys && after.activity == room.activity
            && (forall p :: p in room.players ==>
                  after.players[p] == if BelongsToOwner(room.players[p], owner)
                                      then room.players[p].(cosmetic := cosmetic) else room.players[p])
            && |after.reliable| == |room.reliable| + (if changes then 1 else 0)
  {
    var dressed := Dressed(room.players, owner, cosmetic);
    DressedExactly(room.players, owner, cosmetic);
    hide View, Dressed, BelongsToOwner;
    if p :| p in room.players && BelongsToOwner(room.players[p], owner) && room.players[p].cosmetic != cosmetic {
      assert dressed[p] != room.players[p];
    }
  }

  /** The same for avatars. */
  lemma AvatarsExactly(room: Room, owner: Owner, avatar: string)
    ensures var after := EquipAvatar(room, owner, avatar);
            var changes := exists p :: p in room.players && BelongsToOwner(room.players[p], owner)
                                       && room.players[p].avatar != avatar;
            && after.players.Keys == room.players.Keys && after.activity == room.activity
            && (forall p :: p in room.players ==>
                  after.players[p] == if BelongsToOwner(room.players[p], owner)
                                      then room.players[p].(avatar := avatar) else room.players[p])
            && |after.reliable| == |room.reliable| + (if changes then 1 else 0)
  {
    hide View;
    var dressed := WithAvatar(room.players, owner, avatar);
    if p :| p in room.players && BelongsToOwner(room.players[p], owner) && room.players[p].avatar != avatar {
      assert dressed[p] != room.players[p];
    }
  }
}
