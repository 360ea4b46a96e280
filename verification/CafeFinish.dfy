/**
 Which rounds can still be completed: exactly those in which nothing is missing.  Whoever is in the
 room, or else a newcomer, walks and acts until the round is done.
 */
module CafeFinish {
  import opened Basics
  import opened CafeModel
  import opened CafeInventory
  import opened CafeRooms
  import opened CafeWorld
  import opened CafeRounds
  import opened CafeRun
  import opened CafeTea
  import opened CafeStuck
  import opened CafePlay

  // ----- finishing a round -----

  /** The same round, completed. */
  ghost predicate Done(w: World, v: World) {
    !v.gone && v.room.activity.round == w.room.activity.round && v.room.activity.completed
  }

  /** While nothing is missing, the players who are present can complete the round. */
  lemma {:induction false} Finish(w: World, from: Now) returns (es: seq<Event>, v: World, to: Now)
    requires WorldInv(w) && !w.gone && w.room.players != map[] && Playable(w.room.players, w.room.activity)
    ensures Leads(w, from, es, v, to) && Done(w, v) && v.room.players != map[]
    decreases Todo(w.room.activity)
  {
    hide WorldInv, Leads, Playable, Todo;
    var pid, spot, target := SomebodyCan(w.room.players, w.room.activity);
    var at;
    es, v, to := Errand(w, from, pid, spot, target);
    assert v.room.players != map[] by { assert pid in v.room.players; }
    if v.room.activity.phase == Active {
      LeadsLegal(w, from, es, v, to);
      var u, rest := v, [];
      at := to;
      rest, v, to := Finish(u, at);
      LeadsOn(w, from, es, u, at, rest, v, to);
      es := es + rest;
    }
  }

  lemma Unused(s: set<nat>) returns (n: nat)
    ensures forall k :: k in s ==> k < n
  {
    if s == {} {
      n := 0;
    } else {
      var k :| k in s;
      var m := Unused(s - {k});
      n := Max(m, k + 1);
      forall j | j in s ensures j < n { assert j != k ==> j in s - {k}; }
    }
  }

  /** Anybody may come into an empty room, and finds all that was left there. */
  lemma Enter(w: World, from: Now) returns (e: Event)
    requires !w.gone && w.room.players == map[] && Playable(w.room.players, w.room.activity)
    ensures Leads(w, from, [e], Next(w, e), from)
    ensures var v := Next(w, e);
            && !v.gone && v.room.players != map[] && v.room.activity == w.room.activity
            && Playable(v.room.players, v.room.activity)
  {
    var connection := Unused(w.clients.Keys);
    var tick := Unused(w.ticks.Keys);
    e := Joins(0, Owner(0, None), "", None, "", connection, tick, from);
    NewcomerFindsAll(w.room, NewPlayer(Owner(0, None), "", None, "", connection, from), tick, from);
    hide Playable, Join, NewClient, Leads;
    assert Enabled(w, e);
    LeadsOne(w, from, e);
    assert 0 in Next(w, e).room.players;
  }

  lemma NewcomerFindsAll(room: Room, player: Player, tick: nat, now: Now)
    requires room.players == map[] && Playable(room.players, room.activity) && HandsEmpty(player)
    ensures var after := Join(room, 0, player, tick, now);
            && after.activity == room.activity && 0 in after.players && Playable(after.players, after.activity)
  {
    JoinFacts(room, 0, player, tick, now);
    ArrivalBalanced(room.players, room.activity, 0, player);
    TeasSet(room.players, 0, player);
    hide Balanced, Join;
  }

  lemma CanFinish(w: World, from: Now) returns (es: seq<Event>, v: World, to: Now)
    requires WorldInv(w) && !w.gone && Playable(w.room.players, w.room.activity)
    ensures Leads(w, from, es, v, to) && Done(w, v) && v.room.players != map[]
  {
    hide WorldInv, Leads, Playable, Next;
    if w.room.players != map[] {
      es, v, to := Finish(w, from);
    } else {
      var e := Enter(w, from);
      var u := Next(w, e);
      LeadsLegal(w, from, [e], u, from);
      es, v, to := Finish(u, from);
      LeadsOn(w, from, [e], u, from, es, v, to);
      es := [e] + es;
    }
  }

  // ----- rounds that cannot be completed -----

  lemma {:induction false} NothingInRemovedRoom(w: World, es: seq<Event>)
    requires w.gone
    ensures Run(w, es).gone && Run(w, es).room.activity == w.room.activity
    decreases es
  {
    if es != [] {
      RemovedStep(w, es[0]);
      hide Next;
      NothingInRemovedRoom(Next(w, es[0]), es[1..]);
    }
  }

  lemma RemovedStep(w: World, e: Event)
    requires w.gone
    ensures Next(w, e).gone && Next(w, e).room == w.room
  {
  }

  lemma StepEnded(w: World, e: Event)
    ensures w.ended <= Next(w, e).ended
  {
    hide Join, Leave, Move, Interact, Chat, Emote, Reward, EquipCosmetic, EquipAvatar, StartNextRound, ExpireCafeRush,
         Flush, Receive, CompletedRound, NewClient, SignalStop, Becomes, FlushOutcome, TtlOver, CanJoin, CanStart,
         CanExpire, Owns;
  }

  lemma {:induction false} EndedGrows(w: World, es: seq<Event>)
    ensures w.ended <= Run(w, es).ended
    decreases es
  {
    if es != [] {
      StepEnded(w, es[0]);
      hide Next;
      EndedGrows(Next(w, es[0]), es[1..]);
    }
  }

  /** A round that timed out is not completed later. */
  lemma TimedOutForGood(w: World, es: seq<Event>)
    requires WorldInv(w) && TimedOut(w.room.activity) && Legal(w, es)
    ensures Run(w, es).room.activity.round == w.room.activity.round ==> !Run(w, es).room.activity.completed
  {
    EndedGrows(w, es);
    RunInv(w, es);
    EndingRecorded(w);
    EndingRecorded(Run(w, es));
    hide Run, Legal, WorldInv;
  }

  lemma EndingRecorded(w: World)
    requires WorldInv(w)
    ensures var a := w.room.activity;
            && 1 <= a.round && (a.completed ==> a.phase == Intermission)
            && (a.phase == Intermission ==>
                  a.round <= |w.ended| && w.ended[a.round - 1] == Ending(a.round, a.completed))
  {
    InvBalanced(w);
    assert Rounds(w) && Chronicle(CycleOf(w));
    hide Consistent, Balanced;
    BalancedPhase(w.room.players, w.room.activity);
  }

  // ----- exactly when -----

  ghost predicate Finishes(w: World, es: seq<Event>) {
    && Legal(w, es) && Run(w, es).room.activity.round == w.room.activity.round
    && Run(w, es).room.activity.completed
  }

  /** Completed, or being played with nothing missing. */
  ghost predicate Open(w: World) {
    || w.room.activity.completed
    || (&& !w.gone && w.room.activity.phase == Active
        && (w.room.activity.kind == TeaDelivery ==>
              TeaSum(w.room.players, w.room.activity) == w.room.activity.target))
  }

  lemma OpenIsPlayable(w: World)
    requires WorldInv(w) && Open(w) && !w.room.activity.completed
    ensures !w.gone && Playable(w.room.players, w.room.activity)
  {
    InvBalanced(w);
    hide WorldInv, Balanced;
  }

  lemma OpenFinishes(w: World, from: Now) returns (es: seq<Event>, v: World, to: Now)
    requires WorldInv(w) && Open(w)
    ensures Leads(w, from, es, v, to) && Finishes(w, es)
  {
    hide WorldInv, Open, Run, Legal;
    if w.room.activity.completed {
      es, v, to := [], w, from;
      LeadsNowhere(w, from);
    } else {
      OpenIsPlayable(w);
      es, v, to := CanFinish(w, from);
    }
    LeadsLegal(w, from, es, v, to);
    hide Leads;
  }

  lemma ClosedNeverFinishes(w: World, es: seq<Event>)
    requires WorldInv(w) && !Open(w) && Legal(w, es)
    ensures !Finishes(w, es)
  {
    hide Legal, Run, WorldInv;
    if w.gone {
      NothingInRemovedRoom(w, es);
    } else if w.room.activity.phase == Active {
      InvBalanced(w);
      TeaTarget(w.room.players, w.room.activity);
      ShortForever(w, es);
    } else {
      TimedOutForGood(w, es);
    }
  }

  /** After any run: some continuation completes the present round if and only if the round is completed already, or
      the room has not been removed, the round is being played, and, if it is a tea round, nobody took tea along. The
      continuation can begin at any time, and its clock readings never fall. */
  lemma CompletableExactly(code: string, isPrivate: bool, created: Now, es: seq<Event>, from: Now)
    requires Legal(NewWorld(code, isPrivate, created), es)
    ensures var w0 := NewWorld(code, isPrivate, created);
            var w := Run(w0, es);
            var open := w.room.activity.completed
                        || (!w.gone && w.room.activity.phase == Active
                            && (w.room.activity.kind == TeaDelivery ==> TeaLost(w0, 0, es) == 0));
            && ((exists more :: Finishes(w, more)) <==> open)
            && (open ==> exists more, v, to :: Leads(w, from, more, v, to) && Finishes(w, more))
  {
    var w0 := NewWorld(code, isPrivate, created);
    var w := Run(w0, es);
    NewWorldInv(code, isPrivate, created);
    RunInv(w0, es);
    if w.room.activity.kind == TeaDelivery { ReachableTea(code, isPrivate, created, es); }
    hide Run, Legal, NewWorld, WorldInv, TeaLost, TeaSum, Finishes, Leads;
    if Open(w) {
      var more, v, to := OpenFinishes(w, from);
    } else {
      forall more | Finishes(w, more) ensures false {
        FinishesLegally(w, more);
        ClosedNeverFinishes(w, more);
      }
    }
  }

  lemma FinishesLegally(w: World, es: seq<Event>)
    requires Finishes(w, es)
    ensures Legal(w, es)
  {
  }
}
