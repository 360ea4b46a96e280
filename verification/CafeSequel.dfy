/**
 Which rooms can go on: exactly those that are neither removed nor stuck in a tea round can reach
 every later round.
 */
module CafeSequel {
  import opened CafeModel
  import opened CafeFloor
  import opened CafeInventory
  import opened CafeRooms
  import opened CafeWorld
  import opened CafeRounds
  import opened CafeRun
  import opened CafeTea
  import opened CafeStuck
  import opened CafePlay
  import opened CafeFinish

  /** A round is being played by somebody, with nothing missing. */
  ghost predicate Playing(w: World) {
    !w.gone && w.room.players != map[] && Playable(w.room.players, w.room.activity)
  }

  lemma LeadsTwo(w: World, from: Now, e: Event, f: Event)
    requires Enabled(w, e) && Enabled(Next(w, e), f)
    requires NotBefore(from, ClockAfter(from, e)) && NotBefore(ClockAfter(from, e), ClockAfter(ClockAfter(from, e), f))
    ensures Leads(w, from, [e, f], Next(Next(w, e), f), ClockAfter(ClockAfter(from, e), f))
  {
    hide Enabled, Next;
    LeadsOne(w, from, e);
    LeadsOne(Next(w, e), ClockAfter(from, e), f);
    LeadsOn(w, from, [e], Next(w, e), ClockAfter(from, e),
            [f], Next(Next(w, e), f), ClockAfter(ClockAfter(from, e), f));
    assert [e] + [f] == [e, f];
  }

  lemma NudgeLeads(w: World, from: Now)
    requires w.room.activity.round < U32_MAX
    ensures Leads(w, from, NudgeEvents(w, from), Run(w, NudgeEvents(w, from)), from)
  {
    var es := NudgeEvents(w, from);
    assert Enabled(w, es[0]) && Enabled(Next(w, es[0]), es[1]);
    hide Enabled, Next, Run, Leads;
    RunTwo(w, es[0], es[1]);
    LeadsTwo(w, from, es[0], es[1]);
  }

  /** The pending timer of an intermission starts the next round, with nothing missing. */
  lemma NextRoundStarts(w: World, from: Now)
    requires WorldInv(w) && !w.gone && w.room.activity.phase == Intermission && w.room.activity.round < U32_MAX
    ensures var v := Run(w, NudgeEvents(w, from));
            && Leads(w, from, NudgeEvents(w, from), v, from)
            && !v.gone && v.room.players.Keys == w.room.players.Keys
            && v.room.activity.round == w.room.activity.round + 1 && Playable(v.room.players, v.room.activity)
  {
    var es := NudgeEvents(w, from);
    var v := Run(w, es);
    NudgeLeads(w, from);
    LeadsLegal(w, from, es, v, from);
    InvBalanced(w);
    InvBalanced(v);
    assert Rounds(w);
    hide WorldInv, Leads, Rounds, Balanced, Run;
    NeverStuck(w, from);
    RunTwo(w, es[0], es[1]);
    StartLooks(w, from);
  }

  lemma StartLooks(w: World, from: Now)
    requires w.room.activity.phase == Intermission && !w.gone
    ensures var es := NudgeEvents(w, from);
            var v := Next(Next(w, es[0]), es[1]);
            v.room.activity.round != w.room.activity.round ==>
              && !v.gone && v.room.players.Keys == w.room.players.Keys
              && (v.room.activity.kind == TeaDelivery ==>
                    TeaSum(v.room.players, v.room.activity) == v.room.activity.target)
  {
    var r := w.room.activity.round;
    NextOfTimers(w, r, from);
    var u := Next(w, SpawnsStart(r));
    NextOfTimers(u, r, from);
    hide StartNextRound, ForRound, TeaSum, Next, Becomes;
    StartFacts(w.room, r, from);
    FreshTea(w.room.players, NextRound(r), |w.room.players|, from.millis);
  }

  // ----- round after round -----

  /** From a round that is being played to the next one. */
  lemma OneRoundOn(w: World, from: Now) returns (es: seq<Event>, v: World, to: Now)
    requires WorldInv(w) && Playing(w) && w.room.activity.round < U32_MAX
    ensures Leads(w, from, es, v, to) && Playing(v) && v.room.activity.round == w.room.activity.round + 1
  {
    hide WorldInv, Leads, Playable, Run;
    var u;
    es, u, to := Finish(w, from);
    LeadsLegal(w, from, es, u, to);
    CompletedRests(u);
    NextRoundStarts(u, to);
    v := Run(u, NudgeEvents(u, to));
    LeadsOn(w, from, es, u, to, NudgeEvents(u, to), v, to);
    es := es + NudgeEvents(u, to);
    assert v.room.players != map[] by { KeysKept(u.room.players, v.room.players); }
  }

  lemma KeysKept(before: Players, after: Players)
    requires after.Keys == before.Keys && before != map[]
    ensures after != map[]
  {
    var p :| p in before;
    assert p in after;
  }

  lemma CompletedRests(w: World)
    requires WorldInv(w) && w.room.activity.completed
    ensures w.room.activity.phase == Intermission
  {
    InvBalanced(w);
    hide WorldInv;
  }

  lemma {:induction false} RoundsOn(w: World, from: Now, n: nat) returns (es: seq<Event>, v: World, to: Now)
    requires WorldInv(w) && Playing(w) && w.room.activity.round <= n <= U32_MAX
    ensures Leads(w, from, es, v, to) && Playing(v) && v.room.activity.round == n
    decreases n - w.room.activity.round
  {
    hide WorldInv, Leads, Playing;
    if w.room.activity.round == n {
      es, v, to := [], w, from;
      LeadsNowhere(w, from);
    } else {
      var u, at, rest;
      es, u, at := OneRoundOn(w, from);
      LeadsLegal(w, from, es, u, at);
      rest, v, to := RoundsOn(u, at, n);
      LeadsOn(w, from, es, u, at, rest, v, to);
      es := es + rest;
    }
  }

  /** Somebody comes in, if nobody is there. */
  lemma Occupied(w: World, from: Now) returns (es: seq<Event>, v: World)
    requires !w.gone && Playable(w.room.players, w.room.activity)
    ensures Leads(w, from, es, v, from) && Playing(v) && v.room.activity.round == w.room.activity.round
  {
    hide Leads, Playable, Next;
    if w.room.players != map[] {
      es, v := [], w;
      LeadsNowhere(w, from);
    } else {
      var e := Enter(w, from);
      es, v := [e], Next(w, e);
    }
  }

  /** Not removed, and not a tea round from which tea is missing. */
  ghost predicate Lively(w: World) {
    && !w.gone
    && (w.room.activity.kind == TeaDelivery && w.room.activity.phase == Active ==>
          TeaSum(w.room.players, w.room.activity) == w.room.activity.target)
  }

  lemma GoesOn(w: World, from: Now, n: nat) returns (es: seq<Event>, v: World, to: Now)
    requires WorldInv(w) && Lively(w) && w.room.activity.round < n <= U32_MAX
    ensures Leads(w, from, es, v, to) && Playing(v) && v.room.activity.round == n
  {
    hide WorldInv, Leads, Playing, Run, TeaSum;
    var u, started := w, [];
    LeadsNowhere(w, from);
    if w.room.activity.phase == Intermission {
      NextRoundStarts(w, from);
      started := NudgeEvents(w, from);
      u := Run(w, started);
    } else {
      InvBalanced(w);
      hide Balanced;
    }
    LeadsLegal(w, from, started, u, from);
    var entered, o := Occupied(u, from);
    LeadsOn(w, from, started, u, from, entered, o, from);
    LeadsLegal(u, from, entered, o, from);
    var rest;
    rest, v, to := RoundsOn(o, from, n);
    LeadsOn(w, from, started + entered, o, from, rest, v, to);
    es := started + entered + rest;
  }

  ghost predicate Reaches(w: World, es: seq<Event>, n: nat) {
    Legal(w, es) && Run(w, es).room.activity.round == n
  }

  lemma StandsStill(w: World, es: seq<Event>)
    requires WorldInv(w) && !Lively(w) && Legal(w, es)
    ensures Run(w, es).room.activity.round == w.room.activity.round
  {
    hide WorldInv, Legal, Run;
    if w.gone {
      NothingInRemovedRoom(w, es);
    } else {
      InvBalanced(w);
      TeaTarget(w.room.players, w.room.activity);
      hide Balanced;
      ShortForever(w, es);
    }
  }

  /** After any run, each later round can be reached if and only if the room has not been removed and is not in a tea
      round from which a player took tea along. */
  lemma GoesOnExactly(code: string, isPrivate: bool, created: Now, es: seq<Event>, n: nat, from: Now)
    requires Legal(NewWorld(code, isPrivate, created), es)
    requires Run(NewWorld(code, isPrivate, created), es).room.activity.round < n <= U32_MAX
    ensures var w0 := NewWorld(code, isPrivate, created);
            var w := Run(w0, es);
            var stuck := && w.room.activity.kind == TeaDelivery && w.room.activity.phase == Active
                         && TeaLost(w0, 0, es) > 0;
            && ((exists more :: Reaches(w, more, n)) <==> !w.gone && !stuck)
            && (!w.gone && !stuck ==> exists more, v, to :: Leads(w, from, more, v, to) && Reaches(w, more, n))
  {
    var w0 := NewWorld(code, isPrivate, created);
    var w := Run(w0, es);
    NewWorldInv(code, isPrivate, created);
    RunInv(w0, es);
    if w.room.activity.kind == TeaDelivery { ReachableTea(code, isPrivate, created, es); }
    hide Run, Legal, NewWorld, WorldInv, TeaLost, TeaSum, Leads;
    if Lively(w) {
      var more, v, to := GoesOn(w, from, n);
      LeadsLegal(w, from, more, v, to);
      assert Reaches(w, more, n);
    } else {
      forall more | Reaches(w, more, n) ensures false {
        StandsStill(w, more);
      }
    }
  }
}
