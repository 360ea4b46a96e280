/**
 When rounds end: over every run the announced start of the next round is 8 seconds after the
 present intermission began, and the announced end of a rush 90 seconds after it began.
 */
module CafeClock {
  import opened Basics
  import opened CafeModel
  import opened CafeFloor
  import opened CafeInventory
  import opened CafeRooms
  import opened CafeWorld
  import opened CafeRun
  import opened CafeServings

  /** The activity announces its times: `since` is when its phase began. */
  ghost predicate Announces(a: Activity, since: int) {
    && a.nextRoundAt == (if a.phase == Intermission then Some(since + 8_000) else None)
    && a.endsAt == (if a.phase == Active && a.kind == CafeRush then Some(since + 90_000) else None)
  }

  /** When the present phase began: at the wall-clock time of the event that changed round or phase. */
  function SinceAfter(w: World, since: int, e: Event): int {
    var a, b := w.room.activity, Next(w, e).room.activity;
    if (b.round != a.round || b.phase != a.phase) && (e.Interacts? || e.StartFires? || e.RushFires?)
    then e.now.millis else since
  }

  function PhaseSince(w: World, since: int, es: seq<Event>): int
    decreases es
  {
    if es == [] then since else PhaseSince(Next(w, es[0]), SinceAfter(w, since, es[0]), es[1..])
  }

  lemma CollectTimes(players: Players, a: Activity, pid: Uuid, i: nat)
    requires pid in players && i < |a.leaves|
    ensures SameTimes(a, Collect(players, a, pid, i).activity)
  {
  }

  ghost predicate SameTimes(a: Activity, b: Activity) {
    && b.round == a.round && b.kind == a.kind && b.phase == a.phase
    && b.nextRoundAt == a.nextRoundAt && b.endsAt == a.endsAt
  }

  ghost predicate EndsAt(a: Activity, b: Activity, now: int) {
    && b.round == a.round && b.kind == a.kind && b.phase == Intermission
    && b.nextRoundAt == Some(now + 8_000) && b.endsAt == None
  }

  lemma ServeTimes(players: Players, a: Activity, pid: Uuid, target: Target, now: int)
    requires pid in players && a.phase == Active
    ensures var b := Serve(players, a, pid, target, now).activity; SameTimes(a, b) || EndsAt(a, b, now)
  {
  }

  lemma TeaTimes(players: Players, a: Activity, pid: Uuid, target: Target, now: int)
    requires pid in players && a.phase == Active && a.endsAt == None
    ensures var b := DeliverTea(players, a, pid, target, now).activity; SameTimes(a, b) || EndsAt(a, b, now)
  {
  }

  lemma CounterTimes(players: Players, a: Activity, pid: Uuid, now: int)
    requires pid in players && a.phase == Active
    ensures SameTimes(a, ActTableService(players, a, pid, CounterTarget, now).activity)
    ensures SameTimes(a, ActCafeRush(players, a, pid, CounterTarget, now).activity)
  {
  }

  /** An interaction leaves the announced times alone or ends the round. */
  lemma ActTimes(players: Players, a: Activity, pid: Uuid, target: Target, now: int)
    requires pid in players && (a.kind == TeaDelivery && a.phase == Active ==> a.endsAt == None)
    ensures var b := Act(players, a, pid, target, now).activity;
            SameTimes(a, b) || (a.phase == Active && EndsAt(a, b, now))
  {
    hide SameTimes, EndsAt, Serve, DeliverTea, Collect, InRange;
    StaysTimes(a);
    if a.phase == Active {
      var leaf := AvailableLeafIndex(a.leaves, target);
      if a.kind != TableService && leaf.Some? {
        CollectTimes(players, a, pid, leaf.value);
      } else if a.kind == TeaDelivery {
        TeaTimes(players, a, pid, target, now);
      } else if target == CounterTarget {
        CounterTimes(players, a, pid, now);
      } else {
        ServeTimes(players, a, pid, target, now);
      }
    }
  }

  lemma StaysTimes(a: Activity)
    ensures SameTimes(a, a)
  {
  }

  lemma InteractAnnounces(w: World, since: int, e: Event)
    requires e.Interacts? && Announces(w.room.activity, since)
    ensures Announces(Next(w, e).room.activity, SinceAfter(w, since, e))
  {
    if !w.gone && Owns(w.room, e.pid, e.connection) {
      ActTimes(w.room.players, w.room.activity, e.pid, e.target, e.now.millis);
      ApplyFacts(w.room, Act(w.room.players, w.room.activity, e.pid, e.target, e.now.millis));
    }
    hide Act, Apply;
  }

  lemma FreshAnnounces(round: nat, playerCount: nat, now: int)
    ensures Announces(ForRound(round, playerCount, now), now) && ForRound(round, playerCount, now).phase == Active
    ensures ForRound(round, playerCount, now).round == round
  {
  }

  lemma StartAnnounces(w: World, since: int, e: Event)
    requires e.StartFires? && Announces(w.room.activity, since)
    ensures Announces(Next(w, e).room.activity, SinceAfter(w, since, e))
  {
    if CanStart(w.room, e.round) {
      StartFacts(w.room, e.round, e.now);
      FreshAnnounces(NextRound(e.round), |w.room.players|, e.now.millis);
    }
    hide StartNextRound, ForRound;
  }

  lemma RushAnnounces(w: World, since: int, e: Event)
    requires e.RushFires? && Announces(w.room.activity, since)
    ensures Announces(Next(w, e).room.activity, SinceAfter(w, since, e))
  {
    if CanExpire(w.room, e.round) { ExpireFacts(w.room, e.round, e.now); }
    hide ExpireCafeRush;
  }

  lemma LeaveAnnounces(w: World, since: int, e: Event)
    requires e.Leaves? && Announces(w.room.activity, since)
    ensures Announces(Next(w, e).room.activity, SinceAfter(w, since, e))
  {
    if !w.gone && Owns(w.room, e.pid, e.connection) { LeaveFacts(w.room, e.pid, e.connection, e.now); }
    hide Leave, ReturnLeaves, ReleaseOrder;
  }

  lemma StepAnnounces(w: World, since: int, e: Event)
    requires Announces(w.room.activity, since)
    ensures Announces(Next(w, e).room.activity, SinceAfter(w, since, e))
  {
    hide Announces, Next;
    match e {
      case Interacts(_, _, _, _) => InteractAnnounces(w, since, e);
      case Leaves(_, _, _) => LeaveAnnounces(w, since, e);
      case StartFires(_, _) => StartAnnounces(w, since, e);
      case RushFires(_, _) => RushAnnounces(w, since, e);
      case _ => ActivityStays(w, e);
    }
  }

  lemma {:induction false} RunAnnounces(w: World, since: int, es: seq<Event>)
    requires Announces(w.room.activity, since)
    ensures Announces(Run(w, es).room.activity, PhaseSince(w, since, es))
    decreases es
  {
    hide Next, Announces, SinceAfter;
    if es != [] {
      StepAnnounces(w, since, es[0]);
      RunAnnounces(Next(w, es[0]), SinceAfter(w, since, es[0]), es[1..]);
    }
  }

  /** After any run: an intermission, and nothing else, announces the next round, for 8 seconds after the intermission
      began; a rush that is being played, and nothing else, announces its end, for 90 seconds after it began. */
  lemma ReachableTimes(code: string, isPrivate: bool, created: Now, es: seq<Event>)
    ensures var w0 := NewWorld(code, isPrivate, created);
            var a := Run(w0, es).room.activity;
            var since := PhaseSince(w0, created.millis, es);
            && a.nextRoundAt == (if a.phase == Intermission then Some(since + 8_000) else None)
            && a.endsAt == (if a.phase == Active && a.kind == CafeRush then Some(since + 90_000) else None)
  {
    var w0 := NewWorld(code, isPrivate, created);
    FreshAnnounces(1, 0, created.millis);
    RunAnnounces(w0, created.millis, es);
    hide Run, PhaseSince, NewWorld;
  }
}
