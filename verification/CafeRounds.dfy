/**
 Over every interleaving of interactions, departures and timers, each round ends
 exactly once and is followed by exactly one successful start of the next round.
 The argument runs on the round cycle alone, which the whole world refines.
 */
module CafeRounds {
  import opened Basics
  import opened CafeModel
  import opened CafeFloor
  import opened CafeInventory
  import opened CafeRooms
  import opened CafeWorld

  // ----- the round cycle -----

  datatype Cycle = Cycle(
    round: nat, phase: Phase, completed: bool, gone: bool, tasks: multiset<Task>, ended: seq<Ending>, started: seq<nat>)

  function CycleOf(w: World): Cycle {
    var a := w.room.activity;
    Cycle(a.round, a.phase, a.completed, w.gone, w.tasks, w.ended, w.started)
  }

  function Completes(c: Cycle): Cycle {
    c.(phase := Intermission, completed := true, tasks := c.tasks + multiset{CompletionReported(c.round)},
       ended := c.ended + [Ending(c.round, true)])
  }

  function Wakes(c: Cycle, task: Task): Cycle {
    c.(tasks := c.tasks - multiset{task})
  }

  function Starts(c: Cycle, r: nat): Cycle {
    if StartSleeping(r) !in c.tasks then c
    else if c.gone || c.round != r || c.phase != Intermission then Wakes(c, StartSleeping(r))
    else
      var next := NextRound(r);
      Wakes(c, StartSleeping(r)).(round := next, phase := Active, completed := false, started := c.started + [r],
        tasks := c.tasks - multiset{StartSleeping(r)} +
                 (if KindOf(next) == CafeRush then multiset{RushReported(next)} else multiset{}))
  }

  function Expires(c: Cycle, r: nat): Cycle {
    if RushSleeping(r) !in c.tasks then c
    else if c.gone || KindOf(c.round) != CafeRush || c.round != r || c.phase != Active || c.completed then
      Wakes(c, RushSleeping(r))
    else
      c.(phase := Intermission, ended := c.ended + [Ending(r, false)],
         tasks := c.tasks - multiset{RushSleeping(r)} + multiset{StartSleeping(r)})
  }

  function StartTimers(c: Cycle, r: nat): nat {
    c.tasks[CompletionReported(r)] + c.tasks[StartSleeping(r)]
  }

  function RushTimers(c: Cycle, r: nat): nat {
    c.tasks[RushReported(r)] + c.tasks[RushSleeping(r)]
  }

  /** The history of the room: rounds 1, 2, ... ended in order, each start in order. */
  ghost predicate Chronicle(c: Cycle) {
    && c.round >= 1
    && |c.started| == c.round - 1
    && (forall i :: 0 <= i < |c.started| ==> c.started[i] == i + 1)
    && |c.ended| == (if c.phase == Intermission then c.round else c.round - 1)
    && (forall i :: 0 <= i < |c.ended| ==> c.ended[i].round == i + 1)
    && (if c.phase == Intermission then c.ended[c.round - 1].completed == c.completed else !c.completed)
  }

  /** Exactly the timers that the phase calls for are pending. */
  ghost predicate TimersMatch(c: Cycle) {
    && (forall r: nat :: StartTimers(c, r) == if c.phase == Intermission && r == c.round then 1 else 0)
    && (forall r: nat :: RushTimers(c, r) <= if r <= c.round then 1 else 0)
    && (c.phase == Active && KindOf(c.round) == CafeRush ==> RushTimers(c, c.round) == 1)
  }

  ghost predicate InStep(c: Cycle) {
    Chronicle(c) && (!c.gone ==> TimersMatch(c))
  }

  lemma CompletesInStep(c: Cycle)
    requires InStep(c) && c.phase == Active && !c.gone
    ensures InStep(Completes(c))
  {
    var d := Completes(c);
    forall r: nat
      ensures StartTimers(d, r) == StartTimers(c, r) + (if r == c.round then 1 else 0)
      ensures RushTimers(d, r) == RushTimers(c, r)
    {
    }
  }

  lemma StartsFields(c: Cycle, r: nat)
    requires StartSleeping(r) in c.tasks && !c.gone && c.round == r && c.phase == Intermission && r < U32_MAX
    ensures var d := Starts(c, r);
            && d.round == r + 1 && d.phase == Active && !d.completed && d.gone == c.gone
            && d.ended == c.ended && d.started == c.started + [r]
  {
  }

  lemma StartsTimers(c: Cycle, r: nat, k: nat)
    requires StartSleeping(r) in c.tasks && !c.gone && c.round == r && c.phase == Intermission && r < U32_MAX
    ensures var d := Starts(c, r);
            && StartTimers(d, k) == StartTimers(c, k) - (if k == r then 1 else 0)
            && RushTimers(d, k) == RushTimers(c, k) + (if KindOf(r + 1) == CafeRush && k == r + 1 then 1 else 0)
  {
  }

  lemma StartsInStep(c: Cycle, r: nat)
    requires InStep(c) && (c.round == r ==> r < U32_MAX)
    ensures InStep(Starts(c, r))
  {
    var d := Starts(c, r);
    if StartSleeping(r) in c.tasks && !c.gone {
      assert StartTimers(c, r) >= 1;
      assert RushTimers(c, r + 1) == 0;
      forall k: nat
        ensures StartTimers(d, k) == StartTimers(c, k) - (if k == r then 1 else 0)
        ensures RushTimers(d, k) == RushTimers(c, k) + (if KindOf(r + 1) == CafeRush && k == r + 1 then 1 else 0)
      {
        StartsTimers(c, r, k);
      }
      hide KindOf, Starts;
      StartsFields(c, r);
    }
  }

  lemma ExpiresInStep(c: Cycle, r: nat)
    requires InStep(c)
    ensures InStep(Expires(c, r))
  {
    var d := Expires(c, r);
    if RushSleeping(r) in c.tasks && !c.gone {
      assert RushTimers(c, r) >= 1;
      forall k: nat
        ensures RushTimers(d, k) == RushTimers(c, k) - (if k == r then 1 else 0)
        ensures StartTimers(d, k) == StartTimers(c, k) + (if d.phase != c.phase && k == r then 1 else 0)
      {
      }
    }
  }

  lemma SpawnInStep(c: Cycle, r: nat, reported: Task, sleeping: Task)
    requires InStep(c)
    requires (reported == CompletionReported(r) && sleeping == StartSleeping(r))
          || (reported == RushReported(r) && sleeping == RushSleeping(r))
    ensures InStep(c.(tasks := Becomes(c.tasks, reported, sleeping)))
  {
    var d := c.(tasks := Becomes(c.tasks, reported, sleeping));
    forall k: nat
      ensures StartTimers(d, k) == StartTimers(c, k) && RushTimers(d, k) == RushTimers(c, k)
    {
    }
  }

  // ----- the world refines the cycle -----

  ghost predicate Rounds(w: World) {
    InStep(CycleOf(w))
  }

  lemma NewWorldRounds(code: string, isPrivate: bool, now: Now)
    ensures Rounds(NewWorld(code, isPrivate, now))
  {
    var c := CycleOf(NewWorld(code, isPrivate, now));
    forall r: nat
      ensures StartTimers(c, r) == 0 == RushTimers(c, r)
    {
    }
  }

  lemma InteractCycle(w: World, pid: Uuid, connection: Uuid, target: Target, now: Now)
    requires Balanced(w.room.players, w.room.activity)
    ensures var c := CycleOf(w);
            var d := CycleOf(InteractStep(w, pid, connection, target, now));
            d == c || (d == Completes(c) && c.phase == Active && !c.gone)
  {
    hide Act, Balanced, Apply;
    if !w.gone && Owns(w.room, pid, connection) {
      ActPhase(w.room.players, w.room.activity, pid, target, now.millis);
      ApplyFacts(w.room, Act(w.room.players, w.room.activity, pid, target, now.millis));
    }
  }

  /** An interaction reports a round exactly when it moves the phase and completes it. */
  lemma ActPhase(players: Players, a: Activity, pid: Uuid, target: Target, now: int)
    requires Balanced(players, a) && pid in players
    ensures var o := Act(players, a, pid, target, now);
            && o.activity.round == a.round
            && (a.completed ==> a.phase == Intermission)
            && (o.completedRound.None? ==> o.activity.phase == a.phase && o.activity.completed == a.completed)
            && (o.completedRound.Some? ==> o.completedRound.value == a.round && a.phase == Active
                                           && o.activity.phase == Intermission && o.activity.completed)
  {
    hide Act;
    var o := Act(players, a, pid, target, now);
    ActTidy(players, a, pid, target, now);
    ActBalanced(players, a, pid, target, now);
    BalancedPhase(players, a);
    BalancedPhase(o.players, o.activity);
    hide Balanced;
  }

  lemma BalancedPhase(players: Players, a: Activity)
    requires Balanced(players, a)
    ensures a.completed ==> a.phase == Intermission
    ensures a.kind == KindOf(a.round)
  {
  }

  lemma StartCycle(w: World, round: nat, now: Now)
    ensures CycleOf(StartStep(w, round, now)) == Starts(CycleOf(w), round)
  {
    hide StartNextRound;
    if CanStart(w.room, round) {
      StartFacts(w.room, round, now);
      ForRoundFacts(NextRound(round), |w.room.players|, now.millis);
    }
  }

  lemma ForRoundFacts(round: nat, playerCount: nat, now: int)
    ensures var a := ForRound(round, playerCount, now);
            a.round == round && a.kind == KindOf(round) && a.phase == Active && !a.completed
  {
  }

  lemma ExpireCycle(room: Room, round: nat, now: Now)
    requires CanExpire(room, round)
    ensures var a := ExpireCafeRush(room, round, now).activity;
            a.round == room.activity.round && a.phase == Intermission && a.completed == room.activity.completed
  {
    hide ExpireCafeRush;
    ExpireFacts(room, round, now);
  }

  lemma RushCycle(w: World, round: nat, now: Now)
    requires Balanced(w.room.players, w.room.activity)
    ensures CycleOf(RushStep(w, round, now)) == Expires(CycleOf(w), round)
  {
    hide Balanced, ExpireCafeRush, KindOf, Expired;
    BalancedPhase(w.room.players, w.room.activity);
    if CanExpire(w.room, round) { ExpireCycle(w.room, round, now); }
  }

  lemma LeaveCycle(w: World, pid: Uuid, connection: Uuid, now: Now)
    ensures CycleOf(LeaveStep(w, pid, connection, now)) == CycleOf(w)
  {
  }

  lemma TickCycle(w: World, t: nat, e: Event)
    requires e.SpawnsTick? || e.TickWakes? || e.TickFlushes?
    ensures CycleOf(TickStep(w, t, e)) == CycleOf(w)
  {
  }

  /** Every other event leaves the cycle where it is. */
  lemma QuietCycle(w: World, e: Event)
    requires !e.Interacts? && !e.StartFires? && !e.RushFires? && !e.SpawnsStart? && !e.SpawnsRush? && !e.Cleans?
    ensures CycleOf(Next(w, e)) == CycleOf(w)
  {
    hide LeaveStep, TickStep, Receive, View, LastOf, Dressed, WithAvatar, MovedPose, Seated, NewClient, NewPlayer,
         CanJoin, AllowedEmote, Accepts, Owns;
    match e
    case Leaves(pid, connection, now) => LeaveCycle(w, pid, connection, now);
    case SpawnsTick(t) => TickCycle(w, t, e);
    case TickWakes(t) => TickCycle(w, t, e);
    case TickFlushes(t) => TickCycle(w, t, e);
    case _ =>
  }

  lemma StepRounds(w: World, e: Event)
    requires Rounds(w) && Balanced(w.room.players, w.room.activity) && Enabled(w, e)
    ensures Rounds(Next(w, e))
  {
    var c := CycleOf(w);
    hide InteractStep, StartStep, RushStep, LeaveStep, TickStep, Balanced, InStep, Starts, Expires, Completes;
    match e
    case Interacts(pid, connection, target, now) =>
      InteractCycle(w, pid, connection, target, now);
      if c.phase == Active && !c.gone { CompletesInStep(c); }
    case StartFires(round, now) =>
      StartCycle(w, round, now);
      if c.round == round && c.phase == Active { StartsNothing(c, round); } else { StartsInStep(c, round); }
    case RushFires(round, now) => RushCycle(w, round, now); ExpiresInStep(c, round);
    case SpawnsStart(round) => SpawnInStep(c, round, CompletionReported(round), StartSleeping(round));
    case SpawnsRush(round) => SpawnInStep(c, round, RushReported(round), RushSleeping(round));
    case Cleans(_, _, _) => Gone(c);
    case _ => QuietCycle(w, e);
  }

  /** While the round is being played no start timer is pending for it. */
  lemma StartsNothing(c: Cycle, r: nat)
    requires InStep(c) && c.phase == Active
    ensures InStep(Starts(c, r))
  {
    if !c.gone { assert StartTimers(c, r) == 0; }
  }

  lemma Gone(c: Cycle)
    requires InStep(c)
    ensures InStep(c.(gone := true))
  {
  }

  // ----- what the invariant says to a reader -----

  /** Every past round ended exactly once and was followed by exactly one start. */
  lemma EndedExactlyOnce(w: World, r: nat)
    requires Rounds(w) && 1 <= r < w.room.activity.round
    ensures exists i :: 0 <= i < |w.ended| && w.ended[i].round == r
    ensures forall i, j :: 0 <= i < |w.ended| && 0 <= j < |w.ended| && w.ended[i].round == w.ended[j].round ==> i == j
    ensures exists i :: 0 <= i < |w.started| && w.started[i] == r
    ensures forall i, j :: 0 <= i < |w.started| && 0 <= j < |w.started| && w.started[i] == w.started[j] ==> i == j
  {
    assert w.ended[r - 1].round == r && w.started[r - 1] == r;
  }

  /** The timer that ends the present phase, as the cycle sees it. */
  function Nudged(c: Cycle): Cycle {
    var r := c.round;
    if c.phase == Intermission then
      Starts(c.(tasks := Becomes(c.tasks, CompletionReported(r), StartSleeping(r))), r)
    else if KindOf(r) == CafeRush then
      Expires(c.(tasks := Becomes(c.tasks, RushReported(r), RushSleeping(r))), r)
    else c
  }

  function NudgeEvents(w: World, now: Now): seq<Event> {
    var r := w.room.activity.round;
    if w.room.activity.phase == Intermission then [SpawnsStart(r), StartFires(r, now)]
    else [SpawnsRush(r), RushFires(r, now)]
  }

  lemma RunTwo(w: World, e: Event, f: Event)
    ensures Run(w, [e, f]) == Next(Next(w, e), f)
  {
    assert [e, f][1..] == [f] && [f][1..] == [];
    assert Run(Next(w, e), [f]) == Run(Next(Next(w, e), f), []);
  }

  lemma NextOfTimers(w: World, r: nat, now: Now)
    ensures Next(w, SpawnsStart(r)) == w.(tasks := Becomes(w.tasks, CompletionReported(r), StartSleeping(r)))
    ensures Next(w, SpawnsRush(r)) == w.(tasks := Becomes(w.tasks, RushReported(r), RushSleeping(r)))
    ensures Next(w, StartFires(r, now)) == StartStep(w, r, now)
    ensures Next(w, RushFires(r, now)) == RushStep(w, r, now)
  {
    hide StartStep, RushStep, Becomes;
  }

  lemma NudgeRefines(w: World, now: Now)
    requires Balanced(w.room.players, w.room.activity)
    requires w.room.activity.phase == Intermission || w.room.activity.kind == CafeRush
    ensures CycleOf(Run(w, NudgeEvents(w, now))) == Nudged(CycleOf(w))
  {
    var r := w.room.activity.round;
    BalancedPhase(w.room.players, w.room.activity);
    hide Run, Next, Balanced, StartStep, RushStep, Starts, Expires;
    NextOfTimers(w, r, now);
    if w.room.activity.phase == Intermission {
      var v := w.(tasks := Becomes(w.tasks, CompletionReported(r), StartSleeping(r)));
      RunTwo(w, SpawnsStart(r), StartFires(r, now));
      NextOfTimers(v, r, now);
      StartCycle(v, r, now);
    } else {
      var v := w.(tasks := Becomes(w.tasks, RushReported(r), RushSleeping(r)));
      RunTwo(w, SpawnsRush(r), RushFires(r, now));
      NextOfTimers(v, r, now);
      RushCycle(v, r, now);
    }
  }

  /** No room is stuck: in an intermission the pending timer alone starts the next round,
      and in a cafe rush the pending timer alone ends the round. */
  lemma NeverStuck(w: World, now: Now)
    requires Rounds(w) && !w.gone && Balanced(w.room.players, w.room.activity)
    requires w.room.activity.phase == Intermission || w.room.activity.kind == CafeRush
    ensures var c := CycleOf(w);
            var d := CycleOf(Run(w, NudgeEvents(w, now)));
            if c.phase == Intermission then d.phase == Active && d.round == NextRound(c.round)
            else d.phase == Intermission && d.round == c.round
  {
    NudgeRefines(w, now);
    BalancedPhase(w.room.players, w.room.activity);
    NudgeEnds(CycleOf(w));
    hide Run, Balanced, Nudged, InStep;
  }

  lemma NudgeEnds(c: Cycle)
    requires InStep(c) && !c.gone && (c.phase == Intermission || KindOf(c.round) == CafeRush)
    ensures var d := Nudged(c);
            if c.phase == Intermission then d.phase == Active && d.round == NextRound(c.round)
            else d.phase == Intermission && d.round == c.round
  {
    assert c.phase == Intermission ==> StartTimers(c, c.round) == 1;
    assert c.phase == Active ==> RushTimers(c, c.round) == 1;
  }

  /** Without the bound on rounds the claim is false: the saturating successor of round
      2^32 - 1 is that round itself, so a rush timer left from its first playing can end
      the second one.  Below the bound a restarted room never repeats the round. */
  lemma SaturatedRoundIsReplayed(room: Room, round: nat, now: Now)
    requires CanStart(room, round) && round <= U32_MAX
    ensures CanExpire(StartNextRound(room, round, now), round) <==> round == U32_MAX
  {
    assert U32_MAX % 3 == 0;
  }
}
