/**
 Room chat: a newcomer's history followed by the events it then receives is a gapless
 stretch of the room's event log, and presence events alternate for every player.
 */
module CafeChat {
  import opened Basics
  import opened CafeModel
  import opened CafeFloor
  import opened CafeRooms
  import opened CafeWorld

  /** The room's full event log: every chat event ever sent. */
  function ChatOf(log: seq<ServerMessage>): seq<ChatEvent> {
    if log == [] then []
    else
      var last := log[|log| - 1];
      ChatOf(log[..|log| - 1]) + (if last.ChatMessage? then [last.event] else [])
  }

  lemma ChatOfAppend(log: seq<ServerMessage>, m: ServerMessage)
    ensures ChatOf(log + [m]) == ChatOf(log) + (if m.ChatMessage? then [m.event] else [])
  {
    assert (log + [m])[..|log|] == log;
  }

  lemma {:induction false} ChatOfConcat(a: seq<ServerMessage>, b: seq<ServerMessage>)
    ensures ChatOf(a + b) == ChatOf(a) + ChatOf(b)
  {
    if b == [] {
      assert a + b == a;
    } else {
      var n := |b| - 1;
      ChatOfConcat(a, b[..n]);
      assert a + b == (a + b[..n]) + [b[n]];
      assert b == b[..n] + [b[n]];
      ChatOfAppend(a + b[..n], b[n]);
      ChatOfAppend(b[..n], b[n]);
    }
  }

  lemma LastOfPush<T>(s: seq<T>, e: T, n: nat)
    requires n > 0
    ensures LastOf(LastOf(s, n) + [e], n) == LastOf(s + [e], n)
  {
  }

  // ----- presence -----

  /** The last presence event of a player. */
  function LastPresence(events: seq<ChatEvent>, p: Uuid): Option<ChatKind> {
    if events == [] then None
    else
      var last := events[|events| - 1];
      if last.player == p && last.kind != MessageEvent then Some(last.kind)
      else LastPresence(events[..|events| - 1], p)
  }

  lemma LastPresenceAppend(events: seq<ChatEvent>, e: ChatEvent, p: Uuid)
    ensures LastPresence(events + [e], p) ==
            if e.player == p && e.kind != MessageEvent then Some(e.kind) else LastPresence(events, p)
  {
    assert (events + [e])[..|events|] == events;
  }

  /** Joined and Left alternate: a player joins when away and leaves when present. */
  ghost predicate Alternating(events: seq<ChatEvent>) {
    forall i :: 0 <= i < |events| && events[i].kind != MessageEvent ==>
      (events[i].kind == LeftEvent <==> LastPresence(events[..i], events[i].player) == Some(JoinedEvent))
  }

  lemma AlternatingAppend(events: seq<ChatEvent>, e: ChatEvent)
    requires Alternating(events)
    requires e.kind != MessageEvent ==>
               (e.kind == LeftEvent <==> LastPresence(events, e.player) == Some(JoinedEvent))
    ensures Alternating(events + [e])
  {
    var all := events + [e];
    forall i | 0 <= i < |all| && all[i].kind != MessageEvent
      ensures all[i].kind == LeftEvent <==> LastPresence(all[..i], all[i].player) == Some(JoinedEvent)
    {
      if i < |events| {
        assert all[..i] == events[..i];
      } else {
        assert all[..i] == events;
      }
    }
  }

  // ----- invariants -----

  ghost predicate ChatSynced(room: Room) {
    var log := ChatOf(room.reliable);
    && room.chatHistory == LastOf(log, CHAT_HISTORY_LIMIT)
    && Alternating(log)
    && forall p :: p in room.players <==> LastPresence(log, p) == Some(JoinedEvent)
  }

  ghost predicate ChatFollowing(room: Room, c: Client) {
    && c.joinedAt <= c.cursor <= |room.reliable|
    && c.history == LastOf(ChatOf(room.reliable[..c.joinedAt]), CHAT_HISTORY_LIMIT)
    && c.chat == ChatOf(room.reliable[c.joinedAt..c.cursor])
  }

  /** Steps that say nothing in the chat and move nobody in or out. */
  ghost predicate ChatQuiet(room: Room, after: Room) {
    && room.reliable <= after.reliable && ChatOf(after.reliable) == ChatOf(room.reliable)
    && after.chatHistory == room.chatHistory && after.players.Keys == room.players.Keys
  }

  lemma QuietSynced(room: Room, after: Room)
    requires ChatSynced(room) && ChatQuiet(room, after)
    ensures ChatSynced(after)
  {
  }

  lemma GrowsFollowing(room: Room, after: Room, c: Client)
    requires ChatFollowing(room, c) && room.reliable <= after.reliable
    ensures ChatFollowing(after, c)
  {
    assert after.reliable[..c.joinedAt] == room.reliable[..c.joinedAt];
    assert after.reliable[c.joinedAt..c.cursor] == room.reliable[c.joinedAt..c.cursor];
  }

  lemma SendQuiet(room: Room, m: ServerMessage)
    requires !m.ChatMessage?
    ensures ChatQuiet(room, Send(room, m))
  {
    ChatOfAppend(room.reliable, m);
  }

  lemma BroadcastQuiet(room: Room)
    ensures ChatQuiet(room, BroadcastSnapshot(room))
  {
    SendQuiet(room.(revision := room.revision + 1, dirty := false), Snapshot(room.revision + 1, View(room)));
  }

  lemma PushSynced(room: Room, event: ChatEvent, players: Players)
    requires ChatSynced(room)
    requires event.kind == JoinedEvent ==>
               event.player !in room.players && players.Keys == room.players.Keys + {event.player}
    requires event.kind == LeftEvent ==>
               event.player in room.players && players.Keys == room.players.Keys - {event.player}
    requires event.kind == MessageEvent ==> players.Keys == room.players.Keys
    ensures ChatSynced(PushChatEvent(room, event).(players := players))
  {
    var log := ChatOf(room.reliable);
    var after := PushChatEvent(room, event);
    ChatOfAppend(room.reliable, ChatMessage(event));
    assert ChatOf(after.reliable) == log + [event];
    LastOfPush(log, event, CHAT_HISTORY_LIMIT);
    AlternatingAppend(log, event);
    forall p
      ensures p in players <==> LastPresence(log + [event], p) == Some(JoinedEvent)
    {
      LastPresenceAppend(log, event, p);
    }
  }

  // ----- the room operations -----

  lemma JoinChat(room: Room, pid: Uuid, player: Player, tick: nat, now: Now)
    requires ChatSynced(room)
    ensures var after := Join(room, pid, player, tick, now);
            ChatSynced(after) && room.reliable <= after.reliable
  {
    hide ChatSynced, View;
    var edited := room.(players := room.players[pid := Seated(room, pid, player)],
                          everJoined := true, emptySince := None);
    var seated := BroadcastSnapshot(edited);
    var after := Join(room, pid, player, tick, now);
    BroadcastQuiet(edited);
    // the announcement is pushed on the room as it was before the newcomer
    var without := seated.(players := room.players);
    SamePeople(room, edited.(players := room.players));
    QuietSynced(room, without);
    if pid in room.players {
      SamePeople(without, after);
    } else {
      var event := ChatEvent(JoinedEvent, pid, player.name, None, now.millis);
      PushSynced(without, event, edited.players);
      SamePeople(PushChatEvent(without, event).(players := edited.players), after);
    }
  }

  lemma SamePeople(room: Room, after: Room)
    requires after.reliable == room.reliable && after.chatHistory == room.chatHistory
    requires after.players.Keys == room.players.Keys
    ensures ChatSynced(room) ==> ChatSynced(after)
    ensures ChatQuiet(room, after)
  {
  }

  lemma LeaveChat(room: Room, pid: Uuid, connection: Uuid, now: Now)
    requires ChatSynced(room)
    ensures var after := Leave(room, pid, connection, now);
            ChatSynced(after) && room.reliable <= after.reliable
  {
    if Owns(room, pid, connection) {
      hide ChatSynced, View, Depart;
      var player := room.players[pid];
      var event := ChatEvent(LeftEvent, pid, player.name, None, now.millis);
      var after := Leave(room, pid, connection, now);
      var rest := room.(players := room.players - {pid}, activity := Depart(room.activity, player, pid));
      if rest.players == map[] {
        PushSynced(room, event, rest.players);
        SamePeople(PushChatEvent(room, event).(players := rest.players), after);
      } else {
        BroadcastQuiet(rest);
        var without := BroadcastSnapshot(rest).(players := room.players);
        QuietSynced(room, without);
        PushSynced(without, event, rest.players);
        SamePeople(PushChatEvent(without, event).(players := rest.players), after);
      }
    }
  }

  lemma ChatChat(room: Room, pid: Uuid, connection: Uuid, text: string, now: Now)
    requires ChatSynced(room)
    ensures var after := Chat(room, pid, connection, text, now);
            ChatSynced(after) && room.reliable <= after.reliable
  {
    if Owns(room, pid, connection) {
      var event := ChatEvent(MessageEvent, pid, room.players[pid].name, Some(text), now.millis);
      PushSynced(room, event, room.players);
      hide ChatSynced;
      assert PushChatEvent(room, event).(players := room.players) == PushChatEvent(room, event);
    }
  }

  // ----- the receiver -----

  lemma TakeChat(c: Client, m: ServerMessage)
    ensures var d := TakeReliable(c, m);
            && d.joinedAt == c.joinedAt && d.cursor == c.cursor + 1 && d.history == c.history
            && d.chat == c.chat + (if m.ChatMessage? then [m.event] else [])
  {
  }

  lemma TakePosesChat(c: Client, revision: nat, poses: map<Uuid, Pose>)
    ensures var d := TakePoses(c, revision, poses);
            d.joinedAt == c.joinedAt && d.cursor == c.cursor && d.history == c.history && d.chat == c.chat
  {
  }

  lemma ReceiveChat(room: Room, gone: bool, c: Client)
    requires ChatFollowing(room, c)
    ensures ChatFollowing(room, Receive(c, room, gone))
  {
    hide TakeReliable, TakePoses;
    if c.cursor < |room.reliable| {
      TakeChat(c, room.reliable[c.cursor]);
      var seen := room.reliable[c.joinedAt..c.cursor];
      assert room.reliable[c.joinedAt..c.cursor + 1] == seen + [room.reliable[c.cursor]];
      ChatOfAppend(seen, room.reliable[c.cursor]);
    } else {
      TakePosesChat(c.(seenVersion := room.movementVersion), room.movement.revision, room.movement.poses);
    }
  }

  lemma NewClientChat(before: Room, pid: Uuid, after: Room)
    requires ChatSynced(before) && before.reliable <= after.reliable
    ensures ChatFollowing(after, NewClient(pid, before, after))
  {
    assert after.reliable[..|before.reliable|] == before.reliable;
    assert after.reliable[|before.reliable|..|before.reliable|] == [];
  }

  // ----- what the invariant says to a reader -----

  /** History and received events together are one contiguous stretch of the event log; it
      starts at most 30 events before the join and ends where the receiver stands. */
  lemma GaplessChat(room: Room, c: Client) returns (from: nat, joined: nat, upTo: nat)
    requires ChatFollowing(room, c)
    ensures var log := ChatOf(room.reliable);
            && from <= joined <= upTo <= |log| && joined <= from + CHAT_HISTORY_LIMIT
            && (from > 0 ==> joined == from + CHAT_HISTORY_LIMIT)
            && joined == |ChatOf(room.reliable[..c.joinedAt])|
            && c.history + c.chat == log[from..upTo] && |c.history| == joined - from
            && (c.cursor == |room.reliable| ==> upTo == |log|)
  {
    var before, seen, rest :=
          room.reliable[..c.joinedAt], room.reliable[c.joinedAt..c.cursor], room.reliable[c.cursor..];
    assert room.reliable == (before + seen) + rest;
    ChatOfConcat(before + seen, rest);
    ChatOfConcat(before, seen);
    joined := |ChatOf(before)|;
    from := joined - |c.history|;
    upTo := joined + |c.chat|;
    if c.cursor == |room.reliable| { assert rest == []; }
  }
}
