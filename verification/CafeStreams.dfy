/**
 Two outgoing channels with different guarantees: a reliable bounded broadcast and a
 replaceable movement value.  A receiver that has not lagged and has drained both
 channels of an occupied room holds exactly the room's state.
 */
module CafeStreams {
  import opened Basics
  import opened CafeModel
  import opened CafeRooms
  import opened CafeWorld

  // ----- the last snapshot of a log -----

  function LastSnapshot(log: seq<ServerMessage>): Option<ServerMessage> {
    if log == [] then None
    else if log[|log| - 1].Snapshot? then Some(log[|log| - 1])
    else LastSnapshot(log[..|log| - 1])
  }

  function SnapRevision(log: seq<ServerMessage>): nat {
    var last := LastSnapshot(log);
    if last.Some? && last.value.Snapshot? then last.value.revision else 0
  }

  lemma LastSnapshotAppend(log: seq<ServerMessage>, m: ServerMessage)
    ensures LastSnapshot(log + [m]) == if m.Snapshot? then Some(m) else LastSnapshot(log)
  {
    assert (log + [m])[..|log|] == log;
  }

  /** Revisions of snapshots strictly rise along the log. */
  ghost predicate Rising(log: seq<ServerMessage>) {
    forall i, j :: 0 <= i < j < |log| && log[i].Snapshot? && log[j].Snapshot? ==> log[i].revision < log[j].revision
  }

  /** A snapshot whose revision is not below the last one is the last one. */
  lemma {:induction false} HighestIsLast(log: seq<ServerMessage>, i: nat)
    requires Rising(log) && i < |log| && log[i].Snapshot?
    ensures log[i].revision <= SnapRevision(log)
    ensures log[i].revision == SnapRevision(log) ==> LastSnapshot(log) == Some(log[i])
  {
    var n := |log| - 1;
    if log[n].Snapshot? {
      if i != n { assert log[i].revision < log[n].revision; }
    } else {
      assert log[..n][i] == log[i];
      HighestIsLast(log[..n], i);
    }
  }

  // ----- the room side -----

  /** A view without the parts that movement messages carry. */
  function Still(v: RoomView): RoomView {
    v.(players := map p | p in v.players :: v.players[p].(pose := Pose(0.0, 0.0, Up, false)))
  }

  /** The channels hold the current state: the last snapshot all of it but the poses, the
      latest of the two channels the poses, unless a move is still waiting for its tick. */
  ghost predicate Synced(room: Room) {
    var last := LastSnapshot(room.reliable);
    && Rising(room.reliable)
    && SnapRevision(room.reliable) <= room.revision && room.movement.revision <= room.revision
    && (room.revision == SnapRevision(room.reliable) || room.revision == room.movement.revision)
    && (room.players != map[] ==>
          && last.Some? && last.value.Snapshot?
          && Still(last.value.view) == Still(View(room))
          && (!room.dirty ==>
                && (SnapRevision(room.reliable) == room.revision ==> ViewPoses(last.value.view) == Poses(room.players))
                && (room.movement.revision == room.revision ==> room.movement.poses == Poses(room.players))))
  }

  // ----- the receiver side -----

  /** What a receiver has been shown of the reliable log; the welcome counts as the
      snapshot that `join` broadcast. */
  function Known(room: Room, c: Client): seq<ServerMessage>
    requires c.joinedAt < |room.reliable| && c.cursor <= |room.reliable|
  {
    room.reliable[..Max(c.cursor, c.joinedAt + 1)]
  }

  ghost predicate Following(room: Room, c: Client) {
    && c.joinedAt < |room.reliable| && c.joinedAt <= c.cursor <= |room.reliable|
    && room.reliable[c.joinedAt].Snapshot?
    && LastSnapshot(Known(room, c)) == Some(Snapshot(c.snapRevision, c.snap))
    && c.snapRevision <= c.poseRevision <= room.revision
    && c.seenVersion <= room.movementVersion
    && (c.seenVersion == room.movementVersion ==> room.movement.revision <= c.poseRevision)
    && (c.poseRevision == room.revision && room.players != map[] && !room.dirty ==> c.poses == Poses(room.players))
  }

  // ----- room steps -----

  lemma RisingAppend(log: seq<ServerMessage>, m: ServerMessage)
    requires Rising(log) && (m.Snapshot? ==> m.revision > SnapRevision(log))
    ensures Rising(log + [m])
  {
    if m.Snapshot? {
      forall i | 0 <= i < |log| && log[i].Snapshot?
        ensures log[i].revision < m.revision
      {
        HighestIsLast(log, i);
      }
    }
  }

  lemma KnownGrows(room: Room, after: Room, c: Client)
    requires c.joinedAt < |room.reliable| && c.cursor <= |room.reliable| && room.reliable <= after.reliable
    ensures Known(after, c) == Known(room, c)
  {
  }

  lemma SendSynced(room: Room, m: ServerMessage)
    requires Synced(room) && !m.Snapshot?
    ensures Synced(Send(room, m))
  {
    LastSnapshotAppend(room.reliable, m);
    RisingAppend(room.reliable, m);
    hide LastSnapshot, Rising, Still;
    assert View(Send(room, m)) == View(room);
  }

  lemma SendFollowing(room: Room, m: ServerMessage, c: Client)
    requires Following(room, c)
    ensures Following(Send(room, m), c)
  {
    KnownGrows(room, Send(room, m), c);
  }

  /** Any edit of players and activity that is broadcast at once. */
  lemma BroadcastSynced(before: Room, edited: Room)
    requires Synced(before)
    requires edited.reliable == before.reliable && edited.revision == before.revision
             && edited.movement == before.movement
    ensures Synced(BroadcastSnapshot(edited))
  {
    var after := BroadcastSnapshot(edited);
    var m := Snapshot(edited.revision + 1, View(edited));
    LastSnapshotAppend(before.reliable, m);
    RisingAppend(before.reliable, m);
    assert View(after) == View(edited);
    assert ViewPoses(View(edited)) == Poses(edited.players);
  }

  lemma BroadcastFollowing(before: Room, edited: Room, c: Client)
    requires Following(before, c)
    requires edited.reliable == before.reliable && edited.revision == before.revision
    requires edited.movement == before.movement && edited.movementVersion == before.movementVersion
    ensures Following(BroadcastSnapshot(edited), c)
  {
    KnownGrows(before, BroadcastSnapshot(edited), c);
  }

  lemma FlushSynced(room: Room)
    requires Synced(room)
    ensures Synced(Flush(room))
  {
    assert View(Flush(room)) == View(room);
  }

  lemma FlushFollowing(room: Room, c: Client)
    requires Following(room, c)
    ensures Following(Flush(room), c)
  {
    KnownGrows(room, Flush(room), c);
  }

  lemma MoveSynced(room: Room, pid: Uuid, connection: Uuid, m: Movement, root: real, now: Now)
    requires Synced(room)
    ensures Synced(Move(room, pid, connection, m, root, now))
  {
    hide MovedPose, LastSnapshot, Rising;
    assert Still(View(Move(room, pid, connection, m, root, now))) == Still(View(room));
  }

  lemma MoveFollowing(room: Room, pid: Uuid, connection: Uuid, m: Movement, root: real, now: Now, c: Client)
    requires Following(room, c)
    ensures Following(Move(room, pid, connection, m, root, now), c)
  {
    hide MovedPose, LastSnapshot;
  }

  /** Fields outside the view and the channels do not matter. */
  lemma SideSynced(room: Room, after: Room)
    requires Synced(room)
    requires after.reliable == room.reliable && after.revision == room.revision && after.movement == room.movement
    requires after.players == map[] ||
             (after.players == room.players && after.activity == room.activity && after.dirty == room.dirty)
    ensures Synced(after)
  {
    if after.players != map[] {
      assert View(after) == View(room);
    }
  }

  lemma SideFollowing(room: Room, after: Room, c: Client)
    requires Following(room, c)
    requires after.reliable == room.reliable && after.revision == room.revision
    requires after.movement == room.movement && after.movementVersion == room.movementVersion
    requires after.players == map[] || (after.players == room.players && after.dirty == room.dirty)
    ensures Following(after, c)
  {
  }

  // ----- receiver steps -----

  lemma TakeReliableFollowing(room: Room, c: Client)
    requires Synced(room) && Following(room, c) && c.cursor < |room.reliable|
    ensures Following(room, TakeReliable(c, room.reliable[c.cursor]))
  {
    var m := room.reliable[c.cursor];
    var d := TakeReliable(c, m);
    var known := Known(room, c);
    if c.cursor == c.joinedAt {
      assert Known(room, d) == known && known == room.reliable[..c.joinedAt] + [m];
      LastSnapshotAppend(room.reliable[..c.joinedAt], m);
    } else {
      assert Known(room, d) == known + [m];
      LastSnapshotAppend(known, m);
    }
    if m.Snapshot? {
      HighestIsLast(room.reliable, c.cursor);
    }
  }

  lemma ReceiveFollowing(room: Room, gone: bool, c: Client)
    requires Synced(room) && Following(room, c)
    ensures Following(room, Receive(c, room, gone))
  {
    if c.cursor < |room.reliable| {
      TakeReliableFollowing(room, c);
    }
  }

  /** What a join puts on the channels: one snapshot of the room with the newcomer, then at most its announcement. */
  lemma JoinedChannels(before: Room, pid: Uuid, player: Player, tick: nat, now: Now)
    ensures var after := Join(before, pid, player, tick, now);
            && |after.reliable| > |before.reliable|
            && after.reliable[..|before.reliable| + 1] == before.reliable + [Snapshot(before.revision + 1, View(after))]
            && after.revision == before.revision + 1
            && after.movement == before.movement && after.movementVersion == before.movementVersion
  {
    hide Seated, LastOf;
  }

  lemma NewClientFollowing(before: Room, pid: Uuid, player: Player, tick: nat, now: Now)
    requires Synced(before)
    ensures Following(Join(before, pid, player, tick, now),
                      NewClient(pid, before, Join(before, pid, player, tick, now)))
  {
    var after := Join(before, pid, player, tick, now);
    var c := NewClient(pid, before, after);
    JoinedChannels(before, pid, player, tick, now);
    hide Join, View, Rising, Still;
    assert Known(after, c) == before.reliable + [Snapshot(before.revision + 1, View(after))];
    LastSnapshotAppend(before.reliable, Snapshot(before.revision + 1, View(after)));
  }

  // ----- convergence -----

  predicate Drained(room: Room, c: Client) {
    c.open && c.cursor == |room.reliable| && c.seenVersion == room.movementVersion
  }

  /** The state a client shows: its last snapshot with the poses it kept. */
  function Shown(c: Client): RoomView {
    c.snap.(players := map p | p in c.snap.players ::
      c.snap.players[p].(pose := if p in c.poses then c.poses[p] else c.snap.players[p].pose))
  }

  /** A drained receiver of an occupied room with no move waiting shows the room's state,
      and the poses it shows are those of the room's current revision. */
  lemma DrainedClientConverges(room: Room, c: Client)
    requires Synced(room) && Following(room, c) && Drained(room, c)
    requires room.players != map[] && !room.dirty
    ensures c.poseRevision == room.revision
    ensures Shown(c) == View(room)
  {
    assert Known(room, c) == room.reliable;
    assert c.poses == Poses(room.players);
    assert Still(c.snap) == Still(View(room));
    StillKeys(c.snap, View(room));
  }

  /** Even while a move is waiting, the last snapshot shown is current but for the poses. */
  lemma DrainedClientStill(room: Room, c: Client)
    requires Synced(room) && Following(room, c) && c.cursor == |room.reliable| && room.players != map[]
    ensures Still(c.snap) == Still(View(room))
  {
    assert Known(room, c) == room.reliable;
  }

  /** Receiving until both channels are empty. */
  function ReceiveAll(c: Client, room: Room): Client
    decreases |room.reliable| - c.cursor
  {
    if c.open && c.cursor < |room.reliable| <= c.cursor + BROADCAST_CAPACITY
    then ReceiveAll(Receive(c, room, false), room)
    else Receive(c, room, false)
  }

  /** An open receiver can always be drained unless it lags by more than the capacity,
      and then it is closed without being shown anything further. */
  lemma {:induction false} DrainsOrCloses(room: Room, c: Client)
    requires Following(room, c) && c.open
    ensures var d := ReceiveAll(c, room);
            if |room.reliable| - c.cursor <= BROADCAST_CAPACITY then Drained(room, d)
            else d == c.(open := false)
    decreases |room.reliable| - c.cursor
  {
    if c.cursor < |room.reliable| <= c.cursor + BROADCAST_CAPACITY {
      var d := Receive(c, room, false);
      assert d.cursor == c.cursor + 1 && d.open && d.seenVersion == c.seenVersion;
      DrainsOrClosesUnread(room, d);
    }
  }

  lemma {:induction false} DrainsOrClosesUnread(room: Room, c: Client)
    requires c.open && c.cursor <= |room.reliable| <= c.cursor + BROADCAST_CAPACITY
    requires c.seenVersion <= room.movementVersion
    ensures Drained(room, ReceiveAll(c, room))
    decreases |room.reliable| - c.cursor
  {
    if c.cursor < |room.reliable| {
      DrainsOrClosesUnread(room, Receive(c, room, false));
    }
  }

  lemma StillKeys(v: RoomView, u: RoomView)
    requires Still(v) == Still(u)
    ensures v.players.Keys == u.players.Keys && v.activity == u.activity
    ensures forall p :: p in v.players ==> v.players[p].(pose := u.players[p].pose) == u.players[p]
  {
    assert Still(v).players.Keys == v.players.Keys && Still(u).players.Keys == u.players.Keys;
    forall p | p in v.players
      ensures v.players[p].(pose := u.players[p].pose) == u.players[p]
    {
      assert Still(v).players[p] == Still(u).players[p];
    }
  }
}
