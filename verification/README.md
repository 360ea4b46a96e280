# Verified model of the chat service's stateful core

A Dafny 4.11 model of the parts of the service whose guarantees span many operations, with
proofs over all inputs and all runs. `dafny verify dfyconfig.toml` checks everything.

**Cafe rooms** (`apps/api/src/cafe.rs`). `CafeModel` and `CafeFloor` hold the data and what an
interaction does; `CafeRooms` adds revisions, the two outgoing channels and the chat log;
`CafeRoomObject` is the room as an object whose fields are updated in place, each method proved
equal to the operation of `CafeRooms`. `CafeWorld` lets everything act on a room concurrently:
joins, replaced and stale connections, delayed round and rush timers, movement ticks, receivers
with their cursors, cleanup. Over every interleaving:

- claims, ingredients, tea and deliveries stay in balance (`CafeInventory`, `CafeExpiry`), order
  rounds cannot deadlock and take an exact number of interactions (`CafeProgress`), an interaction
  changes something exactly when its target answers (`CafeReach`), and combos count streaks
  (`CafeServings`);
- after any run, exactly the rounds in which nothing is missing can still be completed
  (`CafeFinish`), and exactly the rooms that are neither removed nor short of tea can reach every
  later round (`CafeSequel`), by walking (`CafePaths`, `CafePlay`) and acting; tea gets lost only
  with a leaving player (`CafeTea`, `CafeStuck`);
- each round ends exactly once and is followed by exactly one start (`CafeRounds`), and an
  occupied room has exactly one live tick (`CafeTicks`);
- positions stay legal, a message moves a player exactly as far as its time allows, and walks and
  speeds are bounded over whole runs (`CafeMovement`, `CafeSpeed`, `CafeWalks`), and a replaced
  connection is powerless for ever (`CafeConnections`);
- a receiver that drained its channels shows exactly the room's players and activity
  (`CafeStreams`, `CafeViews`), and its chat is a gapless piece of the room's event log
  (`CafeChat`), which is what was said (`CafeSpeech`);
- no room seats more than eight (`CafeSeats`), and announced times are right (`CafeClock`).

`CafeRun` joins these into one invariant of all reachable worlds. `CafeHub` covers invite codes,
lookup and cleanup over all rooms, `CafeCleanup` when a cleanup takes a room; `CafeAbuse` and
`SlidingLogs` the socket and creation limits.

**Attachments** (`apps/api/src/store/attachments.rs`, `apps/api/src/attachments.rs`).
`AttachmentTables` is the two tables and every statement on them, with the row trigger, and
`AttachmentStatements` what each does to single rows; `AttachmentWorld` lets uploads, deletions,
leased file workers, the orphan scan, sign-ins and account deletions interleave, one statement or
file operation at a time. `AttachmentSafety` proves that the queue never reaches a live attachment,
that no finished file is lost, exactly when a file can be left behind and which reports of the scan
repair it, and that only the current lease holder removes a record; `AttachmentLeases` what leases,
retries and attempt counts promise over time; `AttachmentQuota` that bytes are accounted for
exactly. `AttachmentWorker` has the worker loop and the resumable scan.

**Limiters** (`apps/api/src/rate_limit.rs`): `RateLimiter` and `GenerationLimiter`, over all
sequences of calls. **Memory selection** (`apps/api/src/memory.rs`): `MemorySelection`, on top of
`Sorting`, and its promises in `MemoryLaws`. **RIFF** (`apps/api/src/voice.rs`): the chunk walker
against a chunk printer that follows chapter 2, section "Chunks", of Multimedia Programming
Interface and Data Specifications 1.0.

## Assumptions

- A section under a lock and a single SQL statement are each one atomic step that reads each
  clock once; so are the statements of a sign-in, and of an account deletion, on the two
  attachment tables. The quota-checked creation is two steps, the check and the insertion, under
  the owner's lock.
- Times do not decrease in the order in which a lock is taken.
- UUIDs are opaque and fresh: connection ids, claim tokens, and storage keys, which are made
  from a new id.
- Positions are exact reals, and a distance comes with any nonnegative square root.
- A cafe room plays fewer than 2^32 - 1 rounds. `CafeRounds.SaturatedRoundIsReplayed` gives the
  exact condition: at the last round number the saturating successor is the same round.
- The two times to live of a room are positive, as the configuration demands.
- Identities within one call of the request limiter are distinct, as all its callers pass them.

- Creation limits are positive, as the configuration demands (`apps/api/src/config.rs:625-638`);
  `CafeAbuse.CreationExact` holds for every limit, with an allowance of one in place of zero.

## Where the code and an expectation differ

- A tea round can be stranded: tea in the hands of a departing player is lost, and no timer ends
  the round. `CafeFinish.CompletableExactly` and `CafeSequel.GoesOnExactly` say exactly when, over
  every run, and `CafeStuck.LeavingWithTeaStrandsTheRound` is a run.
- The three tea layouts do not take turns: only the first is ever used
  (`CafeInventory.TeaLayoutNeverRotates`).
- After a cafe rush expires, orders stay claimed by players with empty hands, exactly if some order
  was claimed (`CafeExpiry.ExpiredClaimsExactly`, `CafeExpiry.ExpiryCanLeaveAClaim`).
- A sign-in can put an account above its storage quota: the rows of the guest move to the
  account without a check. `AttachmentQuota.StepWithinExactly` says exactly when, and
  `AttachmentQuota.SignInCanExceedTheQuota` is a run.
- An upload can leave a file that is neither live nor queued, until a later orphan scan reports it.
  `AttachmentSafety.StepTracksExactly` says exactly when, `AttachmentSafety.LateWriteLosesTrack` is
  a run, and `AttachmentSafety.ScanRestoresExactly` says which reports repair it.
- Deleting an account ends the leases and the waits of its own records before their time.
  `AttachmentLeases.LeaseStep` and `AttachmentLeases.WaitingStep` say exactly when, and
  `AttachmentLeases.AccountDeletionEndsALease` is a run.
- A rejected request can start the window of another key. `RateLimiters.RejectedUnchangedExactly`
  says exactly when, and `RateLimiters.RejectionMayOpenAWindow` is such a call.

## Model

| member | source | states |
|---|---|---|
| CafeFloor.ActTidy | apps/api/src/cafe.rs:1421-1549 | An interaction changes nothing but hands and activity, never round or kind; every change is broadcast; a round is reported completed exactly when its phase moves from active to intermission. |
| CafeReach.ChangedExactly | apps/api/src/cafe.rs:1438-1549 | In a balanced room an interaction changes something if and only if its target answers (the right activity, in reach, the right hands, an order or leaf to act on), and no other player is touched. |
| CafeReach.ServeExactly | apps/api/src/cafe.rs:1833-1862 | An order can be served exactly when it is claimed by this player, who stands within reach of its table; the test of the carried id follows from the claims. |
| CafeReach.CounterExactly | apps/api/src/cafe.rs:1692-1739 | At the counter something happens exactly for an empty-handed player in reach with an order to take or, in a rush, an ingredient for a waiting one. |
| CafeServings.ReachableCombos | apps/api/src/cafe.rs:1864-1888 | In every reachable rush delivered is the number of servings since the round began, the combo is the length of their last streak without a gap beyond 15 s, and the best combo that of the longest streak. |
| CafeConnections.RejoinKeepsState | apps/api/src/cafe.rs:1013-1031 | A present player who joins again keeps position and everything in hand, and neither other players, activity, chat history nor tick are touched. |
| CafeConnections.RejoinReplaces | apps/api/src/cafe.rs:1006-1031 | A rejoin under a fresh connection takes the player away from every connection made before. |
| CafeConnections.ReplacedForever | apps/api/src/cafe.rs:1071-1163 | In every run, a connection that does not own the player any more never owns it again, and no leave, move, interaction, chat message or emote on it changes anything. |
| CafeSeats.JoinsExactly | apps/api/src/cafe.rs:1006-1031 | A player gets in exactly if already there or if fewer than eight are, looks as introduced under the new connection, and keeps place and hands if it was there, or else starts at the spawn with empty hands. |
| CafeSeats.NeverOverfull | apps/api/src/cafe.rs:1006-1016 | No run of any events seats more than eight players in a room. |
| CafeSeats.RushSize | apps/api/src/cafe.rs:723-775 | A rush has two orders more than players, but at least three and at most six, with recipes and ingredients in menu order. |
| CafeSeats.TableRoundSize | apps/api/src/cafe.rs:687-721 | A table round has the three orders of its menu. |
| CafeSeats.DressesExactly | apps/api/src/cafe.rs:1651-1665 | A cosmetic dresses exactly the players of the owner, by account where both are signed in and by session otherwise, and is broadcast exactly if that changes somebody. |
| CafeSeats.AvatarsExactly | apps/api/src/cafe.rs:1667-1681 | The same for avatars. |
| CafeSpeech.AnswersExactly | apps/api/src/cafe.rs:1438-1922 | Every interaction is answered by at most one line: with a change the line for it (told from the activity before and after), otherwise by what is missing at the host or the counter. |
| CafeSpeech.CounterTakesTheFirst | apps/api/src/cafe.rs:1721-1831 | An order prepared or taken at the counter is the first one with that status, and no other order changes. |
| CafeSpeech.PrepareUsesTheLast | apps/api/src/cafe.rs:1785-1792 | Preparing uses up the ingredient collected last: after collecting, preparing and leaving that leaf stays taken and all carried before are back. |
| CafeSpeech.LogIsWhatWasSaid | apps/api/src/cafe.rs:1006-1121 | Over every run the chat log is exactly what its arrivals, departures and accepted messages said, in order, with names, texts and times. |
| CafeSpeech.InteractionSends | apps/api/src/cafe.rs:1421-1549 | An interaction sends its line first and then, if something changed, a snapshot that shows exactly the room after it. |
| CafeSpeech.RoundsSend | apps/api/src/cafe.rs:1582-1630 | A new round sends a snapshot that shows it and then the line of its kind; an expiry says first that time is up and then sends a snapshot. |
| CafeSpeech.EmotesExactly | apps/api/src/cafe.rs:1350-1375 | An emote is shown exactly if it is one of the four and comes from the player's present connection. |
| CafeSpeech.RewardsExactly | apps/api/src/cafe.rs:1639-1649 | Rewards are announced one for each player, in order, and change nothing else. |
| CafeInventory.ActBalanced | apps/api/src/cafe.rs:1421-1549 | Every interaction keeps claims, stock and books: an order is claimed by p exactly when p is present and carries it; in a rush leaves + carried + orders past waiting equal the target and carried ids are distinct and taken; delivered equals the served orders. |
| CafeInventory.ActTableServiceBalanced | apps/api/src/cafe.rs:1692-1742 | The table-service branch keeps the same invariant. |
| CafeInventory.ActCafeRushBalanced | apps/api/src/cafe.rs:1744-1831 | The cafe-rush branch (prepare first, otherwise claim) keeps the same invariant. |
| CafeInventory.ServeBalanced | apps/api/src/cafe.rs:1833-1922 | Serving releases the claim and the hand together, counts one more served order, and completes the activity exactly when all are served. |
| CafeInventory.CollectBalanced | apps/api/src/cafe.rs:1458-1488 | Taking a leaf moves it from the available leaves into exactly one hand. |
| CafeInventory.DeliverTeaBalanced | apps/api/src/cafe.rs:1494-1533 | Handing over tea keeps available + carried + delivered at most the target. |
| CafeInventory.ReturnLeavesEffect | apps/api/src/cafe.rs:1084-1093 | Returning distinct taken ingredients makes exactly those leaves available again. |
| CafeInventory.DepartBalanced | apps/api/src/cafe.rs:1081-1104 | A departure returns the ingredients and releases the order of exactly that player, and keeps the whole invariant. |
| CafeInventory.ArrivalBalanced | apps/api/src/cafe.rs:1006-1031 | An arrival with empty hands keeps the invariant: no order was claimed under the absent player's id. |
| CafeInventory.ForRoundBalanced | apps/api/src/cafe.rs:1582-1587 | A new round with all hands emptied satisfies the invariant, for every round number and player count. |
| CafeInventory.ForRoundShape | apps/api/src/cafe.rs:651-775 | Every round has the kind its number says, between 3 and 6 rush orders, ids that name their position, and nothing delivered. |
| CafeInventory.ExpiredBalanced | apps/api/src/cafe.rs:1619-1630 | An expired rush leaves all hands empty, and shape and books in order. |
| CafeExpiry.ExpiredClaimsExactly | apps/api/src/cafe.rs:1619-1630 | After a rush expires, claims and hands still agree if and only if no order was claimed. |
| CafeExpiry.ExpiryCanLeaveAClaim | apps/api/src/cafe.rs:1606-1637 | From every new room some run, with rising clock readings, leads to a timed-out rush with an order still claimed by a player whose hands are empty. |
| CafeInventory.TeaLayoutNeverRotates | apps/api/src/cafe.rs:652-661 | Every tea round uses the first of the three leaf layouts: the index is zero whenever the round is a tea round. |
| CafeInventory.OneCarrierPerOrder | apps/api/src/cafe.rs:1728-1732 | No two players carry the same order, and the carried order is claimed by its carrier. |
| CafeInventory.TeaNeverClipped | apps/api/src/cafe.rs:1514-1518 | The saturating addition and the cap at the target never lose tea: delivered rises by exactly what leaves the hands. |
| CafeProgress.EffectiveLowersRank | apps/api/src/cafe.rs:1458-1922 | Each effective interaction of an order round lowers 3*waiting + 2*available + claimed + available leaves by exactly one. |
| CafeProgress.CompletedIffRankZero | apps/api/src/cafe.rs:1889-1899 | An order round is completed exactly when that rank is zero. |
| CafeProgress.FreshRank | apps/api/src/cafe.rs:688-765 | A fresh rush starts at rank 4*target, a table round at 6. |
| CafeProgress.StepsConserveWork | apps/api/src/cafe.rs:1458-1922 | Over any run without departures, effective interactions done plus rank is constant. |
| CafeProgress.RoundTakesExactly | apps/api/src/cafe.rs:1692-1922 | Without departures a rush is completed by its (4*target)-th effective interaction and no other, a table round by its sixth. |
| CafeProgress.NoDeadlock | apps/api/src/cafe.rs:1692-1922 | From every balanced active order round with a player present, some present player at an allowed spot has an interaction that changes the round. |
| CafeTea.ActKeepsTea | apps/api/src/cafe.rs:1458-1533 | Every interaction of a tea round keeps leaves plus carried plus delivered tea. |
| CafeTea.DepartLosesTea | apps/api/src/cafe.rs:1081-1104 | A departure lowers that sum by exactly the tea in the departing hands. |
| CafeTea.EffectiveExactly | apps/api/src/cafe.rs:1458-1533 | Some present player can change an active tea round if and only if a leaf or carried tea is left. |
| CafeStuck.ReachableTea | apps/api/src/cafe.rs:1071-1121 | After any run of the world, the tea on the leaves, in hands and delivered in a tea round, and the tea that players took along since the round began, make up its target. |
| CafeStuck.ShortForever | apps/api/src/cafe.rs:1458-1604 | With tea missing, no continuation whatsoever of any kind of event ends the round. |
| CafeStuck.LeavingWithTeaStrandsTheRound | apps/api/src/cafe.rs:1071-1121 | A run from the new room (two joins, a walk, one leaf, a leave) after which the first round never ends although a player stayed. |
| CafePaths.StandableExactly | apps/api/src/cafe.rs:337-343 | Where a player may stand: inside the walls and outside six boxes, each a piece of furniture widened by the player. |
| CafePaths.ToCrossing | apps/api/src/cafe.rs:80-87 | The map is connected: from every allowed spot three free axis-parallel legs lead to one crossing, and back. |
| CafePlay.WalkTo | apps/api/src/cafe.rs:1141-1195 | From wherever a player stands, accepted movement messages lead to any allowed spot, and change nothing but that player's pose. |
| CafePlay.ActOnward | apps/api/src/cafe.rs:1438-1549 | In a round with nothing missing, an interaction whose target answers leaves nothing missing and brings the round strictly closer to its end, which it reaches by being completed. |
| CafeFinish.Finish | apps/api/src/cafe.rs:1006-1549 | While nothing is missing, the players who are present have a run of movement messages and interactions that completes the round. |
| CafeFinish.CompletableExactly | apps/api/src/cafe.rs:1006-1690 | After any run of the world: some continuation completes the present round if and only if it is completed already, or the room is not removed, the round is being played and, in a tea round, nobody took tea along. It can begin at any time, with rising clock readings. |
| CafeFinish.TimedOutForGood | apps/api/src/cafe.rs:1606-1690 | A rush that timed out is never completed later in any run. |
| CafeSequel.NextRoundStarts | apps/api/src/cafe.rs:1565-1604 | From any intermission the pending timer alone starts the next round, with nothing missing in it. |
| CafeSequel.GoesOnExactly | apps/api/src/cafe.rs:1006-1690 | After any run of the world, each later round can be reached if and only if the room has not been removed and is not in a tea round from which a player took tea along. |
| CafeProgress.IngredientReachable | apps/api/src/cafe.rs:80-124 | Every rush ingredient can be reached from a spot that is inside the map and clear of all colliders. |
| CafeProgress.TableReachable | apps/api/src/cafe.rs:80-94 | So can every table. |
| CafeProgress.CounterReachable | apps/api/src/cafe.rs:80-94 | So can the counter. |
| CafeRoomObject.CafeRoom.constructor | apps/api/src/cafe.rs:2656-2680 | A new room is empty, at round 1, revision 0, with nothing sent and no tick. |
| CafeRoomObject.CafeRoom.JoinRoom | apps/api/src/cafe.rs:1006-1069 | Refused exactly when the room is full and the player absent; otherwise the whole new room state, and a reply with the new revision, the new snapshot and the history before the join. |
| CafeRoomObject.CafeRoom.LeaveForConnection | apps/api/src/cafe.rs:1071-1121 | The whole room state after a leave, including stale ones, and which stop channel was signalled. |
| CafeRoomObject.CafeRoom.UpdatePlayerForConnection | apps/api/src/cafe.rs:1141-1195 | The whole room state after a movement message, accepted or not. |
| CafeRoomObject.CafeRoom.FlushDirtyMovementSnapshot | apps/api/src/cafe.rs:1205-1219 | Stop, clean or sent, and the room state after it. |
| CafeRoomObject.CafeRoom.InteractForConnection | apps/api/src/cafe.rs:1421-1549 | The whole room state, the reported round and the rewarded owners of an interaction. |
| CafeRoomObject.CafeRoom.InteractTableService | apps/api/src/cafe.rs:1692-1742 | The same for table service. |
| CafeRoomObject.CafeRoom.InteractCafeRush | apps/api/src/cafe.rs:1744-1831 | The same for a cafe rush. |
| CafeRoomObject.CafeRoom.ServeClaimedOrder | apps/api/src/cafe.rs:1833-1922 | The same for serving an order. |
| CafeRoomObject.CafeRoom.StartRound | apps/api/src/cafe.rs:1565-1604 | Starts only from the intermission of exactly that round; the room state after it, and whether a rush timer is due. |
| CafeRoomObject.CafeRoom.ExpireRush | apps/api/src/cafe.rs:1606-1637 | Expires only the running rush of exactly that round; the room state after it. |
| CafeRoomObject.CafeRoom.PushEvent | apps/api/src/cafe.rs:2505-2511 | The history keeps the last 30 events and the event is sent to everybody. |
| CafeRoomObject.CafeRoom.ChatForConnection | apps/api/src/cafe.rs:1385-1404 | Only the owning connection speaks, under the player's name. |
| CafeRoomObject.CafeRoom.EmoteForConnection | apps/api/src/cafe.rs:1350-1375 | Only an allowed emote of the owning connection is sent. |
| CafeRoomObject.CafeRoom.RewardPlayers | apps/api/src/cafe.rs:1639-1649 | One reward message per player, in order. |
| CafeRoomObject.CafeRoom.EquipCosmeticFor | apps/api/src/cafe.rs:1651-1665 | The loop over one room changes exactly that owner's players and broadcasts exactly if something changed. |
| CafeRoomObject.CafeRoom.EquipAvatarFor | apps/api/src/cafe.rs:1667-1681 | The same for avatars. |
| CafeRounds.CompletesInStep | apps/api/src/cafe.rs:2294-2301 | Completing a round adds exactly one pending start timer for it. |
| CafeRounds.StartsInStep | apps/api/src/cafe.rs:1575-1602 | A start timer that fires either moves to the next round and, for a rush, spawns its timer, or is stale and does nothing. |
| CafeRounds.ExpiresInStep | apps/api/src/cafe.rs:1684-1690 | A rush timer that fires either ends its own round and becomes its start timer, or does nothing. |
| CafeRounds.StepRounds | apps/api/src/cafe.rs:1565-1637 | Every event of the interleaving world keeps the chronicle: rounds end once each and in order, and exactly the timers the phase calls for are pending. |
| CafeRounds.EndedExactlyOnce | apps/api/src/cafe.rs:1565-1637 | Every past round ended exactly once, completed or expired, and was followed by exactly one start. |
| CafeRounds.NeverStuck | apps/api/src/cafe.rs:1684-1690 | The pending timer alone starts the next round from any intermission and ends any rush. |
| CafeRounds.SaturatedRoundIsReplayed | apps/api/src/cafe.rs:1581-1582 | The successor round can be expired by the old round's timer if and only if the round number is 2^32 - 1, where the addition saturates. |
| CafeClock.ReachableTimes | apps/api/src/cafe.rs:666-741 | After any run, an intermission and nothing else announces the next round, 8 seconds after it began; a running rush and nothing else announces its end, 90 seconds after it began. |
| CafeTicks.StepTicking | apps/api/src/cafe.rs:1048-1066 | Every event keeps the stop channel set exactly when players are present, and a tick unstopped exactly when it is that channel's. |
| CafeTicks.OneTickPerOccupiedRoom | apps/api/src/cafe.rs:1221-1251 | An occupied room has exactly one live unstopped tick and an empty one none. |
| CafeTicks.TicksEndExactlyWhenStopped | apps/api/src/cafe.rs:1235-1247 | At its own turn of the loop a tick ends exactly if it was told to stop; a stop that arrives during a flush ends it right after that flush. |
| CafeTicks.StoppedForever | apps/api/src/cafe.rs:1235-1247 | In every run a stopped tick never flushes again, whatever joins follow. |
| CafeTicks.LeaveTicking | apps/api/src/cafe.rs:1105-1113 | The last leave signals the current tick and no other. |
| CafeMovement.MovedPoseLegal | apps/api/src/cafe.rs:1165-1189 | An accepted update ends inside the map, off every collider, at most 210*elapsed + 22 away, with the elapsed time between 0.016 and 0.5 s. |
| CafeMovement.LimitedWithin | apps/api/src/cafe.rs:1171-1181 | The pulled-back point is at most the allowed distance away. |
| CafeMovement.ClampedWithin | apps/api/src/cafe.rs:1182-1184 | Clamping to the map never lengthens a step that starts inside it. |
| CafeWalks.WalkBounded | apps/api/src/cafe.rs:1141-1195 | Over every run from any reachable state, a player who stays in the room stands at an allowed spot and at most 127 times as far away as it had movement messages accepted. |
| CafeWalks.StepPlaces | apps/api/src/cafe.rs:1006-1690 | Every event but a movement message leaves everybody who stays where they stood; a rejoin does too. |
| CafeSpeed.StepSpeed | apps/api/src/cafe.rs:1160-1185 | An accepted message covers at most 210 a second since the last one and 22 more, that is 25.36 below 16 ms and 127 beyond half a second. |
| CafeSpeed.MovesExactly | apps/api/src/cafe.rs:1160-1194 | It takes the player exactly to the requested point, or to the point of the straight line to it that is exactly the reach away, moved inside the walls; onto furniture it does not move at all; direction and gait are taken over. |
| CafeSpeed.MessageExactly | apps/api/src/cafe.rs:1141-1195 | Which messages are accepted, and what an accepted one leaves: its sequence number, its time, untouched hands; any other changes nothing. |
| CafeSpeed.SpeedBounded | apps/api/src/cafe.rs:1141-1195 | Over every run with a rising clock, a player who stays covers at most 25.36 for each accepted message and 210 for each second between its first and last clock reading. |
| CafeMovement.MoveLegal | apps/api/src/cafe.rs:1141-1195 | A message moves nobody but its sender; from a replaced connection or with an old sequence number it changes nothing. |
| CafeMovement.InRangeIsDistance | apps/api/src/cafe.rs:2874-2878 | Comparing squares is the comparison the service makes with the square root. |
| CafeStreams.HighestIsLast | apps/api/src/cafe.rs:2802-2816 | Along the reliable log snapshot revisions strictly rise, so the highest one received is the last one sent. |
| CafeStreams.BroadcastSynced | apps/api/src/cafe.rs:2807-2816 | Whatever edit of players and activity is broadcast at once leaves the channels holding the current state. |
| CafeStreams.FlushSynced | apps/api/src/cafe.rs:2818-2835 | So does a movement tick. |
| CafeStreams.NewClientFollowing | apps/api/src/cafe.rs:1026-1062 | The welcome counts as the snapshot that the join itself broadcast: nothing is missed between subscribing and replying. |
| CafeStreams.ReceiveFollowing | apps/api/src/cafe.rs:2407-2431 | Each received message keeps the client in step, reliable messages first. |
| CafeStreams.DrainedClientConverges | apps/api/src/cafe.rs:2407-2431 | A client that drained both channels of an occupied room with no move waiting shows exactly the room's state, at the room's revision. |
| CafeStreams.DrainedClientStill | apps/api/src/cafe.rs:2407-2418 | Even with a move waiting, a client that drained the reliable channel is current in everything but positions. |
| CafeStreams.DrainsOrCloses | apps/api/src/cafe.rs:2413-2418 | A receiver that is at most 128 messages behind can drain both channels; one further behind is closed without seeing anything more. |
| CafeChat.GaplessChat | apps/api/src/cafe.rs:1026-1046 | History plus received events are one contiguous, duplicate-free stretch of the room's event log, starting at most 30 events before the join. |
| CafeRun.ReachablePresence | apps/api/src/cafe.rs:1034-1121 | After any run, joined and left events of every player alternate, the last one is joined exactly if the player is present, and the history is the last 30 events of the log. |
| CafeChat.PushSynced | apps/api/src/cafe.rs:2505-2525 | Pushing a joined, left or message event keeps presence events alternating and the history the end of the log. |
| CafeChat.JoinChat | apps/api/src/cafe.rs:1034-1046 | A join announces itself exactly if the player was absent. |
| CafeChat.LeaveChat | apps/api/src/cafe.rs:1105-1119 | A leave announces itself once, whether or not the room empties. |
| CafeRun.JoinKeeps | apps/api/src/cafe.rs:1006-1069 | A join keeps inventory, positions, channels and chat, for every client already connected and for the new one. |
| CafeRun.LeaveKeeps | apps/api/src/cafe.rs:1071-1121 | So does a leave, stale or not. |
| CafeRun.InteractKeeps | apps/api/src/cafe.rs:1421-1549 | So does an interaction. |
| CafeRun.StepInv | apps/api/src/cafe.rs:1006-1690 | Every event keeps all room invariants at once. |
| CafeRun.RunInv | apps/api/src/cafe.rs:1006-1690 | So does every run of events. |
| CafeRun.ReachableInv | apps/api/src/cafe.rs:1006-1690 | In every reachable world: claims and conservation, legal positions, rounds, ticks, channels and chat are in order. |
| CafeRun.ReachableClientsConverge | apps/api/src/cafe.rs:2407-2431 | After any interleaving, a drained client of an occupied room shows the room exactly as it is. |
| CafeViews.ReachableClientsShowTheRoom | apps/api/src/cafe.rs:2756-2816 | After any run, a drained client of an occupied room with no move waiting shows exactly the players of the room, each with its name, place, hands and looks, and the activity. |
| CafeViews.ReachableSnapshotsShowTheRest | apps/api/src/cafe.rs:2768-2816 | Even while a move is waiting, a drained snapshot shows all of that but the places. |
| CafeViews.WelcomeShowsTheRoom | apps/api/src/cafe.rs:1006-1069 | The welcome shows the newcomer the room with itself in it, and the chat from before. |
| CafeViews.WaitingExactly | apps/api/src/cafe.rs:1190-1219 | A move is waiting exactly since the last accepted movement message until a snapshot or a tick goes out or the room empties. |
| CafeViews.ClosesExactly | apps/api/src/cafe.rs:2407-2430 | A delivery closes a connection exactly if it lags by more than 128 messages, or if the room is gone and nothing reliable is left to deliver. |
| CafeViews.EveryMoveGetsShown | apps/api/src/cafe.rs:1205-1251 | After any run, the room's tick and the deliveries to an open client that does not lag bring it to show exactly the room, which they leave as it is. |
| CafeHub.CodeRoundTrip | apps/api/src/cafe.rs:2712 | An invite code determines the 24-bit number it prints. |
| CafeHub.CodeIsNormal | apps/api/src/cafe.rs:2720-2727 | Every invite code is a fixpoint of the normalisation. |
| CafeHub.NormalizeExactly | apps/api/src/cafe.rs:2720-2727 | Exactly the spellings of a code in letters of either case, between any white space, normalise to it. |
| CafeHub.Pigeonhole | apps/api/src/cafe.rs:2711-2717 | With fewer than 2^24 rooms, k distinct probes can all be taken only if there are at least k rooms. |
| CafeHub.UniqueInviteCode | apps/api/src/cafe.rs:2709-2718 | The loop ends within |rooms| + 1 rounds and returns the first probe from the seed that no room uses. |
| CafeHub.CreateKeepsCodes | apps/api/src/cafe.rs:963-969 | A creation keeps codes normal and pairwise distinct. |
| CafeHub.CleanupKeepsCodes | apps/api/src/cafe.rs:1283-1289 | So does a cleanup. |
| CafeHub.CodeReachesItsRoom | apps/api/src/cafe.rs:988-999 | Any spelling that normalises to a room's code reaches that room and no other. |
| CafeHub.Hub.CreateRoom | apps/api/src/cafe.rs:963-969 | One new room with an unused code; all other rooms unchanged. |
| CafeHub.Hub.FindByInviteCode | apps/api/src/cafe.rs:988-999 | Found, full or not found, as the normalised code says. |
| CafeHub.Hub.BusiestPublicRoom | apps/api/src/cafe.rs:932-940 | A public room with a free seat that no other such room outnumbers, or none if there is none. |
| CafeHub.Hub.CleanupAt | apps/api/src/cafe.rs:1262-1297 | Removes exactly the rooms whose time to live is over. |
| CafeCleanup.RunDated | apps/api/src/cafe.rs:1028-1031 | In every run an occupied room carries no date of emptiness and one that was left carries it. |
| CafeCleanup.CleanupExactly | apps/api/src/cafe.rs:1262-1289 | After any run a cleanup removes a room exactly if nobody is present and its time is over, counted from the last leave, or from creation if nobody ever joined. |
| CafeAbuse.AbuseState.ReserveSocket | apps/api/src/cafe.rs:804-846 | Reserves exactly when session, address and total are below their limits; the new counters. |
| CafeAbuse.AbuseState.ReleaseSocket | apps/api/src/cafe.rs:848-857 | The counters after a release. |
| CafeAbuse.EverySocketRun | apps/api/src/cafe.rs:804-857 | After any reservations and drops, both sums of counters equal the active count, which is the number of live reservations, each within its limit and with no zero entries. |
| CafeAbuse.ReservedExactly | apps/api/src/cafe.rs:804-846 | In terms of the live sockets: one more is admitted exactly if its session, its address and the service have fewer than allowed. |
| CafeAbuse.AbuseState.PruneCreationBuckets | apps/api/src/cafe.rs:2697-2707 | Every queue is pruned and empty queues are forgotten. |
| CafeAbuse.AbuseState.ConsumeRoomCreation | apps/api/src/cafe.rs:859-908 | The queues after a request, and whether it was admitted. |
| CafeAbuse.CreationExact | apps/api/src/cafe.rs:884-907 | A creation is admitted exactly when session, address and service each had fewer than their limit in the window; all three are charged or none. |
| CafeAbuse.HandleAllInv | apps/api/src/cafe.rs:859-908 | In any run of requests and cleanups every queue is the in-window end of the full history. |
| CafeAbuse.CreationsSpaced | apps/api/src/cafe.rs:859-908 | The (i+L)-th creation of any identity is at least one window after the i-th. |
| SlidingLogs.PruneLog | apps/api/src/cafe.rs:2698-2705 | The loop removes exactly the expired front. |
| SlidingLogs.PrunedLength | apps/api/src/cafe.rs:2697-2707 | After pruning, the length of a queue is the number of admissions in the window. |
| SlidingLogs.RecentMessages.AcceptMessage | apps/api/src/cafe.rs:2454-2467 | The queue and the answer of the socket limit. |
| SlidingLogs.RecentMessages.AcceptChatMessage | apps/api/src/cafe.rs:2469-2482 | The queue and the answer of the chat limit. |
| SlidingLogs.AttemptExact | apps/api/src/cafe.rs:2454-2482 | A message is accepted exactly when fewer than the limit were accepted in the window. |
| SlidingLogs.MessagesSpread | apps/api/src/cafe.rs:2454-2482 | Any 46 accepted messages span more than 2 s and any 6 accepted chat messages more than 10 s. |
| Counters.DecrementCounts | apps/api/src/cafe.rs:2682-2695 | Decrementing keeps a table that counts live holders, without zero entries. |
| AttachmentTables.AttachmentStore.CreateWithQuota | apps/api/src/store/attachments.rs:4-53 | Created exactly when live bytes plus queued bytes of the owner plus the new bytes fit the quota; the row as inserted, or nothing changed. |
| AttachmentTables.AttachmentStore.ChargedLive | apps/api/src/store/attachments.rs:21-28 | The sum over the owner's live attachments. |
| AttachmentTables.AttachmentStore.ChargedQueue | apps/api/src/store/attachments.rs:29-34 | The sum over the owner's files waiting for deletion. |
| AttachmentTables.AttachmentStore.Link | apps/api/src/store/attachments.rs:67-96 | Links exactly the owner's pending attachments among the ids, and counts them. |
| AttachmentTables.AttachmentStore.RemoveRow | apps/api/migrations/202608060001_durable_attachment_file_deletions.sql:32-71 | Deleting a row enqueues its file through the trigger, or refreshes its record. |
| AttachmentTables.AttachmentStore.DeletePending | apps/api/src/store/attachments.rs:133-154 | Deletes exactly the owner's pending attachment, and says whether it did. |
| AttachmentTables.AttachmentStore.DeleteStale | apps/api/src/store/attachments.rs:156-188 | Deletes the oldest stale pending rows that are not locked, at most the limit. |
| AttachmentTables.AttachmentStore.Claim | apps/api/src/store/attachments.rs:190-289 | Leases the first due, unleased, unlocked records in (next attempt, creation, key) order, at most the limit, counting one more attempt; with a key list, among those keys. |
| AttachmentTables.FirstOfIsUnique | apps/api/src/store/attachments.rs:199-207 | That order determines which records a claim takes. |
| AttachmentTables.AttachmentStore.Complete | apps/api/src/store/attachments.rs:308-323 | Deletes the record exactly if the token holds its lease. |
| AttachmentTables.AttachmentStore.Retry | apps/api/src/store/attachments.rs:325-343 | Releases the lease and postpones by an hour exactly if the token holds it. |
| AttachmentTables.AttachmentStore.EnqueueOrphan | apps/api/src/store/attachments.rs:345-367 | Queues exactly if no live attachment has the key and no record exists. |
| AttachmentSafety.DeleteRowIsFresh | apps/api/migrations/202608060001_durable_attachment_file_deletions.sql:49-62 | In sound tables the conflict branch of the trigger is never taken: each deleted row adds a new record with its own bytes and owner. |
| AttachmentSafety.ClaimSound | apps/api/src/store/attachments.rs:190-289 | Claiming, and taking over an expired lease, keeps queue and hands apart from live keys and issues a new token. |
| AttachmentSafety.RemoveFileSound | apps/api/src/attachments.rs:587-596 | Removing a claimed file, even under a lease that was taken over, never removes the file of a live attachment. |
| AttachmentSafety.CompleteSound | apps/api/src/attachments.rs:426-430 | Completing leaves no file behind except one written after its row was gone. |
| AttachmentSafety.OrphanSound | apps/api/src/attachments.rs:571-580 | Orphan enqueues keep the queue apart from live keys. |
| AttachmentSafety.StepSound | apps/api/src/store/attachments.rs:4-367 | Every statement and file operation keeps soundness. |
| AttachmentSafety.EveryRunSound | apps/api/src/store/attachments.rs:4-367 | In every run: queued keys are never live keys, a live attachment whose upload finished has its file, and a file on disk is live, queued or was written after its row was gone. |
| AttachmentSafety.StepTracksExactly | apps/api/src/attachments.rs:422-430 | An event leaves every file live or queued if and only if it is neither a write to a key that is neither, nor a completion under the current lease while the file is on disk. |
| AttachmentSafety.RunTracksExactly | apps/api/src/store/attachments.rs:4-367 | Every file stays live or queued throughout a run exactly if no event of the run is of those two kinds. |
| AttachmentSafety.LateWriteLosesTrack | apps/api/src/chat/attachments.rs:106-158 | A run from the empty store after which a finished upload is on disk but neither live nor queued. |
| AttachmentSafety.ScanRestoresExactly | apps/api/src/store/attachments.rs:345-367 | A sequence of orphan reports leaves every file live or queued if and only if it names every file that was neither. |
| AttachmentSafety.SomeScanRestores | apps/api/src/store/attachments.rs:345-367 | In every state there is such a sequence. |
| AttachmentSafety.StepKeepsRecord | apps/api/src/store/attachments.rs:308-323 | Only a completion by the current lease holder that removed the file takes a record away. |
| AttachmentSafety.RemovedHasCause | apps/api/src/attachments.rs:422-428 | A worker that counts a file as removed removed it, or found it missing, earlier in the run. |
| AttachmentSafety.OnlyTheHolderRemoves | apps/api/src/attachments.rs:393-476 | In every run, a record queued at some point and gone later was completed by its current token holder after that same worker removed the file or found it missing. |
| AttachmentSafety.OvertakenForever | apps/api/src/store/attachments.rs:308-343 | A worker whose lease was taken over can never again complete or retry the record. |
| AttachmentSafety.ReclaimOvertakes | apps/api/src/store/attachments.rs:199-219 | A reclaim happens only after expiry, and makes the new token the holder. |
| AttachmentLeases.LeaseStep | apps/api/src/store/attachments.rs:190-343 | Before it expires, an event ends a lease if and only if it is the holder's completion or retry, or the deletion of the account that owns the record. |
| AttachmentLeases.LeaseIsExclusive | apps/api/src/store/attachments.rs:190-219 | Over any run that ends before the expiry, the lease stands at the end if and only if none of those events occurred. |
| AttachmentLeases.ClaimLastsFifteenMinutes | apps/api/src/store/attachments.rs:208-212 | Within fifteen minutes of a claim the claimer still holds a record exactly if nothing of that kind happened. |
| AttachmentLeases.WaitingStep | apps/api/src/store/attachments.rs:325-343 | An event ends the wait of a retried record if and only if it deletes the account that owns it. |
| AttachmentLeases.RetryWaitsAnHour | apps/api/src/store/attachments.rs:325-343 | After a failed removal the record waits, unclaimable, throughout the next hour if and only if the account that owns it is not deleted meanwhile. |
| AttachmentLeases.DisownedIsReady | apps/api/src/store/auth.rs:261-272 | Deleting the account makes its records claimable at once, whatever lease or wait they were under. |
| AttachmentLeases.AccountDeletionEndsALease | apps/api/src/store/auth.rs:261-272 | A run from the empty store in which an account deletion ends a fresh lease and another worker claims the record. |
| AttachmentLeases.AccountDeletionEndsAWait | apps/api/src/store/auth.rs:261-272 | From the same state, an account deletion ends the wait after a retry. |
| AttachmentLeases.AttemptsCountClaims | apps/api/src/store/attachments.rs:211 | While a record stays queued its attempt count rises by exactly the claims that took it. |
| AttachmentLeases.LinkedIsFinal | apps/api/src/store/attachments.rs:78-88 | A linked attachment is linked to no other message and neither the pending deletion nor the stale clean-up takes it. |
| AttachmentStatements.LinksExactly | apps/api/src/store/attachments.rs:66-92 | Linking sets chat and message of exactly the named unlinked rows of the scope, by account when signed in and by session otherwise, and changes nothing else. |
| AttachmentStatements.OwnsExactly | apps/api/src/store/attachments.rs:26-35 | A signed-in scope owns the rows of its account, a guest those of its session. |
| AttachmentStatements.NewRowIsMine | apps/api/src/store/attachments.rs:4-54 | A new row is unlinked, has the age of its creation, and belongs to its scope and to no other account or session. |
| AttachmentStatements.CleanupTakesExactly | apps/api/src/store/attachments.rs:157-187 | The stale clean-up takes only unlinked unlocked rows of the kind from before the cutoff, the oldest first, all of them if the limit allows, and leaves all other rows as they were. |
| AttachmentStatements.RowKeepsAge | apps/api/src/store/attachments.rs:4-367 | Kind, size, key and age of a live row never change. |
| AttachmentStatements.FreshUploadSurvives | apps/api/src/store/attachments.rs:157-187 | Whatever happened since its insertion, a live upload survives every clean-up whose cutoff is not after that insertion. |
| AttachmentStatements.ClaimableExactly | apps/api/src/store/attachments.rs:190-219 | A record can be claimed exactly if it is due and under no running lease. |
| AttachmentStatements.ClaimTakesExactly | apps/api/src/store/attachments.rs:190-288 | A claim takes only due, unleased, wanted, unlocked records: the earliest due first, of these the longest queued, of these the smallest key, and all if the limit allows. |
| AttachmentStatements.DeletedIsClaimable | apps/api/migrations/202608060001_durable_attachment_file_deletions.sql:32-66 | The file of a deleted row is queued with its size and owner and can be claimed at that moment. |
| AttachmentStatements.OrphanIsClaimable | apps/api/src/store/attachments.rs:345-367 | A reported orphan is queued exactly if no live row has its key and no record exists, without owner, with its size, claimable at once. |
| AttachmentStatements.AccountRowsGo | apps/api/src/store/auth.rs:193-199 | An account deletion removes exactly the rows of the account and of its sessions. |
| AttachmentStatements.AccountRecordsFree | apps/api/src/store/auth.rs:261-272 | It takes owner and lease off exactly the records of the account and of its sessions, and makes them due at once. |
| AttachmentQuota.DeleteRowMovesBytes | apps/api/migrations/202608060001_durable_attachment_file_deletions.sql:32-66 | Deleting a row moves its bytes to the queue: no owner's charge changes. |
| AttachmentQuota.ChargeMovesExactly | apps/api/src/store/attachments.rs:4-367 | Sign-ins apart, an event moves a charge by exactly the bytes it inserts and the bytes it completes or, when an account is deleted, the bytes of that account and its sessions. |
| AttachmentQuota.AdmittedExactly | apps/api/src/store/attachments.rs:11-53 | Whatever interleaves between check and insertion, the insertion happens exactly if the check found room, adds exactly the checked bytes, and stays within the quota. |
| AttachmentQuota.PromotionMovesCharge | apps/api/src/store/auth.rs:530-548 | A sign-in moves the guest's whole charge to the account and spares everyone else. |
| AttachmentQuota.StepWithinExactly | apps/api/src/store/attachments.rs:4-53 | An event keeps every owner within the quota if and only if it is not a sign-in that brings together more than the quota allows. |
| AttachmentQuota.EveryRunWithin | apps/api/src/store/attachments.rs:4-343 | In every run whose sign-ins fit, with the check and the insertion of a creation as two steps under the owner's lock, live plus queued plus admitted bytes of every owner stay within the quota. |
| AttachmentQuota.SignInCanExceedTheQuota | apps/api/src/store/auth.rs:616-636 | A concrete run: two uploads that each fit exceed the quota once the guest signs in. |
| AttachmentQuota.AccountDeletionReleases | apps/api/src/store/auth.rs:193-272 | An account deletion takes exactly the bytes of rows and records of the account or its sessions off every owner's charge; the account is left with none, and guests keep theirs. |
| AttachmentWorker.ProcessBatch | apps/api/src/attachments.rs:393-476 | claimed = deleted + retried + failed; each counter is the number of its outcomes; each ticket is completed exactly if its file is gone and retried otherwise; the category is none, the common one, or multiple. |
| AttachmentWorker.RecordSummarises | apps/api/src/attachments.rs:341-350 | Recording errors one by one gives the summary of their set, in any order. |
| OrphanScans.StrictIsUploaded | apps/api/src/attachments.rs:603-614 | The scan accepts exactly the names under which uploads are stored. |
| OrphanScans.AttachmentOrphanScan.RunBefore | apps/api/src/attachments.rs:492-584 | At most 100 entries are inspected, exactly the candidates among them are offered, and the iterator resumes, ends or is dropped on an error. |
| OrphanScans.RunsPartition | apps/api/src/attachments.rs:515-535 | Successive runs over an error-free directory inspect consecutive slices of 100, and run length/100 is the one that reports the end. |
| OrphanScans.OffersExactly | apps/api/src/attachments.rs:538-573 | What is offered: name and size of exactly the regular files with an upload's name, last modified before the cutoff, of countable size. |
| OrphanScans.EveryOrphanOffered | apps/api/src/attachments.rs:538-573 | Every file that is a candidate when its slice is read is offered to the queue. |
| RateLimiters.RateLimiter.CheckAll | apps/api/src/rate_limit.rs:43-80 | Both loops in place: the table after a call and whether it was allowed. |
| RateLimiters.CheckManyExact | apps/api/src/rate_limit.rs:57-79 | Admitted exactly when every key is below its limit; then each key is charged one, otherwise no count in force changes. |
| RateLimiters.RunCallsInv | apps/api/src/rate_limit.rs:43-80 | In any run every bucket holds exactly the admissions of its window, within the limit. |
| RateLimiters.AtMostTwiceTheLimit | apps/api/src/rate_limit.rs:43-80 | Any 2*max + 1 consecutive admissions of a key span more than a window, and no bucket exceeds its limit. |
| RateLimiters.WindowCountBounded | apps/api/src/rate_limit.rs:43-80 | At most 2*max requests of a key are admitted in any half-open minute. |
| RateLimiters.LimitOfEachKey | apps/api/src/rate_limit.rs:143-170 | Which configured limit each family and identity has, in a window of one minute. |
| RateLimiters.ChatAdmittedExactly | apps/api/src/chat/mod.rs:484-546 | A chat request is admitted exactly if its session and its address are below the chat limit and the service below the global chat limit. |
| RateLimiters.RejectedUnchangedExactly | apps/api/src/rate_limit.rs:51-73 | A rejected call leaves the table as pruning alone would, if and only if every key up to and including the first full one already has a running window. |
| RateLimiters.RejectionMayOpenAWindow | apps/api/src/rate_limit.rs:57-73 | With guest limits of one: after a first caller used up the global bucket, the rejected call of a second address starts that address's window. |
| GenerationLimiters.GenerationLimiter.Acquire | apps/api/src/rate_limit.rs:356-392 | The state and answer of an acquisition. |
| GenerationLimiters.GenerationLimiter.AcquireClear | apps/api/src/rate_limit.rs:394-411 | The state and answer for clearing a chat. |
| GenerationLimiters.GenerationLimiter.Drop | apps/api/src/rate_limit.rs:423-437 | The state after a permit's destructor. |
| GenerationLimiters.EveryRunAccounted | apps/api/src/rate_limit.rs:345-437 | Over any acquisitions, drops and releases of a new limiter: live permits never share a chat, the chat set and session counts are exactly theirs, within limits, and no semaphore token is lost or made. |
| GenerationLimiters.GrantedExactly | apps/api/src/rate_limit.rs:356-392 | A permit is granted exactly when no live permit has the chat, the session is below its limit and a token is free; a refusal changes nothing. |
| GenerationLimiters.RefusedExactly | apps/api/src/rate_limit.rs:356-392 | Which reason a refusal gives, in terms of the live permits: a busy chat first, then the session's own permits, then the tokens of the process. |
| GenerationLimiters.ClearedExactly | apps/api/src/rate_limit.rs:394-411 | A clear is granted exactly when no live permit has the chat; it takes up the chat and no token or session count, and otherwise changes nothing. |
| GenerationLimiters.AcquireDropRestores | apps/api/src/rate_limit.rs:356-437 | Acquire, drop and release restore the limiter. |
| MemorySelection.LongDigitRun | apps/api/src/memory.rs:1534-1545 | The counter loop finds exactly the texts with a stretch of digits, spaces and hyphens that holds at least twelve digits. |
| MemorySelection.IsSafe | apps/api/src/memory.rs:891-908 | Safe exactly as the conditions on confidence, importance, expiry, kind, key and content say. |
| MemorySelection.DedupKeepsNewest | apps/api/src/memory.rs:731-737 | After the sort, deduplication keeps exactly the newest item of each key, in key order. |
| MemorySelection.DistilledExactly | apps/api/src/memory.rs:730-737 | What reaches scoring are exactly the safe candidates without a newer safe one under their key. |
| MemorySelection.RankedExactly | apps/api/src/memory.rs:739-742 | What is ranked are exactly those with a relevance, under their score. |
| MemorySelection.RankingIsDetermined | apps/api/src/memory.rs:743-756 | The second order leaves no ties: any sorting algorithm gives the same ranking. |
| MemorySelection.PackLoop | apps/api/src/memory.rs:758-801 | The packing loop, with its break and skips, computes the greedy packing. |
| MemorySelection.PackWithinBudgets | apps/api/src/memory.rs:758-801 | Five items, 1200 characters, 300 estimated tokens, two broad-only items each with a new topic; the text is the header and the chosen lines. |
| MemorySelection.GreedyByRank | apps/api/src/memory.rs:762-800 | Item i is taken right after the better-ranked ones exactly when it is admissible after them. |
| MemorySelection.PackIsMaximal | apps/api/src/memory.rs:762-800 | An item that was left out could not be added to the finished context either. |
| MemorySelection.AsciiAdds | apps/api/src/memory.rs:1057-1066 | Character counts add over concatenation, which makes the token estimate monotone. |
| MemorySelection.SelectMemoryContext | apps/api/src/memory.rs:720-812 | The whole selection, step by step. |
| MemorySelection.SelectForgetsOrder | apps/api/src/memory.rs:720-812 | The result is invariant under any permutation of candidates with distinct ids. |
| MemorySelection.SelectionGuarantee | apps/api/src/memory.rs:720-812 | The result respects every budget, contains only newest safe memories, and every other relevant one is inadmissible in the end. |
| MemoryLaws.SafeExactly | apps/api/src/memory.rs:891-910 | Which memories are safe, condition by condition. |
| MemoryLaws.ValidKeyExactly | apps/api/src/memory.rs:1479-1488 | A valid key has at most 80 characters: parts of lower-case letters, digits, underscores and hyphens joined by single dots, at least one. |
| MemoryLaws.TextBeforeExactly | apps/api/src/memory.rs:726-729 | Text order decides at the first difference by code point, or by the end of the text. |
| MemoryLaws.RankedInOrder | apps/api/src/memory.rs:743-756 | The ranking puts specific matches first, then higher scores, then newer memories, then smaller keys, then smaller ids. |
| MemoryLaws.LeftOutIsJustified | apps/api/src/memory.rs:758-800 | A newest safe relevant memory that was left out did not fit after the chosen ones that rank no worse (five chosen, two broad ones, topics covered, 1200 characters or 300 tokens), and the others rank no better than it. |
| MemoryLaws.AnswerExactly | apps/api/src/memory.rs:720-812 | Nothing without signals or chosen memories; otherwise the header and one rendered line for each chosen memory in rank order, their number and the token estimate. |
| MemoryLaws.TokensExactly | apps/api/src/memory.rs:1057-1066 | The estimate counts a quarter token for each ASCII character, rounded up, and one for each other character. |
| Sorting.AscendingUnique | apps/api/src/memory.rs:731-756 | Elements have only one ascending arrangement. |
| Riff.WavDataChunk | apps/api/src/voice.rs:637-661 | The walker loop terminates on all bytes, never reads out of range, and computes the chunk walk. |
| Riff.DataChunkExact | apps/api/src/voice.rs:637-661 | On arbitrary bytes it returns d exactly when the part after the header is printed non-data chunks followed by a data chunk with payload d. |
| Riff.PrintedFileRoundTrip | apps/api/src/voice.rs:637-661 | For every list of well-formed chunks it returns the payload of the first data chunk, or nothing when there is none. |
| Riff.ValidateWavAudio | apps/api/src/voice.rs:606-635 | Which of the five errors, or none, for every input. |
| Riff.GenerateMockWav | apps/api/src/voice.rs:663-702 | The file is the header, the format chunk and the data chunk, and its size field is right. |
| Riff.MockRoundTrip | apps/api/src/voice.rs:663-702 | What the walker finds in the mock file are exactly the samples written. |
| Riff.FormatReadsBack | apps/api/src/voice.rs:663-702 | Read back, the mock file declares PCM, one channel, 8000 samples a second of 16 bits, and the rates and sizes that follow from these. |

## Left out

- HTTP, WebSocket, multipart and JSON handling, cookies, logging, telemetry counters and
  configuration validation: input and output around the modelled state.
- Player colours, the facial expression sent with a line of dialogue, display-name clean-up, chat
  text normalisation and chat event ids: they do not affect any modelled decision.
- The order of players inside a snapshot: a view is a map by player id; and the host's place and
  mood in it, which follow from the activity.
- f32 rounding, saturation of revisions at 2^64, and channel internals beyond capacity, lag and
  close.
- Several rooms at once in the concurrent world: rooms share no state except the codes and
  limits that `CafeHub` and `CafeAbuse` cover. `equip_cosmetic` and `equip_avatar` are modelled
  for one room of their outer loop.
- The gate that makes a limited creation or quick join one critical section, the room lists, and
  the persistence of rewards.
- Lexical analysis and the numeric relevance score of memories, lower-casing, Unicode blankness,
  the lists of sensitive and unwanted terms, and JSON rendering of a line: parameters of the
  selection.
- The sine samples of the mock speech file: a parameter.
- Other tables touched by sign-in and account deletion, and legacy reparenting in migrations.
- Attachments created without a quota check, which only tests do, and soft deletion, which no
  statement performs any more.
- Image validation, provider calls, audio transcoding, SHA-256, session and token handling.
- CafeHub.Hub.BusiestPublicRoom: states a busiest room without saying which of several equally
  busy ones, since the map's iteration order decides.
- AttachmentTables.AttachmentStore.DeleteStale: does not say which of several equally old rows
  goes first, since the statement orders by age alone.
- AttachmentTables.AttachmentStore.Claim: returns the set of leased records, since the order in
  which an update returns its rows is not specified.
- CafeFinish.CompletableExactly: a timer may fire at any time after it is due, so whether the
  players of a rush are fast enough for its 90 seconds is not stated.
- AttachmentSafety.SomeScanRestores: takes the reports as given; which files one run of the scan
  inspects and offers, by name and age, is in `OrphanScans`.
- AttachmentWorker.ProcessBatch: takes the answers of the disk and of the store as inputs; what
  interleaves between them is in `AttachmentWorld`.
