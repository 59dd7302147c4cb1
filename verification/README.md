# ttbud, modelled and verified in Dafny

ttbud is a shared board. A room is a log of upsert and delete actions that clients append to; the
board is the replay of that log. The log is compacted, archived and reloaded while clients keep
writing, it is folded once by the server (Python) and once by every client (TypeScript), and clients
apply their own actions before the server has seen them. This project models those parts and proves
what holds over every log, every run and every reachable state.

`dafny verify dfyconfig.toml` checks everything.

## How it is built

What a log *means* is defined once, in `Board.dfy`: a fold over plain pieces (id, kind, contents,
box) that keeps no index, knows no colour and never fails. Everything else is compared with it.

| module | what it models |
|---|---|
| `Sequences`, `Components`, `Board` | vocabulary and the meaning of a log |
| `Coloring`, `ColoringOrder` | `_assign_colors`, as loops and as a rule |
| `RoomTables`, `RoomIcons`, `RoomRaising`, `RoomColors`, `Room` | the server's room: four cross-indexed tables as a value, what they keep, when they raise, which tokens get colours, and the class that updates them in place |
| `CompactedLog`, `ExactCompaction` | compaction as a transformation of logs |
| `StoreState`, `RoomStores`, `StoreLockstep`, `LockLifetime` | the Redis and memory stores, the archive, the merged store, the replacement lock |
| `ArchiveProtocol`, `StoredPings`, `ArchiveHistory`, `ArchiveLosses`, `Compactor` | writers, readers and compactors as interleaved steps; what is kept, and exactly when something is lost; `_compact_room` and one compaction cycle |
| `PosStr`, `ClientTables`, `ClientMeaning`, `ClientColoring`, `ClientColoringOrder`, `ClientBoard` | the client's board, its indexes, what an action does to it and the colours it hands out |
| `Wire`, `ClientServerAgreement` | the wire conversion and the two folds compared |
| `Reconciliation` | network board, queued updates, unqueued actions, local board |
| `Connection`, `SeenTwice`, `GameStateServer` | subscribe, snapshot, stream |
| `Session`, `PingArrival` | one client end to end: local actions up the socket, into the room's log, and back as acknowledgements; pings from client to client |
| `ConnectionLimiter`, `ServerLiveness`, `OpenConnections`, `RateLimiter`, `RoomCreation`, `Throttle` | counting and timing bounds |

Code that changes state in place is a class or a method with loops, proved equal to a function on
values; the properties are then proved about those functions, over whole runs.

Some things the code does that a reader may not expect, and that the theorems therefore state:

- Colours are not part of what a log means. Server and client hand them out in different orders, the
  client drops the last palette entry when it meets a colour that is no longer in the palette, and a
  replay can colour a token that was bare. `ExactCompaction` says exactly when colours survive
  compaction.
- The server's update branch does not maintain the icon lists. An upsert that changes the kind of a
  live token or the contents of a live character can make a later action raise, and
  `RoomRaising.RaisesLaterIff` and `NeverRaisesIff` show that this is exactly the cause.
- Ids are read as truth values. Logs are assumed to name their tokens (`Components.Named`);
  `RoomTables.RefusedIffNamed` shows what an empty id does. Tokens with an empty box cannot be
  constructed; where that matters logs are assumed to be `Components.Boxed`.
- The server refuses an upsert onto the token's own cell, the client repeats it. The two folds agree
  exactly on the actions of `ClientServerAgreement.Compatible`.
- A request made between subscribing and reading is seen twice. That is harmless for every log only
  when there is none (`SeenTwice.ConvergesIff`).
- `MAX_ROOMS_PER_TEN_MINUTES` bounds a lifetime of the counter, not ten minutes: in ten minutes up to
  100 rooms are granted (`RoomCreation.AtMostAHundred`, `AHundredIsReached`), and
  `RoomCreation.AtMostFiftyIff` says when 50 is kept.
- An attempt that is refused for one key has still been counted under the other
  (`ConnectionLimiter.AttemptRecords`).
- `refresh_server_liveness` prolongs the counts of users, not those of rooms. Ten minutes after the last
  granted connection a room's count is gone, however many are still open: 21 connections in a room are
  possible (`OpenConnections.RoomsAreForgotten`). `OpenConnections.RecordedIff` says exactly when what is
  open is also recorded.
- Redis writes a missing room, the memory store an empty one (`StoreLockstep.WritesDifferIff`).
- `add_request` does not load an archived room first (`ArchiveHistory.AppendIsKeptIff`,
  `ArchiveLosses.AppendLoses`).
- `archive.write` and `archive.delete` check no lock. A compactor that has lost the lock can delete an
  archive readers depend on, or write an old one, also just before another compactor drops the stored
  log. `ArchiveLosses` has a run from the empty system for each of these losses.
  `ArchiveHistory.UnlockedDeleteIsKeptIff`,
  `UnlockedWriteIsKeptIff` and `LateWriteIsKeptIff` say exactly when nothing is lost, and
  `ArchiveHistory.SafeIff` shows that these are the only steps that can start a loss, appends aside.
- The memory store renews a lock for its holder, Redis refuses (`StoreLockstep.AcquiresDifferIff`).

Time is a parameter wherever the code reads a clock, and whether a room may be created is a parameter
of `GameStateServer.Connect`.

## Model

| member | source | states |
|---|---|---|
| `Coloring.AssignColorsGuarantee` | `api/src/room.py:9-18` | coloured tokens are left alone; the colours handed out are pairwise different palette entries that no token of the list had on entry; what stays bare is exactly the excess over the free entries, and nothing among at most eight tokens |
| `Coloring.AssignColorsIsIdentityIff` | `api/src/room.py:9-18` | the assignment changes nothing if and only if no token is bare or the palette is used up |
| `Coloring.AssignColorsInPlace` | `api/src/room.py:9-18` | the two loops over a list of token objects, with the early return, do the assignment the guarantee is about |
| `ColoringOrder.AssignColorsIff` | `api/src/room.py:9-18` | complete description without the loops: a list is the outcome if and only if coloured tokens are as they were and every bare token in turn has the first palette entry that nobody had on entry and nobody before it was given, or stays bare when there is none |
| `RoomColors.UpsertColors` | `api/src/room.py:54-78` | on any room made by look-keeping logs an upsert never raises; refused it changes no token; joining others with its icon it is coloured first and they after it, oldest first, each bare one with the first free palette entry; in all other cases no other token changes |
| `Components.ContentIdInjective` | `api/src/game_components.py:54-60` | two tokens share an icon list exactly when their contents are equal; no text is mistaken for an icon |
| `Board.ReplayIsDisjoint` | `api/src/room.py:85-92` | over every log, no two tokens ever share an id or occupy a common cell |
| `Board.ReplayUpserts` | `api/src/compaction.py:96-100` | upserting the tokens of any board in order onto an empty one gives that board back |
| `RoomTables.UnitBlocksMembers` | `api/src/room.py:21-27` | the unit blocks of a box are exactly its cells, and there are none when the box is empty in some direction |
| `RoomTables.ValidPositionIff` | `api/src/room.py:80-82` | the test on the cell table accepts a box exactly when it overlaps no live token's box, the token's own included |
| `RoomTables.RefusedIffNamed` | `api/src/room.py:80-82` | because owners are read as truth values, a token protects its cells from others if and only if its id is not empty |
| `RoomTables.StepRefines` | `api/src/room.py:37-78` | one action on a room whose tables agree, if it does not raise, leaves tables that agree and does to the tokens what the action means |
| `RoomTables.CreateRoomRefines` | `api/src/room.py:85-92` | for every log whose replay does not raise: id→cells holds each live token's unit blocks, cell→id is exactly the inverse of the live tokens' boxes, and the tokens in order are what the log means, colours aside; nothing is assumed about kinds, contents or colours |
| `RoomIcons.StableLogsNeverRaise` | `api/src/room.py:37-92` | a log in which accepted upserts keep the kind of live tokens and the contents of live characters never raises, and every icon list then holds exactly the live characters with that content, oldest first |
| `RoomIcons.ListedMeansOnce` | `api/src/room.py:42-52` | such a list holds each of its characters exactly once and no other id |
| `RoomRaising.NeverRaisesIff` | `api/src/room.py:42-78` | from any room whose cell tables agree, however it came about: no log of tokens with an id and a non-empty box that keeps the looks of live characters makes it raise if and only if every icon list holds exactly the live characters with its contents, each once, in any order |
| `RoomRaising.ListedIsRight` | `api/src/room.py:42-78` | rooms made by logs that keep the looks of live characters meet that condition |
| `RoomRaising.RaisesLaterIff` | `api/src/room.py:42-78` | from such a room no single action raises; afterwards some log of such tokens that keeps the looks of live characters raises if and only if the action was an accepted upsert that changed a live token's kind or a live character's contents, because the update branch does not maintain the icon lists |
| `Room.GetUnitBlocks` | `api/src/room.py:21-27` | the three nested loops list the unit blocks |
| `Room.Room.RemovePositions` | `api/src/room.py:37-40` | the in-place loop frees exactly the token's listed cells and touches nothing else |
| `Room.Room.DeleteToken` | `api/src/room.py:42-52` | whole new state of the four tables, and exactly when it raises |
| `Room.Room.IsValidPosition` | `api/src/room.py:80-82` | true exactly when no cell of the box has an owner with a non-empty id |
| `Room.Room.CreateOrUpdateToken` | `api/src/room.py:54-78` | whole new state of the four tables on every branch (refused, moved, coloured with its icon list, first of its icon, floor), and exactly when it raises |
| `Room.CreateRoom` | `api/src/room.py:85-92` | the loop over the log ends in the room of the specification, or raises exactly when that does |
| `CompactedLog.TokensToActions` | `api/src/compaction.py:96-100` | the loop produces one upsert per token, in order |
| `CompactedLog.CompactedMeansSame` | `api/src/compaction.py:53-55` | the compacted log means what the log means, keeps the looks of live characters, and contains only named tokens |
| `CompactedLog.CompactionPreservesMeaning` | `api/src/compaction.py:53-55` | for every prefix of named tokens whose replay does not raise and every suffix that arrives later: compacted prefix plus suffix replays to the same tokens (ids, order, kind, contents, box) as prefix plus suffix, colours aside |
| `CompactedLog.CompactedRoomNeverRaises` | `api/src/compaction.py:53-55` | create_room on compacted prefix plus suffix never raises when the suffix keeps the looks of live characters, even if the prefix did not, and holds the tokens of the full log in agreeing tables |
| `ExactCompaction.CompactionExactIff` | `api/src/compaction.py:96-100` | replaying the upserts of a room's tokens rebuilds the very same room, colours and icon lists included, if and only if its icon lists are right and every token's colour is what its elders leave it |
| `ExactCompaction.RunSame` | `api/src/room.py:37-92` | two rooms that are the same stay the same, and raise together, under every log |
| `ExactCompaction.FaithfulLogs` | `api/src/room.py:9-78` | logs whose upserts of live tokens keep the kind and, of characters, carry the current contents and colour, with at most eight characters per icon, never raise and leave all tables in agreement and no sharing character bare |
| `ExactCompaction.CompactionExact` | `api/src/compaction.py:53-55` | after such a prefix compaction is exact for every suffix: both logs raise, or both make the same room, order, colours and icon lists included |
| `RoomStores.RedisRoomStore.AddRequest` | `api/src/room_store/redis_room_store.py:148-166` | pushes one group with the request's actions except pings |
| `RoomStores.RedisRoomStore.ReadForReplacement` | `api/src/room_store/redis_room_store.py:197-200` | all actions in order, and the number of groups as token |
| `RoomStores.RedisRoomStore.Replace` | `api/src/room_store/redis_room_store.py:52-65` | trim and push under the lock: the first groups give way to one compacted group, later ones stay; without the lock nothing changes |
| `RoomStores.MergedRoomStore.Read` | `api/src/room_store/merged_room_store.py:47-57` | returns the stored log if there is one, else the archived one (which is loaded), else nothing |
| `RoomStores.MemoryRoomStore.AddRequest` | `api/src/room_store/memory_room_store.py:64-81` | appends everything but pings, creating the room only if something is left, then puts the whole request on every queue of the room and on no other |
| `RoomStores.MemoryRoomStore.Changes` | `api/src/room_store/memory_room_store.py:49-62` | adds one new, empty queue that all later requests to the room reach |
| `RoomStores.MemoryRoomStore.Replace` | `api/src/room_store/memory_room_store.py:126-136` | slice assignment under the lock: the first entries give way, what was appended since stays |
| `StoreLockstep.NextInStep` | `api/src/room_store/memory_room_store.py:64-136` | each operation keeps the two stores in step, a read that is never followed by a replacement included |
| `StoreLockstep.StoresStayInStep` | `api/src/room_store/redis_room_store.py:148-223` | under the same run of appends, reads, abandoned compactions, lock changes and replacements the flattened Redis groups of every room equal the memory store's list, and the two replacement tokens of a live reader mark the same place although they count different units |
| `StoreLockstep.AcquiresDifferIff` | `api/src/room_store/redis_room_store.py:184-194` | the two stores give out the lock alike if and only if it is not asked for by its own holder, whom memory renews and Redis refuses |
| `StoreLockstep.DeletesDifferIff` | `api/src/room_store/redis_room_store.py:67-83` | where the units show: the memory store deletes and Redis refuses exactly when only requests without a storable action arrived since the read |
| `StoreLockstep.WritesDifferIff` | `api/src/room_store/memory_room_store.py:83-87` | write_if_missing leaves what was stored, or else the given actions, in either store; the stores stay in step if and only if the room was missing from Redis too, or holds an action, or nothing is written |
| `LockLifetime.RedisLockLasts` | `api/src/room_store/redis_room_store.py:184-194` | granted if and only if forced or held by nobody; then held by its owner alone for twenty minutes, and by nobody after |
| `LockLifetime.MemoryLockLasts` | `api/src/room_store/memory_room_store.py:101-124` | granted if and only if forced or held by nobody else; then held by its owner alone for twenty minutes, and by nobody after |
| `LockLifetime.HolderKeepsLock` | `api/src/room_store/redis_room_store.py:184-194` | in every run in which nobody takes the lock by force, whoever acquired it holds it alone for twenty minutes, whatever readers, writers and other compactors do |
| `ArchiveProtocol.NextKeepsCompactors` | `api/src/compaction.py:52-93` | each step of writers, readers, lock traffic and compactors keeps what compactors rely on, with nothing assumed about lock or archive |
| `ArchiveProtocol.LockProtectsRead` | `api/src/compaction.py:52-93` | in every run, whatever happens to lock and archive, the groups a compactor has read are still exactly the front of the stored log while its lock is alive |
| `ArchiveProtocol.StoredLogLosesNothing` | `api/src/compaction.py:62-93` | in every run, whatever happens to lock and archive, the meaning of a stored log changes only by appends, by being loaded, and when it is dropped after being archived; replace and the deletion of an empty room leave it as it is |
| `ArchiveProtocol.LogsStayNamed` | `api/src/compaction.py:52-55` | from named appends nothing but named tokens is ever stored, archived or read |
| `StoredPings.NonPingMeans` | `api/src/room_store/redis_room_store.py:148-166` | of a request exactly the pings are left out: a list without pings is stored as it is, in order, and a ping leaves no trace wherever it stands |
| `StoredPings.AppendStores` | `api/src/room_store/redis_room_store.py:148-166` | an append puts the actions that are no pings behind what is stored |
| `StoredPings.NoPingIsKept` | `api/src/room_store/redis_room_store.py:148-166` | in every run of writers, readers and compactors, whatever happens to the lock, no ping is ever stored or archived |
| `ArchiveHistory.NextKeepsRoom` | `api/src/compaction.py:52-93` | each step that is safe for a room keeps it in order, whatever other rooms and compactors do |
| `ArchiveHistory.MergedStoreKeepsHistory` | `api/src/compaction.py:52-93` | in every run whose steps are safe for the room, across archiving, deletion of empty rooms and reloading, replaying what the merged store would read gives the tokens of replaying every action ever appended, in order, colours aside |
| `ArchiveHistory.SafeIff` | `api/src/compaction.py:62-82` | safe is exact for every step that is no append: from a room in order, no legal continuation that is itself safe loses the room if and only if the step is safe, that is, the archive is touched with the lock held, or the paired deletes find the room not archived or its board empty, or the write means the full history, or nobody relies on the archive |
| `ArchiveHistory.NothingIsLostUnarchived` | `api/src/compaction.py:33-93` | for a room that is never archived, with any number of writers and compactors, a lock that expires or is taken by force at any moment, and other rooms archived or not: neither replace nor the deletion of an empty room loses an action |
| `ArchiveHistory.AppendIsKeptIff` | `api/src/room_store/merged_room_store.py:59-60` | every append to a room is kept if and only if the room is in the store, or is not archived, or its archive is an empty board: add_request does not load an archived room |
| `ArchiveHistory.UnlockedDeleteIsKeptIff` | `api/src/compaction.py:62-70` | the pair of deletes by a compactor that has lost the lock keeps the room if and only if the room is in the store, or is not archived, or its archive is an empty board |
| `ArchiveHistory.UnlockedWriteIsKeptIff` | `api/src/compaction.py:76-77` | an archive write by a compactor that has lost the lock keeps the room if and only if the room is in the store or what is written means the full history |
| `ArchiveHistory.LateWriteIsKeptIff` | `api/src/compaction.py:76-82` | a late archive write just before the holder of the lock drops the log it archived keeps the room if and only if what was written late means the full history |
| `ArchiveLosses.AppendLoses` | `api/src/room_store/merged_room_store.py:59-60` | a legal run, for any room and compactor, in which an append to an archived and dropped room leaves readers with that append only |
| `ArchiveLosses.UnlockedDeleteLoses` | `api/src/compaction.py:62-70` | a legal run, for any room and any two compactors, in which the paired deletes of a compactor that read the room while it was empty and lost its lock take away what another has archived since |
| `ArchiveLosses.UnlockedWriteLoses` | `api/src/compaction.py:76-77` | a legal run in which the archive write of a compactor that lost its lock replaces what another has archived since |
| `ArchiveLosses.LateWriteLoses` | `api/src/compaction.py:76-82` | a legal run in which such a write lands between another compactor's archive write and its deletion of the stored log; readers then miss a token that was appended to a stored log and never deleted |
| `Compactor.CompleteApplies` | `api/src/compaction.py:52-93` | the protocol's steps taken without interference, with any pauses before delete and replace, end in the store and archive of _compact_room's branches, exceptions included |
| `Compactor.UninterruptedKeepsMeaning` | `api/src/compaction.py:52-93` | a compaction nobody interferes with leaves what every room means unchanged, with the lock, losing it in any pause, without it, or when create_room raises |
| `Compactor.UninterruptedLeaves` | `api/src/compaction.py:52-93` | what a compaction nobody interferes with leaves of its room in each of its endings: a tidy room, the archive seen to and the stored log as it was when the lock was lost, nothing changed when create_room raises |
| `Compactor.Compactor.CompactRoom` | `api/src/compaction.py:52-93` | the method goes through exactly the protocol's steps, with time passing before delete and replace; it crashes exactly when create_room raises, loses the lock exactly when the room is stored and the lock is not held at the store operation, and otherwise leaves the room tidy; other rooms are not touched |
| `Compactor.Compactor.CompactionCycle` | `api/src/compaction.py:33-48` | one cycle over any list of rooms, with time passing: every room compacted before it ends is tidy, which means no trace of a room without tokens, one archived upsert per token of an idle one, one stored group of them, in order, for any other; it ends early only when the lock has expired or create_room raises; rooms it did not come to are as before; every room keeps its meaning; a refused lock changes nothing |
| `PosStr.ToPosStrInjective` | `web/src/ui/board/board-state.ts:43-45` | two integer positions have the same key only if they are equal |
| `ClientTables.ApplyAllValid` | `web/src/ui/board/board-state.ts:47-133` | every reachable board, confirmed or not, keeps its indexes: tokenIdsByPosStr is exactly the inverse of the tokens' positions and each character list holds each of its characters once, with no condition on changes of kind or contents |
| `ClientTables.ApplyAllSound` | `web/src/ui/board/board-state.ts:47-133` | with tokens without an id, too: entities are stored under their ids, an occupied position is that of its occupant, and each character list holds each of its characters once |
| `ClientTables.ApplyAllPlain` | `web/src/ui/board/board-state.ts:83-133` | boards that differ in colours, or in being confirmed, only, still do so after any actions |
| `ClientTables.DeleteValid` | `web/src/ui/board/board-state.ts:64-81` | a deletion keeps the indexes and never looks into a list that is missing |
| `ClientMeaning.ActionMeans` | `web/src/ui/board/board-state.ts:47-133` | on every board whose indexes agree: a ping is put down as it is, a deletion takes away exactly that entity, a token is put down as it is unless another token stands on its position, and then nothing happens; nothing else changes but colours on a confirmed upsert of a character |
| `ClientMeaning.ListsInOrder` | `web/src/ui/board/board-state.ts:64-109` | the lists of characters keep the order of arrival: whoever is deleted or moved leaves its place, whoever is put down goes to the end |
| `ClientMeaning.PingShows` | `web/src/ui/board/board-state.ts:55-98` | a ping among any other actions is on the board afterwards at its coordinates, unless something after it has its id |
| `ClientBoard.ClientBoard.UpsertEntity` | `web/src/ui/board/board-state.ts:83-133` | whole new board for every entity, with an id or without: nothing on a collision, else the old self removed, the new one booked, and on a confirmed upsert the two colour loops over its list |
| `ClientBoard.ClientBoard.DeleteEntity` | `web/src/ui/board/board-state.ts:64-81` | whole new board, indexes included; the look-up of the list cannot fail |
| `ClientColoring.TintGuarantee` | `web/src/ui/board/board-state.ts:111-131` | on a confirmed upsert coloured characters are left alone, and the colours handed out are pairwise different palette entries that no character of the list had |
| `ClientColoring.AllColoredIff` | `web/src/ui/board/board-state.ts:111-131` | afterwards every character of the list is coloured if and only if there are at most eight or none was bare: each coloured character uses up one entry, the last one when its own is gone |
| `ClientColoring.ConfirmedUpsertColors` | `web/src/ui/board/board-state.ts:83-133` | the same for a whole confirmed upsert on any board whose indexes agree, the new character included in the list |
| `ClientColoring.TintAt` | `web/src/ui/board/board-state.ts:118-131` | the k-th bare character gets the k-th entry that is left |
| `ClientColoringOrder.LeftInPaletteOrder` | `web/src/ui/board/board-state.ts:115-123` | the entries left are the first of those that no character of the list carries, in palette order: what is dropped for a colour that is gone is the last one |
| `ClientColoringOrder.ConfirmedUpsertMeans` | `web/src/ui/board/board-state.ts:83-133` | a confirmed upsert of a character that has room, complete: it is last in its list; alone there, nothing is coloured; else each bare character in turn, oldest first, takes the first palette entry nobody has or was given, as long as the coloured ones and the bare ones before it are fewer than eight; nothing else changes |
| `Wire.WireRoundTrip` | `web/src/network/RealBoardStateApiClient.ts:20-128` | what one client sends every client gets back, and an action off the wire is one that some client sends if and only if its box is a unit box |
| `ClientServerAgreement.SameOccupant` | `web/src/ui/board/board-state.ts:89-93` | on boards that hold the same tokens the client's position key and the server's box test find the same occupant |
| `ClientServerAgreement.StepAgreesIff` | `web/src/ui/board/board-state.ts:47-133` | one action on agreeing boards: client and server still hold the same tokens at the same cells if and only if it is no upsert that changes a token on its own cell and no ping with a live token's id |
| `ClientServerAgreement.FoldsAgreeIff` | `api/src/room.py:54-92` | whole logs: the two folds agree after every prefix if and only if every action of the log is such |
| `ClientServerAgreement.SteadyLogsAgree` | `api/src/room.py:54-92` | tokens of unit size that never change kind or contents and pings with ids of their own: the two folds agree after every action |
| `Reconciliation.AcknowledgingKeepsLocalBoard` | `web/src/ui/board/action-reconciliation.ts:17-57` | acknowledging the oldest queued update with its own actions leaves the local board unchanged, indexes included, colours aside, for any remaining queue and unqueued actions |
| `Reconciliation.LocalIsNetworkPlusPending` | `web/src/ui/board/action-reconciliation.ts:17-71` | after any interleaving of network updates, local actions and batching, the incrementally kept local board equals the network board folded with all queued updates in order and then the unqueued actions, and equals the network board once nothing is pending |
| `Reconciliation.BatchesAreWhatWasMade` | `web/src/ui/board/action-reconciliation.ts:59-71` | the batches ever queued, concatenated in order and followed by the unqueued actions, are exactly the local actions made so far: none lost, repeated or reordered |
| `Reconciliation.QueuedUntilAcknowledged` | `web/src/ui/board/action-reconciliation.ts:30-35` | a queued update stays queued until a network update with its id arrives |
| `Reconciliation.MergeState.ApplyNetworkUpdate` | `web/src/ui/board/action-reconciliation.ts:17-57` | the network board takes the confirmed actions, the acknowledged update leaves the queue, the local board is again network plus everything pending, and does not visibly change when the oldest update was acknowledged |
| `Reconciliation.MergeState.ApplyLocalAction` | `web/src/ui/board/action-reconciliation.ts:59-63` | the local board changes by the one unconfirmed action and still equals network plus queued updates plus unqueued actions |
| `Reconciliation.MergeState.CollectUpdate` | `web/src/ui/board/action-reconciliation.ts:65-71` | unqueued actions become one queued update; batches queued so far, in order, followed by the unqueued actions stay exactly the local actions made |
| `Reconciliation.MergeState.SendUpdates` | `web/src/network/networkSyncMiddleware.ts:33-52` | something is sent exactly when connected with actions waiting, and it is exactly those actions if and only if the request id names no other queued update, or the first it names carries the same actions |
| `Reconciliation.MergeState.ReceiveInitialState` | `web/src/ui/board/board-slice.ts:63-68` | the snapshot is folded onto the network board, which a reconnect does not clear; nothing pending is lost |
| `Reconciliation.MergeState.Clear` | `web/src/ui/board/board-slice.ts:76-80` | one local delete per entity, the local board ends empty with empty indexes, the network board is untouched |
| `Reconciliation.MergeState.DragMoved` | `web/src/ui/board/board-slice.ts:122-156` | a dragged character keeps kind, contents and colour and moves, unless another token is in the way or it was deleted |
| `Connection.NextKeeps` | `api/src/game_state_server.py:98-115` | each step of the connection and of everybody else keeps the stream exact, with nothing assumed about lock or archive |
| `Connection.NoRequestIsSkipped` | `api/src/game_state_server.py:98-115` | in every run with any writers, compactors, lock and archive: the stream is exactly log[m..] in order, the snapshot was read after n requests, and m <= n, so no request is missing from both |
| `Connection.SnapshotMeansHistory` | `api/src/game_state_server.py:98-105` | in every run in which nobody loses actions of the room the snapshot means exactly log[..n] |
| `Connection.SparedIsSafe` | `api/src/game_state_server.py:98-115` | runs that do not archive the room are such runs, whatever compactors do without their lock |
| `Connection.SnapshotAgrees` | `web/src/network/RealBoardStateApiClient.ts:130-145` | a fresh client that receives a snapshot holds exactly its tokens at their cells, in a board whose indexes agree |
| `Connection.StreamAgreesIff` | `api/src/game_state_server.py:98-115` | client and server agree after the snapshot and after every streamed action if and only if the stream is compatible |
| `Connection.FreshClientFollowsServer` | `api/src/game_state_server.py:98-115` | in every run in which nobody loses actions of the room and with m = n: after k deliveries a fresh client's network board holds the same tokens at the same cells as the server room for log[..n + k], provided the actions of log[..n + k] have unit boxes, none changes a token on its own cell, and no ping has a live token's id |
| `SeenTwice.ConvergesIff` | `api/src/game_state_server.py:98-115` | a connection that subscribed after m requests and read after n shows every fresh client the server's tokens, for all requests on which client and server can agree at all, if and only if m = n |
| `SeenTwice.ShuffleDiverges` | `api/src/game_state_server.py:98-115` | five actions that, seen in the snapshot and again in the stream, leave the client with a token the server never accepted |
| `Session.NextKeeps` | `web/src/network/networkSyncMiddleware.ts:33-52` | each step of one client, its socket and everybody else keeps: queued updates are the client's requests on their way back and up, in order; the local board is network plus pending; what it made is in the log, on its way or unsent |
| `Session.AcknowledgementsAreOldest` | `web/src/ui/board/action-reconciliation.ts:30-35` | in every run, with fresh request ids: each change that comes back under an id of the client acknowledges its oldest queued update with the very actions that were sent, and leaves its local board as it was, colours aside; a change of somebody else acknowledges nothing |
| `Session.NothingMadeIsLost` | `web/src/network/networkSyncMiddleware.ts:33-52` | in every run the client's requests in the room's log, those on their way up, and what is not yet sent are, in this order, exactly the local actions made: none lost, repeated or reordered between user and log |
| `Session.QuietMeansAgreement` | `api/src/game_state_server.py:98-115` | in every run in which nobody loses actions of the room, once nothing is on its way: nothing is queued, the local board is the network board, everything the client did is in the log, and if snapshot and stream met and the actions are compatible the local board holds the same tokens at the same cells as the server room for the whole log |
| `PingArrival.PingArrives` | `web/src/network/RealBoardStateApiClient.ts:90-128` | in every run: a ping some client sent among other actions, once it has come down the socket, is on the receiving client's network board at the coordinates it was made with, unless something after it has its id, and on the local board unless something pending has |
| `GameStateServer.GameStateServer.Connect` | `api/src/game_state_server.py:98-105` | subscribes, checks, reads and replies in that order: requests others make after it subscribed are in its queue, and those made before it reads are in the reply, which holds the tokens everything stored means and is missing exactly when no room may be created or create_room raises |
| `GameStateServer.AddAllMeans` | `api/src/game_state_server.py:62-67` | after any requests what is stored means what it meant before with all of them on top |
| `GameStateServer.GameStateServer.ProcessRequests` | `api/src/game_state_server.py:62-67` | every request is stored and reaches every queue of the room, in order, and no other queue |
| `GameStateServer.GameStateServer.Stream` | `api/src/game_state_server.py:40-48` | sends everything in the queue, in order, once |
| `ConnectionLimiter.AcquireRecords` | `api/src/rate_limit/redis_rate_limit.py:27-61` | a slot is granted exactly when fewer than the limit are recorded over the live servers, and then exactly one more is, unless the asking server has itself expired |
| `ConnectionLimiter.ReleaseRecords` | `api/src/rate_limit/redis_rate_limit.py:63-71` | a release takes back one recorded slot if the server has one, and never goes below zero |
| `ConnectionLimiter.AttemptRecords` | `api/src/rate_limit/redis_rate_limit.py:148-165` | outcome of an attempt, and the slots it leaves: both scripts run, so a refused attempt leaves a slot recorded under the user or the room wherever there was room for it |
| `ConnectionLimiter.ReleaseUndoesGrant` | `api/src/rate_limit/redis_rate_limit.py:119-127` | releasing a granted connection brings both counts back to what they were |
| `ConnectionLimiter.ConnectionsAreBounded` | `api/src/rate_limit/redis_rate_limit.py:130-180` | in every run of server starts, acquires, releases, refreshes, server and key expiry, with server ids never reused: for every user and room the recorded connections over live servers never exceed the limit and no count is negative |
| `ServerLiveness.StartMeans` | `api/src/rate_limit/redis_rate_limit.py:199-213` | a started server lives exactly ten minutes; nothing else changes |
| `ServerLiveness.RefreshMeans` | `api/src/rate_limit/redis_rate_limit.py:130-145` | after a refresh the server is alive at any later time if and only if it was alive and less than ten minutes have passed; the same for the living counts of its users; rooms, other users and other servers keep their times, and no count changes |
| `ServerLiveness.AcquireMeans` | `api/src/rate_limit/redis_rate_limit.py:27-61` | after a granted slot the hash lives exactly ten minutes, after a refused one as long as before; it then holds each living server's count, one more for the server that asked, and none of expired servers |
| `ServerLiveness.ReleaseMeans` | `api/src/rate_limit/redis_rate_limit.py:63-71` | a release takes one slot of the server, if it has one, and changes no time and no other count |
| `ServerLiveness.LiveIff` | `api/src/rate_limit/redis_rate_limit.py:130-145` | in every run a server is alive if and only if it was started and never let ten minutes pass without a refresh |
| `OpenConnections.RecordedIff` | `api/src/rate_limit/redis_rate_limit.py:116-165` | in every run, of every living server: all its open connections under a user or room are recorded at every moment if and only if the key's hash never expires while it has some |
| `OpenConnections.OpenIsBounded` | `api/src/rate_limit/redis_rate_limit.py:116-165` | in every run the connections really open under a key, on living servers whose open connections kept the hash alive, never exceed the limit |
| `OpenConnections.RoomsAreForgotten` | `api/src/rate_limit/redis_rate_limit.py:130-145` | a refresh does not prolong the counts of rooms: a legal run in which a living server has twenty-one connections open in one room |
| `RateLimiter.LimiterKeys.AcquireConnectionSlot` | `api/src/rate_limit/redis_rate_limit.py:27-61` | the script's loop over the hash drops the entries of expired servers, sums the rest and increments |
| `RateLimiter.RedisRateLimiter.AcquireConnection` | `api/src/rate_limit/redis_rate_limit.py:148-165` | runs both scripts whatever the first one says, then reports the first refusal |
| `RateLimiter.RedisRateLimiter.RefreshServerLiveness` | `api/src/rate_limit/redis_rate_limit.py:130-145` | the server's key and its users' keys get a new expiry if they are still there; an expired server stays expired |
| `RoomCreation.AtMostAHundred` | `api/src/rate_limit/redis_rate_limit.py:77-87` | over every run of attempts, in any ten minutes, both ends included, at most 100 new rooms are granted |
| `RoomCreation.AHundredIsReached` | `api/src/rate_limit/redis_rate_limit.py:77-87` | that bound is reached |
| `RoomCreation.FiftyPerLifetime` | `api/src/rate_limit/redis_rate_limit.py:77-87` | within one lifetime of a user's counter exactly the first 50 attempts are granted |
| `RoomCreation.AtMostFiftyIff` | `api/src/rate_limit/redis_rate_limit.py:183-189` | from any counter the next ten minutes grant at most 50 rooms, whatever is attempted, if and only if the counter is gone, or used up, or lives on for all of them |
| `RoomCreation.RoomCounters.AcquireNewRoom` | `api/src/rate_limit/redis_rate_limit.py:183-189` | the attempt is counted even when refused, and refused exactly past the 50th of a lifetime |
| `Throttle.InvocationsAreSpaced` | `web/src/util/throttle.ts:6-32` | however calls and timers interleave, successive invocations are at least timeMs apart, and at most one timer is pending, due timeMs after the last invocation and holding the latest arguments |
| `Throttle.InvocationsUseLatestCall` | `web/src/util/throttle.ts:15-19` | each invocation uses the arguments of the latest call made before it |
| `Throttle.LatestCallIsAnswered` | `web/src/util/throttle.ts:21-30` | until another call is made, the latest one has been followed by an invocation or the timer is pending |
| `Throttle.CallRunsAtOnceIff` | `web/src/util/throttle.ts:21-30` | in every run a call invokes the function at once, with its own arguments, if and only if the last invocation is timeMs or longer ago; otherwise it invokes nothing, and the one timer is due timeMs after the last invocation with the arguments of this call |
| `Throttle.FireRuns` | `web/src/util/throttle.ts:15-19` | in every run a timer that fires invokes the function once, with the latest arguments and not too early, and no timer is left |
| `Throttle.Throttled.Call` | `web/src/util/throttle.ts:10-31` | whole new state: the old timer is cleared, and the function runs at once or a new timer is set |

## Left out

- ArchiveHistory.MergedStoreKeepsHistory: for runs whose steps are safe for the room, because the code does lose actions otherwise; which steps are not safe is stated exactly in `ArchiveHistory.SafeIff` and `AppendIsKeptIff`; loading a room, and the pair of deletes gathered for an empty room, are single steps
- Connection.SnapshotMeansHistory: for the same runs; the snapshot is loaded and read in one step, and a subscription is in force once `changes` returns
- Connection.FreshClientFollowsServer: for the same runs, and for a client that starts with an empty network board; a reconnect does not clear the board it already has
- Session.QuietMeansAgreement: for the same runs, and for one client whose connection stays open; a reconnect keeps what is queued and is not modelled
- Session.AcknowledgementsAreOldest: request ids are never reused, as uuids are not
- Compactor.Compactor.CompactionCycle: one pass of the endless loop, over a given list of rooms; the sleep between passes and the crash of the loop on an unexpected exception are not modelled
- StoreLockstep.StoresStayInStep: runs in which nobody asks for a lock it still holds, because the stores answer that differently (`StoreLockstep.AcquiresDifferIff`); deletions are compared in `StoreLockstep.DeletesDifferIff`
- ConnectionLimiter.ConnectionsAreBounded: bounds what is recorded; what is open is bounded where the key's hash does not expire meanwhile (`OpenConnections.OpenIsBounded`), and not otherwise (`OpenConnections.RoomsAreForgotten`)
- RateLimiter.RedisRateLimiter.RefreshServerLiveness: the batches of fifty users are one step
- The reducers that make one local action (removing an entity, adding a floor, adding a ping, dragging in from a tray) are `Reconciliation.MergeState.ApplyLocalAction`.
- PosStr.ToPosStrInjective: coordinates are integers written in decimal; JavaScript's notation for fractions and very large numbers is not modelled
- Throttle.InvocationsAreSpaced: the clock never goes back and the throttled function does not call itself
- Redis, S3, websocket and asyncio plumbing: a Lua script or a MULTI pipeline is one atomic step, and messages arrive in the order in which they were published.
- Room activity times: how long a room has been idle is a parameter of the compaction step.
- JSON, io-ts and dacite decoding, and validation of colour values: decoding is the identity on well-formed values.
- Aliasing: the colour changes of a room do not reach the token objects of the log it was made from, and Immer drafts are copies.
- The in-memory rate limiter: its window test never expires an entry and its refresh can revive an expired server, so the bounds proved here are not its bounds.
- The clean-up of load-test rooms deletes rooms that are not empty on purpose; only its forced acquisition of the lock is a step.
- Reconnecting, retry timers and error codes of the websocket client, compaction intervals: only safety is stated, apart from the two timing bounds.
- Drag and drop other than moving a character on the board, trays, sortable lists and all components: user interface.
- Logging, monitoring, configuration, infrastructure and load tests.
