/** The Compactor class of api/src/compaction.py, run without anybody else: each method performs the
    protocol's steps one after the other. Time passes between them, so the lock may be lost. */
module Compactor {
  import opened Sequences
  import opened Components
  import opened Board
  import opened RoomTables
  import opened RoomIcons
  import opened CompactedLog
  import opened StoreState
  import opened ArchiveProtocol
  import opened RoomStores
  import RoomObject = Room

  // ----- A compaction nobody interrupts, as protocol steps -----

  function Rank(phase: Phase): nat
  {
    match phase
    case Idle => 0
    case Replacing(_) => 1
    case Archived(_) => 2
    case Archiving(_) => 3
    case Deleting(_) => 2
    case HasRead(_) => 4
  }

  /** The step a compactor takes next. */
  function NextStep(id: string, phase: Phase, idleSeconds: int): Step
    requires !phase.Idle?
  {
    match phase
    case HasRead(_) => Decide(id, idleSeconds)
    case Deleting(_) => DeleteEmpty(id)
    case Archiving(_) => WriteArchive(id)
    case Archived(_) => DeleteArchived(id)
    case Replacing(_) => ReplaceLog(id)
  }

  /** How long the compactor takes before its delete and before its replace. */
  datatype Pauses = Pauses(beforeDelete: nat, beforeReplace: nat)

  function PauseBefore(phase: Phase, pauses: Pauses): nat
  {
    match phase
    case Deleting(_) => pauses.beforeDelete
    case Archived(_) => pauses.beforeDelete
    case Replacing(_) => pauses.beforeReplace
    case _ => 0
  }

  /** The pause before the next step, and the step. */
  ghost function Advance(s: System, id: string, idleSeconds: int, pauses: Pauses): System
    requires !PhaseOf(s, id).Idle?
  {
    Next(Next(s, Tick(PauseBefore(PhaseOf(s, id), pauses))), NextStep(id, PhaseOf(s, id), idleSeconds))
  }

  /** The steps from the current phase to the end of _compact_room. */
  ghost function Complete(s: System, id: string, idleSeconds: int, pauses: Pauses): System
    decreases Rank(PhaseOf(s, id))
  {
    if PhaseOf(s, id).Idle? then s
    else Complete(Advance(s, id, idleSeconds, pauses), id, idleSeconds, pauses)
  }

  ghost function Uninterrupted(s: System, id: string, room: string, idleSeconds: int, pauses: Pauses): System
  {
    Complete(Next(s, ReadRoom(id, room)), id, idleSeconds, pauses)
  }

  function Alone(store: Redis, archive: map<string, seq<Action>>, now: int): System
  {
    System(store, archive, now, map[], map[])
  }

  // ----- It keeps what every room means -----

  ghost predicate NamedRooms(store: Redis, archive: map<string, seq<Action>>)
  {
    && (forall room :: Named(Flatten(Groups(store, room))))
    && (forall room :: room in archive ==> Named(archive[room]))
  }

  function StoreView(store: Redis, archive: map<string, seq<Action>>, room: string): View
  {
    View(if room in store.rooms then Some(store.rooms[room]) else None,
         if room in archive then Some(archive[room]) else None, [])
  }

  /** v' shows readers the same tokens as v. */
  ghost predicate SameMeaning(v: View, v': View)
  {
    && Replay(Merged(v')) == Replay(Merged(v))
    && (v'.stored.Some? ==> Named(Flatten(v'.stored.value)))
    && (v'.archived.Some? ==> Named(v'.archived.value))
  }

  /** What can happen to the room: nothing, an archive write beside a stored log, a replacement, or
      a deletion. */
  ghost predicate Compacts(v: View, plan: Plan, v': View)
  {
    || (v'.stored in [v.stored, Some([plan.compacted])] && v'.archived in [v.archived, Some(plan.compacted), None])
    || (v'.stored.None? && v'.archived == Some(plan.compacted))
    || (v'.stored.None? && v'.archived.None? && plan.compacted == [])
  }

  lemma {:induction false} PlanMeaning(plan: Plan)
    requires PlanOk(plan)
    ensures Replay(plan.compacted) == Replay(Flatten(plan.groups)) == Replay(Flatten([plan.compacted]))
    ensures Named(plan.compacted) && Named(Flatten(plan.groups)) && Named(Flatten([plan.compacted]))
  {
    CompactedMeansSame(Flatten(plan.groups));
    FlattenOne(plan.compacted);
  }

  lemma {:induction false} CompactsKeepsMeaning(v: View, plan: Plan, v': View)
    requires v.stored == Some(plan.groups) && PlanOk(plan) && Compacts(v, plan, v')
    requires v.archived.Some? ==> Named(v.archived.value)
    ensures SameMeaning(v, v')
  {
    hide Flatten, Named, PlanOk, Replay;
    PlanMeaning(plan);
    assert Replay([]) == Replay(plan.compacted) || plan.compacted != [];
  }

  function ReplacedOrLost(store: Redis, now: int, id: string, plan: Plan): Redis
  {
    var outcome := RedisReplace(store, plan.room, plan.compacted, |plan.groups|, id, now);
    if outcome.Done? then outcome.state else store
  }

  function DeletedOrReplaced(store: Redis, now: int, id: string, plan: Plan, pauses: Pauses): Redis
  {
    match RedisDelete(store, plan.room, id, |plan.groups|, now + pauses.beforeDelete)
    case Done(store') => store'
    case LostLock => store
    case WrongToken => ReplacedOrLost(store, now + pauses.beforeDelete + pauses.beforeReplace, id, plan)
  }

  /** Store and archive after the rest of _compact_room. */
  function Applied(
    store: Redis, archive: map<string, seq<Action>>, now: int, id: string, plan: Plan, idleSeconds: int,
    pauses: Pauses):
    (Redis, map<string, seq<Action>>)
  {
    if plan.room !in store.rooms then (store, archive)
    else if plan.compacted == [] then (DeletedOrReplaced(store, now, id, plan, pauses), archive - {plan.room})
    else if idleSeconds >= ARCHIVE_WHEN_IDLE_SECONDS then
      (DeletedOrReplaced(store, now, id, plan, pauses), archive[plan.room := plan.compacted])
    else (ReplacedOrLost(store, now + pauses.beforeReplace, id, plan), archive)
  }

  lemma FromReplacing(s: System, id: string, idleSeconds: int, pauses: Pauses)
    requires PhaseOf(s, id).Replacing?
    ensures var s' := Complete(s, id, idleSeconds, pauses);
      && s'.store == ReplacedOrLost(s.store, s.now + pauses.beforeReplace, id, PhaseOf(s, id).plan)
      && s'.archive == s.archive
  {
    hide Complete, RedisReplace;
    CompleteUnfolds(s, id, idleSeconds, pauses);
    CompleteUnfolds(Advance(s, id, idleSeconds, pauses), id, idleSeconds, pauses);
  }

  /** After the attempt to delete; s already has the time of the attempt. */
  lemma FromDelete(s: System, id: string, plan: Plan, idleSeconds: int, pauses: Pauses)
    ensures var s' := Complete(AfterDelete(s, id, plan), id, idleSeconds, pauses);
      s'.archive == s.archive && s'.store ==
        match RedisDelete(s.store, plan.room, id, |plan.groups|, s.now)
        case Done(store') => store'
        case LostLock => s.store
        case WrongToken => ReplacedOrLost(s.store, s.now + pauses.beforeReplace, id, plan)
  {
    hide Complete, RedisDelete, Next;
    var s1 := AfterDelete(s, id, plan);
    CompleteUnfolds(s1, id, idleSeconds, pauses);
    if PhaseOf(s1, id).Replacing? {
      FromReplacing(s1, id, idleSeconds, pauses);
    }
  }

  lemma FromDecided(s: System, id: string, idleSeconds: int, pauses: Pauses)
    requires PhaseOf(s, id).Deleting? || PhaseOf(s, id).Archiving?
    ensures var s', plan := Complete(s, id, idleSeconds, pauses), PhaseOf(s, id).plan;
      && s'.store == DeletedOrReplaced(s.store, s.now, id, plan, pauses)
      && s'.archive ==
         if PhaseOf(s, id).Deleting? then s.archive - {plan.room} else s.archive[plan.room := plan.compacted]
  {
    hide Complete, RedisDelete, ReplacedOrLost;
    var plan := PhaseOf(s, id).plan;
    CompleteUnfolds(s, id, idleSeconds, pauses);
    if PhaseOf(s, id).Deleting? {
      var late := s.(now := s.now + pauses.beforeDelete);
      FromDelete(late.(archive := s.archive - {plan.room}), id, plan, idleSeconds, pauses);
      assert AfterDelete(late, id, plan).(archive := s.archive - {plan.room}) ==
        AfterDelete(late.(archive := s.archive - {plan.room}), id, plan);
    } else {
      var s1 := Advance(s, id, idleSeconds, pauses);
      CompleteUnfolds(s1, id, idleSeconds, pauses);
      FromDelete(s1.(now := s1.now + pauses.beforeDelete), id, plan, idleSeconds, pauses);
    }
  }

  /** The protocol's steps, taken without interference but not at once, end there. */
  lemma {:induction false} CompleteApplies(
    store: Redis, archive: map<string, seq<Action>>, now: int, id: string, plan: Plan, idleSeconds: int, pauses: Pauses)
    ensures var s' := Complete(System(store, archive, now, map[id := HasRead(plan)], map[]), id, idleSeconds, pauses);
      (s'.store, s'.archive) == Applied(store, archive, now, id, plan, idleSeconds, pauses)
  {
    hide Complete, DeletedOrReplaced, ReplacedOrLost;
    var s := System(store, archive, now, map[id := HasRead(plan)], map[]);
    CompleteUnfolds(s, id, idleSeconds, pauses);
    var s1 := Advance(s, id, idleSeconds, pauses);
    CompleteUnfolds(s1, id, idleSeconds, pauses);
    if PhaseOf(s1, id).Replacing? {
      FromReplacing(s1, id, idleSeconds, pauses);
    } else if !PhaseOf(s1, id).Idle? {
      FromDecided(s1, id, idleSeconds, pauses);
    }
  }

  /** From a plan that is up to date, the rest of the compaction touches its room only, and in one
      of those ways. */
  lemma AppliedCompacts(
    store: Redis, archive: map<string, seq<Action>>, now: int, id: string, plan: Plan, idleSeconds: int, pauses: Pauses)
    requires Some(plan.groups) == StoreView(store, archive, plan.room).stored
    ensures var (store', archive') := Applied(store, archive, now, id, plan, idleSeconds, pauses);
      && (forall other :: other != plan.room ==>
            StoreView(store', archive', other) == StoreView(store, archive, other))
      && Compacts(StoreView(store, archive, plan.room), plan, StoreView(store', archive', plan.room))
  {
    assert [plan.compacted] + Drop(plan.groups, |plan.groups|) == [plan.compacted];
  }

  /** One step of an uninterrupted compaction. */
  lemma CompleteUnfolds(s: System, id: string, idleSeconds: int, pauses: Pauses)
    ensures Complete(s, id, idleSeconds, pauses) ==
      if PhaseOf(s, id).Idle? then s
      else Complete(Advance(s, id, idleSeconds, pauses), id, idleSeconds, pauses)
  {
  }

  /** A compaction nobody interferes with leaves what every room means unchanged, whether it holds the
      lock, loses it at any moment, never had it, or finds create_room raising. */
  lemma UninterruptedKeepsMeaning(
    store: Redis, archive: map<string, seq<Action>>, now: int, id: string, room: string, idleSeconds: int,
    pauses: Pauses)
    requires NamedRooms(store, archive)
    ensures var s' := Uninterrupted(Alone(store, archive, now), id, room, idleSeconds, pauses);
      && (forall other :: SameMeaning(StoreView(store, archive, other), StoreView(s'.store, s'.archive, other)))
      && NamedRooms(s'.store, s'.archive)
  {
    var s := Alone(store, archive, now);
    var s' := Uninterrupted(s, id, room, idleSeconds, pauses);
    var log := Flatten(Groups(store, room));
    if CreateRoom(log).Ok? && room in store.rooms {
      var plan := Plan(room, Groups(store, room), Compacted(log).value);
      CompleteApplies(store, archive, now, id, plan, idleSeconds, pauses);
      AppliedCompacts(store, archive, now, id, plan, idleSeconds, pauses);
      CompactsKeepsMeaning(StoreView(store, archive, room), plan, StoreView(s'.store, s'.archive, room));
    } else {
      CompleteUnfolds(Next(s, ReadRoom(id, room)), id, idleSeconds, pauses);
      if CreateRoom(log).Ok? {
        var plan := Plan(room, Groups(store, room), Compacted(log).value);
        CompleteApplies(store, archive, now, id, plan, idleSeconds, pauses);
      }
      assert s'.store == store && s'.archive == archive;
    }
    forall other
      ensures SameMeaning(StoreView(store, archive, other), StoreView(s'.store, s'.archive, other))
      ensures Named(Flatten(Groups(s'.store, other))) && (other in s'.archive ==> Named(s'.archive[other]))
    {
      var v, v' := StoreView(store, archive, other), StoreView(s'.store, s'.archive, other);
      assert Named(Flatten(Groups(store, other))) && (other in archive ==> Named(archive[other]));
      assert other != room ==> v == v';
      assert SameMeaning(v, v');
    }
  }

  // ----- What is left of a room -----

  /** One upsert per token of the board, in order, colours aside. */
  ghost predicate UpsertsOf(actions: seq<Action>, board: Board)
  {
    |actions| == |board| && forall i :: 0 <= i < |actions| ==> actions[i].Upsert? && Bare(actions[i].token) == board[i]
  }

  /** What a finished compaction leaves: of a room without tokens nothing, of an idle one the tokens in
      the archive, of any other the tokens as one stored group. A room that is not stored stays as it is. */
  ghost predicate Tidy(v: View, v': View, idleSeconds: int)
  {
    if v.stored.None? then v' == v
    else
      var board := Replay(Flatten(v.stored.value));
      if board == [] then v'.stored.None? && v'.archived.None?
      else if idleSeconds >= ARCHIVE_WHEN_IDLE_SECONDS then
        v'.stored.None? && v'.archived.Some? && UpsertsOf(v'.archived.value, board)
      else
        && v'.stored.Some? && |v'.stored.value| == 1 && UpsertsOf(v'.stored.value[0], board)
        && v'.archived == v.archived
  }

  /** What a compaction leaves that lost the lock: the archive has been seen to, the stored log has not. */
  ghost predicate Untidied(v: View, v': View, idleSeconds: int)
  {
    && v.stored.Some? && v'.stored == v.stored
    && var board := Replay(Flatten(v.stored.value));
       if board == [] then v'.archived.None?
       else if idleSeconds >= ARCHIVE_WHEN_IDLE_SECONDS then
         v'.archived.Some? && UpsertsOf(v'.archived.value, board)
       else v'.archived == v.archived
  }

  /** create_room raises on what is stored. */
  ghost predicate Raises(store: Redis, room: string)
  {
    CreateRoom(Flatten(Groups(store, room))).Raised?
  }

  lemma CompactedUpserts(log: seq<Action>)
    requires Named(log) && CreateRoom(log).Ok?
    ensures UpsertsOf(Compacted(log).value, Replay(log))
    ensures CreateRoom(Flatten([Compacted(log).value])).Ok?
  {
    CreateRoomRefines(log);
    CompactedMeansSame(log);
    FlattenOne(Compacted(log).value);
    StableLogsNeverRaise(Compacted(log).value);
  }

  lemma EmptyNeverRaises()
    ensures CreateRoom(Flatten([])).Ok?
  {
  }

  /** A room that is compacted again, finished or not, stays as tidy as it was. */
  lemma StaysTidy(v: View, v': View, v'': View, idleSeconds: int)
    requires Tidy(v, v', idleSeconds) && SameMeaning(v, v')
    requires Tidy(v', v'', idleSeconds) || Untidied(v', v'', idleSeconds) || v'' == v'
    ensures Tidy(v, v'', idleSeconds)
  {
    hide Replay, Flatten, Named;
  }

  // ----- A cycle -----

  /** How _compact_room ends: normally, with UnexpectedReplacementId, or with create_room raising. */
  datatype Ending = Finished | LockLost | Crashed

  datatype Stores = Stores(store: Redis, archive: map<string, seq<Action>>)

  function Look(s: Stores, room: string): View
  {
    StoreView(s.store, s.archive, room)
  }

  /** What one compaction does to the rooms. */
  ghost predicate OneCompaction(s: Stores, s': Stores, room: string, idleSeconds: int, ending: Ending)
  {
    && (match ending
        case Finished => Tidy(Look(s, room), Look(s', room), idleSeconds)
        case LockLost => Untidied(Look(s, room), Look(s', room), idleSeconds)
        case Crashed => Look(s', room) == Look(s, room))
    && (forall other :: other != room ==> Look(s', other) == Look(s, other))
    && s'.store.lock == s.store.lock
    && (Raises(s'.store, room) ==> Raises(s.store, room))
  }

  /** How and when _compact_room ends: with create_room raising, or with a store operation refused for
      the lock, or normally. */
  ghost predicate Ends(
    store: Redis, now: int, id: string, room: string, idleSeconds: int, pauses: Pauses, ending: Ending, later: int)
  {
    && (ending == if Raises(store, room) then Crashed
                  else if room in store.rooms && !Holds(store.lock, id, later) then LockLost
                  else Finished)
    && (later == now +
          if Raises(store, room) || room !in store.rooms then 0
          else if Replay(Flatten(Groups(store, room))) == [] then pauses.beforeDelete
          else if idleSeconds >= ARCHIVE_WHEN_IDLE_SECONDS then pauses.beforeDelete
          else pauses.beforeReplace)
  }

  lemma AppliedLeaves(
    store: Redis, archive: map<string, seq<Action>>, now: int, id: string, plan: Plan, idleSeconds: int,
    pauses: Pauses, ending: Ending, later: int)
    requires Some(plan.groups) == StoreView(store, archive, plan.room).stored && PlanOk(plan)
    requires Ends(store, now, id, plan.room, idleSeconds, pauses, ending, later)
    ensures var (store', archive') := Applied(store, archive, now, id, plan, idleSeconds, pauses);
      OneCompaction(Stores(store, archive), Stores(store', archive'), plan.room, idleSeconds, ending)
  {
    hide CreateRoom, Flatten, Replay, Named, Compacted;
    CompactedUpserts(Flatten(plan.groups));
    EmptyNeverRaises();
    assert [plan.compacted] + Drop(plan.groups, |plan.groups|) == [plan.compacted];
  }

  /** Left to itself, a compaction ends in one of those ways. */
  lemma UninterruptedLeaves(
    store: Redis, archive: map<string, seq<Action>>, now: int, id: string, room: string, idleSeconds: int,
    pauses: Pauses, ending: Ending, later: int)
    requires Named(Flatten(Groups(store, room)))
    requires Ends(store, now, id, room, idleSeconds, pauses, ending, later)
    ensures var s' := Uninterrupted(Alone(store, archive, now), id, room, idleSeconds, pauses);
      OneCompaction(Stores(store, archive), Stores(s'.store, s'.archive), room, idleSeconds, ending)
  {
    hide CreateRoom, Flatten, Replay, Named, Values, Upserts, Complete;
    var log := Flatten(Groups(store, room));
    if CreateRoom(log).Ok? {
      var plan := Plan(room, Groups(store, room), Compacted(log).value);
      CompleteApplies(store, archive, now, id, plan, idleSeconds, pauses);
      if room in store.rooms {
        AppliedLeaves(store, archive, now, id, plan, idleSeconds, pauses, ending, later);
      }
    } else {
      CompleteUnfolds(Next(Alone(store, archive, now), ReadRoom(id, room)), id, idleSeconds, pauses);
    }
  }

  lemma AlwaysLeaves(
    store: Redis, archive: map<string, seq<Action>>, now: int, id: string, room: string, idleSeconds: int,
    pauses: Pauses)
    requires Named(Flatten(Groups(store, room)))
    ensures var s' := Uninterrupted(Alone(store, archive, now), id, room, idleSeconds, pauses);
      forall ending, later :: Ends(store, now, id, room, idleSeconds, pauses, ending, later) ==>
        OneCompaction(Stores(store, archive), Stores(s'.store, s'.archive), room, idleSeconds, ending)
  {
    hide *;
    forall ending, later | Ends(store, now, id, room, idleSeconds, pauses, ending, later)
      ensures var s' := Uninterrupted(Alone(store, archive, now), id, room, idleSeconds, pauses);
        OneCompaction(Stores(store, archive), Stores(s'.store, s'.archive), room, idleSeconds, ending)
    {
      UninterruptedLeaves(store, archive, now, id, room, idleSeconds, pauses, ending, later);
    }
  }

  /** What a cycle has done once it has come to the rooms reached and finished those in done. */
  ghost predicate CycleOk(s: Stores, s': Stores, reached: seq<string>, done: seq<string>, idleSeconds: string -> int)
  {
    && NamedRooms(s'.store, s'.archive)
    && (forall room :: SameMeaning(Look(s, room), Look(s', room)))
    && (forall room :: Raises(s'.store, room) ==> Raises(s.store, room))
    && (forall room :: room !in reached ==> Look(s', room) == Look(s, room))
    && (forall room :: room in done ==> Tidy(Look(s, room), Look(s', room), idleSeconds(room)))
  }

  lemma CycleStarts(s: Stores, s': Stores, idleSeconds: string -> int)
    requires NamedRooms(s.store, s.archive) && s'.store.rooms == s.store.rooms && s'.archive == s.archive
    ensures CycleOk(s, s', [], [], idleSeconds)
  {
    hide Flatten, Replay, Named, CreateRoom;
    forall room
      ensures Look(s', room) == Look(s, room) && SameMeaning(Look(s, room), Look(s', room))
      ensures Raises(s'.store, room) ==> Raises(s.store, room)
    {
      RaisesByView(s, s', room);
      assert Named(Flatten(Groups(s.store, room)));
    }
    assert forall room :: Groups(s'.store, room) == Groups(s.store, room);
  }

  lemma RaisesByView(s: Stores, s': Stores, room: string)
    requires Look(s', room) == Look(s, room)
    ensures Raises(s'.store, room) <==> Raises(s.store, room)
  {
    assert Groups(s'.store, room) == Groups(s.store, room);
  }

  lemma CycleContinues(
    s: Stores, s': Stores, s'': Stores, done: seq<string>, idleSeconds: string -> int, room: string, ending: Ending)
    requires CycleOk(s, s', done, done, idleSeconds)
    requires OneCompaction(s', s'', room, idleSeconds(room), ending)
    requires NamedRooms(s''.store, s''.archive) && forall other :: SameMeaning(Look(s', other), Look(s'', other))
    ensures CycleOk(s, s'', done + [room], if ending.Finished? then done + [room] else done, idleSeconds)
  {
    hide Tidy, Untidied, NamedRooms, Raises, Look, Replay, Flatten, Named, Merged;
    forall other
      ensures SameMeaning(Look(s, other), Look(s'', other))
      ensures Raises(s''.store, other) ==> Raises(s.store, other)
    {
      assert SameMeaning(Look(s, other), Look(s', other)) && SameMeaning(Look(s', other), Look(s'', other));
      if other != room {
        RaisesByView(s', s'', other);
      }
    }
    if room in done {
      StaysTidy(Look(s, room), Look(s', room), Look(s'', room), idleSeconds(room));
    }
  }

  // ----- The class -----

  class Compactor {
    const roomStore: RedisRoomStore
    const roomArchive: RoomArchive
    const compactionId: string

    constructor (roomStore: RedisRoomStore, roomArchive: RoomArchive, compactionId: string)
      ensures this.roomStore == roomStore && this.roomArchive == roomArchive && this.compactionId == compactionId
    {
      this.roomStore, this.roomArchive, this.compactionId := roomStore, roomArchive, compactionId;
    }

    ghost function Both(): Stores
      reads roomStore, roomArchive
    {
      Stores(roomStore.State(), roomArchive.storage)
    }

    /** _compact_room: exactly the protocol's steps, one after the other, with time passing. */
    method CompactRoom(roomId: string, idleSeconds: int, now: int, pauses: Pauses) returns (ending: Ending, later: int)
      requires Named(Flatten(Groups(roomStore.State(), roomId)))
      modifies roomStore, roomArchive
      ensures var s := Alone(old(roomStore.State()), old(roomArchive.storage), now);
        var s' := Uninterrupted(s, compactionId, roomId, idleSeconds, pauses);
        roomStore.State() == s'.store && roomArchive.storage == s'.archive
      ensures Ends(old(roomStore.State()), now, compactionId, roomId, idleSeconds, pauses, ending, later)
      ensures OneCompaction(old(Both()), Both(), roomId, idleSeconds, ending)
    {
      hide RoomTables.CreateRoom, Flatten, Named, Values, Upserts, Complete, Replay, OneCompaction, UpsertsOf;
      later := now;
      AlwaysLeaves(roomStore.State(), roomArchive.storage, now, compactionId, roomId, idleSeconds, pauses);
      ghost var s := Alone(roomStore.State(), roomArchive.storage, now);
      ghost var log := Flatten(Groups(roomStore.State(), roomId));
      var actions, replaceToken := roomStore.ReadForReplacement(roomId);
      var room, ok := RoomObject.CreateRoom(actions);
      if !ok {
        CompleteUnfolds(s, compactionId, idleSeconds, pauses);
        return Crashed, later;
      }
      CreateRoomRefines(log);
      var tokens := room.GameStateValues();
      var compactedActions := TokensToActions(tokens);
      ghost var plan := Plan(roomId, Groups(roomStore.State(), roomId), compactedActions);
      assert Compacted(log) == Some(compactedActions);
      ghost var s1 := s.(phases := map[compactionId := HasRead(plan)]);
      assert Next(s, ReadRoom(compactionId, roomId)) == s1;

      CompleteApplies(roomStore.State(), roomArchive.storage, now, compactionId, plan, idleSeconds, pauses);
      hide Next;
      if roomId !in roomStore.rooms {
        // NoSuchRoomError
        return Finished, later;
      }
      if compactedActions == [] {
        later := later + pauses.beforeDelete;
        var outcome := roomStore.Delete(roomId, compactionId, replaceToken, later);
        roomArchive.Delete(roomId);
        if outcome.LostLock? {
          return LockLost, later;
        } else if outcome.Done? {
          return Finished, later;
        }
      } else if idleSeconds >= ARCHIVE_WHEN_IDLE_SECONDS {
        roomArchive.Write(roomId, compactedActions);
        later := later + pauses.beforeDelete;
        var outcome := roomStore.Delete(roomId, compactionId, replaceToken, later);
        if outcome.LostLock? {
          return LockLost, later;
        } else if outcome.Done? {
          return Finished, later;
        }
      }
      later := later + pauses.beforeReplace;
      var replaced := roomStore.Replace(roomId, compactedActions, replaceToken, compactionId, later);
      ending := if replaced.LostLock? then LockLost else Finished;
    }

    /** One cycle of maintain_compaction: acquire the lock and compact the rooms one by one; stop when
        the lock is lost, which it may be at any time, or when create_room raises. done rooms have been
        compacted when it ends. Every room means afterwards what it meant before. */
    method CompactionCycle(roomIds: seq<string>, idleSeconds: string -> int, now: int, pauses: nat -> Pauses)
      returns (acquired: bool, ending: Ending, done: nat, later: int)
      requires NamedRooms(roomStore.State(), roomArchive.storage)
      modifies roomStore, roomArchive
      ensures acquired == RedisAcquire(old(roomStore.State()), compactionId, false, now).1
      ensures !acquired ==> Both() == old(Both()) && done == 0
      ensures acquired ==>
        && roomStore.lock == NewLock(compactionId, now) && now <= later && done <= |roomIds|
        && match ending
           case Finished => done == |roomIds|
           case LockLost => done < |roomIds| && !Holds(roomStore.lock, compactionId, later)
           case Crashed => done < |roomIds| && Raises(old(roomStore.State()), roomIds[done])
      ensures forall i :: 0 <= i < done ==>
        Tidy(Look(old(Both()), roomIds[i]), Look(Both(), roomIds[i]), idleSeconds(roomIds[i]))
      ensures forall room :: room !in roomIds[..done] && (done < |roomIds| ==> room != roomIds[done]) ==>
        Look(Both(), room) == Look(old(Both()), room)
      ensures NamedRooms(roomStore.State(), roomArchive.storage)
      ensures forall room :: SameMeaning(Look(old(Both()), room), Look(Both(), room))
    {
      hide Uninterrupted, Tidy, Untidied, SameMeaning, Raises, Alone, Flatten, Named;
      ghost var start := Both();
      later, ending, done := now, Finished, 0;
      acquired := roomStore.AcquireReplacementLock(compactionId, false, now);
      CycleStarts(start, Both(), idleSeconds);
      assert roomIds[..0] == [];
      if !acquired {
        return;
      }
      while done < |roomIds|
        invariant done <= |roomIds| && now <= later && ending.Finished?
        invariant roomStore.lock == NewLock(compactionId, now)
        invariant CycleOk(start, Both(), roomIds[..done], roomIds[..done], idleSeconds)
      {
        ghost var before := Both();
        var id := roomIds[done];
        UninterruptedKeepsMeaning(
          before.store, before.archive, later, compactionId, id, idleSeconds(id), pauses(done));
        ending, later := CompactRoom(id, idleSeconds(id), later, pauses(done));
        CycleContinues(start, before, Both(), roomIds[..done], idleSeconds, id, ending);
        assert roomIds[..done + 1] == roomIds[..done] + [id];
        if !ending.Finished? {
          return;
        }
        done := done + 1;
      }
    }
  }
}
