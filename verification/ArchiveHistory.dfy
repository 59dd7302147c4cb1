/** Whether readers see everything ever appended to a room, across archiving, deletion of empty rooms
    and reloading. The archive knows no lock and add_request does not load, so some steps can lose
    actions; which ones is decided room by room, exactly. */
module ArchiveHistory {
  import opened Sequences
  import opened Components
  import opened Board
  import RoomTables
  import opened CompactedLog
  import opened StoreState
  import opened ArchiveProtocol

  ghost function ArchivedMeaning(s: System, room: string): Board
  {
    if room in s.archive then Replay(s.archive[room]) else []
  }

  /** The tokens a reader of the merged store gets. */
  ghost function ReadMeaning(s: System, room: string): Board
  {
    Replay(Merged(ViewOf(s, room)))
  }

  ghost function HistoryMeaning(s: System, room: string): Board
  {
    Replay(History(s, room))
  }

  /** The room means what its full history means. */
  ghost predicate Kept(s: System, room: string)
  {
    ReadMeaning(s, room) == HistoryMeaning(s, room)
  }

  /** A compactor has archived the room, its lock is alive, nothing was appended since it read, and
      so its next step drops the stored log. */
  ghost predicate AboutToDrop(s: System, room: string)
  {
    s.store.lock.Some? &&
    (var id := s.store.lock.value.key;
     && Holds(s.store.lock, id, s.now)
     && PhaseOf(s, id).Archived? && PhaseOf(s, id).plan.room == room
     && |PhaseOf(s, id).plan.groups| == |Groups(s.store, room)|)
  }

  /** Readers depend on the archive, now or after that step. */
  ghost predicate ReliesOnArchive(s: System, room: string)
  {
    room !in s.store.rooms || AboutToDrop(s, room)
  }

  ghost predicate RoomOk(s: System, room: string)
  {
    Kept(s, room) && (AboutToDrop(s, room) ==> ArchivedMeaning(s, room) == HistoryMeaning(s, room))
  }

  /** Steps that cannot lose an action of the room: an append does not bypass an archived board, and
      who touches the archive holds the lock, or writes what the room means anyway, or nobody relies
      on it. */
  ghost predicate Safe(s: System, step: Step, room: string)
  {
    match step
    case Append(r, _) =>
      r == room ==> room in s.store.rooms || room !in s.archive || HistoryMeaning(s, room) == []
    case DeleteEmpty(id) =>
      PhaseOf(s, id).Deleting? && PhaseOf(s, id).plan.room == room ==>
        || Holds(s.store.lock, id, s.now)
        || room !in s.archive
        || HistoryMeaning(s, room) == []
        || !ReliesOnArchive(s, room)
    case WriteArchive(id) =>
      PhaseOf(s, id).Archiving? && PhaseOf(s, id).plan.room == room ==>
        || Holds(s.store.lock, id, s.now)
        || Replay(PhaseOf(s, id).plan.compacted) == HistoryMeaning(s, room)
        || !ReliesOnArchive(s, room)
    case _ => true
  }

  lemma ReadMeaningIs(s: System, room: string)
    ensures ReadMeaning(s, room) == if room in s.store.rooms then StoredMeaning(s, room) else ArchivedMeaning(s, room)
  {
    hide Flatten;
  }

  // ----- Each step -----

  lemma AppendKeeps(s: System, r: string, request: Request, room: string)
    requires CompactorsOk(s) && RoomOk(s, room) && Safe(s, Append(r, request), room)
    ensures RoomOk(Next(s, Append(r, request)), room)
  {
    hide Flatten, Replay, NonPing, PlanOk;
    var s' := Next(s, Append(r, request));
    ReadMeaningIs(s, room);
    ReadMeaningIs(s', room);
    if r == room {
      AppendMeaning(s, room, request);
      FoldConcat([], History(s, room), request.actions);
      HistoryGrows(s, room, request);
      EmptyLog(s, room);
      HolderIsOk(s);
    } else {
      OtherRooms(s, Append(r, request), room);
    }
  }

  /** Whoever holds the lock and archived has its log in the store, no longer than what it read. */
  lemma HolderIsOk(s: System)
    requires CompactorsOk(s)
    ensures s.store.lock.Some? ==> CompactorOk(s, s.store.lock.value.key)
  {
  }

  lemma EmptyLog(s: System, room: string)
    ensures room !in s.store.rooms ==> StoredMeaning(s, room) == []
  {
  }

  lemma HistoryGrows(s: System, room: string, request: Request)
    ensures HistoryMeaning(Next(s, Append(room, request)), room) == Fold(HistoryMeaning(s, room), request.actions)
  {
    FoldConcat([], History(s, room), request.actions);
  }

  lemma LoadKeeps(s: System, r: string, room: string)
    requires CompactorsOk(s) && RoomOk(s, room)
    ensures RoomOk(Next(s, Load(r)), room)
  {
    hide Flatten, Replay, PlanOk;
    var s' := Next(s, Load(r));
    ReadMeaningIs(s, room);
    ReadMeaningIs(s', room);
    if r == room && s' != s {
      FlattenOne(s.archive[room]);
      HolderIsOk(s);
    } else if s' != s {
      OtherRooms(s, Load(r), room);
    }
  }

  /** Nothing about the room changes, and nobody comes to rely on the archive. */
  lemma IdleKeeps(s: System, s': System, room: string)
    requires RoomOk(s, room) && ViewOf(s', room) == ViewOf(s, room)
    requires AboutToDrop(s', room) ==> AboutToDrop(s, room)
    ensures RoomOk(s', room)
  {
    hide Flatten, Replay, AboutToDrop;
  }

  lemma LockKeeps(s: System, step: Step, room: string)
    requires RoomOk(s, room) && Enabled(s, step) && (step.Tick? || step.Acquire? || step.Force?)
    ensures RoomOk(Next(s, step), room)
  {
    hide RoomOk;
    IdleKeeps(s, Next(s, step), room);
  }

  lemma PlanKeeps(s: System, step: Step, room: string)
    requires RoomOk(s, room) && Enabled(s, step) && (step.ReadRoom? || step.Decide?)
    ensures RoomOk(Next(s, step), room)
  {
    hide RoomOk, Flatten, RoomTables.CreateRoom;
    IdleKeeps(s, Next(s, step), room);
  }

  /** Another room's compaction. */
  lemma ElsewhereKeeps(s: System, step: Step, room: string)
    requires RoomOk(s, room) && Enabled(s, step)
    requires step.DeleteEmpty? || step.WriteArchive? || step.DeleteArchived? || step.ReplaceLog?
    requires PhaseOf(s, step.id).plan.room != room
    ensures RoomOk(Next(s, step), room)
  {
    hide RoomOk;
    IdleKeeps(s, Next(s, step), room);
  }

  lemma DeleteEmptyKeeps(s: System, id: string)
    requires CompactorsOk(s) && PhaseOf(s, id).Deleting?
    requires RoomOk(s, PhaseOf(s, id).plan.room) && Safe(s, DeleteEmpty(id), PhaseOf(s, id).plan.room)
    ensures RoomOk(Next(s, DeleteEmpty(id)), PhaseOf(s, id).plan.room)
  {
    hide Flatten, Replay, PlanOk;
    var room, s' := PhaseOf(s, id).plan.room, Next(s, DeleteEmpty(id));
    assert CompactorOk(s, id);
    DeleteMeaning(s, id);
    EmptyReplay();
    ReadMeaningIs(s, room);
    ReadMeaningIs(s', room);
  }

  lemma EmptyReplay()
    ensures Replay([]) == []
  {
  }

  lemma WriteArchiveKeeps(s: System, id: string)
    requires CompactorsOk(s) && PhaseOf(s, id).Archiving?
    requires RoomOk(s, PhaseOf(s, id).plan.room) && Safe(s, WriteArchive(id), PhaseOf(s, id).plan.room)
    ensures RoomOk(Next(s, WriteArchive(id)), PhaseOf(s, id).plan.room)
  {
    hide Flatten, Replay, RoomTables.CreateRoom;
    var plan, s' := PhaseOf(s, id).plan, Next(s, WriteArchive(id));
    var room := plan.room;
    assert CompactorOk(s, id);
    CompactedMeansSame(Flatten(plan.groups));
    ReadMeaningIs(s, room);
    ReadMeaningIs(s', room);
    if Holds(s.store.lock, id, s.now) && AboutToDrop(s', room) {
      assert plan.groups == Groups(s.store, room);
    }
  }

  lemma DeleteArchivedKeeps(s: System, id: string)
    requires CompactorsOk(s) && PhaseOf(s, id).Archived? && RoomOk(s, PhaseOf(s, id).plan.room)
    ensures RoomOk(Next(s, DeleteArchived(id)), PhaseOf(s, id).plan.room)
  {
    hide Flatten, Replay, PlanOk;
    var room, s' := PhaseOf(s, id).plan.room, Next(s, DeleteArchived(id));
    assert CompactorOk(s, id);
    ReadMeaningIs(s, room);
    ReadMeaningIs(s', room);
  }

  lemma ReplaceKeepsRoom(s: System, id: string)
    requires CompactorsOk(s) && PhaseOf(s, id).Replacing? && RoomOk(s, PhaseOf(s, id).plan.room)
    ensures RoomOk(Next(s, ReplaceLog(id)), PhaseOf(s, id).plan.room)
  {
    hide Flatten, Replay, PlanOk;
    var room, s' := PhaseOf(s, id).plan.room, Next(s, ReplaceLog(id));
    assert CompactorOk(s, id);
    ReplaceMeaning(s, id);
    ReadMeaningIs(s, room);
    ReadMeaningIs(s', room);
  }

  lemma NextKeepsRoom(s: System, step: Step, room: string)
    requires CompactorsOk(s) && RoomOk(s, room) && Enabled(s, step) && Safe(s, step, room)
    ensures RoomOk(Next(s, step), room)
  {
    hide CompactorsOk, RoomOk, Safe, Next;
    match step
    case Append(r, request) => AppendKeeps(s, r, request, room);
    case Load(r) => LoadKeeps(s, r, room);
    case Tick(_) => LockKeeps(s, step, room);
    case Acquire(_) => LockKeeps(s, step, room);
    case Force(_) => LockKeeps(s, step, room);
    case ReadRoom(_, _) => PlanKeeps(s, step, room);
    case Decide(_, _) => PlanKeeps(s, step, room);
    case DeleteEmpty(id) =>
      if PhaseOf(s, id).plan.room == room { DeleteEmptyKeeps(s, id); } else { ElsewhereKeeps(s, step, room); }
    case WriteArchive(id) =>
      if PhaseOf(s, id).plan.room == room { WriteArchiveKeeps(s, id); } else { ElsewhereKeeps(s, step, room); }
    case DeleteArchived(id) =>
      if PhaseOf(s, id).plan.room == room { DeleteArchivedKeeps(s, id); } else { ElsewhereKeeps(s, step, room); }
    case ReplaceLog(id) =>
      if PhaseOf(s, id).plan.room == room { ReplaceKeepsRoom(s, id); } else { ElsewhereKeeps(s, step, room); }
  }

  // ----- Whole runs -----

  ghost predicate SafeRun(s: System, steps: seq<Step>, room: string)
  {
    forall k :: 0 <= k < |steps| ==> Safe(Run(s, steps[..k]), steps[k], room)
  }

  lemma SafeFront(s: System, steps: seq<Step>, room: string)
    requires SafeRun(s, steps, room) && steps != []
    ensures var n := |steps| - 1; SafeRun(s, steps[..n], room) && Safe(Run(s, steps[..n]), steps[n], room)
  {
    hide Safe, Run;
    var front := steps[..|steps| - 1];
    forall k | 0 <= k < |front| ensures Safe(Run(s, front[..k]), front[k], room) {
      assert front[..k] == steps[..k];
      assert Safe(Run(s, steps[..k]), steps[k], room);
    }
  }

  lemma {:induction false} RunKeepsRoom(s: System, steps: seq<Step>, room: string)
    requires CompactorsOk(s) && RoomOk(s, room) && Legal(s, steps) && SafeRun(s, steps, room)
    ensures CompactorsOk(Run(s, steps)) && RoomOk(Run(s, steps), room)
  {
    if steps != [] {
      hide CompactorsOk, RoomOk, Legal, SafeRun, Next, Enabled, Safe;
      var front, last := steps[..|steps| - 1], steps[|steps| - 1];
      LegalFront(s, steps);
      SafeFront(s, steps, room);
      RunKeepsRoom(s, front, room);
      NextKeepsCompactors(Run(s, front), last);
      NextKeepsRoom(Run(s, front), last, room);
    }
  }

  lemma InitialOk(now: int, room: string)
    ensures CompactorsOk(Initial(now)) && RoomOk(Initial(now), room)
  {
    EmptyReplay();
    ReadMeaningIs(Initial(now), room);
  }

  /** In every run whose steps are safe for the room, whatever happens to other rooms and to the
      lock: replaying what the merged store would read gives the tokens of replaying every action
      ever appended to the room, in the same order, colours aside. */
  lemma {:induction false} MergedStoreKeepsHistory(now: int, steps: seq<Step>, room: string)
    requires Legal(Initial(now), steps) && SafeRun(Initial(now), steps, room)
    ensures ReadMeaning(Run(Initial(now), steps), room) == HistoryMeaning(Run(Initial(now), steps), room)
  {
    hide Run, Legal, SafeRun, CompactorsOk, ReadMeaning, HistoryMeaning;
    InitialOk(now, room);
    RunKeepsRoom(Initial(now), steps, room);
  }

  // ----- Rooms that are never archived -----

  /** A step that does not archive the room. */
  ghost predicate Spares(s: System, step: Step, room: string)
  {
    step.WriteArchive? && PhaseOf(s, step.id).Archiving? ==> PhaseOf(s, step.id).plan.room != room
  }

  ghost predicate NeverArchived(s: System, steps: seq<Step>, room: string)
  {
    forall k :: 0 <= k < |steps| ==> Spares(Run(s, steps[..k]), steps[k], room)
  }

  lemma SparedStaysUnarchived(s: System, step: Step, room: string)
    requires room !in s.archive && Spares(s, step, room)
    ensures Safe(s, step, room) && room !in Next(s, step).archive
  {
    hide HistoryMeaning, ReliesOnArchive, RedisDelete, RedisReplace, RoomTables.CreateRoom, Flatten;
  }

  lemma NeverArchivedFront(s: System, steps: seq<Step>, room: string)
    requires NeverArchived(s, steps, room) && steps != []
    ensures var n := |steps| - 1;
      NeverArchived(s, steps[..n], room) && Spares(Run(s, steps[..n]), steps[n], room)
  {
    hide Spares, Run;
    var front := steps[..|steps| - 1];
    forall k | 0 <= k < |front| ensures Spares(Run(s, front[..k]), front[k], room) {
      assert front[..k] == steps[..k] && Spares(Run(s, steps[..k]), steps[k], room);
    }
  }

  lemma SafeExtend(s: System, steps: seq<Step>, room: string)
    requires steps != [] && SafeRun(s, steps[..|steps| - 1], room)
    requires Safe(Run(s, steps[..|steps| - 1]), steps[|steps| - 1], room)
    ensures SafeRun(s, steps, room)
  {
    hide Safe, Run;
    var front := steps[..|steps| - 1];
    forall k | 0 <= k < |steps| ensures Safe(Run(s, steps[..k]), steps[k], room) {
      if k < |front| {
        assert front[..k] == steps[..k] && Safe(Run(s, front[..k]), front[k], room);
      }
    }
  }

  lemma {:induction false} NeverArchivedIsSafe(s: System, steps: seq<Step>, room: string)
    requires NeverArchived(s, steps, room) && room !in s.archive
    ensures SafeRun(s, steps, room) && room !in Run(s, steps).archive
  {
    if steps != [] {
      hide NeverArchived, SafeRun, Spares, Safe, Next;
      NeverArchivedFront(s, steps, room);
      NeverArchivedIsSafe(s, steps[..|steps| - 1], room);
      SparedStaysUnarchived(Run(s, steps[..|steps| - 1]), steps[|steps| - 1], room);
      SafeExtend(s, steps, room);
    }
  }

  /** For a room that is never archived nothing is assumed: any number of writers and compactors, a
      lock that expires or is taken by force at any moment, other rooms archived or not, and still no
      action appended to it is lost by replace or by the deletion of an empty room. */
  lemma {:induction false} NothingIsLostUnarchived(now: int, steps: seq<Step>, room: string)
    requires Legal(Initial(now), steps) && NeverArchived(Initial(now), steps, room)
    ensures StoredMeaning(Run(Initial(now), steps), room) == HistoryMeaning(Run(Initial(now), steps), room)
  {
    hide Run, Legal, SafeRun, NeverArchived, HistoryMeaning, Replay;
    NeverArchivedIsSafe(Initial(now), steps, room);
    MergedStoreKeepsHistory(now, steps, room);
    var s := Run(Initial(now), steps);
    ReadMeaningIs(s, room);
    EmptyLog(s, room);
  }

  // ----- Where the code does lose actions, exactly -----

  /** add_request does not load an archived room first. */
  lemma {:induction false} AppendIsKeptIff(s: System, room: string)
    requires CompactorsOk(s) && RoomOk(s, room)
    ensures (forall request: Request :: Named(request.actions) ==> Kept(Next(s, Append(room, request)), room))
      <==> room in s.store.rooms || room !in s.archive || ArchivedMeaning(s, room) == []
  {
    hide CompactorsOk, ReadMeaning, HistoryMeaning, StoredMeaning;
    ReadMeaningIs(s, room);
    if room in s.store.rooms || room !in s.archive || ArchivedMeaning(s, room) == [] {
      forall request: Request | Named(request.actions) ensures Kept(Next(s, Append(room, request)), room) {
        AppendKeeps(s, room, request, room);
      }
    } else {
      var request := Request("", [PingAction(Ping("", 0, 0))]);
      var s' := Next(s, Append(room, request));
      AppendMeaning(s, room, request);
      HistoryGrows(s, room, request);
      EmptyLog(s, room);
      ReadMeaningIs(s', room);
      assert Named(request.actions) && !Kept(s', room);
    }
  }

  /** The pair of deletes for an empty room by somebody who has lost the lock. */
  lemma UnlockedDeleteIsKeptIff(s: System, id: string)
    requires CompactorsOk(s) && PhaseOf(s, id).Deleting? && !Holds(s.store.lock, id, s.now)
    requires RoomOk(s, PhaseOf(s, id).plan.room)
    ensures var room := PhaseOf(s, id).plan.room;
      Kept(Next(s, DeleteEmpty(id)), room)
      <==> room in s.store.rooms || room !in s.archive || ArchivedMeaning(s, room) == []
  {
    hide CompactorsOk, ReadMeaning, Replay, StoredMeaning;
    var room, s' := PhaseOf(s, id).plan.room, Next(s, DeleteEmpty(id));
    ReadMeaningIs(s, room);
    ReadMeaningIs(s', room);
    assert s'.store == s.store;
    assert room in s.store.rooms ==> StoredMeaning(s', room) == StoredMeaning(s, room) by {
      EmptyDeleteMeaning(s, id, room);
    }
  }

  /** An archive write by somebody who has lost the lock. */
  lemma UnlockedWriteIsKeptIff(s: System, id: string)
    requires CompactorsOk(s) && PhaseOf(s, id).Archiving? && !Holds(s.store.lock, id, s.now)
    requires RoomOk(s, PhaseOf(s, id).plan.room)
    ensures var plan := PhaseOf(s, id).plan;
      Kept(Next(s, WriteArchive(id)), plan.room)
      <==> plan.room in s.store.rooms || Replay(plan.compacted) == HistoryMeaning(s, plan.room)
  {
    hide CompactorsOk, ReadMeaning, Replay, StoredMeaning;
    var room, s' := PhaseOf(s, id).plan.room, Next(s, WriteArchive(id));
    ReadMeaningIs(s, room);
    ReadMeaningIs(s', room);
    SameStore(s, s', room);
  }

  lemma SameStore(s: System, s': System, room: string)
    requires s'.store == s.store
    ensures StoredMeaning(s', room) == StoredMeaning(s, room)
  {
  }

  /** A late archive write by a, just before b, who holds the lock and has archived the room, drops
      the stored log. */
  lemma LateWriteIsKeptIff(s: System, a: string, b: string)
    requires CompactorsOk(s) && PhaseOf(s, a).Archiving? && !Holds(s.store.lock, a, s.now)
    requires PhaseOf(s, b).Archived? && Holds(s.store.lock, b, s.now)
    requires PhaseOf(s, b).plan.room == PhaseOf(s, a).plan.room
    requires RoomOk(s, PhaseOf(s, a).plan.room) && AboutToDrop(s, PhaseOf(s, a).plan.room)
    ensures var plan := PhaseOf(s, a).plan;
      Kept(Next(Next(s, WriteArchive(a)), DeleteArchived(b)), plan.room)
      <==> Replay(plan.compacted) == HistoryMeaning(s, plan.room)
  {
    hide CompactorsOk, ReadMeaning, Replay, StoredMeaning;
    var room := PhaseOf(s, a).plan.room;
    ReadMeaningIs(Next(Next(s, WriteArchive(a)), DeleteArchived(b)), room);
  }

  /** An unsafe step loses the room at once, or with the next step of the holder of the lock. */
  lemma UnsafeLoses(s: System, step: Step, room: string)
    requires CompactorsOk(s) && RoomOk(s, room) && Enabled(s, step) && !step.Append? && !Safe(s, step, room)
    ensures var s' := Next(s, step);
      !Kept(s', room) ||
      (s'.store.lock.Some? &&
       var drop := DeleteArchived(s'.store.lock.value.key);
       Enabled(s', drop) && !Kept(Next(s', drop), room))
  {
    hide CompactorsOk, ReadMeaning, Replay, StoredMeaning;
    if room !in s.store.rooms {
      if step.DeleteEmpty? {
        UnlockedDeleteIsKeptIff(s, step.id);
        ReadMeaningIs(s, room);
      } else {
        UnlockedWriteIsKeptIff(s, step.id);
      }
    } else {
      var holder, s' := s.store.lock.value.key, Next(s, step);
      ReadMeaningIs(Next(s', DeleteArchived(holder)), room);
      if step.WriteArchive? {
        LateWriteIsKeptIff(s, step.id, holder);
      }
    }
  }

  /** Exactly the safe steps are harmless: from a state in which the room is in order, no legal
      continuation that is itself safe loses the room if and only if the step is safe. */
  lemma {:induction false} SafeIff(s: System, step: Step, room: string)
    requires CompactorsOk(s) && RoomOk(s, room) && Enabled(s, step) && !step.Append?
    ensures (forall tail: seq<Step> :: Legal(Next(s, step), tail) && SafeRun(Next(s, step), tail, room) ==>
        Kept(Run(Next(s, step), tail), room))
      <==> Safe(s, step, room)
  {
    hide CompactorsOk, Next, Enabled, Kept, AboutToDrop, Safe, Run;
    var s' := Next(s, step);
    if Safe(s, step, room) {
      NextKeepsCompactors(s, step);
      NextKeepsRoom(s, step, room);
      forall tail: seq<Step> | Legal(s', tail) && SafeRun(s', tail, room) ensures Kept(Run(s', tail), room) {
        RunKeepsRoom(s', tail, room);
      }
    } else {
      UnsafeLoses(s, step, room);
      EmptyTail(s', room);
      if Kept(s', room) {
        OneStepTail(s', DeleteArchived(s'.store.lock.value.key), room);
      }
    }
  }

  lemma EmptyTail(s: System, room: string)
    ensures Legal(s, []) && SafeRun(s, [], room) && Run(s, []) == s
  {
  }

  lemma OneStepTail(s: System, step: Step, room: string)
    requires Enabled(s, step) && step.DeleteArchived?
    ensures Legal(s, [step]) && SafeRun(s, [step], room) && Run(s, [step]) == Next(s, step)
  {
    hide Next, Enabled;
    assert [step][..0] == [];
  }
}
