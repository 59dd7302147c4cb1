/** Writers, readers and compactors on one store and one archive, as steps. A compactor goes through
    _compact_room (api/src/compaction.py:52-93) one awaited effect at a time, and anybody else may
    act in between; the replacement lock can expire or be taken by force at any moment. */
module ArchiveProtocol {
  import opened Sequences
  import opened Components
  import opened Board
  import opened RoomTables
  import opened CompactedLog
  import opened StoreState

  const ARCHIVE_WHEN_IDLE_SECONDS := 6 * 60 * 60

  /** What a compactor has read of a room, and what it wants to put in its place. */
  datatype Plan = Plan(room: string, groups: seq<seq<Action>>, compacted: seq<Action>)

  /** Where a compactor is in _compact_room; Idle is outside it. */
  datatype Phase =
    | Idle
    | HasRead(plan: Plan)
    | Deleting(plan: Plan)
    | Archiving(plan: Plan)
    | Archived(plan: Plan)
    | Replacing(plan: Plan)

  /** history holds, per room, every action ever appended. */
  datatype System = System(
    store: Redis,
    archive: map<string, seq<Action>>,
    now: int,
    phases: map<string, Phase>,
    history: map<string, seq<Action>>)

  datatype Step =
    | Append(room: string, request: Request)
    | Load(room: string)
    | Tick(seconds: nat)
    | Acquire(id: string)
    | Force(id: string)
    | ReadRoom(id: string, room: string)
    | Decide(id: string, idleSeconds: int)
    | DeleteEmpty(id: string)
    | WriteArchive(id: string)
    | DeleteArchived(id: string)
    | ReplaceLog(id: string)

  function PhaseOf(s: System, id: string): Phase
  {
    if id in s.phases then s.phases[id] else Idle
  }

  function History(s: System, room: string): seq<Action>
  {
    if room in s.history then s.history[room] else []
  }

  /** Program order: each compactor runs one _compact_room at a time and acquires the lock outside
      it, and a forced acquisition comes from an id of its own. Appended tokens have ids. */
  ghost predicate Enabled(s: System, step: Step)
  {
    match step
    case Append(_, request) => Named(request.actions)
    case Load(_) => true
    case Tick(_) => true
    case Acquire(id) => PhaseOf(s, id).Idle?
    case Force(id) => PhaseOf(s, id).Idle?
    case ReadRoom(id, _) => PhaseOf(s, id).Idle?
    case Decide(id, _) => PhaseOf(s, id).HasRead?
    case DeleteEmpty(id) => PhaseOf(s, id).Deleting?
    case WriteArchive(id) => PhaseOf(s, id).Archiving?
    case DeleteArchived(id) => PhaseOf(s, id).Archived?
    case ReplaceLog(id) => PhaseOf(s, id).Replacing?
  }

  /** A store operation that succeeds ends the compaction, a lost lock ends the cycle, and a wrong
      token falls back to replacing the log. */
  function AfterDelete(s: System, id: string, plan: Plan): System
  {
    match RedisDelete(s.store, plan.room, id, |plan.groups|, s.now)
    case Done(store) => s.(store := store, phases := s.phases[id := Idle])
    case LostLock => s.(phases := s.phases[id := Idle])
    case WrongToken => s.(phases := s.phases[id := Replacing(plan)])
  }

  ghost function Next(s: System, step: Step): System
  {
    match step
    case Append(room, request) =>
      s.(store := RedisAdd(s.store, room, request),
         history := s.history[room := History(s, room) + request.actions])
    case Load(room) =>
      if room !in s.store.rooms && room in s.archive then
        s.(store := RedisWriteIfMissing(s.store, room, s.archive[room]))
      else s
    case Tick(seconds) => s.(now := s.now + seconds)
    case Acquire(id) => s.(store := RedisAcquire(s.store, id, false, s.now).0)
    case Force(id) => s.(store := RedisAcquire(s.store, id, true, s.now).0)
    case ReadRoom(id, room) =>
      var log := Flatten(Groups(s.store, room));
      // create_room may raise; the compaction is over then.
      if Named(log) && CreateRoom(log).Ok? then
        s.(phases := s.phases[id := HasRead(Plan(room, Groups(s.store, room), Compacted(log).value))])
      else s
    case Decide(id, idleSeconds) =>
      if !PhaseOf(s, id).HasRead? then s
      else
        var plan := PhaseOf(s, id).plan;
        var phase :=
          if plan.room !in s.store.rooms then Idle
          else if plan.compacted == [] then Deleting(plan)
          else if idleSeconds >= ARCHIVE_WHEN_IDLE_SECONDS then Archiving(plan)
          else Replacing(plan);
        s.(phases := s.phases[id := phase])
    case DeleteEmpty(id) =>
      if !PhaseOf(s, id).Deleting? then s
      else
        var plan := PhaseOf(s, id).plan;
        AfterDelete(s, id, plan).(archive := s.archive - {plan.room})
    case WriteArchive(id) =>
      if !PhaseOf(s, id).Archiving? then s
      else
        var plan := PhaseOf(s, id).plan;
        s.(archive := s.archive[plan.room := plan.compacted], phases := s.phases[id := Archived(plan)])
    case DeleteArchived(id) =>
      if !PhaseOf(s, id).Archived? then s else AfterDelete(s, id, PhaseOf(s, id).plan)
    case ReplaceLog(id) =>
      if !PhaseOf(s, id).Replacing? then s
      else
        var plan := PhaseOf(s, id).plan;
        var outcome := RedisReplace(s.store, plan.room, plan.compacted, |plan.groups|, id, s.now);
        s.(store := if outcome.Done? then outcome.state else s.store, phases := s.phases[id := Idle])
  }

  ghost function Run(s: System, steps: seq<Step>): System
  {
    if steps == [] then s else Next(Run(s, steps[..|steps| - 1]), steps[|steps| - 1])
  }

  // ----- One room, as its readers see it -----

  datatype View = View(stored: Option<seq<seq<Action>>>, archived: Option<seq<Action>>, history: seq<Action>)

  function ViewOf(s: System, room: string): View
  {
    View(if room in s.store.rooms then Some(s.store.rooms[room]) else None,
         if room in s.archive then Some(s.archive[room]) else None,
         History(s, room))
  }

  /** The merged store: the stored log if there is one, else the archived one, else nothing. */
  function Merged(v: View): seq<Action>
  {
    if v.stored.Some? then Flatten(v.stored.value)
    else if v.archived.Some? then v.archived.value
    else []
  }

  lemma {:induction false} FoldIgnoresPings(b: Board, actions: seq<Action>)
    ensures Fold(b, NonPing(actions)) == Fold(b, actions)
    ensures Named(actions) ==> Named(NonPing(actions))
  {
    if actions != [] {
      var n := |actions| - 1;
      FoldIgnoresPings(b, actions[..n]);
      if !actions[n].PingAction? {
        FoldSnoc(b, NonPing(actions[..n]), actions[n]);
      }
    }
  }

  // ----- What the lock protects, in every run -----

  ghost predicate PlanOk(plan: Plan)
  {
    var log := Flatten(plan.groups);
    Named(log) && CreateRoom(log).Ok? && Compacted(log) == Some(plan.compacted)
  }

  /** What a compactor read is still exactly the front of the stored log, and since it decided what
      to do the log is there. */
  ghost predicate Current(store: Redis, phase: Phase)
    requires !phase.Idle?
  {
    phase.plan.groups <= Groups(store, phase.plan.room) && (!phase.HasRead? ==> phase.plan.room in store.rooms)
  }

  ghost predicate CompactorOk(s: System, id: string)
  {
    var phase := PhaseOf(s, id);
    phase.Idle? ||
    (&& PlanOk(phase.plan)
     && (phase.Deleting? ==> phase.plan.compacted == [])
     && (Holds(s.store.lock, id, s.now) ==> Current(s.store, phase)))
  }

  ghost predicate CompactorsOk(s: System)
  {
    forall id :: CompactorOk(s, id)
  }

  /** A change that leaves every log a prefix of the new one, takes no room away, and gives the lock
      only to somebody who has no plan. */
  lemma GrowthKeeps(s: System, s': System)
    requires CompactorsOk(s) && s'.phases == s.phases
    requires forall room :: Groups(s.store, room) <= Groups(s'.store, room)
    requires s.store.rooms.Keys <= s'.store.rooms.Keys
    requires forall id :: Holds(s'.store.lock, id, s'.now) && !Holds(s.store.lock, id, s.now) ==> PhaseOf(s, id).Idle?
    ensures CompactorsOk(s')
  {
    hide PlanOk;
    forall id ensures CompactorOk(s', id) {
      assert CompactorOk(s, id);
    }
  }

  /** A step of one compactor that leaves the store alone. */
  lemma OwnStepKeeps(s: System, s': System, id: string)
    requires CompactorsOk(s) && s'.store == s.store && s'.now == s.now
    requires forall other :: other != id ==> PhaseOf(s', other) == PhaseOf(s, other)
    requires CompactorOk(s', id)
    ensures CompactorsOk(s')
  {
    forall other ensures CompactorOk(s', other) {
      if other != id {
        assert CompactorOk(s, other) && PhaseOf(s', other) == PhaseOf(s, other);
      }
    }
  }

  /** The holder of the lock is done with its plan; nobody else has the lock. */
  lemma HolderStepKeeps(s: System, s': System, id: string)
    requires CompactorsOk(s) && Holds(s.store.lock, id, s.now)
    requires s'.store.lock == s.store.lock && s'.now == s.now && PhaseOf(s', id).Idle?
    requires forall other :: other != id ==> PhaseOf(s', other) == PhaseOf(s, other)
    ensures CompactorsOk(s')
  {
    hide PlanOk, Current;
    forall other ensures CompactorOk(s', other) {
      assert CompactorOk(s, other);
      assert other != id ==> PhaseOf(s', other) == PhaseOf(s, other);
    }
  }

  lemma ReadKeeps(s: System, id: string, room: string)
    requires CompactorsOk(s)
    ensures CompactorsOk(Next(s, ReadRoom(id, room)))
  {
    hide Flatten, CreateRoom;
    var log := Flatten(Groups(s.store, room));
    if Named(log) && CreateRoom(log).Ok? {
      OwnStepKeeps(s, Next(s, ReadRoom(id, room)), id);
    }
  }

  lemma AfterDeleteKeeps(s: System, s': System, id: string)
    requires CompactorsOk(s) && (PhaseOf(s, id).Deleting? || PhaseOf(s, id).Archived?)
    requires var d := AfterDelete(s, id, PhaseOf(s, id).plan);
      s'.store == d.store && s'.now == d.now && s'.phases == d.phases
    ensures CompactorsOk(s')
  {
    hide PlanOk;
    assert CompactorOk(s, id);
    var plan := PhaseOf(s, id).plan;
    if RedisDelete(s.store, plan.room, id, |plan.groups|, s.now).Done? {
      HolderStepKeeps(s, s', id);
    } else {
      OwnStepKeeps(s, s', id);
    }
  }

  lemma ReplaceKeeps(s: System, id: string)
    requires CompactorsOk(s) && PhaseOf(s, id).Replacing?
    ensures CompactorsOk(Next(s, ReplaceLog(id)))
  {
    hide PlanOk;
    assert CompactorOk(s, id);
    if Holds(s.store.lock, id, s.now) {
      HolderStepKeeps(s, Next(s, ReplaceLog(id)), id);
    } else {
      OwnStepKeeps(s, Next(s, ReplaceLog(id)), id);
    }
  }

  lemma PhaseStepKeeps(s: System, step: Step)
    requires CompactorsOk(s) && Enabled(s, step) && (step.Decide? || step.WriteArchive?)
    ensures CompactorsOk(Next(s, step))
  {
    hide PlanOk;
    assert CompactorOk(s, step.id);
    OwnStepKeeps(s, Next(s, step), step.id);
  }

  /** Every step keeps what compactors rely on; nothing is assumed about the archive. */
  lemma NextKeepsCompactors(s: System, step: Step)
    requires CompactorsOk(s) && Enabled(s, step)
    ensures CompactorsOk(Next(s, step))
  {
    hide CompactorsOk, CompactorOk;
    match step
    case Append(_, _) => GrowthKeeps(s, Next(s, step));
    case Load(_) => GrowthKeeps(s, Next(s, step));
    case Tick(_) => GrowthKeeps(s, Next(s, step));
    case Acquire(_) => GrowthKeeps(s, Next(s, step));
    case Force(_) => GrowthKeeps(s, Next(s, step));
    case ReadRoom(id, room) => ReadKeeps(s, id, room);
    case Decide(_, _) => PhaseStepKeeps(s, step);
    case DeleteEmpty(id) => AfterDeleteKeeps(s, Next(s, step), id);
    case WriteArchive(_) => PhaseStepKeeps(s, step);
    case DeleteArchived(id) => AfterDeleteKeeps(s, Next(s, step), id);
    case ReplaceLog(id) => ReplaceKeeps(s, id);
  }

  // ----- Whole runs -----

  function Initial(now: int): System
  {
    System(Redis(map[], None), map[], now, map[], map[])
  }

  ghost predicate Legal(s: System, steps: seq<Step>)
  {
    forall k :: 0 <= k < |steps| ==> Enabled(Run(s, steps[..k]), steps[k])
  }

  lemma LegalFront(s: System, steps: seq<Step>)
    requires Legal(s, steps) && steps != []
    ensures var n := |steps| - 1;
      Legal(s, steps[..n]) && Enabled(Run(s, steps[..n]), steps[n])
  {
    var front := steps[..|steps| - 1];
    forall k | 0 <= k < |front| ensures Enabled(Run(s, front[..k]), front[k]) {
      assert front[..k] == steps[..k];
      assert Enabled(Run(s, steps[..k]), steps[k]);
    }
  }

  lemma LegalExtend(s: System, steps: seq<Step>, step: Step)
    requires Legal(s, steps) && Enabled(Run(s, steps), step)
    ensures Legal(s, steps + [step]) && Run(s, steps + [step]) == Next(Run(s, steps), step)
  {
    hide Enabled, Next;
    var all := steps + [step];
    assert all[..|steps|] == steps;
    forall k | 0 <= k < |all| ensures Enabled(Run(s, all[..k]), all[k]) {
      if k < |steps| {
        assert all[..k] == steps[..k] && all[k] == steps[k];
      }
    }
  }

  lemma {:induction false} CompactorsStayOk(s: System, steps: seq<Step>)
    requires CompactorsOk(s) && Legal(s, steps)
    ensures CompactorsOk(Run(s, steps))
  {
    if steps != [] {
      hide CompactorsOk, Legal, Next, Enabled;
      LegalFront(s, steps);
      CompactorsStayOk(s, steps[..|steps| - 1]);
      NextKeepsCompactors(Run(s, steps[..|steps| - 1]), steps[|steps| - 1]);
    }
  }

  /** The key invariant, in every run, whatever happens to lock and archive: a compactor inside
      _compact_room whose lock is alive still has, at the front of the stored log, exactly the
      groups it read. */
  lemma {:induction false} LockProtectsRead(now: int, steps: seq<Step>, id: string)
    requires Legal(Initial(now), steps)
    ensures var s := Run(Initial(now), steps);
      !PhaseOf(s, id).Idle? && Holds(s.store.lock, id, s.now) ==>
        var plan := PhaseOf(s, id).plan;
        plan.groups <= Groups(s.store, plan.room)
  {
    CompactorsStayOk(Initial(now), steps);
    hide Run, Legal, PlanOk;
    assert CompactorOk(Run(Initial(now), steps), id);
  }

  // ----- No unnamed token gets in -----

  ghost predicate NamedRoom(s: System, room: string)
  {
    && Named(Flatten(Groups(s.store, room)))
    && (room in s.archive ==> Named(s.archive[room]))
    && Named(History(s, room))
  }

  lemma SameRoomNamed(s: System, s': System, room: string)
    requires NamedRoom(s, room)
    requires Groups(s'.store, room) in [Groups(s.store, room), []]
    requires room in s'.archive ==> room in s.archive && s'.archive[room] == s.archive[room]
    requires History(s', room) == History(s, room)
    ensures NamedRoom(s', room)
  {
  }

  lemma AppendNamed(s: System, room: string, request: Request)
    requires NamedRoom(s, room) && Named(request.actions)
    ensures NamedRoom(Next(s, Append(room, request)), room)
  {
    hide Flatten, NonPing, Named;
    var groups := Groups(s.store, room);
    FlattenConcat(groups, [NonPing(request.actions)]);
    FlattenOne(NonPing(request.actions));
    FoldIgnoresPings([], request.actions);
    NamedConcat(Flatten(groups), NonPing(request.actions));
    NamedConcat(History(s, room), request.actions);
  }

  lemma LoadNamed(s: System, room: string)
    requires NamedRoom(s, room)
    ensures NamedRoom(Next(s, Load(room)), room)
  {
    hide Flatten, Named;
    if room in s.archive {
      FlattenOne(s.archive[room]);
    }
  }

  lemma ReplaceNamed(s: System, id: string)
    requires CompactorsOk(s) && PhaseOf(s, id).Replacing? && NamedRoom(s, PhaseOf(s, id).plan.room)
    ensures NamedRoom(Next(s, ReplaceLog(id)), PhaseOf(s, id).plan.room)
  {
    hide Flatten, Named, CreateRoom;
    assert CompactorOk(s, id);
    var plan := PhaseOf(s, id).plan;
    if Holds(s.store.lock, id, s.now) {
      var groups := Groups(s.store, plan.room);
      var rest := groups[|plan.groups|..];
      assert groups == plan.groups + rest;
      FlattenConcat(plan.groups, rest);
      FlattenCons(plan.compacted, rest);
      CompactedMeansSame(Flatten(plan.groups));
      NamedConcat(Flatten(plan.groups), Flatten(rest));
      NamedConcat(plan.compacted, Flatten(rest));
    }
  }

  lemma WriteNamed(s: System, id: string)
    requires CompactorsOk(s) && PhaseOf(s, id).Archiving? && NamedRoom(s, PhaseOf(s, id).plan.room)
    ensures NamedRoom(Next(s, WriteArchive(id)), PhaseOf(s, id).plan.room)
  {
    hide Flatten, Named, CreateRoom;
    assert CompactorOk(s, id);
    CompactedMeansSame(Flatten(PhaseOf(s, id).plan.groups));
  }

  lemma NextNamed(s: System, step: Step, room: string)
    requires CompactorsOk(s) && Enabled(s, step) && NamedRoom(s, room)
    ensures NamedRoom(Next(s, step), room)
  {
    hide CompactorsOk, NamedRoom, Flatten, Named, CreateRoom, NonPing;
    match step
    case Append(r, request) =>
      if r == room { AppendNamed(s, r, request); } else { SameRoomNamed(s, Next(s, step), room); }
    case Load(r) =>
      if r == room { LoadNamed(s, r); } else { SameRoomNamed(s, Next(s, step), room); }
    case ReplaceLog(id) =>
      if PhaseOf(s, id).plan.room == room { ReplaceNamed(s, id); } else { SameRoomNamed(s, Next(s, step), room); }
    case WriteArchive(id) =>
      if PhaseOf(s, id).plan.room == room { WriteNamed(s, id); } else { SameRoomNamed(s, Next(s, step), room); }
    case _ => SameRoomNamed(s, Next(s, step), room);
  }

  /** Nothing but named tokens is ever stored, archived or remembered, so a compactor never meets
      another log. */
  lemma {:induction false} LogsStayNamed(s: System, steps: seq<Step>, room: string)
    requires CompactorsOk(s) && Legal(s, steps) && NamedRoom(s, room)
    ensures NamedRoom(Run(s, steps), room)
  {
    if steps != [] {
      hide CompactorsOk, Legal, Next, Enabled, NamedRoom;
      LegalFront(s, steps);
      CompactorsStayOk(s, steps[..|steps| - 1]);
      LogsStayNamed(s, steps[..|steps| - 1], room);
      NextNamed(Run(s, steps[..|steps| - 1]), steps[|steps| - 1], room);
    }
  }

  // ----- What each step does to the meaning of a stored log -----

  ghost function StoredMeaning(s: System, room: string): Board
  {
    Replay(Flatten(Groups(s.store, room)))
  }

  lemma AppendMeaning(s: System, room: string, request: Request)
    ensures StoredMeaning(Next(s, Append(room, request)), room) == Fold(StoredMeaning(s, room), request.actions)
  {
    hide Flatten, NonPing;
    var groups := Groups(s.store, room);
    FlattenConcat(groups, [NonPing(request.actions)]);
    FlattenOne(NonPing(request.actions));
    FoldConcat([], Flatten(groups), NonPing(request.actions));
    FoldIgnoresPings(Replay(Flatten(groups)), request.actions);
  }

  lemma ReplaceMeaning(s: System, id: string)
    requires CompactorsOk(s) && PhaseOf(s, id).Replacing?
    ensures var room := PhaseOf(s, id).plan.room;
      StoredMeaning(Next(s, ReplaceLog(id)), room) == StoredMeaning(s, room)
  {
    hide Flatten, CreateRoom;
    assert CompactorOk(s, id);
    var plan := PhaseOf(s, id).plan;
    if Holds(s.store.lock, id, s.now) {
      var groups := Groups(s.store, plan.room);
      var rest := groups[|plan.groups|..];
      assert groups == plan.groups + rest;
      FlattenConcat(plan.groups, rest);
      FlattenCons(plan.compacted, rest);
      CompactionPreservesMeaning(Flatten(plan.groups), Flatten(rest));
    }
  }

  lemma DeleteMeaning(s: System, id: string)
    requires CompactorsOk(s) && (PhaseOf(s, id).Deleting? || PhaseOf(s, id).Archived?)
    ensures var plan := PhaseOf(s, id).plan;
      var s' := AfterDelete(s, id, plan);
      if RedisDelete(s.store, plan.room, id, |plan.groups|, s.now).Done? then
        StoredMeaning(s', plan.room) == [] && StoredMeaning(s, plan.room) == Replay(plan.compacted)
      else StoredMeaning(s', plan.room) == StoredMeaning(s, plan.room)
  {
    hide CreateRoom;
    assert CompactorOk(s, id);
    var plan := PhaseOf(s, id).plan;
    if RedisDelete(s.store, plan.room, id, |plan.groups|, s.now).Done? {
      var groups := Groups(s.store, plan.room);
      assert plan.groups == groups[..|groups|] == groups;
      CompactedMeansSame(Flatten(groups));
    }
  }

  /** What a step does to the meaning of a room's stored log. */
  ghost function MeaningAfter(s: System, step: Step, room: string): Board
  {
    match step
    case Append(r, request) =>
      if r == room then Fold(StoredMeaning(s, room), request.actions) else StoredMeaning(s, room)
    case Load(r) =>
      if r == room && room !in s.store.rooms && room in s.archive then Replay(s.archive[room])
      else StoredMeaning(s, room)
    case DeleteArchived(id) =>
      var phase := PhaseOf(s, id);
      if phase.Archived? && phase.plan.room == room
         && RedisDelete(s.store, room, id, |phase.plan.groups|, s.now).Done? then []
      else StoredMeaning(s, room)
    case _ => StoredMeaning(s, room)
  }

  lemma OtherRooms(s: System, step: Step, room: string)
    requires match step
      case Append(r, _) => r != room
      case Load(r) => r != room
      case DeleteEmpty(id) => !PhaseOf(s, id).Idle? && PhaseOf(s, id).plan.room != room
      case DeleteArchived(id) => !PhaseOf(s, id).Idle? && PhaseOf(s, id).plan.room != room
      case ReplaceLog(id) => !PhaseOf(s, id).Idle? && PhaseOf(s, id).plan.room != room
      case _ => true
    ensures Groups(Next(s, step).store, room) == Groups(s.store, room)
  {
    hide Flatten, CreateRoom, NonPing;
  }

  lemma NextMeaning(s: System, step: Step, room: string)
    requires CompactorsOk(s) && Enabled(s, step)
    ensures StoredMeaning(Next(s, step), room) == MeaningAfter(s, step, room)
  {
    hide CompactorsOk, Flatten, Replay, Fold, RedisDelete, RedisReplace, NonPing, CreateRoom;
    match step
    case Append(r, request) =>
      if r == room {
        AppendMeaning(s, room, request);
      } else {
        OtherRooms(s, step, room);
      }
    case Load(r) =>
      if r == room && room in s.archive {
        FlattenOne(s.archive[room]);
      }
    case ReplaceLog(id) =>
      if PhaseOf(s, id).plan.room == room {
        ReplaceMeaning(s, id);
      } else {
        OtherRooms(s, step, room);
      }
    case DeleteEmpty(id) => EmptyDeleteMeaning(s, id, room);
    case DeleteArchived(id) =>
      if PhaseOf(s, id).plan.room == room {
        DeleteMeaning(s, id);
      } else {
        OtherRooms(s, step, room);
      }
    case _ => OtherRooms(s, step, room);
  }

  lemma EmptyDeleteMeaning(s: System, id: string, room: string)
    requires CompactorsOk(s) && PhaseOf(s, id).Deleting?
    ensures StoredMeaning(Next(s, DeleteEmpty(id)), room) == StoredMeaning(s, room)
  {
    hide Flatten, RedisDelete;
    assert CompactorOk(s, id);
    var plan := PhaseOf(s, id).plan;
    if plan.room == room {
      DeleteMeaning(s, id);
    } else {
      OtherRooms(s, DeleteEmpty(id), room);
    }
  }

  /** In every run, whatever happens to lock and archive: the meaning of a stored log changes only by
      what is appended to it, by being loaded, and when it is dropped because it has been archived.
      In particular neither replace nor the deletion of an empty room loses anything that is stored. */
  lemma {:induction false} StoredLogLosesNothing(now: int, steps: seq<Step>, step: Step, room: string)
    requires Legal(Initial(now), steps) && Enabled(Run(Initial(now), steps), step)
    ensures var s := Run(Initial(now), steps);
      StoredMeaning(Next(s, step), room) == MeaningAfter(s, step, room)
    ensures var s := Run(Initial(now), steps);
      step.ReplaceLog? || step.DeleteEmpty? ==> StoredMeaning(Next(s, step), room) == StoredMeaning(s, room)
  {
    hide Run, Legal, Next, Enabled, StoredMeaning;
    CompactorsStayOk(Initial(now), steps);
    NextMeaning(Run(Initial(now), steps), step, room);
  }
}
