/** Runs in which the archive, which knows no lock, and which add_request does not look at, loses an
    action (api/src/compaction.py:62-82, api/src/room_store/merged_room_store.py:59-60). All of them are
    legal and start from the empty system. */
module ArchiveLosses {
  import opened Sequences
  import opened Components
  import opened Board
  import RoomTables
  import RoomIcons
  import opened CompactedLog
  import opened StoreState
  import opened ArchiveProtocol
  import opened ArchiveHistory

  const FIRST := Token("first", Floor, Text(""), UnitBox(Cell(0, 0, 0)), None)
  const SECOND := Token("second", Floor, Text(""), UnitBox(Cell(1, 0, 0)), None)
  const LONG: nat := ARCHIVE_WHEN_IDLE_SECONDS

  // ----- The logs that occur -----

  function Tokens(n: nat): seq<Token>
  {
    if n == 0 then [] else if n == 1 then [FIRST] else [FIRST, SECOND]
  }

  function Log(n: nat): seq<Action>
  {
    Upserts(Tokens(n))
  }

  lemma TokensApart(n: nat)
    ensures Distinct(Bares(Tokens(n))) && Disjoint(Bares(Tokens(n))) && Named(Log(n))
  {
    if n > 1 {
      var b := Bares(Tokens(n));
      assert b[0] == Bare(FIRST) && b[1] == Bare(SECOND);
    }
  }

  /** Each log is read without raising, and it and its compacted form mean what it looks like. */
  lemma LogMeans(n: nat)
    ensures Named(Log(n)) && RoomTables.CreateRoom(Log(n)).Ok? && Compacted(Log(n)).Some?
    ensures Replay(Log(n)) == Replay(Compacted(Log(n)).value) == Bares(Tokens(n))
    ensures Compacted(Log(n)).value == [] <==> n == 0
  {
    TokensApart(n);
    hide RoomTables.CreateRoom, Replay, Tokens;
    ReplayUpserts(Tokens(n));
    UpsertsAreStable(Tokens(n));
    RoomIcons.StableLogsNeverRaise(Log(n));
    CompactedMeansSame(Log(n));
    CompactedSize(Log(n));
    TokensCount(n);
  }

  lemma TokensCount(n: nat)
    ensures |Bares(Tokens(n))| == 0 <==> n == 0
  {
  }

  lemma CompactedSize(log: seq<Action>)
    requires Named(log) && Compacted(log).Some?
    ensures |Compacted(log).value| == |Replay(log)|
  {
    hide RoomTables.Indexed, Replay;
    RoomTables.CreateRoomRefines(log);
    IndexedKeyed(RoomTables.CreateRoom(log).room);
    ValuesPieces(RoomTables.CreateRoom(log).room);
  }

  lemma IndexedKeyed(s: RoomTables.RoomState)
    requires RoomTables.Indexed(s)
    ensures RoomTables.Keyed(s)
  {
  }

  ghost function PlanFor(room: string, groups: seq<seq<Action>>, n: nat): Plan
  {
    LogMeans(n);
    Plan(room, groups, Compacted(Log(n)).value)
  }

  lemma PlanShape(room: string, groups: seq<seq<Action>>, n: nat)
    ensures Named(Log(n)) && RoomTables.CreateRoom(Log(n)).Ok?
    ensures PlanFor(room, groups, n) == Plan(room, groups, Compacted(Log(n)).value)
    ensures PlanFor(room, groups, n).compacted == [] <==> n == 0
  {
    LogMeans(n);
  }

  // ----- Single steps -----

  lemma Reads(s: System, room: string, id: string, n: nat)
    requires Flatten(Groups(s.store, room)) == Log(n) && PhaseOf(s, id).Idle?
    ensures Enabled(s, ReadRoom(id, room))
    ensures Next(s, ReadRoom(id, room)) ==
      s.(phases := s.phases[id := HasRead(PlanFor(room, Groups(s.store, room), n))])
  {
    PlanShape(room, Groups(s.store, room), n);
    hide PlanFor, Log, Flatten, Compacted, Named, RoomTables.CreateRoom;
  }

  lemma Decides(s: System, room: string, id: string, plan: Plan)
    requires plan.room == room && room in s.store.rooms && PhaseOf(s, id) == HasRead(plan)
    ensures Enabled(s, Decide(id, LONG))
    ensures Next(s, Decide(id, LONG)) ==
      s.(phases := s.phases[id := if plan.compacted == [] then Deleting(plan) else Archiving(plan)])
  {
  }

  lemma Writes(s: System, id: string, plan: Plan)
    requires PhaseOf(s, id) == Archiving(plan)
    ensures Enabled(s, WriteArchive(id))
    ensures Next(s, WriteArchive(id)) ==
      s.(archive := s.archive[plan.room := plan.compacted], phases := s.phases[id := Archived(plan)])
  {
  }

  lemma Drops(s: System, id: string, plan: Plan)
    requires PhaseOf(s, id) == Archived(plan)
    requires Groups(s.store, plan.room) == plan.groups && Holds(s.store.lock, id, s.now)
    ensures Enabled(s, DeleteArchived(id))
    ensures Next(s, DeleteArchived(id)) ==
      s.(store := s.store.(rooms := s.store.rooms - {plan.room}), phases := s.phases[id := Idle])
  {
  }

  lemma DeletesLate(s: System, id: string, plan: Plan)
    requires PhaseOf(s, id) == Deleting(plan) && !Holds(s.store.lock, id, s.now)
    ensures Enabled(s, DeleteEmpty(id))
    ensures Next(s, DeleteEmpty(id)) == s.(archive := s.archive - {plan.room}, phases := s.phases[id := Idle])
  {
  }

  lemma Ticks(s: System)
    ensures Enabled(s, Tick(LONG)) && Next(s, Tick(LONG)) == s.(now := s.now + LONG)
  {
  }

  lemma Acquires(s: System, id: string)
    requires PhaseOf(s, id).Idle? && (s.store.lock.Some? ==> s.store.lock.value.expireTime < s.now)
    ensures Enabled(s, Acquire(id))
    ensures Next(s, Acquire(id)) == s.(store := s.store.(lock := NewLock(id, s.now)))
  {
  }

  function Upserting(tokens: seq<Token>): Request
  {
    Request("", Upserts(tokens))
  }

  lemma UpsertsAreNoPings(tokens: seq<Token>)
    ensures NonPing(Upserts(tokens)) == Upserts(tokens)
  {
    if tokens != [] {
      var front := tokens[..|tokens| - 1];
      assert Upserts(tokens)[..|tokens| - 1] == Upserts(front);
      UpsertsAreNoPings(front);
    }
  }

  lemma Appends(s: System, room: string, tokens: seq<Token>)
    requires Named(Upserts(tokens))
    ensures Enabled(s, Append(room, Upserting(tokens)))
    ensures Next(s, Append(room, Upserting(tokens))) ==
      s.(store := s.store.(rooms := s.store.rooms[room := Groups(s.store, room) + [Upserts(tokens)]]),
         history := s.history[room := History(s, room) + Upserts(tokens)])
  {
    UpsertsAreNoPings(tokens);
    hide NonPing, Named;
  }

  // ----- Runs -----

  /** Somebody appends, and when the room has been idle for long enough a compactor gets the lock,
      reads and decides. */
  function Beginning(room: string, id: string, tokens: seq<Token>): seq<Step>
  {
    [Append(room, Upserting(tokens)), Tick(LONG), Acquire(id), ReadRoom(id, room), Decide(id, LONG)]
  }

  /** The compactor writes to the archive and drops the stored log. */
  function Ending(id: string): seq<Step>
  {
    [WriteArchive(id), DeleteArchived(id)]
  }

  /** s can be left by running steps, and that leads to t. */
  ghost predicate Leads(s: System, steps: seq<Step>, t: System)
  {
    Legal(s, steps) && Run(s, steps) == t
  }

  lemma LeadsNowhere(s: System)
    ensures Leads(s, [], s)
  {
  }

  lemma LeadsNext(s: System, steps: seq<Step>, t: System, step: Step, t': System)
    requires Leads(s, steps, t) && Enabled(t, step) && Next(t, step) == t'
    ensures Leads(s, steps + [step], t')
  {
    hide Enabled, Next;
    LegalExtend(s, steps, step);
  }

  lemma {:induction false} LegalConcat(s: System, x: seq<Step>, y: seq<Step>)
    requires Legal(s, x) && Legal(Run(s, x), y)
    ensures Legal(s, x + y) && Run(s, x + y) == Run(Run(s, x), y)
  {
    hide Enabled, Next;
    if y == [] {
      assert x + y == x;
    } else {
      var n := |y| - 1;
      LegalFront(Run(s, x), y);
      LegalConcat(s, x, y[..n]);
      LegalExtend(s, x + y[..n], y[n]);
      assert (x + y[..n]) + [y[n]] == x + y;
    }
  }

  lemma LeadsOn(s: System, x: seq<Step>, t: System, y: seq<Step>, u: System)
    requires Leads(s, x, t) && Leads(t, y, u)
    ensures Leads(s, x + y, u)
  {
    hide Legal, Run;
    LegalConcat(s, x, y);
  }

  ghost function Decided(plan: Plan): Phase
  {
    if plan.compacted == [] then Deleting(plan) else Archiving(plan)
  }

  /** Where Beginning leads. */
  ghost function Begun(s: System, room: string, id: string, tokens: seq<Token>, n: nat): System
  {
    var groups := Groups(s.store, room) + [Upserts(tokens)];
    System(Redis(s.store.rooms[room := groups], NewLock(id, s.now + LONG)), s.archive, s.now + LONG,
           s.phases[id := Decided(PlanFor(room, groups, n))], s.history[room := History(s, room) + Upserts(tokens)])
  }

  lemma Begins(s: System, room: string, id: string, tokens: seq<Token>, n: nat)
    requires Named(Upserts(tokens)) && PhaseOf(s, id).Idle?
    requires Flatten(Groups(s.store, room) + [Upserts(tokens)]) == Log(n)
    requires s.store.lock.Some? ==> s.store.lock.value.expireTime < s.now + LONG
    ensures Leads(s, Beginning(room, id, tokens), Begun(s, room, id, tokens, n))
  {
    hide PlanFor, Log, Flatten, Named, Next, Enabled, Leads;
    var groups := Groups(s.store, room) + [Upserts(tokens)];
    Appends(s, room, tokens);
    var s1 := Next(s, Append(room, Upserting(tokens)));
    Ticks(s1);
    var s2 := s1.(now := s.now + LONG);
    Acquires(s2, id);
    var s3 := s2.(store := s2.store.(lock := NewLock(id, s2.now)));
    Reads(s3, room, id, n);
    PlanShape(room, groups, n);
    var s4 := s3.(phases := s3.phases[id := HasRead(PlanFor(room, groups, n))]);
    Decides(s4, room, id, PlanFor(room, groups, n));
    FiveSteps([s, s1, s2, s3, s4, Begun(s, room, id, tokens, n)], Beginning(room, id, tokens));
  }

  lemma FiveSteps(trace: seq<System>, steps: seq<Step>)
    requires |trace| == 6 && |steps| == 5
    requires Enabled(trace[0], steps[0]) && Next(trace[0], steps[0]) == trace[1]
    requires Enabled(trace[1], steps[1]) && Next(trace[1], steps[1]) == trace[2]
    requires Enabled(trace[2], steps[2]) && Next(trace[2], steps[2]) == trace[3]
    requires Enabled(trace[3], steps[3]) && Next(trace[3], steps[3]) == trace[4]
    requires Enabled(trace[4], steps[4]) && Next(trace[4], steps[4]) == trace[5]
    ensures Leads(trace[0], steps, trace[5])
  {
    hide Next, Enabled, Leads;
    LeadsNowhere(trace[0]);
    for k := 0 to 5
      invariant Leads(trace[0], steps[..k], trace[k])
    {
      LeadsNext(trace[0], steps[..k], trace[k], steps[k], trace[k + 1]);
      assert steps[..k] + [steps[k]] == steps[..k + 1];
    }
    assert steps[..5] == steps;
  }

  /** Where Ending leads. */
  ghost function Ended(s: System, id: string, plan: Plan): System
  {
    s.(store := s.store.(rooms := s.store.rooms - {plan.room}), archive := s.archive[plan.room := plan.compacted],
       phases := s.phases[id := Idle])
  }

  lemma Ends(s: System, id: string, plan: Plan)
    requires PhaseOf(s, id) == Archiving(plan)
    requires Groups(s.store, plan.room) == plan.groups && Holds(s.store.lock, id, s.now)
    ensures Leads(s, Ending(id), Ended(s, id, plan))
  {
    hide Next, Enabled, Leads;
    Writes(s, id, plan);
    var s1 := s.(archive := s.archive[plan.room := plan.compacted], phases := s.phases[id := Archived(plan)]);
    Drops(s1, id, plan);
    assert s1.phases[id := Idle] == s.phases[id := Idle];
    LeadsNowhere(s);
    LeadsNext(s, [], s, WriteArchive(id), s1);
    assert [] + [WriteArchive(id)] == [WriteArchive(id)];
    LeadsNext(s, [WriteArchive(id)], s1, DeleteArchived(id), Ended(s, id, plan));
    assert [WriteArchive(id)] + [DeleteArchived(id)] == Ending(id);
  }

  // ----- What readers see at the end -----

  lemma Archives(s: System, room: string, groups: seq<seq<Action>>, n: nat)
    requires room !in s.store.rooms && room in s.archive && s.archive[room] == PlanFor(room, groups, n).compacted
    ensures ReadMeaning(s, room) == Bares(Tokens(n))
  {
    hide Flatten, RoomTables.CreateRoom, Compacted, Replay, Log, Tokens, ReadMeaning;
    LogMeans(n);
    ReadMeaningIs(s, room);
  }

  lemma Remembers(s: System, room: string, n: nat)
    requires History(s, room) == Log(n)
    ensures HistoryMeaning(s, room) == Bares(Tokens(n))
  {
    hide RoomTables.CreateRoom, Compacted, Replay, Log, Tokens;
    LogMeans(n);
  }

  lemma BothTokens()
    ensures Log(0) == [] && Log(1) == Upserts([FIRST]) && Log(2) == Upserts([FIRST]) + Upserts([SECOND])
    ensures Flatten([[], Upserts([FIRST])]) == Flatten([Upserts([FIRST])]) == Log(1)
    ensures Flatten([Upserts([FIRST]), Upserts([SECOND])]) == Log(2)
    ensures Flatten([Upserts([])]) == Log(0)
    ensures Named(Upserts([FIRST])) && Named(Upserts([SECOND])) && Named(Upserts([]))
    ensures Bares(Tokens(0)) == [] && Bares(Tokens(1)) == [Bare(FIRST)]
    ensures Bares(Tokens(2)) == [Bare(FIRST), Bare(SECOND)]
  {
    FlattenOne(Upserts([FIRST]));
    FlattenOne(Upserts([]));
    FlattenCons([], [Upserts([FIRST])]);
    FlattenCons(Upserts([FIRST]), [Upserts([SECOND])]);
    FlattenOne(Upserts([SECOND]));
    assert [[]] + [Upserts([FIRST])] == [[], Upserts([FIRST])];
    assert [Upserts([FIRST])] + [Upserts([SECOND])] == [Upserts([FIRST]), Upserts([SECOND])];
  }

  // ----- Two compactors, one after the other -----

  /** a has decided what to do with x and stalls; its lock expires; y is appended, and b decides. */
  ghost predicate Overtaken(s: System, room: string, a: string, b: string, x: seq<Token>, m: nat, y: seq<Token>, n: nat)
  {
    && PhaseOf(s, a) == Decided(PlanFor(room, [Upserts(x)], m))
    && PhaseOf(s, b) == Decided(PlanFor(room, [Upserts(x), Upserts(y)], n))
    && s.store.rooms.Keys == {room} && Groups(s.store, room) == [Upserts(x), Upserts(y)]
    && s.store.lock.Some? && s.store.lock.value.key == b && Holds(s.store.lock, b, s.now)
    && s.archive == map[]
    && History(s, room) == Upserts(x) + Upserts(y)
  }

  lemma BeginTwice(room: string, a: string, b: string, x: seq<Token>, m: nat, y: seq<Token>, n: nat) returns (s: System)
    requires a != b && Named(Upserts(x)) && Named(Upserts(y))
    requires Flatten([Upserts(x)]) == Log(m) && Flatten([Upserts(x), Upserts(y)]) == Log(n)
    ensures Leads(Initial(0), Beginning(room, a, x) + Beginning(room, b, y), s)
    ensures Overtaken(s, room, a, b, x, m, y, n)
  {
    hide PlanFor, Log, Flatten, Named, Leads, Decided, Beginning, Next, Enabled;
    assert [] + [Upserts(x)] == [Upserts(x)];
    assert [Upserts(x)] + [Upserts(y)] == [Upserts(x), Upserts(y)];
    assert [] + Upserts(x) == Upserts(x);
    var s1 := Begun(Initial(0), room, a, x, m);
    s := Begun(s1, room, b, y, n);
    Begins(Initial(0), room, a, x, m);
    Begins(s1, room, b, y, n);
    LeadsOn(Initial(0), Beginning(room, a, x), s1, Beginning(room, b, y), s);
  }

  /** Readers lose what is in history and not in read. */
  ghost predicate Loses(steps: seq<Step>, room: string, read: Board, history: Board)
  {
    && Legal(Initial(0), steps)
    && ReadMeaning(Run(Initial(0), steps), room) == read
    && HistoryMeaning(Run(Initial(0), steps), room) == history
  }

  lemma LeadsToLoss(steps: seq<Step>, s: System, room: string, read: Board, history: Board)
    requires Leads(Initial(0), steps, s) && ReadMeaning(s, room) == read && HistoryMeaning(s, room) == history
    ensures Loses(steps, room, read, history)
  {
    hide Legal, Run, ReadMeaning, HistoryMeaning;
  }

  // ----- The four losses -----

  /** A room is archived and dropped from the store; the next append goes to an empty log. */
  lemma AppendLoses(room: string, id: string)
    ensures Loses(
      Beginning(room, id, [FIRST]) + Ending(id) + [Append(room, Upserting([SECOND]))],
      room, [Bare(SECOND)], [Bare(FIRST), Bare(SECOND)])
  {
    BothTokens();
    PlanShape(room, [Upserts([FIRST])], 1);
    SecondAlone();
    hide PlanFor, Log, Flatten, Named, Leads, Beginning, Next, Enabled, Tokens, Loses;
    hide ReadMeaning, HistoryMeaning, Replay, Compacted, RoomTables.CreateRoom;
    var plan := PlanFor(room, [Upserts([FIRST])], 1);
    assert [] + [Upserts([FIRST])] == [Upserts([FIRST])] && [] + [Upserts([SECOND])] == [Upserts([SECOND])];
    assert [] + Upserts([FIRST]) == Upserts([FIRST]);
    var s1 := Begun(Initial(0), room, id, [FIRST], 1);
    Begins(Initial(0), room, id, [FIRST], 1);
    Ends(s1, id, plan);
    var s2 := Ended(s1, id, plan);
    LeadsOn(Initial(0), Beginning(room, id, [FIRST]), s1, Ending(id), s2);
    Appends(s2, room, [SECOND]);
    var s3 := Next(s2, Append(room, Upserting([SECOND])));
    var steps := Beginning(room, id, [FIRST]) + Ending(id);
    LeadsNext(Initial(0), steps, s2, Append(room, Upserting([SECOND])), s3);
    ReadMeaningIs(s3, room);
    Remembers(s3, room, 2);
    LeadsToLoss(steps + [Append(room, Upserting([SECOND]))], s3, room, [Bare(SECOND)], [Bare(FIRST), Bare(SECOND)]);
  }

  lemma SecondAlone()
    ensures Replay(Flatten([Upserts([SECOND])])) == [Bare(SECOND)]
  {
    hide Replay;
    FlattenOne(Upserts([SECOND]));
    ReplayUpserts([SECOND]);
    assert Bares([SECOND]) == [Bare(SECOND)];
  }

  /** a read the room while it was empty and deletes it, archive included, when b has archived it. */
  lemma UnlockedDeleteLoses(room: string, a: string, b: string)
    requires a != b
    ensures Loses(
      Beginning(room, a, []) + Beginning(room, b, [FIRST]) + Ending(b) + [DeleteEmpty(a)],
      room, [], [Bare(FIRST)])
  {
    BothTokens();
    assert Upserts([]) == [];
    var s := BeginTwice(room, a, b, [], 0, [FIRST], 1);
    var steps := Beginning(room, a, []) + Beginning(room, b, [FIRST]);
    var mine, plan := PlanFor(room, [Upserts([])], 0), PlanFor(room, [Upserts([]), Upserts([FIRST])], 1);
    PlanShape(room, [Upserts([])], 0);
    PlanShape(room, [Upserts([]), Upserts([FIRST])], 1);
    hide PlanFor, Log, Flatten, Named, Leads, Beginning, Next, Enabled, Tokens, Loses;
    hide ReadMeaning, HistoryMeaning, Replay, Compacted, RoomTables.CreateRoom;
    Ends(s, b, plan);
    var s1 := Ended(s, b, plan);
    LeadsOn(Initial(0), steps, s, Ending(b), s1);
    DeletesLate(s1, a, mine);
    var s2 := s1.(archive := s1.archive - {room}, phases := s1.phases[a := Idle]);
    LeadsNext(Initial(0), steps + Ending(b), s1, DeleteEmpty(a), s2);
    ReadMeaningIs(s2, room);
    Remembers(s2, room, 1);
    LeadsToLoss(steps + Ending(b) + [DeleteEmpty(a)], s2, room, [], [Bare(FIRST)]);
  }

  /** a's old archive write replaces what b has archived. */
  lemma UnlockedWriteLoses(room: string, a: string, b: string)
    requires a != b
    ensures Loses(
      Beginning(room, a, [FIRST]) + Beginning(room, b, [SECOND]) + Ending(b) + [WriteArchive(a)],
      room, [Bare(FIRST)], [Bare(FIRST), Bare(SECOND)])
  {
    BothTokens();
    var s := BeginTwice(room, a, b, [FIRST], 1, [SECOND], 2);
    var steps := Beginning(room, a, [FIRST]) + Beginning(room, b, [SECOND]);
    var groups, all := [Upserts([FIRST])], [Upserts([FIRST]), Upserts([SECOND])];
    var mine, plan := PlanFor(room, groups, 1), PlanFor(room, all, 2);
    PlanShape(room, groups, 1);
    PlanShape(room, all, 2);
    hide PlanFor, Log, Flatten, Named, Leads, Beginning, Next, Enabled, Tokens, Loses;
    hide ReadMeaning, HistoryMeaning, Replay, Compacted, RoomTables.CreateRoom;
    Ends(s, b, plan);
    var s1 := Ended(s, b, plan);
    LeadsOn(Initial(0), steps, s, Ending(b), s1);
    Writes(s1, a, mine);
    var s2 := s1.(archive := s1.archive[room := mine.compacted], phases := s1.phases[a := Archived(mine)]);
    LeadsNext(Initial(0), steps + Ending(b), s1, WriteArchive(a), s2);
    Archives(s2, room, groups, 1);
    Remembers(s2, room, 2);
    LeadsToLoss(steps + Ending(b) + [WriteArchive(a)], s2, room, [Bare(FIRST)], [Bare(FIRST), Bare(SECOND)]);
  }

  /** a's old archive write lands between b's archive write and b's deletion of the stored log. */
  lemma LateWriteLoses(room: string, a: string, b: string)
    requires a != b
    ensures Loses(
      Beginning(room, a, [FIRST]) + Beginning(room, b, [SECOND])
        + [WriteArchive(b)] + [WriteArchive(a)] + [DeleteArchived(b)],
      room, [Bare(FIRST)], [Bare(FIRST), Bare(SECOND)])
  {
    BothTokens();
    var s := BeginTwice(room, a, b, [FIRST], 1, [SECOND], 2);
    var steps := Beginning(room, a, [FIRST]) + Beginning(room, b, [SECOND]);
    var groups, all := [Upserts([FIRST])], [Upserts([FIRST]), Upserts([SECOND])];
    var mine, plan := PlanFor(room, groups, 1), PlanFor(room, all, 2);
    PlanShape(room, groups, 1);
    PlanShape(room, all, 2);
    hide PlanFor, Log, Flatten, Named, Leads, Beginning, Next, Enabled, Tokens, Loses;
    hide ReadMeaning, HistoryMeaning, Replay, Compacted, RoomTables.CreateRoom;
    Writes(s, b, plan);
    var s1 := s.(archive := s.archive[room := plan.compacted], phases := s.phases[b := Archived(plan)]);
    LeadsNext(Initial(0), steps, s, WriteArchive(b), s1);
    Writes(s1, a, mine);
    var s2 := s1.(archive := s1.archive[room := mine.compacted], phases := s1.phases[a := Archived(mine)]);
    LeadsNext(Initial(0), steps + [WriteArchive(b)], s1, WriteArchive(a), s2);
    Drops(s2, b, plan);
    var s3 := s2.(store := s2.store.(rooms := s2.store.rooms - {room}), phases := s2.phases[b := Idle]);
    LeadsNext(Initial(0), steps + [WriteArchive(b)] + [WriteArchive(a)], s2, DeleteArchived(b), s3);
    Archives(s3, room, groups, 1);
    Remembers(s3, room, 2);
    LeadsToLoss(steps + [WriteArchive(b)] + [WriteArchive(a)] + [DeleteArchived(b)], s3,
                room, [Bare(FIRST)], [Bare(FIRST), Bare(SECOND)]);
  }
}
