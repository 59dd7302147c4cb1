/** Pings are published and never kept: api/src/room_store/redis_room_store.py:148-166 and
    memory_room_store.py:64-81. */
module StoredPings {
  import opened Sequences
  import opened Components
  import opened Board
  import opened CompactedLog
  import opened StoreState
  import opened ArchiveProtocol

  ghost predicate PingFree(actions: seq<Action>)
  {
    forall i :: 0 <= i < |actions| ==> !actions[i].PingAction?
  }

  lemma PingFreeConcat(x: seq<Action>, y: seq<Action>)
    ensures PingFree(x + y) <==> PingFree(x) && PingFree(y)
  {
    var z := x + y;
    if PingFree(z) {
      assert forall i :: 0 <= i < |x| ==> x[i] == z[i];
      assert forall i :: 0 <= i < |y| ==> y[i] == z[|x| + i];
    }
  }

  lemma {:induction false} NonPingConcat(x: seq<Action>, y: seq<Action>)
    ensures NonPing(x + y) == NonPing(x) + NonPing(y)
  {
    if y == [] {
      assert x + y == x;
    } else {
      var front, last := y[..|y| - 1], y[|y| - 1];
      NonPingConcat(x, front);
      assert (x + y)[..|x + y| - 1] == x + front;
      ConcatAssociative(NonPing(x), NonPing(front), [last]);
    }
  }

  lemma {:induction false} NonPingAlone(x: seq<Action>)
    ensures PingFree(NonPing(x))
    ensures PingFree(x) ==> NonPing(x) == x
  {
    if x != [] {
      var front, last := x[..|x| - 1], x[|x| - 1];
      NonPingAlone(front);
      assert x == front + [last];
      PingFreeConcat(front, [last]);
      PingFreeConcat(NonPing(front), [last]);
    }
  }

  /** Exactly the pings are left out, and the rest keeps its order: a list without pings is kept as it
      is, a ping leaves no trace wherever it stands. */
  lemma NonPingMeans(x: seq<Action>, ping: Ping, y: seq<Action>)
    ensures PingFree(NonPing(x))
    ensures PingFree(x) ==> NonPing(x) == x
    ensures NonPing(x + [PingAction(ping)] + y) == NonPing(x + y)
  {
    NonPingAlone(x);
    NonPingConcat(x + [PingAction(ping)], y);
    NonPingConcat(x, y);
    assert (x + [PingAction(ping)])[..|x|] == x;
  }

  // ----- In every run -----

  ghost predicate PingFreeRoom(s: System, room: string)
  {
    PingFree(Flatten(Groups(s.store, room))) && (room in s.archive ==> PingFree(s.archive[room]))
  }

  lemma CompactedPingFree(s: System, id: string)
    requires CompactorsOk(s) && !PhaseOf(s, id).Idle?
    ensures PingFree(PhaseOf(s, id).plan.compacted)
  {
    hide Flatten, Replay;
    assert CompactorOk(s, id);
  }

  lemma AppendStores(s: System, room: string, request: Request)
    requires PingFreeRoom(s, room)
    ensures PingFreeRoom(Next(s, Append(room, request)), room)
    ensures Flatten(Groups(Next(s, Append(room, request)).store, room)) ==
      Flatten(Groups(s.store, room)) + NonPing(request.actions)
  {
    hide Flatten, NonPing, PingFree;
    FlattenConcat(Groups(s.store, room), [NonPing(request.actions)]);
    FlattenOne(NonPing(request.actions));
    NonPingAlone(request.actions);
    PingFreeConcat(Flatten(Groups(s.store, room)), NonPing(request.actions));
  }

  lemma ReplaceStores(s: System, id: string)
    requires CompactorsOk(s) && PhaseOf(s, id).Replacing? && PingFreeRoom(s, PhaseOf(s, id).plan.room)
    ensures PingFreeRoom(Next(s, ReplaceLog(id)), PhaseOf(s, id).plan.room)
  {
    hide Flatten, PingFree, PlanOk;
    CompactedPingFree(s, id);
    assert CompactorOk(s, id);
    var plan := PhaseOf(s, id).plan;
    if Holds(s.store.lock, id, s.now) {
      var groups := Groups(s.store, plan.room);
      var rest := groups[|plan.groups|..];
      assert groups == plan.groups + rest;
      FlattenConcat(plan.groups, rest);
      FlattenCons(plan.compacted, rest);
      PingFreeConcat(Flatten(plan.groups), Flatten(rest));
      PingFreeConcat(plan.compacted, Flatten(rest));
    }
  }

  lemma LoadStores(s: System, room: string)
    requires PingFreeRoom(s, room)
    ensures PingFreeRoom(Next(s, Load(room)), room)
  {
    hide Flatten, PingFree;
    if room in s.archive {
      FlattenOne(s.archive[room]);
    }
  }

  lemma WriteStores(s: System, id: string)
    requires CompactorsOk(s) && PhaseOf(s, id).Archiving? && PingFreeRoom(s, PhaseOf(s, id).plan.room)
    ensures PingFreeRoom(Next(s, WriteArchive(id)), PhaseOf(s, id).plan.room)
  {
    CompactedPingFree(s, id);
    hide Flatten, PingFree, CompactorsOk;
  }

  lemma SameRoom(s: System, s': System, room: string)
    requires PingFreeRoom(s, room)
    requires Groups(s'.store, room) in [Groups(s.store, room), []]
    requires room in s'.archive ==> room in s.archive && s'.archive[room] == s.archive[room]
    ensures PingFreeRoom(s', room)
  {
  }

  lemma NextStores(s: System, step: Step, room: string)
    requires CompactorsOk(s) && Enabled(s, step) && PingFreeRoom(s, room)
    ensures PingFreeRoom(Next(s, step), room)
  {
    hide CompactorsOk, PingFreeRoom, Flatten, NonPing;
    match step
    case Append(r, request) =>
      if r == room { AppendStores(s, r, request); } else { SameRoom(s, Next(s, step), room); }
    case Load(r) =>
      if r == room { LoadStores(s, r); } else { SameRoom(s, Next(s, step), room); }
    case ReplaceLog(id) =>
      if PhaseOf(s, id).plan.room == room { ReplaceStores(s, id); } else { SameRoom(s, Next(s, step), room); }
    case WriteArchive(id) =>
      if PhaseOf(s, id).plan.room == room { WriteStores(s, id); } else { SameRoom(s, Next(s, step), room); }
    case _ => SameRoom(s, Next(s, step), room);
  }

  lemma {:induction false} RunStores(s: System, steps: seq<Step>, room: string)
    requires CompactorsOk(s) && Legal(s, steps) && PingFreeRoom(s, room)
    ensures PingFreeRoom(Run(s, steps), room)
  {
    if steps != [] {
      hide CompactorsOk, Legal, Next, Enabled, PingFreeRoom;
      LegalFront(s, steps);
      CompactorsStayOk(s, steps[..|steps| - 1]);
      RunStores(s, steps[..|steps| - 1], room);
      NextStores(Run(s, steps[..|steps| - 1]), steps[|steps| - 1], room);
    }
  }

  /** In every run of writers, readers and compactors, whatever happens to the lock: no ping is ever
      stored or archived. */
  lemma {:induction false} NoPingIsKept(now: int, steps: seq<Step>, room: string)
    requires Legal(Initial(now), steps)
    ensures var s := Run(Initial(now), steps);
      PingFree(Flatten(Groups(s.store, room))) && (room in s.archive ==> PingFree(s.archive[room]))
  {
    hide Run, Legal;
    RunStores(Initial(now), steps, room);
  }
}
