/** Redis keeps request groups and counts groups; the memory store keeps actions and counts
    actions. Driven by the same run, they hold the same log. */
module StoreLockstep {
  import opened Sequences
  import opened Components
  import opened StoreState

  /** The replacement tokens a compactor got from the two stores for the same room. */
  datatype Tokens = Tokens(room: string, redis: nat, memory: nat)

  datatype Both = Both(redis: Redis, memory: Memory, now: int, pending: map<string, Tokens>)

  datatype Step =
    | Add(room: string, request: Request)
    | Tick(seconds: nat)
    | Acquire(id: string)
    | Force(id: string)
    | Read(id: string, room: string)
    | Abandon(id: string)
    | Replace(id: string, actions: seq<Action>)

  /** A read need not be followed by a replacement: the compactor may read again, or give up (the room
      is gone, or deleted, or archived, or create_room raised) and acquire the lock again later. It
      does not acquire inside a compaction, nor a lock it still holds; see AcquiresDifferIff. */
  predicate Enabled(s: Both, step: Step)
  {
    match step
    case Add(_, _) => true
    case Tick(_) => true
    case Acquire(id) => id !in s.pending && !Holds(s.redis.lock, id, s.now)
    case Force(id) => id !in s.pending
    case Read(_, _) => true
    case Abandon(_) => true
    case Replace(id, _) => id in s.pending
  }

  function Next(s: Both, step: Step): Both
  {
    match step
    case Add(room, request) =>
      s.(redis := RedisAdd(s.redis, room, request), memory := MemoryAdd(s.memory, room, request))
    case Tick(seconds) => s.(now := s.now + seconds)
    case Acquire(id) =>
      s.(redis := RedisAcquire(s.redis, id, false, s.now).0, memory := MemoryAcquire(s.memory, id, false, s.now).0)
    case Force(id) =>
      s.(redis := RedisAcquire(s.redis, id, true, s.now).0, memory := MemoryAcquire(s.memory, id, true, s.now).0)
    case Read(id, room) =>
      s.(memory := MemoryRead(s.memory, room),
         pending := s.pending[id := Tokens(room, |Groups(s.redis, room)|, |Stored(s.memory, room)|)])
    case Abandon(id) => s.(pending := s.pending - {id})
    case Replace(id, actions) =>
      if id !in s.pending then s
      else
        var t := s.pending[id];
        var redis := RedisReplace(s.redis, t.room, actions, t.redis, id, s.now);
        var memory := MemoryReplace(s.memory, t.room, actions, t.memory, id, s.now);
        Both(if redis.Done? then redis.state else s.redis,
             if memory.Done? then memory.state else s.memory,
             s.now, s.pending - {id})
  }

  function Run(s: Both, steps: seq<Step>): Both
  {
    if steps == [] then s else Next(Run(s, steps[..|steps| - 1]), steps[|steps| - 1])
  }

  ghost predicate Legal(s: Both, steps: seq<Step>)
  {
    forall k :: 0 <= k < |steps| ==> Enabled(Run(s, steps[..k]), steps[k])
  }

  /** The tokens of one read mark the same place in both lists. */
  ghost predicate SamePlace(s: Both, t: Tokens)
  {
    t.redis <= |Groups(s.redis, t.room)| && |Flatten(Groups(s.redis, t.room)[..t.redis])| == t.memory
  }

  ghost predicate SameLogs(s: Both)
  {
    forall room :: Flatten(Groups(s.redis, room)) == Stored(s.memory, room)
  }

  ghost predicate InStep(s: Both)
  {
    && s.redis.lock == s.memory.lock
    && SameLogs(s)
    && (forall id :: id in s.pending && Holds(s.redis.lock, id, s.now) ==> SamePlace(s, s.pending[id]))
  }

  lemma FlattenSplit(groups: seq<seq<Action>>, n: nat)
    requires n <= |groups|
    ensures |Flatten(groups[..n])| <= |Flatten(groups)|
    ensures Flatten(groups[n..]) == Flatten(groups)[|Flatten(groups[..n])|..]
  {
    FlattenConcat(groups[..n], groups[n..]);
    assert groups[..n] + groups[n..] == groups;
  }

  lemma AddInStep(s: Both, room: string, request: Request)
    requires InStep(s)
    ensures InStep(Next(s, Add(room, request)))
  {
    hide Flatten, NonPing;
    var s' := Next(s, Add(room, request));
    var group := NonPing(request.actions);
    FlattenConcat(Groups(s.redis, room), [group]);
    FlattenOne(group);
    forall other ensures Flatten(Groups(s'.redis, other)) == Stored(s'.memory, other) {
      assert Flatten(Groups(s.redis, other)) == Stored(s.memory, other);
    }
    forall id | id in s'.pending && Holds(s'.redis.lock, id, s'.now) ensures SamePlace(s', s'.pending[id]) {
      var t := s.pending[id];
      assert SamePlace(s, t);
      assert Groups(s'.redis, t.room)[..t.redis] == Groups(s.redis, t.room)[..t.redis];
    }
  }

  lemma ReplacedLog(groups: seq<seq<Action>>, log: seq<Action>, actions: seq<Action>, redis: nat, memory: nat)
    requires Flatten(groups) == log
    requires redis <= |groups| && |Flatten(groups[..redis])| == memory
    ensures Flatten([actions] + Drop(groups, redis)) == actions + Drop(log, memory)
  {
    FlattenSplit(groups, redis);
    FlattenCons(actions, groups[redis..]);
  }

  lemma ReplaceInStep(s: Both, id: string, actions: seq<Action>)
    requires InStep(s) && id in s.pending
    ensures InStep(Next(s, Replace(id, actions)))
  {
    hide Flatten;
    var s' := Next(s, Replace(id, actions));
    if Holds(s.redis.lock, id, s.now) {
      var t := s.pending[id];
      assert SamePlace(s, t);
      var groups, log := Groups(s.redis, t.room), Stored(s.memory, t.room);
      assert Flatten(groups) == log;
      ReplacedLog(groups, log, actions, t.redis, t.memory);
      hide Drop, SamePlace;
      assert Groups(s'.redis, t.room) == [actions] + Drop(groups, t.redis);
      assert Stored(s'.memory, t.room) == actions + Drop(log, t.memory);
      forall other ensures Flatten(Groups(s'.redis, other)) == Stored(s'.memory, other) {
        assert Flatten(Groups(s.redis, other)) == Stored(s.memory, other);
      }
    } else {
      assert s' == s.(pending := s.pending - {id});
      assert SameLogs(s');
      assert forall other :: other in s'.pending ==>
        other in s.pending && (SamePlace(s, s.pending[other]) ==> SamePlace(s', s'.pending[other]));
    }
  }

  lemma ReadInStep(s: Both, id: string, room: string)
    requires InStep(s)
    ensures InStep(Next(s, Read(id, room)))
  {
    var s' := Next(s, Read(id, room));
    forall other ensures Flatten(Groups(s'.redis, other)) == Stored(s'.memory, other) {
      assert Flatten(Groups(s.redis, other)) == Stored(s.memory, other);
    }
    var groups := Groups(s.redis, room);
    assert groups[..|groups|] == groups;
    assert SamePlace(s', s'.pending[id]);
  }

  lemma NextInStep(s: Both, step: Step)
    requires InStep(s) && Enabled(s, step)
    ensures InStep(Next(s, step))
  {
    match step
    case Add(room, request) => AddInStep(s, room, request);
    case Tick(_) =>
    case Acquire(_) =>
      assert forall other :: Flatten(Groups(Next(s, step).redis, other)) == Flatten(Groups(s.redis, other));
    case Force(_) =>
      assert forall other :: Flatten(Groups(Next(s, step).redis, other)) == Flatten(Groups(s.redis, other));
    case Read(id, room) => ReadInStep(s, id, room);
    case Abandon(_) =>
    case Replace(id, actions) => ReplaceInStep(s, id, actions);
  }

  /** Under the same run of appends, reads, lock changes and replacements, the Redis groups of every
      room, flattened, are the memory store's list, and the two tokens of a read whose reader holds
      the lock mark the same place. */
  lemma {:induction false} StoresStayInStep(now: int, steps: seq<Step>)
    requires Legal(Both(Redis(map[], None), Memory(map[], None), now, map[]), steps)
    ensures InStep(Run(Both(Redis(map[], None), Memory(map[], None), now, map[]), steps))
  {
    var s := Both(Redis(map[], None), Memory(map[], None), now, map[]);
    if steps != [] {
      var front := steps[..|steps| - 1];
      forall k | 0 <= k < |front| ensures Enabled(Run(s, front[..k]), front[k]) {
        assert front[..k] == steps[..k];
        assert Enabled(Run(s, steps[..k]), steps[k]);
      }
      StoresStayInStep(now, front);
      assert Enabled(Run(s, steps[..|front|]), steps[|front|]);
      NextInStep(Run(s, front), steps[|steps| - 1]);
    }
  }

  /** The two stores give out the lock alike, and with the same answer, if and only if it is not asked
      for by its own holder: the memory store renews it then, and Redis refuses. */
  lemma AcquiresDifferIff(s: Both, id: string)
    requires s.redis.lock == s.memory.lock
    ensures var (redis, memory) :=
      (RedisAcquire(s.redis, id, false, s.now), MemoryAcquire(s.memory, id, false, s.now));
      redis.0.lock == memory.0.lock && redis.1 == memory.1 <==> !Holds(s.redis.lock, id, s.now)
  {
  }

  /** Deletion is where the units show: the memory store deletes and Redis refuses exactly when all
      that arrived since the read was requests without a storable action. */
  lemma DeletesDifferIff(s: Both, id: string)
    requires InStep(s) && id in s.pending && Holds(s.redis.lock, id, s.now) && s.pending[id].room in s.memory.rooms
    ensures var t := s.pending[id];
      && t.redis <= |Groups(s.redis, t.room)|
      && (RedisDelete(s.redis, t.room, id, t.redis, s.now).Done? ==>
            MemoryDelete(s.memory, t.room, id, t.memory, s.now).Done?)
      && (MemoryDelete(s.memory, t.room, id, t.memory, s.now).Done? ==>
            (RedisDelete(s.redis, t.room, id, t.redis, s.now).WrongToken? <==> t.redis < |Groups(s.redis, t.room)|))
      && (MemoryDelete(s.memory, t.room, id, t.memory, s.now).Done? <==>
            Flatten(Groups(s.redis, t.room)[t.redis..]) == [])
  {
    var t := s.pending[id];
    assert SamePlace(s, t);
    var groups := Groups(s.redis, t.room);
    FlattenSplit(groups, t.redis);
    assert Flatten(groups) == Stored(s.memory, t.room);
    if t.redis == |groups| {
      assert groups[t.redis..] == [];
    }
  }

  /** What write_if_missing leaves: what was stored, or else the given actions. Redis asks whether the
      room is there, the memory store whether it has an action; the stores stay in step if and only if
      that is the same, or there is nothing to write. */
  lemma WritesDifferIff(s: Both, room: string, actions: seq<Action>)
    requires InStep(s)
    ensures var s' := s.(redis := RedisWriteIfMissing(s.redis, room, actions),
                         memory := MemoryWriteIfMissing(s.memory, room, actions));
      var stored := Stored(s.memory, room);
      && Flatten(Groups(s'.redis, room)) == (if room in s.redis.rooms then stored else actions)
      && Stored(s'.memory, room) == (if stored != [] then stored else actions)
      && (forall other :: other != room ==>
            Groups(s'.redis, other) == Groups(s.redis, other) && Stored(s'.memory, other) == Stored(s.memory, other))
      && (InStep(s') <==> room !in s.redis.rooms || stored != [] || actions == [])
  {
    FlattenOne(actions);
    var s' := s.(redis := RedisWriteIfMissing(s.redis, room, actions),
                 memory := MemoryWriteIfMissing(s.memory, room, actions));
    assert Flatten(Groups(s.redis, room)) == Stored(s.memory, room);
    hide Flatten;
    if InStep(s') {
      assert Flatten(Groups(s'.redis, room)) == Stored(s'.memory, room);
    }
    if room !in s.redis.rooms || Stored(s.memory, room) != [] || actions == [] {
      forall other ensures Flatten(Groups(s'.redis, other)) == Stored(s'.memory, other) {
        assert Flatten(Groups(s.redis, other)) == Stored(s.memory, other);
      }
      forall id | id in s.pending && Holds(s.redis.lock, id, s.now) ensures SamePlace(s', s.pending[id]) {
        SamePlaceAfterWrite(s, s', room, actions, s.pending[id]);
      }
    }
  }

  lemma SamePlaceAfterWrite(s: Both, s': Both, room: string, actions: seq<Action>, t: Tokens)
    requires SamePlace(s, t) && s'.redis == RedisWriteIfMissing(s.redis, room, actions)
    ensures SamePlace(s', t)
  {
    assert t.redis == 0 ==> Groups(s'.redis, t.room)[..t.redis] == Groups(s.redis, t.room)[..t.redis];
  }
}
