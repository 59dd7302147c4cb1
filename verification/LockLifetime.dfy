/** Who holds the replacement lock, and for how long:
    api/src/room_store/redis_room_store.py:184-201 and memory_room_store.py:101-124. */
module LockLifetime {
  import opened Sequences
  import opened StoreState
  import P = ArchiveProtocol

  ghost predicate HeldOnlyBy(lock: Option<ReplacementLock>, id: string, now: int)
  {
    forall other :: Holds(lock, other, now) <==> other == id
  }

  ghost predicate HeldByNobody(lock: Option<ReplacementLock>, now: int)
  {
    forall other :: !Holds(lock, other, now)
  }

  /** In Redis the lock is granted when it is forced or nobody holds it, not even the one who asks; it is
      then held by its owner alone for twenty minutes, and by nobody after. */
  lemma RedisLockLasts(s: Redis, id: string, force: bool, now: int, t: int)
    requires now <= t
    ensures var (s', granted) := RedisAcquire(s, id, force, now);
      && (granted <==> force || HeldByNobody(s.lock, now))
      && (granted ==> if t <= now + 1200 then HeldOnlyBy(s'.lock, id, t) else HeldByNobody(s'.lock, t))
      && (!granted ==> s' == s)
      && s'.rooms == s.rooms
  {
    if s.lock.Some? && s.lock.value.expireTime >= now {
      assert Holds(s.lock, s.lock.value.key, now);
    }
  }

  /** In memory the holder itself may ask again. */
  lemma MemoryLockLasts(s: Memory, id: string, force: bool, now: int, t: int)
    requires now <= t
    ensures var (s', granted) := MemoryAcquire(s, id, force, now);
      && (granted <==> force || forall other :: other != id ==> !Holds(s.lock, other, now))
      && (granted ==> if t <= now + 1200 then HeldOnlyBy(s'.lock, id, t) else HeldByNobody(s'.lock, t))
      && (!granted ==> s' == s)
      && s'.rooms == s.rooms
  {
    if s.lock.Some? && s.lock.value.expireTime >= now {
      assert Holds(s.lock, s.lock.value.key, now);
    }
  }

  lemma StepKeepsLock(s: P.System, step: P.Step)
    requires !step.Force? && s.store.lock.Some? && P.Next(s, step).now <= s.store.lock.value.expireTime
    ensures P.Next(s, step).store.lock == s.store.lock
    ensures s.now <= P.Next(s, step).now
  {
    hide Flatten;
  }

  lemma {:induction false} RunKeepsLock(s: P.System, steps: seq<P.Step>)
    requires forall k :: 0 <= k < |steps| ==> !steps[k].Force?
    requires s.store.lock.Some?
    ensures s.now <= P.Run(s, steps).now
    ensures P.Run(s, steps).now <= s.store.lock.value.expireTime ==> P.Run(s, steps).store.lock == s.store.lock
  {
    if steps != [] {
      hide P.Next;
      var front, last := steps[..|steps| - 1], steps[|steps| - 1];
      RunKeepsLock(s, front);
      TimeGoesOn(P.Run(s, front), last);
      if P.Run(s, steps).now <= s.store.lock.value.expireTime {
        StepKeepsLock(P.Run(s, front), last);
      }
    }
  }

  lemma TimeGoesOn(s: P.System, step: P.Step)
    ensures s.now <= P.Next(s, step).now
  {
    hide Flatten;
  }

  /** Whoever acquires the lock holds it, alone, for twenty minutes of any run in which nobody takes it by
      force, whatever readers, writers and other compactors do. */
  lemma {:induction false} HolderKeepsLock(s: P.System, id: string, steps: seq<P.Step>)
    requires HeldByNobody(s.store.lock, s.now) && forall k :: 0 <= k < |steps| ==> !steps[k].Force?
    ensures var s' := P.Run(P.Next(s, P.Acquire(id)), steps);
      s'.now <= s.now + 1200 ==> HeldOnlyBy(s'.store.lock, id, s'.now)
  {
    hide P.Run;
    RedisLockLasts(s.store, id, false, s.now, s.now);
    RunKeepsLock(P.Next(s, P.Acquire(id)), steps);
  }
}
