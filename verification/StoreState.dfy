/** Both room stores as values: request groups in Redis (api/src/room_store/redis_room_store.py),
    flat action lists in memory (api/src/room_store/memory_room_store.py), one replacement lock. */
module StoreState {
  import opened Sequences
  import opened Components

  const COMPACTION_LOCK_EXPIRATION_SECONDS := 10 * 60 * 2

  datatype ReplacementLock = ReplacementLock(key: string, expireTime: int)

  /** The lock is held by id and has not expired. */
  predicate Holds(lock: Option<ReplacementLock>, id: string, now: int)
  {
    lock.Some? && lock.value.key == id && lock.value.expireTime >= now
  }

  function NewLock(id: string, now: int): Option<ReplacementLock>
  {
    Some(ReplacementLock(id, now + COMPACTION_LOCK_EXPIRATION_SECONDS))
  }

  /** The actions that are stored; pings are only published. */
  function NonPing(actions: seq<Action>): (r: seq<Action>)
  {
    if actions == [] then []
    else
      var rest := NonPing(actions[..|actions| - 1]);
      var last := actions[|actions| - 1];
      if last.PingAction? then rest else rest + [last]
  }

  /** UnexpectedReplacementId and UnexpectedReplacementToken are LostLock and WrongToken. */
  datatype Outcome<+S> = Done(state: S) | LostLock | WrongToken

  // ----- Redis -----

  datatype Redis = Redis(rooms: map<string, seq<seq<Action>>>, lock: Option<ReplacementLock>)

  function Groups(s: Redis, room: string): seq<seq<Action>>
  {
    if room in s.rooms then s.rooms[room] else []
  }

  /** What is left after the first n groups; a shorter list is trimmed to nothing. */
  function Drop<T>(s: seq<T>, n: nat): seq<T>
  {
    if n <= |s| then s[n..] else []
  }

  function RedisAdd(s: Redis, room: string, request: Request): Redis
  {
    s.(rooms := s.rooms[room := Groups(s, room) + [NonPing(request.actions)]])
  }

  function RedisWriteIfMissing(s: Redis, room: string, actions: seq<Action>): Redis
  {
    if room in s.rooms then s else s.(rooms := s.rooms[room := [actions]])
  }

  /** SET with NX unless forced: refused while anyone's lock is alive. */
  function RedisAcquire(s: Redis, id: string, force: bool, now: int): (Redis, bool)
  {
    if !force && s.lock.Some? && s.lock.value.expireTime >= now then (s, false)
    else (s.(lock := NewLock(id, now)), true)
  }

  function RedisReplace(s: Redis, room: string, actions: seq<Action>, token: nat, id: string, now: int): Outcome<Redis>
  {
    if Holds(s.lock, id, now) then
      Done(s.(rooms := s.rooms[room := [actions] + Drop(Groups(s, room), token)]))
    else LostLock
  }

  function RedisDelete(s: Redis, room: string, id: string, token: nat, now: int): Outcome<Redis>
  {
    if !Holds(s.lock, id, now) then LostLock
    else if |Groups(s, room)| != token then WrongToken
    else Done(s.(rooms := s.rooms - {room}))
  }

  // ----- Memory -----

  datatype Memory = Memory(rooms: map<string, seq<Action>>, lock: Option<ReplacementLock>)

  function Stored(s: Memory, room: string): seq<Action>
  {
    if room in s.rooms then s.rooms[room] else []
  }

  /** A request with nothing but pings does not create the room. */
  function MemoryAdd(s: Memory, room: string, request: Request): Memory
  {
    if NonPing(request.actions) == [] then s
    else s.(rooms := s.rooms[room := Stored(s, room) + NonPing(request.actions)])
  }

  function MemoryWriteIfMissing(s: Memory, room: string, actions: seq<Action>): Memory
  {
    if Stored(s, room) != [] then s else s.(rooms := s.rooms[room := actions])
  }

  /** Refused only while someone else's lock is alive; the holder renews. */
  function MemoryAcquire(s: Memory, id: string, force: bool, now: int): (Memory, bool)
  {
    if !force && s.lock.Some? && s.lock.value.key != id && s.lock.value.expireTime >= now then (s, false)
    else (s.(lock := NewLock(id, now)), true)
  }

  /** The defaultdict creates the room it is asked for. */
  function MemoryRead(s: Memory, room: string): Memory
  {
    s.(rooms := s.rooms[room := Stored(s, room)])
  }

  function MemoryReplace(s: Memory, room: string, actions: seq<Action>, token: nat, id: string, now: int):
    Outcome<Memory>
  {
    if Holds(s.lock, id, now) then
      Done(s.(rooms := s.rooms[room := actions + Drop(Stored(s, room), token)]))
    else LostLock
  }

  function MemoryDelete(s: Memory, room: string, id: string, token: nat, now: int): Outcome<Memory>
  {
    if !Holds(s.lock, id, now) then LostLock
    else if room !in s.rooms || |s.rooms[room]| != token then WrongToken
    else Done(s.(rooms := s.rooms - {room}))
  }
}
