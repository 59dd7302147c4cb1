/** The room stores and the archive as objects, one method per operation of the source. */
module RoomStores {
  import opened Sequences
  import opened Components
  import opened StoreState

  lemma NonPingSnoc(actions: seq<Action>, a: Action)
    ensures NonPing(actions + [a]) == NonPing(actions) + (if a.PingAction? then [] else [a])
  {
    assert (actions + [a])[..|actions|] == actions;
  }

  // ----- Redis: each Lua script and each pipeline is one atomic method -----

  class RedisRoomStore {
    var rooms: map<string, seq<seq<Action>>>
    var lock: Option<ReplacementLock>

    ghost function State(): Redis
      reads this
    {
      Redis(rooms, lock)
    }

    constructor ()
      ensures State() == Redis(map[], None)
    {
      rooms, lock := map[], None;
    }

    method Llen(key: string) returns (n: nat)
      ensures n == |Groups(State(), key)|
    {
      n := if key in rooms then |rooms[key]| else 0;
    }

    method Rpush(key: string, group: seq<Action>)
      modifies this
      ensures State() == old(State()).(rooms := old(rooms)[key := Groups(old(State()), key) + [group]])
    {
      rooms := rooms[key := (if key in rooms then rooms[key] else []) + [group]];
    }

    method Lpush(key: string, group: seq<Action>)
      modifies this
      ensures State() == old(State()).(rooms := old(rooms)[key := [group] + Groups(old(State()), key)])
    {
      rooms := rooms[key := [group] + (if key in rooms then rooms[key] else [])];
    }

    /** LTRIM key start -1: a list trimmed to nothing is removed. */
    method LtrimFrom(key: string, start: nat)
      modifies this
      ensures lock == old(lock)
      ensures rooms == if Drop(Groups(old(State()), key), start) == [] then old(rooms) - {key}
                       else old(rooms)[key := Drop(Groups(old(State()), key), start)]
    {
      if key in rooms {
        if start < |rooms[key]| {
          rooms := rooms[key := rooms[key][start..]];
        } else {
          rooms := rooms - {key};
        }
      }
    }

    method Read(room: string) returns (actions: seq<Action>)
      ensures actions == Flatten(Groups(State(), room))
    {
      var groups := if room in rooms then rooms[room] else [];
      actions := [];
      for i := 0 to |groups|
        invariant actions == Flatten(groups[..i])
      {
        assert groups[..i + 1][..i] == groups[..i];
        actions := actions + groups[i];
      }
      assert groups[..|groups|] == groups;
    }

    /** add_request: the actions that are not pings are pushed as one group. */
    method AddRequest(room: string, request: Request)
      modifies this
      ensures State() == RedisAdd(old(State()), room, request)
    {
      var group := [];
      for i := 0 to |request.actions|
        invariant group == NonPing(request.actions[..i])
        invariant State() == old(State())
      {
        assert request.actions[..i + 1] == request.actions[..i] + [request.actions[i]];
        NonPingSnoc(request.actions[..i], request.actions[i]);
        if !request.actions[i].PingAction? {
          group := group + [request.actions[i]];
        }
      }
      assert request.actions[..|request.actions|] == request.actions;
      Rpush(room, group);
    }

    method WriteIfMissing(room: string, actions: seq<Action>)
      modifies this
      ensures State() == RedisWriteIfMissing(old(State()), room, actions)
    {
      if room !in rooms {
        assert [] + [actions] == [actions];
        Rpush(room, actions);
      }
    }

    method AcquireReplacementLock(id: string, force: bool, now: int) returns (acquired: bool)
      modifies this
      ensures (State(), acquired) == RedisAcquire(old(State()), id, force, now)
    {
      if !force && lock.Some? && lock.value.expireTime >= now {
        return false;
      }
      lock := NewLock(id, now);
      return true;
    }

    /** The token is the number of groups, not of actions. */
    method ReadForReplacement(room: string) returns (actions: seq<Action>, token: nat)
      ensures actions == Flatten(Groups(State(), room)) && token == |Groups(State(), room)|
    {
      actions := Read(room);
      token := Llen(room);
    }

    /** _LREPLACE: trim what was read, push the replacement in front of what came after. */
    method Replace(room: string, actions: seq<Action>, token: nat, id: string, now: int) returns (outcome: Outcome<()>)
      modifies this
      ensures match RedisReplace(old(State()), room, actions, token, id, now)
        case Done(s) => outcome == Done(()) && State() == s
        case LostLock => outcome == LostLock && State() == old(State())
        case WrongToken => false
    {
      if Holds(lock, id, now) {
        LtrimFrom(room, token);
        Lpush(room, actions);
        return Done(());
      }
      return LostLock;
    }

    /** _DELETE_ROOM. */
    method Delete(room: string, id: string, token: nat, now: int) returns (outcome: Outcome<()>)
      modifies this
      ensures match RedisDelete(old(State()), room, id, token, now)
        case Done(s) => outcome == Done(()) && State() == s
        case LostLock => outcome == LostLock && State() == old(State())
        case WrongToken => outcome == WrongToken && State() == old(State())
    {
      if !Holds(lock, id, now) {
        return LostLock;
      }
      var length := Llen(room);
      if length != token {
        return WrongToken;
      }
      rooms := rooms - {room};
      return Done(());
    }
  }

  // ----- The archive -----

  class RoomArchive {
    var storage: map<string, seq<Action>>

    constructor ()
      ensures storage == map[]
    {
      storage := map[];
    }

    method Write(room: string, data: seq<Action>)
      modifies this
      ensures storage == old(storage)[room := data]
    {
      storage := storage[room := data];
    }

    method Delete(room: string)
      modifies this
      ensures storage == old(storage) - {room}
    {
      storage := storage - {room};
    }
  }

  /** The merged view: a room that is only archived is loaded before it is read. */
  class MergedRoomStore {
    const store: RedisRoomStore
    const archive: RoomArchive

    constructor (store: RedisRoomStore, archive: RoomArchive)
      ensures this.store == store && this.archive == archive
    {
      this.store, this.archive := store, archive;
    }

    method RoomExists(room: string) returns (exists_: bool)
      ensures exists_ <==> room in store.rooms || room in archive.storage
    {
      exists_ := room in store.rooms || room in archive.storage;
    }

    method LoadIntoRedis(room: string)
      modifies store
      ensures store.State() ==
        if room in archive.storage then RedisWriteIfMissing(old(store.State()), room, archive.storage[room])
        else old(store.State())
    {
      if room !in store.rooms && room in archive.storage {
        store.WriteIfMissing(room, archive.storage[room]);
      }
    }

    /** What a reader sees: the stored log if there is one, else the archived one, else nothing. */
    method Read(room: string) returns (actions: seq<Action>)
      modifies store
      ensures actions == if room in old(store.rooms) then Flatten(old(store.rooms)[room])
                         else if room in archive.storage then archive.storage[room] else []
      ensures store.lock == old(store.lock)
      ensures store.rooms == if room !in old(store.rooms) && room in archive.storage
                             then old(store.rooms)[room := [archive.storage[room]]] else old(store.rooms)
    {
      LoadIntoRedis(room);
      actions := store.Read(room);
      if room !in old(store.rooms) && room in archive.storage {
        FlattenOne(archive.storage[room]);
      }
    }
  }

  // ----- Memory -----

  /** A queue handed out by changes(room). */
  datatype Subscription = Subscription(room: string, items: seq<Request>)

  class MemoryRoomStore {
    var rooms: map<string, seq<Action>>
    var lock: Option<ReplacementLock>
    var subscriptions: seq<Subscription>

    ghost function State(): Memory
      reads this
    {
      Memory(rooms, lock)
    }

    constructor ()
      ensures State() == Memory(map[], None) && subscriptions == []
    {
      rooms, lock, subscriptions := map[], None, [];
    }

    /** A new, empty queue, which sees every request published from now on. */
    method Changes(room: string) returns (queue: nat)
      modifies this
      ensures State() == old(State())
      ensures queue == |old(subscriptions)|
      ensures subscriptions == old(subscriptions) + [Subscription(room, [])]
    {
      queue := |subscriptions|;
      subscriptions := subscriptions + [Subscription(room, [])];
    }

    method Publish(room: string, request: Request)
      modifies this
      ensures State() == old(State())
      ensures subscriptions == Published(old(subscriptions), room, request)
    {
      for i := 0 to |subscriptions|
        invariant State() == old(State())
        invariant |subscriptions| == |old(subscriptions)|
        invariant subscriptions[..i] == Published(old(subscriptions), room, request)[..i]
        invariant subscriptions[i..] == old(subscriptions)[i..]
      {
        assert subscriptions[i] == old(subscriptions)[i..][0];
        if subscriptions[i].room == room {
          subscriptions := subscriptions[i := subscriptions[i].(items := subscriptions[i].items + [request])];
        }
        assert subscriptions[i + 1..] == old(subscriptions)[i + 1..];
      }
    }

    /** Writes, then publishes the whole request, pings included. */
    method AddRequest(room: string, request: Request)
      modifies this
      ensures State() == MemoryAdd(old(State()), room, request)
      ensures subscriptions == Published(old(subscriptions), room, request)
    {
      for i := 0 to |request.actions|
        invariant lock == old(lock) && subscriptions == old(subscriptions)
        invariant rooms == if NonPing(request.actions[..i]) == [] then old(rooms)
                           else old(rooms)[room := Stored(old(State()), room) + NonPing(request.actions[..i])]
      {
        assert request.actions[..i + 1] == request.actions[..i] + [request.actions[i]];
        NonPingSnoc(request.actions[..i], request.actions[i]);
        ghost var stored, front := Stored(old(State()), room), NonPing(request.actions[..i]);
        assert (stored + front) + [request.actions[i]] == stored + (front + [request.actions[i]]);
        assert front == [] ==> stored + front == stored;
        if !request.actions[i].PingAction? {
          rooms := rooms[room := (if room in rooms then rooms[room] else []) + [request.actions[i]]];
        }
      }
      assert request.actions[..|request.actions|] == request.actions;
      Publish(room, request);
    }

    /** The next request of a queue, if one is waiting. */
    method NextChange(queue: nat) returns (request: Option<Request>)
      requires queue < |subscriptions|
      modifies this
      ensures State() == old(State())
      ensures var items := old(subscriptions)[queue].items;
        if items == [] then request == None && subscriptions == old(subscriptions)
        else request == Some(items[0])
             && subscriptions == old(subscriptions)[queue := old(subscriptions)[queue].(items := items[1..])]
    {
      var items := subscriptions[queue].items;
      if items == [] {
        return None;
      }
      subscriptions := subscriptions[queue := subscriptions[queue].(items := items[1..])];
      return Some(items[0]);
    }

    method RoomExists(room: string) returns (exists_: bool)
      ensures exists_ <==> room in rooms
    {
      return room in rooms;
    }

    /** Unlike the compactor's read, this one creates no room. */
    method Read(room: string) returns (actions: seq<Action>)
      ensures actions == Stored(State(), room)
    {
      actions := if room in rooms then rooms[room] else [];
    }

    method WriteIfMissing(room: string, actions: seq<Action>)
      modifies this
      ensures State() == MemoryWriteIfMissing(old(State()), room, actions)
      ensures subscriptions == old(subscriptions)
    {
      if room !in rooms || rooms[room] == [] {
        rooms := rooms[room := actions];
      }
    }

    method AcquireReplacementLock(id: string, force: bool, now: int) returns (acquired: bool)
      modifies this
      ensures (State(), acquired) == MemoryAcquire(old(State()), id, force, now)
      ensures subscriptions == old(subscriptions)
    {
      var lockAlreadyHeld := lock.Some? && lock.value.key != id && lock.value.expireTime >= now;
      if !force && lockAlreadyHeld {
        return false;
      }
      lock := NewLock(id, now);
      return true;
    }

    method ReadForReplacement(room: string) returns (actions: seq<Action>, token: nat)
      modifies this
      ensures actions == Stored(old(State()), room) && token == |actions|
      ensures State() == MemoryRead(old(State()), room)
      ensures subscriptions == old(subscriptions)
    {
      if room !in rooms {
        rooms := rooms[room := []];
      }
      assert rooms == MemoryRead(old(State()), room).rooms;
      actions := rooms[room];
      token := |actions|;
    }

    /** rooms_by_id[room_id][0:replace_token] = actions. */
    method Replace(room: string, actions: seq<Action>, token: nat, id: string, now: int) returns (outcome: Outcome<()>)
      modifies this
      ensures subscriptions == old(subscriptions)
      ensures match MemoryReplace(old(State()), room, actions, token, id, now)
        case Done(s) => outcome == Done(()) && State() == s
        case LostLock => outcome == LostLock && State() == old(State())
        case WrongToken => false
    {
      if Holds(lock, id, now) {
        var log := if room in rooms then rooms[room] else [];
        rooms := rooms[room := actions + (if token <= |log| then log[token..] else [])];
        return Done(());
      }
      return LostLock;
    }

    method Delete(room: string, id: string, token: nat, now: int) returns (outcome: Outcome<()>)
      modifies this
      ensures subscriptions == old(subscriptions)
      ensures match MemoryDelete(old(State()), room, id, token, now)
        case Done(s) => outcome == Done(()) && State() == s
        case LostLock => outcome == LostLock && State() == old(State())
        case WrongToken => outcome == WrongToken && State() == old(State())
    {
      if !Holds(lock, id, now) {
        return LostLock;
      }
      if room !in rooms || |rooms[room]| != token {
        return WrongToken;
      }
      rooms := rooms - {room};
      return Done(());
    }
  }

  /** The queues of a room after one more request was put on each of them. */
  function Published(subscriptions: seq<Subscription>, room: string, request: Request): (r: seq<Subscription>)
    ensures |r| == |subscriptions|
  {
    seq(|subscriptions|, i requires 0 <= i < |subscriptions| =>
      if subscriptions[i].room == room then subscriptions[i].(items := subscriptions[i].items + [request])
      else subscriptions[i])
  }
}
