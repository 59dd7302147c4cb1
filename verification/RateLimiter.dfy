/** RedisRateLimiter and the scripts it runs, step by step: api/src/rate_limit/redis_rate_limit.py.
    Every script is proved against its operation on the limiter's state. */
module RateLimiter {
  import opened ConnectionLimiter

  /** The keys of the limiter in Redis. */
  class LimiterKeys {
    var servers: map<string, int>
    var hashes: map<Key, Hash>

    ghost function State(): Slots
      reads this
    {
      Slots(servers, hashes)
    }

    constructor ()
      ensures State() == Slots(map[], map[])
    {
      servers, hashes := map[], map[];
    }

    /** The acquire script: walk over the entries of the hash, drop those of expired servers, add up
        the rest. */
    method AcquireConnectionSlot(key: Key, server: string, maxConnections: int, now: int) returns (acquired: bool)
      requires maxConnections == Limit(key)
      modifies this
      ensures (State(), acquired) == AcquireSlot(old(State()), key, server, now)
    {
      ghost var before, live := State(), LiveServers(State(), now);
      var exists_ := key in hashes && now < hashes[key].expireAt;
      var counts: map<string, int> := if exists_ then hashes[key].counts else map[];
      ghost var all := counts;
      var serverIds := counts.Keys;
      var total := 0;
      while serverIds != {}
        invariant State() == before
        invariant serverIds <= counts.Keys <= all.Keys && counts.Keys == all.Keys * live + serverIds
        invariant forall id :: id in counts ==> counts[id] == all[id]
        invariant total == Sum(all, all.Keys * live - serverIds)
        decreases serverIds
      {
        var id :| id in serverIds;
        var serverExpired := !(id in servers && now < servers[id]);
        assert id in live <==> !serverExpired;
        if serverExpired {
          counts := counts - {id};
          assert all.Keys * live - serverIds == all.Keys * live - (serverIds - {id});
        } else {
          total := total + counts[id];
          SumPick(all, all.Keys * live - (serverIds - {id}), id);
          assert all.Keys * live - (serverIds - {id}) - {id} == all.Keys * live - serverIds;
        }
        serverIds := serverIds - {id};
      }
      assert counts == Kept(before, key, now);
      assert all.Keys * live - {} == counts.Keys;
      SumSame(all, counts, counts.Keys);
      assert total == Sum(Kept(before, key, now), Kept(before, key, now).Keys);
      hide Sum, Kept;
      if total < maxConnections {
        counts := counts[server := (if server in counts then counts[server] else 0) + 1];
        hashes := hashes[key := Hash(counts, now + SERVER_LIVENESS_EXPIRATION_SECONDS)];
        return true;
      }
      if key in hashes {
        hashes := hashes[key := hashes[key].(counts := counts)];
      }
      return false;
    }

    method ReleaseConnectionSlot(key: Key, server: string, now: int)
      modifies this
      ensures State() == ReleaseSlot(old(State()), key, server, now)
    {
      if key in hashes && now < hashes[key].expireAt && server in hashes[key].counts {
        var counts := hashes[key].counts;
        if counts[server] > 0 {
          hashes := hashes[key := hashes[key].(counts := counts[server := counts[server] - 1])];
        }
      }
    }

    method ExpireServer(server: string, until: int, now: int)
      modifies this
      ensures hashes == old(hashes)
      ensures servers == if Live(old(State()), server, now) then old(servers)[server := until] else old(servers)
    {
      if server in servers && now < servers[server] {
        servers := servers[server := until];
      }
    }

    method ExpireHash(key: Key, until: int, now: int)
      modifies this
      ensures servers == old(servers)
      ensures hashes == if key in old(hashes) && now < old(hashes)[key].expireAt
                        then old(hashes)[key := old(hashes)[key].(expireAt := until)] else old(hashes)
    {
      if key in hashes && now < hashes[key].expireAt {
        hashes := hashes[key := hashes[key].(expireAt := until)];
      }
    }

    method SetServer(server: string, until: int)
      modifies this
      ensures hashes == old(hashes) && servers == old(servers)[server := until]
    {
      servers := servers[server := until];
    }
  }

  class RedisRateLimiter {
    const serverId: string
    const redis: LimiterKeys

    /** create_redis_rate_limiter. */
    constructor (serverId: string, redis: LimiterKeys, now: int)
      modifies redis
      ensures this.serverId == serverId && this.redis == redis
      ensures redis.State() == Start(old(redis.State()), serverId, now)
    {
      this.serverId, this.redis := serverId, redis;
      new;
      redis.SetServer(serverId, now + SERVER_LIVENESS_EXPIRATION_SECONDS);
    }

    /** The server's key is refreshed if it is still there; then those of its users, one by one. */
    method RefreshServerLiveness(users: seq<string>, now: int)
      modifies redis
      ensures redis.State() == Refresh(old(redis.State()), serverId, set i | 0 <= i < |users| :: users[i], now)
    {
      var until := now + SERVER_LIVENESS_EXPIRATION_SECONDS;
      redis.ExpireServer(serverId, until, now);
      for i := 0 to |users|
        invariant redis.servers == Refresh(old(redis.State()), serverId, {}, now).servers
        invariant redis.hashes.Keys == old(redis.hashes).Keys
        invariant forall key :: key in redis.hashes ==>
          redis.hashes[key] ==
            if key.UserKey? && key.user in users[..i] && now < old(redis.hashes)[key].expireAt
            then old(redis.hashes)[key].(expireAt := until) else old(redis.hashes)[key]
      {
        assert users[..i + 1] == users[..i] + [users[i]];
        redis.ExpireHash(UserKey(users[i]), until, now);
      }
      assert users[..|users|] == users;
      ghost var all := set i | 0 <= i < |users| :: users[i];
      assert forall user :: user in users <==> user in all;
    }

    method AcquireConnection(user: string, room: string, now: int) returns (attempt: Attempt)
      modifies redis
      ensures (redis.State(), attempt) ==
        ConnectionLimiter.AcquireConnection(old(redis.State()), serverId, user, room, now)
    {
      hide AcquireSlot;
      var openConnectionSlot := redis.AcquireConnectionSlot(UserKey(user), serverId, MAX_CONNECTIONS_PER_USER, now);
      var openRoomSlot := redis.AcquireConnectionSlot(RoomKey(room), serverId, MAX_CONNECTIONS_PER_ROOM, now);
      if !openConnectionSlot {
        return TooManyConnections;
      }
      if !openRoomSlot {
        return RoomFull;
      }
      return Granted;
    }

    method ReleaseConnection(user: string, room: string, now: int)
      modifies redis
      ensures redis.State() == ConnectionLimiter.ReleaseConnection(old(redis.State()), serverId, user, room, now)
    {
      hide ReleaseSlot;
      redis.ReleaseConnectionSlot(UserKey(user), serverId, now);
      redis.ReleaseConnectionSlot(RoomKey(room), serverId, now);
    }
  }
}
