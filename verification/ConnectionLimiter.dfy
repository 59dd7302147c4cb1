/** Connection slots counted across servers: api/src/rate_limit/redis_rate_limit.py:27-71 and 116-180.
    Each script runs atomically; keys expire by themselves. */
module ConnectionLimiter {
  const MAX_CONNECTIONS_PER_USER := 10
  const MAX_CONNECTIONS_PER_ROOM := 20
  const SERVER_LIVENESS_EXPIRATION_SECONDS := 60 * 10

  datatype Key = UserKey(user: string) | RoomKey(room: string)

  function Limit(key: Key): int
  {
    if key.UserKey? then MAX_CONNECTIONS_PER_USER else MAX_CONNECTIONS_PER_ROOM
  }

  /** A Redis hash from server ids to connection counts. */
  datatype Hash = Hash(counts: map<string, int>, expireAt: int)

  datatype Slots = Slots(servers: map<string, int>, hashes: map<Key, Hash>)

  predicate Live(s: Slots, server: string, now: int)
  {
    server in s.servers && now < s.servers[server]
  }

  function LiveServers(s: Slots, now: int): set<string>
  {
    set server | server in s.servers && Live(s, server, now)
  }

  /** The entries of a hash; none when it has expired. */
  function Counts(s: Slots, key: Key, now: int): map<string, int>
  {
    if key in s.hashes && now < s.hashes[key].expireAt then s.hashes[key].counts else map[]
  }

  function CountOf(counts: map<string, int>, server: string): int
  {
    if server in counts then counts[server] else 0
  }

  // ----- Sums over servers -----

  ghost function Sum(counts: map<string, int>, servers: set<string>): int
    requires servers <= counts.Keys
  {
    if servers == {} then 0
    else
      var server :| server in servers;
      counts[server] + Sum(counts, servers - {server})
  }

  lemma {:induction false} SumPick(counts: map<string, int>, servers: set<string>, server: string)
    requires servers <= counts.Keys && server in servers
    ensures Sum(counts, servers) == counts[server] + Sum(counts, servers - {server})
  {
    var first :| first in servers && Sum(counts, servers) == counts[first] + Sum(counts, servers - {first});
    if first != server {
      SumPick(counts, servers - {first}, server);
      SumPick(counts, servers - {server}, first);
      assert servers - {first} - {server} == servers - {server} - {first};
    }
  }

  lemma {:induction false} SumSame(a: map<string, int>, b: map<string, int>, servers: set<string>)
    requires servers <= a.Keys && servers <= b.Keys
    requires forall server :: server in servers ==> a[server] == b[server]
    ensures Sum(a, servers) == Sum(b, servers)
  {
    if server :| server in servers {
      SumPick(a, servers, server);
      SumPick(b, servers, server);
      SumSame(a, b, servers - {server});
    }
  }

  lemma {:induction false} SumSmaller(counts: map<string, int>, some: set<string>, all: set<string>)
    requires some <= all <= counts.Keys
    requires forall server :: server in all ==> counts[server] >= 0
    ensures Sum(counts, some) <= Sum(counts, all)
  {
    if forall server :: server in all ==> server in some {
      assert all == some;
    } else {
      var server :| server in all && server !in some;
      SumPick(counts, all, server);
      SumSmaller(counts, some, all - {server});
    }
  }

  /** The connections recorded under a key, summed over the live servers. */
  ghost function Recorded(s: Slots, key: Key, now: int): int
  {
    var counts := Counts(s, key, now);
    Sum(counts, counts.Keys * LiveServers(s, now))
  }

  // ----- The scripts -----

  /** The entries of live servers. */
  function Kept(s: Slots, key: Key, now: int): map<string, int>
  {
    map server | server in Counts(s, key, now) && Live(s, server, now) :: Counts(s, key, now)[server]
  }

  /** _ACQUIRE_CONNECTION_SLOT: entries of expired servers go, and one more connection is recorded
      if the live ones leave room for it. */
  ghost function AcquireSlot(s: Slots, key: Key, server: string, now: int): (Slots, bool)
  {
    var kept := Kept(s, key, now);
    if Sum(kept, kept.Keys) < Limit(key) then
      (s.(hashes := s.hashes[key := Hash(kept[server := CountOf(kept, server) + 1],
                                         now + SERVER_LIVENESS_EXPIRATION_SECONDS)]), true)
    else if key in s.hashes then (s.(hashes := s.hashes[key := s.hashes[key].(counts := kept)]), false)
    else (s, false)
  }

  /** _RELEASE_CONNECTION_SLOT. */
  function ReleaseSlot(s: Slots, key: Key, server: string, now: int): Slots
  {
    var counts := Counts(s, key, now);
    if CountOf(counts, server) > 0 then
      s.(hashes := s.hashes[key := s.hashes[key].(counts := counts[server := counts[server] - 1])])
    else s
  }

  /** EXPIRE does nothing to a key that is gone: an expired server stays expired. */
  function Refresh(s: Slots, server: string, users: set<string>, now: int): Slots
  {
    var until := now + SERVER_LIVENESS_EXPIRATION_SECONDS;
    Slots(
      if Live(s, server, now) then s.servers[server := until] else s.servers,
      map key | key in s.hashes ::
        if key.UserKey? && key.user in users && now < s.hashes[key].expireAt then s.hashes[key].(expireAt := until)
        else s.hashes[key])
  }

  function Start(s: Slots, server: string, now: int): Slots
  {
    s.(servers := s.servers[server := now + SERVER_LIVENESS_EXPIRATION_SECONDS])
  }

  // ----- What a connection attempt does -----

  datatype Attempt = Granted | TooManyConnections | RoomFull

  /** acquire_connection: both scripts run, whatever the first one says. */
  ghost function AcquireConnection(s: Slots, server: string, user: string, room: string, now: int): (Slots, Attempt)
  {
    var (s1, openConnectionSlot) := AcquireSlot(s, UserKey(user), server, now);
    var (s2, openRoomSlot) := AcquireSlot(s1, RoomKey(room), server, now);
    (s2, if !openConnectionSlot then TooManyConnections else if !openRoomSlot then RoomFull else Granted)
  }

  function ReleaseConnection(s: Slots, server: string, user: string, room: string, now: int): Slots
  {
    ReleaseSlot(ReleaseSlot(s, UserKey(user), server, now), RoomKey(room), server, now)
  }

  // ----- Each script on its key -----

  ghost predicate Counted(s: Slots)
  {
    forall key, server :: key in s.hashes && server in s.hashes[key].counts ==> s.hashes[key].counts[server] >= 0
  }

  lemma KeptIsRecorded(s: Slots, key: Key, now: int)
    ensures var kept := Kept(s, key, now); Sum(kept, kept.Keys) == Recorded(s, key, now)
  {
    var kept, counts := Kept(s, key, now), Counts(s, key, now);
    assert kept.Keys == counts.Keys * LiveServers(s, now);
    SumSame(kept, counts, kept.Keys);
  }

  /** Every other key is as before. */
  lemma OtherKeys(s: Slots, key: Key, server: string, other: Key, now: int)
    requires other != key
    ensures Recorded(AcquireSlot(s, key, server, now).0, other, now) == Recorded(s, other, now)
    ensures Recorded(ReleaseSlot(s, key, server, now), other, now) == Recorded(s, other, now)
  {
    var s', s'' := AcquireSlot(s, key, server, now).0, ReleaseSlot(s, key, server, now);
    assert LiveServers(s', now) == LiveServers(s, now) == LiveServers(s'', now);
    assert Counts(s', other, now) == Counts(s, other, now) == Counts(s'', other, now);
  }

  lemma BumpedSum(counts: map<string, int>, live: set<string>, server: string, change: int)
    requires server in counts || change == 1
    ensures var bumped := counts[server := CountOf(counts, server) + change];
      Sum(bumped, bumped.Keys * live) == Sum(counts, counts.Keys * live) + if server in live then change else 0
  {
    var bumped := counts[server := CountOf(counts, server) + change];
    var others := counts.Keys * live - {server};
    SumSame(bumped, counts, others);
    assert bumped.Keys * live - {server} == others;
    if server in live {
      SumPick(bumped, bumped.Keys * live, server);
      if server in counts {
        SumPick(counts, counts.Keys * live, server);
      } else {
        assert counts.Keys * live == others;
      }
    } else {
      assert bumped.Keys * live == others == counts.Keys * live;
    }
  }

  /** A slot is granted exactly when fewer than the limit are recorded, and then one more is (unless
      the server that asks has itself expired). */
  lemma AcquireRecords(s: Slots, key: Key, server: string, now: int)
    ensures var (s', granted) := AcquireSlot(s, key, server, now);
      && (granted <==> Recorded(s, key, now) < Limit(key))
      && Recorded(s', key, now) == Recorded(s, key, now) + if granted && Live(s, server, now) then 1 else 0
  {
    var (s', granted) := AcquireSlot(s, key, server, now);
    KeptIsRecorded(s, key, now);
    var kept, live := Kept(s, key, now), LiveServers(s, now);
    assert LiveServers(s', now) == live;
    assert kept.Keys * live == kept.Keys;
    if granted {
      BumpedSum(kept, live, server, 1);
      assert Counts(s', key, now) == kept[server := CountOf(kept, server) + 1];
    } else {
      assert Counts(s', key, now) == kept;
    }
  }

  /** A release takes back one slot the server holds, if any. */
  lemma ReleaseRecords(s: Slots, key: Key, server: string, now: int)
    ensures Recorded(ReleaseSlot(s, key, server, now), key, now) ==
      Recorded(s, key, now) - if CountOf(Counts(s, key, now), server) > 0 && Live(s, server, now) then 1 else 0
  {
    var s', counts := ReleaseSlot(s, key, server, now), Counts(s, key, now);
    assert LiveServers(s', now) == LiveServers(s, now);
    if CountOf(counts, server) > 0 {
      BumpedSum(counts, LiveServers(s, now), server, -1);
      assert Counts(s', key, now) == counts[server := CountOf(counts, server) - 1];
    }
  }

  // ----- Attempts -----

  /** A granted connection is recorded once under the user and once under the room; a refused one is
      never released, and still leaves a slot recorded wherever there was one left. */
  lemma AttemptRecords(s: Slots, server: string, user: string, room: string, now: int)
    ensures var (s', attempt) := AcquireConnection(s, server, user, room, now);
      var slot := if Live(s, server, now) then 1 else 0;
      var (userFree, roomFree) :=
        (Recorded(s, UserKey(user), now) < MAX_CONNECTIONS_PER_USER,
         Recorded(s, RoomKey(room), now) < MAX_CONNECTIONS_PER_ROOM);
      && attempt == (if !userFree then TooManyConnections else if !roomFree then RoomFull else Granted)
      && Recorded(s', UserKey(user), now) == Recorded(s, UserKey(user), now) + (if userFree then slot else 0)
      && Recorded(s', RoomKey(room), now) == Recorded(s, RoomKey(room), now) + (if roomFree then slot else 0)
  {
    hide AcquireSlot, Recorded;
    var s1 := AcquireSlot(s, UserKey(user), server, now).0;
    AcquireRecords(s, UserKey(user), server, now);
    OtherKeys(s, UserKey(user), server, RoomKey(room), now);
    AcquireRecords(s1, RoomKey(room), server, now);
    OtherKeys(s1, RoomKey(room), server, UserKey(user), now);
    AcquireKeepsServers(s, UserKey(user), server, now);
  }

  lemma AcquireKeepsServers(s: Slots, key: Key, server: string, now: int)
    ensures AcquireSlot(s, key, server, now).0.servers == s.servers
    ensures AcquireSlot(s, key, server, now).1 ==>
      CountOf(Counts(AcquireSlot(s, key, server, now).0, key, now), server) == CountOf(Kept(s, key, now), server) + 1
    ensures forall other :: other != key ==>
      Counts(AcquireSlot(s, key, server, now).0, other, now) == Counts(s, other, now)
  {
    hide Sum;
  }

  /** Releasing what was just granted gives both slots back. */
  lemma ReleaseUndoesGrant(s: Slots, server: string, user: string, room: string, now: int)
    requires Counted(s)
    ensures var (s', attempt) := AcquireConnection(s, server, user, room, now);
      var s'' := ReleaseConnection(s', server, user, room, now);
      attempt.Granted? ==>
        && Recorded(s'', UserKey(user), now) == Recorded(s, UserKey(user), now)
        && Recorded(s'', RoomKey(room), now) == Recorded(s, RoomKey(room), now)
  {
    hide AcquireSlot, Recorded, ReleaseSlot;
    var (s', attempt) := AcquireConnection(s, server, user, room, now);
    if attempt.Granted? {
      AttemptRecords(s, server, user, room, now);
      var s1 := AcquireSlot(s, UserKey(user), server, now).0;
      AcquireKeepsServers(s, UserKey(user), server, now);
      AcquireKeepsServers(s1, RoomKey(room), server, now);
      assert Counts(s', UserKey(user), now) == Counts(s1, UserKey(user), now);
      var s2 := ReleaseSlot(s', UserKey(user), server, now);
      ReleaseRecords(s', UserKey(user), server, now);
      OtherKeys(s', UserKey(user), server, RoomKey(room), now);
      ReleaseRecords(s2, RoomKey(room), server, now);
      OtherKeys(s2, RoomKey(room), server, UserKey(user), now);
      ReleaseKeepsOthers(s', UserKey(user), server, RoomKey(room), now);
    }
  }

  lemma ReleaseKeepsOthers(s: Slots, key: Key, server: string, other: Key, now: int)
    requires other != key
    ensures ReleaseSlot(s, key, server, now).servers == s.servers
    ensures Counts(ReleaseSlot(s, key, server, now), other, now) == Counts(s, other, now)
  {
  }

  // ----- Whole runs -----

  /** started holds every server id ever used. */
  datatype System = System(slots: Slots, now: int, started: set<string>)

  datatype Step =
    | StartServer(server: string)
    | Tick(seconds: nat)
    | RefreshLiveness(server: string, users: set<string>)
    | Acquire(server: string, user: string, room: string)
    | Release(server: string, user: string, room: string)

  /** Server ids are never reused; a server may go on working after it expired. */
  predicate Enabled(s: System, step: Step)
  {
    match step
    case StartServer(server) => server !in s.started
    case Tick(_) => true
    case RefreshLiveness(server, _) => server in s.started
    case Acquire(server, _, _) => server in s.started
    case Release(server, _, _) => server in s.started
  }

  ghost function Next(s: System, step: Step): System
  {
    match step
    case StartServer(server) => s.(slots := Start(s.slots, server, s.now), started := s.started + {server})
    case Tick(seconds) => s.(now := s.now + seconds)
    case RefreshLiveness(server, users) => s.(slots := Refresh(s.slots, server, users, s.now))
    case Acquire(server, user, room) => s.(slots := AcquireConnection(s.slots, server, user, room, s.now).0)
    case Release(server, user, room) => s.(slots := ReleaseConnection(s.slots, server, user, room, s.now))
  }

  ghost function Run(s: System, steps: seq<Step>): System
  {
    if steps == [] then s else Next(Run(s, steps[..|steps| - 1]), steps[|steps| - 1])
  }

  ghost predicate Legal(s: System, steps: seq<Step>)
  {
    forall k :: 0 <= k < |steps| ==> Enabled(Run(s, steps[..k]), steps[k])
  }

  function Initial(now: int): System
  {
    System(Slots(map[], map[]), now, {})
  }

  ghost predicate Known(s: Slots, started: set<string>)
  {
    s.servers.Keys <= started && forall key :: key in s.hashes ==> s.hashes[key].counts.Keys <= started
  }

  ghost predicate Bounded(s: Slots, now: int)
  {
    forall key :: Recorded(s, key, now) <= Limit(key)
  }

  ghost predicate Invariant(s: System)
  {
    Counted(s.slots) && Known(s.slots, s.started) && Bounded(s.slots, s.now)
  }

  /** Fewer live servers or fewer live hashes: no more connections. */
  lemma FewerRecorded(s: Slots, s': Slots, key: Key, now: int, now': int)
    requires Counted(s) && Recorded(s, key, now) <= Limit(key)
    requires Counts(s', key, now') in [map[], Counts(s, key, now)]
    requires Counts(s', key, now').Keys * LiveServers(s', now') <= LiveServers(s, now)
    ensures Recorded(s', key, now') <= Limit(key)
  {
    var counts := Counts(s, key, now);
    if Counts(s', key, now') == counts {
      SumSmaller(counts, counts.Keys * LiveServers(s', now'), counts.Keys * LiveServers(s, now));
    }
  }

  lemma TickKeeps(s: System, seconds: nat)
    requires Invariant(s)
    ensures Invariant(Next(s, Tick(seconds)))
  {
    hide Recorded;
    forall key ensures Recorded(s.slots, key, s.now + seconds) <= Limit(key) {
      FewerRecorded(s.slots, s.slots, key, s.now, s.now + seconds);
    }
  }

  lemma StartKeeps(s: System, server: string)
    requires Invariant(s) && server !in s.started
    ensures Invariant(Next(s, StartServer(server)))
  {
    hide Recorded;
    var slots := Start(s.slots, server, s.now);
    forall key ensures Recorded(slots, key, s.now) <= Limit(key) {
      assert server !in Counts(slots, key, s.now);
      FewerRecorded(s.slots, slots, key, s.now, s.now);
    }
  }

  lemma RefreshKeeps(s: System, server: string, users: set<string>)
    requires Invariant(s)
    ensures Invariant(Next(s, RefreshLiveness(server, users)))
  {
    hide Recorded;
    var slots := Refresh(s.slots, server, users, s.now);
    assert LiveServers(slots, s.now) == LiveServers(s.slots, s.now);
    forall key ensures Recorded(slots, key, s.now) <= Limit(key) {
      FewerRecorded(s.slots, slots, key, s.now, s.now);
    }
  }

  lemma AcquireSlotKeeps(s: Slots, started: set<string>, key: Key, server: string, now: int)
    requires Counted(s) && Known(s, started) && Bounded(s, now) && server in started
    ensures var s' := AcquireSlot(s, key, server, now).0; Counted(s') && Known(s', started) && Bounded(s', now)
  {
    hide Recorded, Sum;
    var s' := AcquireSlot(s, key, server, now).0;
    AcquireRecords(s, key, server, now);
    forall other ensures Recorded(s', other, now) <= Limit(other) {
      if other != key {
        OtherKeys(s, key, server, other, now);
      }
    }
  }

  lemma ReleaseSlotKeeps(s: Slots, started: set<string>, key: Key, server: string, now: int)
    requires Counted(s) && Known(s, started) && Bounded(s, now)
    ensures var s' := ReleaseSlot(s, key, server, now); Counted(s') && Known(s', started) && Bounded(s', now)
  {
    hide Recorded;
    var s' := ReleaseSlot(s, key, server, now);
    ReleaseRecords(s, key, server, now);
    forall other ensures Recorded(s', other, now) <= Limit(other) {
      if other != key {
        OtherKeys(s, key, server, other, now);
      }
    }
  }

  lemma NextKeeps(s: System, step: Step)
    requires Invariant(s) && Enabled(s, step)
    ensures Invariant(Next(s, step))
  {
    hide Counted, Known, Bounded, AcquireSlot, ReleaseSlot;
    match step
    case StartServer(server) => StartKeeps(s, server);
    case Tick(seconds) => TickKeeps(s, seconds);
    case RefreshLiveness(server, users) => RefreshKeeps(s, server, users);
    case Acquire(server, user, room) =>
      var s1 := AcquireSlot(s.slots, UserKey(user), server, s.now).0;
      AcquireSlotKeeps(s.slots, s.started, UserKey(user), server, s.now);
      AcquireSlotKeeps(s1, s.started, RoomKey(room), server, s.now);
    case Release(server, user, room) =>
      var s1 := ReleaseSlot(s.slots, UserKey(user), server, s.now);
      ReleaseSlotKeeps(s.slots, s.started, UserKey(user), server, s.now);
      ReleaseSlotKeeps(s1, s.started, RoomKey(room), server, s.now);
  }

  lemma LegalFront(s: System, steps: seq<Step>)
    requires Legal(s, steps) && steps != []
    ensures Legal(s, steps[..|steps| - 1]) && Enabled(Run(s, steps[..|steps| - 1]), steps[|steps| - 1])
  {
    hide Enabled, Run;
    var front := steps[..|steps| - 1];
    forall k | 0 <= k < |front| ensures Enabled(Run(s, front[..k]), front[k]) {
      assert front[..k] == steps[..k];
      assert Enabled(Run(s, steps[..k]), steps[k]);
    }
  }

  lemma {:induction false} RunKeeps(now: int, steps: seq<Step>)
    requires Legal(Initial(now), steps)
    ensures Invariant(Run(Initial(now), steps))
  {
    var s := Initial(now);
    if steps != [] {
      hide Invariant, Enabled, Next;
      var front := steps[..|steps| - 1];
      LegalFront(s, steps);
      RunKeeps(now, front);
      NextKeeps(Run(s, front), steps[|steps| - 1]);
    }
  }

  /** In every run of acquires, releases, refreshes and expiries, for every user and every room: the
      connections recorded over the live servers never exceed the limit, and no count is negative. */
  lemma {:induction false} ConnectionsAreBounded(now: int, steps: seq<Step>, key: Key)
    requires Legal(Initial(now), steps)
    ensures var s := Run(Initial(now), steps);
      && Recorded(s.slots, key, s.now) <= Limit(key)
      && forall server :: server in Counts(s.slots, key, s.now) ==> Counts(s.slots, key, s.now)[server] >= 0
  {
    RunKeeps(now, steps);
  }
}
