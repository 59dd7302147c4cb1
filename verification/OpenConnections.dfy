/** Connections that are open against connections that are recorded: api/src/rate_limit/redis_rate_limit.py
    27-71, 119-127 and 130-165. A refresh prolongs the counts of users, but not those of rooms. */
module OpenConnections {
  import opened Sequences
  import opened ConnectionLimiter
  import opened ServerLiveness

  function Names(user: string, room: string, key: Key): bool
  {
    key == UserKey(user) || key == RoomKey(room)
  }

  /** Connections the step opens under the key on the server; a refused attempt opens none. */
  ghost function Change(w: System, step: Step, server: string, key: Key): int
  {
    match step
    case Acquire(other, user, room) =>
      if other == server && Names(user, room, key)
         && AcquireConnection(w.slots, server, user, room, w.now).1.Granted? then 1 else 0
    case Release(other, user, room) => if other == server && Names(user, room, key) then -1 else 0
    case _ => 0
  }

  /** How many are open at the end of the run. */
  ghost function Opened(s: System, steps: seq<Step>, server: string, key: Key): int
  {
    if steps == [] then 0
    else
      var front := steps[..|steps| - 1];
      Opened(s, front, server, key) + Change(Run(s, front), steps[|steps| - 1], server, key)
  }

  /** The count of the server in the key's hash. */
  function RecordedOn(w: System, server: string, key: Key): int
  {
    CountOf(Counts(w.slots, key, w.now), server)
  }

  /** While the server has connections open under the key, the key's hash is there. */
  ghost predicate NeverLapses(s: System, steps: seq<Step>, server: string, key: Key)
  {
    forall k :: 0 <= k <= |steps| && Opened(s, steps[..k], server, key) > 0 ==>
      HashLives(Run(s, steps[..k]).slots, key, Run(s, steps[..k]).now)
  }

  /** All connections the server has open are recorded, and were at every moment before. */
  ghost predicate AlwaysRecorded(s: System, steps: seq<Step>, server: string, key: Key)
  {
    forall k :: 0 <= k <= |steps| ==>
      RecordedOn(Run(s, steps[..k]), server, key) >= Opened(s, steps[..k], server, key)
  }

  // ----- One step -----

  lemma AcquireCovers(w: System, other: string, user: string, room: string, server: string, key: Key, open: int)
    requires Live(w.slots, server, w.now) && RecordedOn(w, server, key) >= open
    ensures var step := Acquire(other, user, room);
      RecordedOn(Next(w, step), server, key) >= open + Change(w, step, server, key)
  {
    hide AcquireSlot;
    var s1 := AcquireSlot(w.slots, UserKey(user), other, w.now).0;
    AcquireMeans(w.slots, UserKey(user), other, w.now, w.now);
    AcquireMeans(s1, RoomKey(room), other, w.now, w.now);
  }

  lemma ReleaseCovers(w: System, other: string, user: string, room: string, server: string, key: Key, open: int)
    requires RecordedOn(w, server, key) >= open && RecordedOn(w, server, key) >= 0
    ensures var step := Release(other, user, room);
      RecordedOn(Next(w, step), server, key) >= open + Change(w, step, server, key)
  {
    hide ReleaseSlot;
    var s1 := ReleaseSlot(w.slots, UserKey(user), other, w.now);
    ReleaseMeans(w.slots, UserKey(user), other, w.now, w.now);
    ReleaseMeans(s1, RoomKey(room), other, w.now, w.now);
  }

  lemma NextCovers(w: System, step: Step, server: string, key: Key, open: int)
    requires Live(w.slots, server, w.now) && RecordedOn(w, server, key) >= 0
    requires RecordedOn(w, server, key) >= open
    requires var w' := Next(w, step);
      && RecordedOn(w', server, key) >= 0
      && (open + Change(w, step, server, key) > 0 ==> HashLives(w'.slots, key, w'.now))
    ensures RecordedOn(Next(w, step), server, key) >= open + Change(w, step, server, key)
  {
    hide AcquireConnection, ReleaseConnection;
    match step
    case Acquire(other, user, room) => AcquireCovers(w, other, user, room, server, key, open);
    case Release(other, user, room) => ReleaseCovers(w, other, user, room, server, key, open);
    case _ =>
  }

  // ----- Whole runs -----

  lemma {:induction false} NotStartedNothingOpened(now: int, steps: seq<Step>, server: string, key: Key)
    requires Legal(Initial(now), steps) && server !in Run(Initial(now), steps).started
    ensures Opened(Initial(now), steps, server, key) == 0
  {
    if steps != [] {
      hide AcquireConnection;
      LegalFront(Initial(now), steps);
      NotStartedNothingOpened(now, steps[..|steps| - 1], server, key);
    }
  }

  lemma NeverLapsesFront(s: System, steps: seq<Step>, server: string, key: Key)
    requires NeverLapses(s, steps, server, key) && steps != []
    ensures NeverLapses(s, steps[..|steps| - 1], server, key)
    ensures Opened(s, steps, server, key) > 0 ==> HashLives(Run(s, steps).slots, key, Run(s, steps).now)
  {
    hide Opened, Run, HashLives;
    var front := steps[..|steps| - 1];
    assert steps[..|steps|] == steps;
    forall k | 0 <= k <= |front| && Opened(s, front[..k], server, key) > 0
      ensures HashLives(Run(s, front[..k]).slots, key, Run(s, front[..k]).now)
    {
      assert front[..k] == steps[..k];
    }
  }

  lemma LiveBefore(now: int, steps: seq<Step>, server: string)
    requires Legal(Initial(now), steps) && steps != []
    requires var w := Run(Initial(now), steps); Live(w.slots, server, w.now)
    ensures var w := Run(Initial(now), steps[..|steps| - 1]);
      server in w.started ==> Live(w.slots, server, w.now)
  {
    hide Run, Punctual, Legal, Live;
    LegalFront(Initial(now), steps);
    LiveIff(now, steps, server);
    LiveIff(now, steps[..|steps| - 1], server);
    PunctualSnoc(Initial(now), steps, server);
  }

  lemma NeverNegative(now: int, steps: seq<Step>, server: string, key: Key)
    requires Legal(Initial(now), steps)
    ensures RecordedOn(Run(Initial(now), steps), server, key) >= 0
  {
    hide Run, Legal;
    ConnectionsAreBounded(now, steps, key);
  }

  lemma {:induction false} LiveServersRecord(now: int, steps: seq<Step>, server: string, key: Key)
    requires Legal(Initial(now), steps) && NeverLapses(Initial(now), steps, server, key)
    requires var w := Run(Initial(now), steps); Live(w.slots, server, w.now)
    ensures RecordedOn(Run(Initial(now), steps), server, key) >= Opened(Initial(now), steps, server, key)
  {
    hide Legal, NeverLapses, Live, Next, Change, RecordedOn, HashLives;
    var s := Initial(now);
    NeverNegative(now, steps, server, key);
    if steps != [] {
      var n := |steps| - 1;
      var w := Run(s, steps[..n]);
      LegalFront(s, steps);
      NeverLapsesFront(s, steps, server, key);
      LiveBefore(now, steps, server);
      NeverNegative(now, steps[..n], server, key);
      if server in w.started {
        LiveServersRecord(now, steps[..n], server, key);
        NextCovers(w, steps[n], server, key, Opened(s, steps[..n], server, key));
      } else {
        NotStartedNothingOpened(now, steps[..n], server, key);
        StartsWithNothing(w, steps[n], server, key);
      }
    }
  }

  lemma StartsWithNothing(w: System, step: Step, server: string, key: Key)
    requires server !in w.started && Enabled(w, step)
    ensures Change(w, step, server, key) == 0
  {
    hide AcquireConnection;
  }

  lemma PrefixIsLegal(s: System, steps: seq<Step>, k: nat)
    requires Legal(s, steps) && k <= |steps|
    ensures Legal(s, steps[..k])
  {
    hide Enabled, Run;
    var front := steps[..k];
    forall j | 0 <= j < |front| ensures Enabled(Run(s, front[..j]), front[j]) {
      assert front[..j] == steps[..j];
      assert Enabled(Run(s, steps[..j]), steps[j]);
    }
  }

  lemma {:induction false} LiveAllAlong(now: int, steps: seq<Step>, k: nat, server: string)
    requires Legal(Initial(now), steps) && k <= |steps|
    requires var w := Run(Initial(now), steps); Live(w.slots, server, w.now)
    ensures var w := Run(Initial(now), steps[..k]);
      Legal(Initial(now), steps[..k]) && (server in w.started ==> Live(w.slots, server, w.now))
  {
    hide Run, Legal, Live, OnTime;
    var s, front := Initial(now), steps[..k];
    PrefixIsLegal(s, steps, k);
    LiveIff(now, steps, server);
    LiveIff(now, front, server);
    forall j | 0 <= j <= |front| ensures OnTime(s, front[..j], server) {
      assert front[..j] == steps[..j];
    }
  }

  lemma RecordedAt(now: int, steps: seq<Step>, k: nat, server: string, key: Key)
    requires Legal(Initial(now), steps) && k <= |steps| && NeverLapses(Initial(now), steps, server, key)
    requires var w := Run(Initial(now), steps); Live(w.slots, server, w.now)
    ensures var s, front := Initial(now), steps[..k];
      RecordedOn(Run(s, front), server, key) >= Opened(s, front, server, key)
  {
    hide Run, Legal, Live, Opened, RecordedOn, HashLives;
    var s, front := Initial(now), steps[..k];
    LiveAllAlong(now, steps, k, server);
    if server in Run(s, front).started {
      assert forall j :: 0 <= j <= |front| ==> front[..j] == steps[..j];
      LiveServersRecord(now, front, server, key);
    } else {
      NeverNegative(now, front, server, key);
      NotStartedNothingOpened(now, front, server, key);
    }
  }

  /** In every run, of a server that is alive: all connections it has open under a key are recorded, at
      every moment, if and only if the key's hash never expires while it has some. */
  lemma RecordedIff(now: int, steps: seq<Step>, server: string, key: Key)
    requires Legal(Initial(now), steps)
    requires var w := Run(Initial(now), steps); Live(w.slots, server, w.now)
    ensures AlwaysRecorded(Initial(now), steps, server, key) <==> NeverLapses(Initial(now), steps, server, key)
  {
    hide Run, Legal, Live, Opened;
    var s := Initial(now);
    if NeverLapses(s, steps, server, key) {
      hide NeverLapses, RecordedOn;
      forall k | 0 <= k <= |steps|
        ensures RecordedOn(Run(s, steps[..k]), server, key) >= Opened(s, steps[..k], server, key)
      {
        RecordedAt(now, steps, k, server, key);
      }
    }
  }

  // ----- What the limits then mean -----

  lemma {:induction false} SumCovered(
    open: map<string, int>, some: set<string>, counts: map<string, int>, all: set<string>)
    requires some <= open.Keys && all <= counts.Keys
    requires forall server :: server in all ==> counts[server] >= 0
    requires forall server :: server in some ==>
      if server in all then open[server] <= counts[server] else open[server] <= 0
    ensures Sum(open, some) <= Sum(counts, all)
  {
    if server :| server in some {
      SumPick(open, some, server);
      if server in all {
        SumPick(counts, all, server);
      } else {
        assert all - {server} == all;
      }
      SumCovered(open, some - {server}, counts, all - {server});
    } else {
      SumSmaller(counts, {}, all);
    }
  }

  /** In every run the connections really open under a key, on living servers and with a hash that has
      not expired in the meantime, are never more than the limit. */
  lemma {:induction false} OpenIsBounded(now: int, steps: seq<Step>, key: Key, open: map<string, int>)
    requires Legal(Initial(now), steps)
    requires var s := Initial(now);
      forall server :: server in open ==>
        && Live(Run(s, steps).slots, server, Run(s, steps).now)
        && NeverLapses(s, steps, server, key)
        && open[server] == Opened(s, steps, server, key)
    ensures Sum(open, open.Keys) <= Limit(key)
  {
    var s := Initial(now);
    var w := Run(s, steps);
    var counts := Counts(w.slots, key, w.now);
    var all := counts.Keys * LiveServers(w.slots, w.now);
    hide Run, Legal, NeverLapses, Opened, Sum;
    ConnectionsAreBounded(now, steps, key);
    forall server | server in open
      ensures if server in all then open[server] <= counts[server] else open[server] <= 0
    {
      LiveServersRecord(now, steps, server, key);
    }
    SumCovered(open, open.Keys, counts, all);
  }

  // ----- A room over its limit -----

  /** Two users fill a room, ten connections each. */
  function Filling(n: nat): seq<Step>
  {
    if n == 0 then [StartServer("s")] else Filling(n - 1) + [Acquire("s", if n <= 10 then "u" else "v", "r")]
  }

  /** Ten minutes on the server is alive, having refreshed itself and both users in time. */
  function Overflowing(): seq<Step>
  {
    Filling(20) + [Tick(500), RefreshLiveness("s", {"u", "v"}), Tick(500), Acquire("s", "w", "r")]
  }

  lemma AttemptElsewhere(s: Slots, server: string, user: string, room: string, other: Key, now: int)
    requires !Names(user, room, other)
    ensures var s' := AcquireConnection(s, server, user, room, now).0;
      Recorded(s', other, now) == Recorded(s, other, now) && s'.servers == s.servers
  {
    hide AcquireSlot, Recorded;
    var s1 := AcquireSlot(s, UserKey(user), server, now).0;
    OtherKeys(s, UserKey(user), server, other, now);
    OtherKeys(s1, RoomKey(room), server, other, now);
    AcquireMeans(s, UserKey(user), server, now, now);
    AcquireMeans(s1, RoomKey(room), server, now, now);
  }

  /** The room's hash after a granted attempt: ten minutes and no more. */
  lemma AttemptGivesTenMinutes(s: Slots, server: string, user: string, room: string, now: int, t: int)
    requires now <= t && AcquireConnection(s, server, user, room, now).1.Granted?
    ensures HashLives(AcquireConnection(s, server, user, room, now).0, RoomKey(room), t) <==> t < now + 600
  {
    hide AcquireSlot;
    var s1 := AcquireSlot(s, UserKey(user), server, now).0;
    AcquireMeans(s1, RoomKey(room), server, now, t);
  }

  ghost predicate FilledWith(w: System, n: nat)
  {
    && w.now == 0 && w.started == {"s"} && w.slots.servers == map["s" := 600]
    && Recorded(w.slots, RoomKey("r"), 0) == n
    && Recorded(w.slots, UserKey("u"), 0) == (if n <= 10 then n else 10)
    && Recorded(w.slots, UserKey("v"), 0) == (if n <= 10 then 0 else n - 10)
    && UserKey("w") !in w.slots.hashes
    && !HashLives(w.slots, RoomKey("r"), 600)
  }

  lemma FillOne(w: System, n: nat)
    requires FilledWith(w, n) && n < 20
    ensures var step := Acquire("s", if n < 10 then "u" else "v", "r");
      FilledWith(Next(w, step), n + 1) && Change(w, step, "s", RoomKey("r")) == 1 && Enabled(w, step)
  {
    hide AcquireConnection, Recorded;
    var user, idle := if n < 10 then "u" else "v", if n < 10 then "v" else "u";
    AttemptRecords(w.slots, "s", user, "r", 0);
    AttemptElsewhere(w.slots, "s", user, "r", UserKey(idle), 0);
    AttemptGivesTenMinutes(w.slots, "s", user, "r", 0, 600);
    AttemptKeys(w.slots, "s", user, "r", UserKey("w"), 0);
  }

  lemma AttemptKeys(s: Slots, server: string, user: string, room: string, other: Key, now: int)
    requires !Names(user, room, other)
    ensures other in AcquireConnection(s, server, user, room, now).0.hashes <==> other in s.hashes
  {
    hide AcquireSlot;
    var s1 := AcquireSlot(s, UserKey(user), server, now).0;
    AcquireMeans(s, UserKey(user), server, now, now);
    AcquireMeans(s1, RoomKey(room), server, now, now);
  }

  lemma StartFills()
    ensures var s, steps := Initial(0), [StartServer("s")];
      && Legal(s, steps) && FilledWith(Run(s, steps), 0) && Opened(s, steps, "s", RoomKey("r")) == 0
  {
    var s := Initial(0);
    LegalSnoc(s, [], StartServer("s"));
    assert [] + [StartServer("s")] == [StartServer("s")];
    assert Run(s, []) == s && Opened(s, [], "s", RoomKey("r")) == 0;
    hide Legal, Run, Opened;
  }

  lemma {:induction false} Filled(n: nat)
    requires n <= 20
    ensures var s := Initial(0);
      && Legal(s, Filling(n)) && FilledWith(Run(s, Filling(n)), n)
      && Opened(s, Filling(n), "s", RoomKey("r")) == n
  {
    hide Next, FilledWith, Change, Enabled, Run, Opened, Legal;
    var s, steps := Initial(0), Filling(n);
    if n == 0 {
      StartFills();
    } else {
      var last := Acquire("s", if n <= 10 then "u" else "v", "r");
      assert steps == Filling(n - 1) + [last];
      Filled(n - 1);
      FillOne(Run(s, Filling(n - 1)), n - 1);
      LegalSnoc(s, Filling(n - 1), last);
    }
  }

  lemma LegalSnoc(s: System, steps: seq<Step>, step: Step)
    requires Legal(s, steps) && Enabled(Run(s, steps), step)
    ensures Legal(s, steps + [step]) && Run(s, steps + [step]) == Next(Run(s, steps), step)
    ensures forall server, key ::
      Opened(s, steps + [step], server, key) == Opened(s, steps, server, key) + Change(Run(s, steps), step, server, key)
  {
    hide Enabled, Next, Change;
    var all := steps + [step];
    assert all[..|steps|] == steps;
    forall k | 0 <= k < |all| ensures Enabled(Run(s, all[..k]), all[k]) {
      if k < |steps| {
        assert all[..k] == steps[..k] && all[k] == steps[k];
      }
    }
  }

  /** Nobody refreshes the count of a room: here a living server has twenty-one connections open in it. */
  lemma {:induction false} RoomsAreForgotten()
    ensures var s, steps := Initial(0), Overflowing();
      var w := Run(s, steps);
      && Legal(s, steps) && Live(w.slots, "s", w.now)
      && Opened(s, steps, "s", RoomKey("r")) == 21 == MAX_CONNECTIONS_PER_ROOM + 1
  {
    hide AcquireConnection, Recorded, Opened, Run, Legal, Filling;
    var s := Initial(0);
    Filled(20);
    var a := Filling(20);
    LegalSnoc(s, a, Tick(500));
    var b := a + [Tick(500)];
    LegalSnoc(s, b, RefreshLiveness("s", {"u", "v"}));
    var c := b + [RefreshLiveness("s", {"u", "v"})];
    LegalSnoc(s, c, Tick(500));
    var d := c + [Tick(500)];
    LegalSnoc(s, d, Acquire("s", "w", "r"));
    var w := Run(s, d);
    NothingRecorded(w.slots, RoomKey("r"), w.now);
    NothingRecorded(w.slots, UserKey("w"), w.now);
    AttemptRecords(w.slots, "s", "w", "r", w.now);
    AttemptElsewhere(w.slots, "s", "w", "r", UserKey("u"), w.now);
    assert Overflowing() == d + [Acquire("s", "w", "r")];
  }

  lemma NothingRecorded(s: Slots, key: Key, now: int)
    requires !HashLives(s, key, now)
    ensures Recorded(s, key, now) == 0
  {
  }
}
