/** How long servers and connection counts live: api/src/rate_limit/redis_rate_limit.py:27-71 and
    130-180. What expires too early is no longer counted, so these are the other half of the limits. */
module ServerLiveness {
  import opened Sequences
  import opened ConnectionLimiter

  /** The hash of this key is there at now. */
  predicate HashLives(s: Slots, key: Key, now: int)
  {
    key in s.hashes && now < s.hashes[key].expireAt
  }

  // ----- What one script does to the times -----

  /** A started server lives for ten minutes. */
  lemma StartMeans(s: Slots, server: string, now: int, t: int)
    ensures var s' := Start(s, server, now);
      && (Live(s', server, t) <==> t < now + 600)
      && (forall other :: other != server ==> (Live(s', other, t) <==> Live(s, other, t)))
      && s'.hashes == s.hashes
  {
  }

  /** A refresh gives a server that is still alive, and the living counts of its users, ten more
      minutes; what has expired stays so, and nobody else's time changes, nor any count. */
  lemma RefreshMeans(s: Slots, server: string, users: set<string>, now: int, t: int)
    requires now <= t
    ensures var s' := Refresh(s, server, users, now);
      && (Live(s', server, t) <==> Live(s, server, now) && t < now + 600)
      && (forall other :: other != server ==> (Live(s', other, t) <==> Live(s, other, t)))
      && (forall user :: user in users ==>
            (HashLives(s', UserKey(user), t) <==> HashLives(s, UserKey(user), now) && t < now + 600))
      && (forall key: Key :: (key.UserKey? ==> key.user !in users) ==>
            (HashLives(s', key, t) <==> HashLives(s, key, t)))
      && (forall key :: Counts(s', key, now) == Counts(s, key, now))
  {
  }

  /** After a granted slot the hash holds the living servers' counts, one more for the server that
      asked, and lives for ten minutes. A refusal gives it no time. */
  lemma AcquireMeans(s: Slots, key: Key, server: string, now: int, t: int)
    requires now <= t
    ensures var (s', granted) := AcquireSlot(s, key, server, now);
      && s'.servers == s.servers
      && (HashLives(s', key, t) <==> if granted then t < now + 600 else HashLives(s, key, t))
      && (forall other :: other != server ==>
            CountOf(Counts(s', key, now), other) ==
              if Live(s, other, now) then CountOf(Counts(s, key, now), other) else 0)
      && CountOf(Counts(s', key, now), server) ==
           (if Live(s, server, now) then CountOf(Counts(s, key, now), server) else 0) + (if granted then 1 else 0)
      && (forall other :: other != key ==> (other in s'.hashes <==> other in s.hashes))
      && (forall other :: other != key && other in s.hashes ==> s'.hashes[other] == s.hashes[other])
  {
    hide Sum;
  }

  /** A release takes one slot of the server and changes no time. */
  lemma ReleaseMeans(s: Slots, key: Key, server: string, now: int, t: int)
    ensures var s' := ReleaseSlot(s, key, server, now);
      && s'.servers == s.servers && s'.hashes.Keys == s.hashes.Keys
      && (forall other :: HashLives(s', other, t) <==> HashLives(s, other, t))
      && (forall other :: other in s.hashes && other != key ==> s'.hashes[other] == s.hashes[other])
      && (forall other :: other != server ==>
            CountOf(Counts(s', key, now), other) == CountOf(Counts(s, key, now), other))
      && (var count := CountOf(Counts(s, key, now), server);
          CountOf(Counts(s', key, now), server) == if count > 0 then count - 1 else count)
  {
  }

  // ----- Over whole runs -----

  predicate Beats(step: Step, server: string)
  {
    (step.StartServer? || step.RefreshLiveness?) && step.server == server
  }

  /** When the server last started or refreshed. */
  ghost function LastBeat(s: System, steps: seq<Step>, server: string): Option<int>
  {
    if steps == [] then None
    else
      var front := steps[..|steps| - 1];
      if Beats(steps[|steps| - 1], server) then Some(Run(s, front).now) else LastBeat(s, front, server)
  }

  /** At this moment the last beat is less than ten minutes ago. */
  ghost predicate OnTime(s: System, steps: seq<Step>, server: string)
  {
    LastBeat(s, steps, server).Some? ==> Run(s, steps).now < LastBeat(s, steps, server).value + 600
  }

  /** And so it was at every moment before. */
  ghost predicate Punctual(s: System, steps: seq<Step>, server: string)
  {
    forall k :: 0 <= k <= |steps| ==> OnTime(s, steps[..k], server)
  }

  lemma PunctualSnoc(s: System, steps: seq<Step>, server: string)
    requires steps != []
    ensures Punctual(s, steps, server) <==> Punctual(s, steps[..|steps| - 1], server) && OnTime(s, steps, server)
  {
    hide OnTime;
    var front := steps[..|steps| - 1];
    assert steps[..|steps|] == steps;
    assert forall k :: 0 <= k <= |front| ==> front[..k] == steps[..k];
    if Punctual(s, steps, server) {
      forall k | 0 <= k <= |front| ensures OnTime(s, front[..k], server) {
        assert OnTime(s, steps[..k], server);
      }
    }
    if Punctual(s, front, server) && OnTime(s, steps, server) {
      forall k | 0 <= k <= |steps| ensures OnTime(s, steps[..k], server) {
        assert k <= |front| ==> OnTime(s, front[..k], server);
      }
    }
  }

  /** The server's key expires ten minutes after the last beat, or it is gone for good. */
  ghost predicate Tracks(w: System, lastBeat: Option<int>, punctual: bool, server: string)
  {
    && (lastBeat.Some? <==> server in w.started)
    && (Live(w.slots, server, w.now) <==> lastBeat.Some? && punctual)
    && (lastBeat.Some? && punctual ==> w.slots.servers[server] == lastBeat.value + 600)
    && (lastBeat.None? ==> punctual)
    && (server in w.slots.servers ==> server in w.started)
  }

  lemma NextTracks(w: System, step: Step, lastBeat: Option<int>, punctual: bool, server: string)
    requires Tracks(w, lastBeat, punctual, server) && Enabled(w, step)
    ensures var w' := Next(w, step);
      var lastBeat' := if Beats(step, server) then Some(w.now) else lastBeat;
      Tracks(w', lastBeat', punctual && (lastBeat'.Some? ==> w'.now < lastBeat'.value + 600), server)
  {
    hide AcquireSlot, ReleaseSlot;
    match step
    case Acquire(other, user, room) =>
      var s1 := AcquireSlot(w.slots, UserKey(user), other, w.now).0;
      AcquireMeans(w.slots, UserKey(user), other, w.now, w.now);
      AcquireMeans(s1, RoomKey(room), other, w.now, w.now);
    case Release(other, user, room) =>
      ReleaseKeepsOthers(w.slots, UserKey(user), other, RoomKey(room), w.now);
      var s1 := ReleaseSlot(w.slots, UserKey(user), other, w.now);
      ReleaseKeepsOthers(s1, RoomKey(room), other, UserKey(user), w.now);
    case _ =>
  }

  lemma {:induction false} RunTracks(now: int, steps: seq<Step>, server: string)
    requires Legal(Initial(now), steps)
    ensures var s := Initial(now);
      Tracks(Run(s, steps), LastBeat(s, steps, server), Punctual(s, steps, server), server)
  {
    var s := Initial(now);
    if steps == [] {
      assert forall k :: 0 <= k <= |steps| ==> steps[..k] == [];
    } else {
      hide Tracks, Next, Enabled, Punctual, Live;
      var n := |steps| - 1;
      LegalFront(s, steps);
      RunTracks(now, steps[..n], server);
      PunctualSnoc(s, steps, server);
      NextTracks(Run(s, steps[..n]), steps[n], LastBeat(s, steps[..n], server),
                 Punctual(s, steps[..n], server), server);
    }
  }

  /** In every run a server is alive exactly when it has started and has never let ten minutes pass
      without refreshing: one that keeps refreshing in time is never counted out, and one that once came
      too late never comes back. */
  lemma {:induction false} LiveIff(now: int, steps: seq<Step>, server: string)
    requires Legal(Initial(now), steps)
    ensures var s := Initial(now);
      var w := Run(s, steps);
      Live(w.slots, server, w.now) <==> server in w.started && Punctual(s, steps, server)
  {
    hide Run, Legal, Punctual;
    RunTracks(now, steps, server);
  }
}
