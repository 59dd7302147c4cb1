/** Calling a function at most once every timeMs milliseconds: web/src/util/throttle.ts:6-32. Times
    are what Date.now() returns. */
module Throttle {
  import opened Sequences

  /** A timer the browser still has to fire. */
  datatype Timer<A> = Timer(due: int, args: A)

  /** One invocation of the throttled function. */
  datatype Invocation<A> = Invocation(time: int, args: A)

  /** timers are the browser's; runs is every invocation made. */
  datatype State<A> = State(
    lastInvocationTime: int,
    timeoutId: Option<nat>,
    timers: map<nat, Timer<A>>,
    nextId: nat,
    runs: seq<Invocation<A>>)

  datatype Event<A> = Call(now: int, args: A) | Fire(now: int, id: nat)

  function Initial<A>(): State<A>
  {
    State(0, None, map[], 0, [])
  }

  /** invokeFn. */
  function Invoke<A>(s: State<A>, now: int, args: A): State<A>
  {
    s.(lastInvocationTime := now, timeoutId := None, runs := s.runs + [Invocation(now, args)])
  }

  function Next<A>(s: State<A>, timeMs: int, e: Event<A>): State<A>
  {
    match e
    case Call(now, args) =>
      var cleared := if s.timeoutId.Some? then s.(timers := s.timers - {s.timeoutId.value}) else s;
      var timeUntilNextCallMs := timeMs - (now - s.lastInvocationTime);
      if timeUntilNextCallMs <= 0 then Invoke(cleared, now, args)
      else
        cleared.(timeoutId := Some(s.nextId),
                 timers := cleared.timers[s.nextId := Timer(now + timeUntilNextCallMs, args)],
                 nextId := s.nextId + 1)
    case Fire(now, id) =>
      if id in s.timers then Invoke(s.(timers := s.timers - {id}), now, s.timers[id].args) else s
  }

  function Run<A>(timeMs: int, events: seq<Event<A>>): State<A>
  {
    if events == [] then Initial() else Next(Run(timeMs, events[..|events| - 1]), timeMs, events[|events| - 1])
  }

  /** The clock never goes back, and a timer fires once, not before it is due. */
  ghost predicate Legal<A(!new)>(timeMs: int, events: seq<Event<A>>)
  {
    && (forall i, j :: 0 <= i < j < |events| ==> events[i].now <= events[j].now)
    && (forall k :: 0 <= k < |events| && events[k].Fire? ==>
          var timers := Run(timeMs, events[..k]).timers;
          events[k].id in timers && timers[events[k].id].due <= events[k].now)
  }

  /** The arguments of the latest call. */
  function LatestCall<A>(events: seq<Event<A>>): Option<A>
  {
    if events == [] then None
    else if events[|events| - 1].Call? then Some(events[|events| - 1].args)
    else LatestCall(events[..|events| - 1])
  }

  /** When the function was last invoked; the beginning of time if it never was. */
  function LastRun<A>(runs: seq<Invocation<A>>): int
  {
    if runs == [] then 0 else runs[|runs| - 1].time
  }

  // ----- What every run keeps -----

  /** At most one timer, for timeMs after the last run, with the latest arguments. */
  ghost predicate TimersOk<A(!new)>(s: State<A>, timeMs: int, latest: Option<A>)
  {
    && (forall id :: id in s.timers ==> id < s.nextId)
    && s.timers.Keys == (if s.timeoutId.Some? then {s.timeoutId.value} else {})
    && (forall id :: id in s.timers ==>
          s.timers[id].due == s.lastInvocationTime + timeMs && latest == Some(s.timers[id].args))
    && (latest.Some? && s.timers == map[] ==> s.runs != [] && Some(s.runs[|s.runs| - 1].args) == latest)
    && s.lastInvocationTime == LastRun(s.runs)
  }

  ghost predicate Spaced<A(!new)>(runs: seq<Invocation<A>>, timeMs: int)
  {
    forall i :: 0 < i < |runs| ==> runs[i].time - runs[i - 1].time >= timeMs
  }

  lemma NextKeeps<A(!new)>(s: State<A>, timeMs: int, e: Event<A>, latest: Option<A>)
    requires TimersOk(s, timeMs, latest) && Spaced(s.runs, timeMs)
    requires e.Fire? ==> e.id in s.timers && s.timers[e.id].due <= e.now
    ensures var s' := Next(s, timeMs, e);
      var latest' := if e.Call? then Some(e.args) else latest;
      && TimersOk(s', timeMs, latest') && Spaced(s'.runs, timeMs)
      && (s'.runs != s.runs ==> latest'.Some? && s'.runs == s.runs + [Invocation(e.now, latest'.value)])
  {
    var s' := Next(s, timeMs, e);
    if s.timeoutId.Some? {
      assert s.timers - {s.timeoutId.value} == map[];
    }
  }

  lemma {:induction false} RunKeeps<A(!new)>(timeMs: int, events: seq<Event<A>>)
    requires Legal(timeMs, events)
    ensures var s := Run(timeMs, events); TimersOk(s, timeMs, LatestCall(events)) && Spaced(s.runs, timeMs)
  {
    if events != [] {
      var front, last := events[..|events| - 1], events[|events| - 1];
      hide TimersOk, Spaced, Next;
      LegalFront(timeMs, events);
      RunKeeps(timeMs, front);
      NextKeeps(Run(timeMs, front), timeMs, last, LatestCall(front));
    }
  }

  lemma LegalFront<A(!new)>(timeMs: int, events: seq<Event<A>>)
    requires Legal(timeMs, events) && events != []
    ensures Legal(timeMs, events[..|events| - 1])
    ensures var front, last := events[..|events| - 1], events[|events| - 1];
      last.Fire? ==> last.id in Run(timeMs, front).timers && Run(timeMs, front).timers[last.id].due <= last.now
  {
    var front := events[..|events| - 1];
    forall k | 0 <= k < |front| && front[k].Fire?
      ensures front[k].id in Run(timeMs, front[..k]).timers
      ensures Run(timeMs, front[..k]).timers[front[k].id].due <= front[k].now
    {
      assert front[..k] == events[..k];
      assert events[k].Fire?;
    }
  }

  // ----- Over whole runs -----

  /** However calls and timers interleave: successive invocations are at least timeMs apart, and at
      most one timer is pending, for timeMs after the last invocation, with the latest arguments. */
  lemma {:induction false} InvocationsAreSpaced<A(!new)>(timeMs: int, events: seq<Event<A>>)
    requires Legal(timeMs, events)
    ensures var s := Run(timeMs, events);
      && (forall i :: 0 < i < |s.runs| ==> s.runs[i].time - s.runs[i - 1].time >= timeMs)
      && |s.timers| <= 1
      && (forall id :: id in s.timers ==>
            Some(s.timers[id].args) == LatestCall(events) && s.timers[id].due == LastRun(s.runs) + timeMs)
  {
    RunKeeps(timeMs, events);
    var s := Run(timeMs, events);
    assert |s.timers| == |s.timers.Keys|;
  }

  /** Each invocation uses the arguments of the latest call made before it. */
  lemma InvocationsUseLatestCall<A(!new)>(timeMs: int, events: seq<Event<A>>, k: nat)
    requires Legal(timeMs, events) && k < |events|
    ensures var before, after := Run(timeMs, events[..k]).runs, Run(timeMs, events[..k + 1]).runs;
      after != before ==>
        LatestCall(events[..k + 1]).Some?
        && after == before + [Invocation(events[k].now, LatestCall(events[..k + 1]).value)]
  {
    LegalPrefix(timeMs, events, k + 1);
    var now := events[..k + 1];
    assert now[..k] == events[..k];
    LegalFront(timeMs, now);
    RunKeeps(timeMs, now[..k]);
    NextKeeps(Run(timeMs, now[..k]), timeMs, now[k], LatestCall(now[..k]));
  }

  /** A call runs the function at once, with its own arguments, exactly when the last run was timeMs or
      longer ago; otherwise it runs nothing, and a timer will. */
  lemma CallRunsAtOnceIff<A(!new)>(timeMs: int, events: seq<Event<A>>, k: nat)
    requires Legal(timeMs, events) && k < |events| && events[k].Call?
    ensures var before, after := Run(timeMs, events[..k]).runs, Run(timeMs, events[..k + 1]);
      if events[k].now - LastRun(before) >= timeMs then
        after.runs == before + [Invocation(events[k].now, events[k].args)] && after.timers == map[]
      else
        && after.runs == before && |after.timers| == 1
        && forall id :: id in after.timers ==> after.timers[id] == Timer(LastRun(before) + timeMs, events[k].args)
  {
    LegalPrefix(timeMs, events, k);
    RunKeeps(timeMs, events[..k]);
    var s := Run(timeMs, events[..k]);
    assert events[..k + 1][..k] == events[..k];
    hide Run;
    CallRuns(s, timeMs, events[k], LatestCall(events[..k]));
  }

  lemma CallRuns<A(!new)>(s: State<A>, timeMs: int, e: Event<A>, latest: Option<A>)
    requires TimersOk(s, timeMs, latest) && e.Call?
    ensures var s' := Next(s, timeMs, e);
      if e.now - LastRun(s.runs) >= timeMs then s'.runs == s.runs + [Invocation(e.now, e.args)] && s'.timers == map[]
      else
        && s'.runs == s.runs && |s'.timers| == 1
        && forall id :: id in s'.timers ==> s'.timers[id] == Timer(LastRun(s.runs) + timeMs, e.args)
  {
    var cleared := if s.timeoutId.Some? then s.timers - {s.timeoutId.value} else s.timers;
    assert cleared == map[];
    var timer := Timer(LastRun(s.runs) + timeMs, e.args);
    assert cleared[s.nextId := timer] == map[s.nextId := timer];
  }

  /** A timer that fires runs the function with the latest arguments, and is gone. */
  lemma FireRuns<A(!new)>(timeMs: int, events: seq<Event<A>>, k: nat)
    requires Legal(timeMs, events) && k < |events| && events[k].Fire?
    ensures var before, after := Run(timeMs, events[..k]).runs, Run(timeMs, events[..k + 1]);
      && events[k].now >= LastRun(before) + timeMs
      && LatestCall(events[..k]).Some?
      && after.runs == before + [Invocation(events[k].now, LatestCall(events[..k]).value)]
      && after.timers == map[]
  {
    LegalPrefix(timeMs, events, k);
    RunKeeps(timeMs, events[..k]);
    assert events[..k + 1][..k] == events[..k];
  }

  lemma {:induction false} LegalPrefix<A(!new)>(timeMs: int, events: seq<Event<A>>, k: nat)
    requires Legal(timeMs, events) && k <= |events|
    ensures Legal(timeMs, events[..k])
    decreases |events|
  {
    if k < |events| {
      LegalFront(timeMs, events);
      LegalPrefix(timeMs, events[..|events| - 1], k);
      assert events[..|events| - 1][..k] == events[..k];
    } else {
      assert events[..k] == events;
    }
  }

  /** No call is forgotten: as long as no other call follows, either the function has been invoked
      since, or the timer is pending. */
  lemma {:induction false} LatestCallIsAnswered<A(!new)>(timeMs: int, events: seq<Event<A>>, j: nat)
    requires Legal(timeMs, events) && j < |events| && events[j].Call?
    requires forall k :: j < k < |events| ==> events[k].Fire?
    ensures Run(timeMs, events).timers != map[] || |Run(timeMs, events).runs| > |Run(timeMs, events[..j]).runs|
    ensures |Run(timeMs, events).runs| >= |Run(timeMs, events[..j]).runs|
  {
    hide Next, Legal;
    var front, last := events[..|events| - 1], events[|events| - 1];
    EventRuns(Run(timeMs, front), timeMs, last);
    assert Run(timeMs, events) == Next(Run(timeMs, front), timeMs, last);
    hide Run;
    if j < |front| {
      LegalFront(timeMs, events);
      LatestCallIsAnswered(timeMs, front, j);
      assert front[..j] == events[..j];
      assert events[|front|].Fire?;
      assert |Run(timeMs, events).runs| > |Run(timeMs, front).runs|;
    } else {
      assert events[..j] == front;
    }
  }

  lemma EventRuns<A>(s: State<A>, timeMs: int, e: Event<A>)
    ensures |Next(s, timeMs, e).runs| >= |s.runs|
    ensures e.Call? ==> Next(s, timeMs, e).timers != map[] || |Next(s, timeMs, e).runs| > |s.runs|
    ensures e.Fire? && e.id in s.timers ==> |Next(s, timeMs, e).runs| > |s.runs|
  {
    if e.Call? && timeMs - (e.now - s.lastInvocationTime) > 0 {
      assert s.nextId in Next(s, timeMs, e).timers;
    }
  }

  // ----- The closure -----

  class Throttled<A(!new)> {
    const timeMs: int
    var lastInvocationTime: int
    var timeoutId: Option<nat>
    var timers: map<nat, Timer<A>>
    var nextId: nat
    ghost var runs: seq<Invocation<A>>

    ghost function Value(): State<A>
      reads this
    {
      State(lastInvocationTime, timeoutId, timers, nextId, runs)
    }

    constructor (timeMs: int)
      ensures this.timeMs == timeMs && Value() == Initial()
    {
      this.timeMs := timeMs;
      lastInvocationTime, timeoutId, timers, nextId, runs := 0, None, map[], 0, [];
    }

    method ClearTimeout(id: nat)
      modifies this`timers
      ensures timers == old(timers) - {id}
    {
      timers := timers - {id};
    }

    method SetTimeout(due: int, args: A) returns (id: nat)
      modifies this`timers, this`nextId
      ensures id == old(nextId) && nextId == id + 1 && timers == old(timers)[id := Timer(due, args)]
    {
      id := nextId;
      timers := timers[id := Timer(due, args)];
      nextId := nextId + 1;
    }

    /** fn is called with args; runs records it. */
    method InvokeFn(now: int, args: A)
      modifies this
      ensures Value() == Invoke(old(Value()), now, args)
    {
      lastInvocationTime := now;
      timeoutId := None;
      runs := runs + [Invocation(now, args)];
    }

    method Call(now: int, args: A)
      modifies this
      ensures Value() == Next(old(Value()), timeMs, Event.Call(now, args))
    {
      if timeoutId.Some? {
        ClearTimeout(timeoutId.value);
      }
      var elapsedMs := now - lastInvocationTime;
      var timeUntilNextCallMs := timeMs - elapsedMs;
      if timeUntilNextCallMs <= 0 {
        InvokeFn(now, args);
      } else {
        var id := SetTimeout(now + timeUntilNextCallMs, args);
        timeoutId := Some(id);
      }
    }

    /** The browser fires a pending timer. */
    method Fire(now: int, id: nat)
      requires id in timers
      modifies this
      ensures Value() == Next(old(Value()), timeMs, Event.Fire(now, id))
    {
      var args := timers[id].args;
      ClearTimeout(id);
      InvokeFn(now, args);
    }
  }
}
