/** The limit on new rooms per user: api/src/rate_limit/redis_rate_limit.py:74-87 and 182-189. The
    count lives under one key per user, which expires ten minutes after its first increment. */
module RoomCreation {
  import opened Sequences

  const MAX_ROOMS_PER_TEN_MINUTES := 50
  const TEN_MINUTES_IN_SECONDS := 600.0

  type Positive = n: nat | n > 0 witness 1

  datatype Counter = Counter(count: Positive, expireAt: real)

  /** The counter, unless it has expired. */
  function Alive(c: Option<Counter>, now: real): Option<Counter>
  {
    if c.Some? && now < c.value.expireAt then c else None
  }

  /** _INCR_AND_EXPIRE_IF_NEW. */
  function Increment(c: Option<Counter>, now: real): Counter
  {
    if Alive(c, now).Some? then c.value.(count := c.value.count + 1)
    else Counter(1, now + TEN_MINUTES_IN_SECONDS)
  }

  /** acquire_new_room counts refused attempts, too. */
  predicate Grants(c: Option<Counter>, now: real)
  {
    Increment(c, now).count <= MAX_ROOMS_PER_TEN_MINUTES
  }

  // ----- Runs of attempts -----

  function After(c: Option<Counter>, times: seq<real>): Option<Counter>
  {
    if times == [] then c else Some(Increment(After(c, times[..|times| - 1]), times[|times| - 1]))
  }

  /** How many of the attempts made from lo to hi, both included, are granted. */
  function Granted(c: Option<Counter>, times: seq<real>, lo: real, hi: real): (r: nat)
    ensures r <= |times|
  {
    if times == [] then 0
    else
      var front, now := times[..|times| - 1], times[|times| - 1];
      Granted(c, front, lo, hi) + if lo <= now <= hi && Grants(After(c, front), now) then 1 else 0
  }

  ghost predicate Nondecreasing(times: seq<real>)
  {
    forall i, j :: 0 <= i < j < |times| ==> times[i] <= times[j]
  }

  function UpTo(n: nat): nat
  {
    if n <= MAX_ROOMS_PER_TEN_MINUTES then n else MAX_ROOMS_PER_TEN_MINUTES
  }

  /** What the counter says about the grants between lo and ten minutes later: none while it still
      belongs to a lifetime that ends before lo, then those of one lifetime, then of two. */
  ghost predicate Accounted(c: Option<Counter>, granted: nat, lo: real)
  {
    match c
    case None => granted == 0
    case Some(Counter(count, expireAt)) =>
      var hi := lo + TEN_MINUTES_IN_SECONDS;
      if expireAt <= lo then granted == 0
      else if expireAt <= hi then granted <= UpTo(count)
      else if expireAt <= hi + TEN_MINUTES_IN_SECONDS then granted <= MAX_ROOMS_PER_TEN_MINUTES + UpTo(count)
      else granted <= 2 * MAX_ROOMS_PER_TEN_MINUTES
  }

  lemma {:induction false} RunAccounted(times: seq<real>, lo: real)
    requires Nondecreasing(times)
    ensures times != [] ==>
      times[|times| - 1] < After(None, times).value.expireAt <= times[|times| - 1] + TEN_MINUTES_IN_SECONDS
    ensures Accounted(After(None, times), Granted(None, times, lo, lo + TEN_MINUTES_IN_SECONDS), lo)
  {
    if times != [] {
      RunAccounted(times[..|times| - 1], lo);
    }
  }

  /** In any ten minutes, both ends included, a user is granted at most 100 new rooms, over every run
      of attempts. */
  lemma AtMostAHundred(times: seq<real>, lo: real)
    requires Nondecreasing(times)
    ensures Granted(None, times, lo, lo + TEN_MINUTES_IN_SECONDS) <= 2 * MAX_ROOMS_PER_TEN_MINUTES
  {
    RunAccounted(times, lo);
  }

  /** Within one lifetime of the counter exactly the first 50 attempts are granted. */
  lemma {:induction false} FiftyPerLifetime(c: Option<Counter>, times: seq<real>, lo: real, hi: real)
    requires Nondecreasing(times)
    requires forall i :: 0 <= i < |times| ==> lo <= times[i] <= hi
    requires times != [] && Alive(c, times[0]).None? ==> times[|times| - 1] < times[0] + TEN_MINUTES_IN_SECONDS
    requires times != [] && Alive(c, times[0]).Some? ==> times[|times| - 1] < c.value.expireAt
    ensures var before := if times != [] && Alive(c, times[0]).Some? then c.value.count else 0;
      && Granted(c, times, lo, hi) == UpTo(before + |times|) - UpTo(before)
      && (times != [] ==> After(c, times) == Some(Counter(before + |times|,
            if Alive(c, times[0]).Some? then c.value.expireAt else times[0] + TEN_MINUTES_IN_SECONDS)))
  {
    if |times| > 1 {
      FiftyPerLifetime(c, times[..|times| - 1], lo, hi);
    } else if |times| == 1 {
      assert After(c, times[..0]) == c;
    }
  }

  // ----- The limit the constant's name promises -----

  /** Ten minutes from now on, the end not included. */
  ghost predicate Within(times: seq<real>, now: real)
  {
    Nondecreasing(times) && forall i :: 0 <= i < |times| ==> now <= times[i] < now + TEN_MINUTES_IN_SECONDS
  }

  function Repeat(t: real, n: nat): (r: seq<real>)
    ensures |r| == n && forall i :: 0 <= i < n ==> r[i] == t
  {
    seq(n, _ => t)
  }

  lemma {:induction false} GrantedConcat(c: Option<Counter>, x: seq<real>, y: seq<real>, lo: real, hi: real)
    ensures After(c, x + y) == After(After(c, x), y)
    ensures Granted(c, x + y, lo, hi) == Granted(c, x, lo, hi) + Granted(After(c, x), y, lo, hi)
  {
    if y == [] {
      assert x + y == x;
    } else {
      GrantedConcat(c, x, y[..|y| - 1], lo, hi);
      assert (x + y)[..|x + y| - 1] == x + y[..|y| - 1];
    }
  }

  /** The bound is reached: fifty rooms at once, and fifty more ten minutes later. */
  lemma AHundredIsReached(lo: real)
    ensures var times := Repeat(lo, MAX_ROOMS_PER_TEN_MINUTES)
                         + Repeat(lo + TEN_MINUTES_IN_SECONDS, MAX_ROOMS_PER_TEN_MINUTES);
      && Nondecreasing(times)
      && Granted(None, times, lo, lo + TEN_MINUTES_IN_SECONDS) == 2 * MAX_ROOMS_PER_TEN_MINUTES
  {
    hide Granted, After;
    var hi := lo + TEN_MINUTES_IN_SECONDS;
    var first, second := Repeat(lo, MAX_ROOMS_PER_TEN_MINUTES), Repeat(hi, MAX_ROOMS_PER_TEN_MINUTES);
    GrantedConcat(None, first, second, lo, hi);
    FiftyPerLifetime(None, first, lo, hi);
    FiftyPerLifetime(After(None, first), second, lo, hi);
  }

  /** A counter that is gone, or that lives on for all of the ten minutes: one lifetime. */
  lemma OneLifetime(c: Option<Counter>, times: seq<real>, now: real)
    requires Within(times, now)
    requires Alive(c, now).None? || c.value.expireAt >= now + TEN_MINUTES_IN_SECONDS
    ensures Granted(c, times, now, now + TEN_MINUTES_IN_SECONDS) <= MAX_ROOMS_PER_TEN_MINUTES
  {
    FiftyPerLifetime(c, times, now, now + TEN_MINUTES_IN_SECONDS);
  }

  /** The attempts before an instant, and those after it. */
  lemma {:induction false} SplitAt(times: seq<real>, t: real) returns (k: nat)
    requires Nondecreasing(times)
    ensures k <= |times|
    ensures forall i :: 0 <= i < k ==> times[i] < t
    ensures forall i :: k <= i < |times| ==> t <= times[i]
  {
    k := 0;
    while k < |times| && times[k] < t
      invariant k <= |times| && forall i :: 0 <= i < k ==> times[i] < t
    {
      k := k + 1;
    }
  }

  lemma NothingLeft(c: Option<Counter>, times: seq<real>, lo: real, hi: real)
    requires Nondecreasing(times) && c.Some? && c.value.count >= MAX_ROOMS_PER_TEN_MINUTES
    requires forall i :: 0 <= i < |times| ==> lo <= times[i] <= hi && times[i] < c.value.expireAt
    ensures Granted(c, times, lo, hi) == 0
    ensures After(c, times).Some? && After(c, times).value.expireAt == c.value.expireAt
  {
    FiftyPerLifetime(c, times, lo, hi);
  }

  lemma NextLifetime(c: Option<Counter>, times: seq<real>, now: real)
    requires Within(times, now) && c.Some? && forall i :: 0 <= i < |times| ==> c.value.expireAt <= times[i]
    ensures Granted(c, times, now, now + TEN_MINUTES_IN_SECONDS) <= MAX_ROOMS_PER_TEN_MINUTES
  {
    FiftyPerLifetime(c, times, now, now + TEN_MINUTES_IN_SECONDS);
  }

  /** A counter that is used up grants nothing until it expires. */
  lemma UsedUp(c: Option<Counter>, times: seq<real>, now: real)
    requires Within(times, now) && Alive(c, now).Some? && c.value.count >= MAX_ROOMS_PER_TEN_MINUTES
    ensures Granted(c, times, now, now + TEN_MINUTES_IN_SECONDS) <= MAX_ROOMS_PER_TEN_MINUTES
  {
    hide Granted, After;
    var k := SplitAt(times, c.value.expireAt);
    var x, y := times[..k], times[k..];
    assert times == x + y;
    GrantedConcat(c, x, y, now, now + TEN_MINUTES_IN_SECONDS);
    NothingLeft(c, x, now, now + TEN_MINUTES_IN_SECONDS);
    NextLifetime(After(c, x), y, now);
  }

  /** A counter with something left that expires within the ten minutes: one room now, and fifty
      more when it has expired. */
  lemma FiftyOne(c: Option<Counter>, now: real)
    requires Alive(c, now).Some? && c.value.count < MAX_ROOMS_PER_TEN_MINUTES
    requires c.value.expireAt < now + TEN_MINUTES_IN_SECONDS
    ensures var times := [now] + Repeat(c.value.expireAt, MAX_ROOMS_PER_TEN_MINUTES);
      && Within(times, now)
      && Granted(c, times, now, now + TEN_MINUTES_IN_SECONDS) == MAX_ROOMS_PER_TEN_MINUTES + 1
  {
    hide Granted, After;
    var later := Repeat(c.value.expireAt, MAX_ROOMS_PER_TEN_MINUTES);
    GrantedConcat(c, [now], later, now, now + TEN_MINUTES_IN_SECONDS);
    FiftyPerLifetime(c, [now], now, now + TEN_MINUTES_IN_SECONDS);
    FiftyPerLifetime(After(c, [now]), later, now, now + TEN_MINUTES_IN_SECONDS);
  }

  /** From any counter, the next ten minutes grant at most 50 rooms, whatever is attempted, if and
      only if the counter is gone, or used up, or lives on for all of them. */
  lemma AtMostFiftyIff(c: Option<Counter>, now: real)
    ensures (forall times: seq<real> :: Within(times, now) ==>
        Granted(c, times, now, now + TEN_MINUTES_IN_SECONDS) <= MAX_ROOMS_PER_TEN_MINUTES)
      <==>
        (Alive(c, now).None?
         || c.value.count >= MAX_ROOMS_PER_TEN_MINUTES
         || c.value.expireAt >= now + TEN_MINUTES_IN_SECONDS)
  {
    if Alive(c, now).None? || c.value.expireAt >= now + TEN_MINUTES_IN_SECONDS {
      forall times: seq<real> | Within(times, now)
        ensures Granted(c, times, now, now + TEN_MINUTES_IN_SECONDS) <= MAX_ROOMS_PER_TEN_MINUTES
      {
        OneLifetime(c, times, now);
      }
    } else if c.value.count >= MAX_ROOMS_PER_TEN_MINUTES {
      forall times: seq<real> | Within(times, now)
        ensures Granted(c, times, now, now + TEN_MINUTES_IN_SECONDS) <= MAX_ROOMS_PER_TEN_MINUTES
      {
        UsedUp(c, times, now);
      }
    } else {
      FiftyOne(c, now);
    }
  }

  /** The limiter's counters, one key per user. */
  class RoomCounters {
    var counters: map<string, Counter>

    ghost function CounterOf(user: string): Option<Counter>
      reads this
    {
      if user in counters then Some(counters[user]) else None
    }

    constructor ()
      ensures counters == map[]
    {
      counters := map[];
    }

    method IncrementAndExpireIfNew(user: string, expirationSeconds: real, now: real) returns (value: nat)
      requires expirationSeconds == TEN_MINUTES_IN_SECONDS
      modifies this
      ensures counters == old(counters)[user := Increment(old(CounterOf(user)), now)]
      ensures value == counters[user].count
    {
      value := 1;
      var expireAt := now;
      if user in counters && now < counters[user].expireAt {
        value := counters[user].count + 1;
        expireAt := counters[user].expireAt;
      }
      if value == 1 {
        expireAt := now + expirationSeconds;
      }
      counters := counters[user := Counter(value, expireAt)];
    }

    /** acquire_new_room; granted is false when it raises TooManyRoomsCreatedException. */
    method AcquireNewRoom(user: string, now: real) returns (granted: bool)
      modifies this
      ensures counters == old(counters)[user := Increment(old(CounterOf(user)), now)]
      ensures granted == Grants(old(CounterOf(user)), now)
    {
      var recentRoomCreationCount := IncrementAndExpireIfNew(user, TEN_MINUTES_IN_SECONDS, now);
      granted := recentRoomCreationCount <= MAX_ROOMS_PER_TEN_MINUTES;
    }
  }
}
