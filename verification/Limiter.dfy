/**
  The shared rate limiter (internal/redislimiter/limiter.go): a counter per key whose
  deadline is set when it is created and never moved. Requests arrive at times in
  nanoseconds, the unit of the configured window; Redis keeps time in milliseconds.
  How many milliseconds a key outlives its deadline is Redis's affair: `lag` is any
  number, zero if the key is gone when its deadline comes.
 */
module Limiter {

  const MILLISECOND := 1_000_000
  const MINUTE := 60_000 * MILLISECOND

  /** The millisecond that a time falls into. */
  function Tick(t: int): int {
    t / MILLISECOND
  }

  /** time.Duration.Milliseconds truncates. */
  function Milliseconds(window: nat): nat {
    window / MILLISECOND
  }

  datatype Setup = Setup(limit: nat, window: nat, lag: nat)

  /** A counter in Redis; its deadline is a tick. */
  datatype Counter = Gone | Live(count: nat, deadline: int)

  /** What is left of a counter at a given tick. */
  function Surviving(c: Counter, tick: int, s: Setup): Counter {
    if c.Live? && tick < c.deadline + s.lag then c else Gone
  }

  /**
    INCR, then PEXPIRE if the counter is new. A deadline that is not in the future
    deletes the key at once.
   */
  function Hit(c: Counter, tick: int, s: Setup): Counter {
    match Surviving(c, tick, s)
    case Live(count, deadline) => Live(count + 1, deadline)
    case Gone => if Milliseconds(s.window) == 0 then Gone else Live(1, tick + Milliseconds(s.window))
  }

  /** The count that the script returns. */
  function Count(c: Counter, tick: int, s: Setup): nat {
    match Surviving(c, tick, s)
    case Live(count, _) => count + 1
    case Gone => 1
  }

  predicate Allows(c: Counter, tick: int, s: Setup) {
    Count(c, tick, s) <= s.limit
  }

  class RedisLimiter {
    const setup: Setup
    var counters: map<string, Counter>

    constructor (limit: int, window: int, lag: nat)
      ensures setup == Setup(if limit <= 0 then 60 else limit, if window <= 0 then MINUTE else window, lag)
      ensures setup.limit > 0 && setup.window > 0 && counters == map[]
    {
      setup := Setup(if limit <= 0 then 60 else limit, if window <= 0 then MINUTE else window, lag);
      counters := map[];
    }

    function CounterOf(key: string): Counter
      reads this
    {
      if key in counters then counters[key] else Gone
    }

    method Allow(key: string, now: int) returns (allowed: bool)
      modifies this
      ensures allowed == Allows(old(CounterOf(key)), Tick(now), setup)
      ensures CounterOf(key) == Hit(old(CounterOf(key)), Tick(now), setup)
      ensures forall k :: k != key ==> CounterOf(k) == old(CounterOf(k))
    {
      var tick, count := Tick(now), 1;
      if key in counters && counters[key].Live? && tick < counters[key].deadline + setup.lag {
        count := counters[key].count + 1;
        counters := counters[key := counters[key].(count := count)];
      } else if Milliseconds(setup.window) == 0 {
        counters := counters - {key};
      } else {
        counters := counters[key := Live(count, tick + Milliseconds(setup.window))];
      }
      return count <= setup.limit;
    }
  }

  // ----- any sequence of requests -----

  predicate Ordered(times: seq<int>) {
    forall i, j :: 0 <= i <= j < |times| ==> times[i] <= times[j]
  }

  /** How many of the requests in [from, to) are admitted. */
  function Admitted(c: Counter, times: seq<int>, s: Setup, from: int, to: int): nat
    decreases times
  {
    if times == [] then 0
    else
      (if Allows(c, Tick(times[0]), s) && from <= times[0] < to then 1 else 0)
      + Admitted(Hit(c, Tick(times[0]), s), times[1..], s, from, to)
  }

  function Room(c: Counter, limit: nat): nat {
    if c.Live? && c.count >= limit then 0 else if c.Live? then limit - c.count else limit
  }

  /** A counter's life admits its first requests, up to the limit, and refuses the rest. */
  lemma {:induction false} LifetimeAdmits(c: Counter, times: seq<int>, s: Setup, from: int, to: int)
    requires c.Live? && forall i :: 0 <= i < |times| ==> from <= times[i] < to && Tick(times[i]) < c.deadline + s.lag
    ensures Admitted(c, times, s, from, to) == if |times| <= Room(c, s.limit) then |times| else Room(c, s.limit)
    decreases times
  {
    if times != [] {
      LifetimeAdmits(Hit(c, Tick(times[0]), s), times[1..], s, from, to);
    }
  }

  /** The counter after some requests. */
  function Played(c: Counter, times: seq<int>, s: Setup): Counter
    decreases times
  {
    if times == [] then c else Played(Hit(c, Tick(times[0]), s), times[1..], s)
  }

  /** No request, admitted or denied, moves the deadline of a live counter. */
  lemma {:induction false} DeadlineStays(c: Counter, times: seq<int>, s: Setup)
    requires c.Live? && forall i :: 0 <= i < |times| ==> Tick(times[i]) < c.deadline + s.lag
    ensures Played(c, times, s) == Live(c.count + |times|, c.deadline)
    decreases times
  {
    if times != [] {
      DeadlineStays(Hit(c, Tick(times[0]), s), times[1..], s);
    }
  }

  // ----- how much a stretch of ticks admits -----

  /** How many ticks a counter lives. */
  function Life(s: Setup): nat {
    Milliseconds(s.window) + s.lag
  }

  /** The ticks of k lives, and the requests that k counters admit. */
  function Lives(k: nat, s: Setup): nat {
    if k == 0 then 0 else Life(s) + Lives(k - 1, s)
  }

  function Quota(k: nat, s: Setup): nat {
    if k == 0 then 0 else s.limit + Quota(k - 1, s)
  }

  lemma {:induction false} NoneLater(c: Counter, times: seq<int>, s: Setup, from: int, to: int)
    requires Ordered(times) && (times != [] ==> times[0] >= to)
    ensures Admitted(c, times, s, from, to) == 0
    decreases times
  {
    if times != [] {
      NoneLater(Hit(c, Tick(times[0]), s), times[1..], s, from, to);
    }
  }

  /** If what follows a live counter fits in k more lives, its rest and k quotas bound what is admitted. */
  lemma {:induction false} AliveBound(c: Counter, times: seq<int>, s: Setup, from: int, to: int, k: nat)
    requires s.limit > 0 && Milliseconds(s.window) > 0 && c.Live? && Ordered(times)
    requires Tick(to - 1) < c.deadline + s.lag + Lives(k, s)
    ensures Admitted(c, times, s, from, to) <= Room(c, s.limit) + Quota(k, s)
    decreases |times|, 1
  {
    if times != [] {
      if Tick(times[0]) < c.deadline + s.lag {
        AliveBound(Hit(c, Tick(times[0]), s), times[1..], s, from, to, k);
      } else {
        FreshBound(c, times, s, from, to, k, c.deadline + s.lag);
      }
    }
  }

  /** From a tick at which no counter is left, what fits in k lives is bounded by k quotas. */
  lemma {:induction false} FreshBound(c: Counter, times: seq<int>, s: Setup, from: int, to: int, k: nat, start: int)
    requires s.limit > 0 && Milliseconds(s.window) > 0 && Ordered(times)
    requires times != [] ==> start <= Tick(times[0]) && Surviving(c, Tick(times[0]), s).Gone?
    requires Tick(to - 1) < start + Lives(k, s)
    ensures Admitted(c, times, s, from, to) <= Quota(k, s)
    decreases |times|, 0
  {
    if times != [] {
      if k == 0 {
        TickIsMonotone(times[0], to - 1);
        NoneLater(c, times, s, from, to);
      } else {
        AliveBound(Hit(c, Tick(times[0]), s), times[1..], s, from, to, k - 1);
      }
    }
  }

  lemma TickIsMonotone(a: int, b: int)
    ensures a <= b ==> Tick(a) <= Tick(b)
  {
  }

  /** A window never reaches more ticks beyond its first than this. */
  function Reach(window: nat): nat {
    if window % MILLISECOND <= 1 then Milliseconds(window) else Milliseconds(window) + 1
  }

  lemma WindowReach(from: int, window: nat)
    requires window > 0
    ensures Tick(from + window - 1) <= Tick(from) + Reach(window)
  {
    assert from + window - 1 <= (Tick(from) + Reach(window)) * MILLISECOND + MILLISECOND - 1;
  }

  /** A counter exists only from its first request on. */
  predicate Possible(c: Counter) {
    c.Live? ==> c.count >= 1
  }

  lemma FewLives(s: Setup)
    ensures Lives(1, s) == Life(s) && Lives(2, s) == 2 * Life(s) && Lives(3, s) == 3 * Life(s)
    ensures Quota(1, s) == s.limit && Quota(2, s) == 2 * s.limit && Quota(3, s) == 3 * s.limit
  {
    assert Lives(0, s) == 0 && Quota(0, s) == 0;
    assert Lives(1, s) == Life(s) + Lives(0, s) && Quota(1, s) == s.limit + Quota(0, s);
    assert Lives(2, s) == Life(s) + Lives(1, s) && Quota(2, s) == s.limit + Quota(1, s);
  }

  /** The most that one configured window admits, from a window of one millisecond on. */
  function Peak(s: Setup): nat
    requires s.limit > 0 && s.window >= MILLISECOND
  {
    if s.lag == 0 then
      if s.window % MILLISECOND <= 1 then 2 * s.limit
      else if Milliseconds(s.window) == 1 then 3 * s.limit
      else 3 * s.limit - 1
    else if s.lag == 1 && s.window % MILLISECOND >= 2 then 2 * s.limit
    else 2 * s.limit - 1
  }

  /** A window that finds no counter. */
  lemma FreshWindow(c: Counter, times: seq<int>, s: Setup, from: int)
    requires s.limit > 0 && s.window >= MILLISECOND && Ordered(times) && times != [] && from <= times[0]
    requires Surviving(c, Tick(times[0]), s).Gone?
    ensures Admitted(c, times, s, from, from + s.window) <= Peak(s)
  {
    WindowReach(from, s.window);
    TickIsMonotone(from, times[0]);
    FewLives(s);
    var k := if Reach(s.window) < Life(s) then 1 else if Reach(s.window) < 2 * Life(s) then 2 else 3;
    FreshBound(c, times, s, from, from + s.window, k, Tick(from));
  }

  /** A window that finds a counter, which has admitted a request before. */
  lemma OldWindow(c: Counter, times: seq<int>, s: Setup, from: int)
    requires s.limit > 0 && s.window >= MILLISECOND && Possible(c) && Ordered(times) && times != [] && from <= times[0]
    requires Surviving(c, Tick(times[0]), s).Live?
    ensures Admitted(c, times, s, from, from + s.window) <= Peak(s)
  {
    WindowReach(from, s.window);
    TickIsMonotone(from, times[0]);
    FewLives(s);
    AliveBound(c, times, s, from, from + s.window, if Reach(s.window) <= Life(s) then 1 else 2);
  }

  /** No interval of one window admits more than the peak. */
  lemma {:induction false} PeakBound(c: Counter, times: seq<int>, s: Setup, from: int)
    requires s.limit > 0 && s.window >= MILLISECOND && Possible(c) && Ordered(times)
    ensures Admitted(c, times, s, from, from + s.window) <= Peak(s)
    decreases times
  {
    if times != [] {
      if times[0] < from {
        PeakBound(Hit(c, Tick(times[0]), s), times[1..], s, from);
      } else if Surviving(c, Tick(times[0]), s).Gone? {
        FreshWindow(c, times, s, from);
      } else {
        OldWindow(c, times, s, from);
      }
    }
  }

  // ----- bursts -----

  function Same(now: int, n: nat): seq<int> {
    seq(n, _ => now)
  }

  lemma {:induction false} Burst(k: nat, deadline: int, now: int, n: nat, rest: seq<int>, s: Setup, from: int, to: int)
    requires k + n <= s.limit && Tick(now) < deadline + s.lag && from <= now < to
    ensures Admitted(Live(k, deadline), Same(now, n) + rest, s, from, to) == n + Admitted(Live(k + n, deadline), rest, s, from, to)
    decreases n
  {
    var times := Same(now, n) + rest;
    if n == 0 {
      assert times == rest;
    } else {
      assert times[0] == now && times[1..] == Same(now, n - 1) + rest;
      Burst(k + 1, deadline, now, n - 1, rest, s, from, to);
    }
  }

  /** A full burst at a time when no counter is left is admitted as a whole. */
  lemma FreshBurst(c: Counter, now: int, rest: seq<int>, s: Setup, from: int, to: int)
    requires s.limit > 0 && Milliseconds(s.window) > 0 && Surviving(c, Tick(now), s).Gone? && from <= now < to
    ensures Admitted(c, Same(now, s.limit) + rest, s, from, to)
            == s.limit + Admitted(Live(s.limit, Tick(now) + Milliseconds(s.window)), rest, s, from, to)
  {
    var times := Same(now, s.limit) + rest;
    assert times[0] == now && times[1..] == Same(now, s.limit - 1) + rest;
    Burst(1, Tick(now) + Milliseconds(s.window), now, s.limit - 1, rest, s, from, to);
  }

  lemma {:induction false} NoLimit(now: int, n: nat, s: Setup, from: int, to: int)
    requires s.limit > 0 && s.window < MILLISECOND && from <= now < to
    ensures Admitted(Gone, Same(now, n), s, from, to) == n
    decreases n
  {
    if n > 0 {
      assert Same(now, n)[1..] == Same(now, n - 1);
      NoLimit(now, n - 1, s, from, to);
    }
  }

  lemma Ticks(k: nat)
    ensures Tick(k * MILLISECOND) == k
    ensures k > 0 ==> Tick(k * MILLISECOND - 1) == k - 1
  {
  }

  /** Two full bursts: one at the end of a millisecond, one at the first tick that its counter does not see. */
  function TwoBursts(s: Setup): seq<int> {
    Same(MILLISECOND - 1, s.limit) + Same(Life(s) * MILLISECOND, s.limit)
  }

  lemma TwoBurstsCount(s: Setup)
    requires s.limit > 0 && s.window >= MILLISECOND && (s.lag == 0 || (s.lag == 1 && s.window % MILLISECOND >= 2))
    ensures Ordered(TwoBursts(s)) && Admitted(Gone, TwoBursts(s), s, MILLISECOND - 1, MILLISECOND - 1 + s.window) == 2 * s.limit
  {
    var from, to, last := MILLISECOND - 1, MILLISECOND - 1 + s.window, Life(s) * MILLISECOND;
    Ticks(Life(s));
    FreshBurst(Gone, from, Same(last, s.limit), s, from, to);
    FreshBurst(Live(s.limit, Milliseconds(s.window)), last, [], s, from, to);
    assert Same(last, s.limit) + [] == Same(last, s.limit);
    assert Admitted(Live(s.limit, Life(s) + Milliseconds(s.window)), [], s, from, to) == 0;
  }

  /** One early request, the rest of its counter's limit as late as can be, and a full burst on the next counter. */
  function LateBursts(s: Setup): seq<int>
    requires s.limit > 0
  {
    [0] + (Same(s.lag * MILLISECOND + MILLISECOND - 1, s.limit - 1) + Same(Life(s) * MILLISECOND, s.limit))
  }

  lemma LateBurstsOrdered(s: Setup)
    requires s.limit > 0 && s.window >= MILLISECOND
    ensures Ordered(LateBursts(s))
  {
  }

  lemma LastBurst(s: Setup, from: int, to: int)
    requires s.limit > 0 && s.window >= MILLISECOND && from <= Life(s) * MILLISECOND < to
    ensures Admitted(Live(s.limit, Milliseconds(s.window)), Same(Life(s) * MILLISECOND, s.limit), s, from, to) == s.limit
  {
    var ms, last := Milliseconds(s.window), Life(s) * MILLISECOND;
    Ticks(Life(s));
    FreshBurst(Live(s.limit, ms), last, [], s, from, to);
    assert Same(last, s.limit) + [] == Same(last, s.limit);
    assert Admitted(Live(s.limit, Life(s) + ms), [], s, from, to) == 0;
  }

  lemma LateBurstsCount(s: Setup)
    requires s.limit > 0 && s.window >= MILLISECOND && s.lag > 0
    ensures var from := s.lag * MILLISECOND + MILLISECOND - 1;
            Admitted(Gone, LateBursts(s), s, from, from + s.window) == 2 * s.limit - 1
  {
    var from, last := s.lag * MILLISECOND + MILLISECOND - 1, Life(s) * MILLISECOND;
    var to := from + s.window;
    Ticks(s.lag + 1);
    OneRequest(Gone, 0, Same(from, s.limit - 1) + Same(last, s.limit), s, from, to);
    Burst(1, Milliseconds(s.window), from, s.limit - 1, Same(last, s.limit), s, from, to);
    LastBurst(s, from, to);
  }

  /** Three bursts: the end of one counter, all of the next, and the start of a third, within a window that is not whole. */
  function ThreeBursts(s: Setup): seq<int>
    requires s.limit > 0
  {
    var ms := Milliseconds(s.window);
    [if ms == 1 then MILLISECOND - 1 else 0]
    + (Same(ms * MILLISECOND - 1, s.limit - 1) + (Same(ms * MILLISECOND, s.limit) + Same(2 * ms * MILLISECOND, s.limit)))
  }

  lemma OneRequest(c: Counter, now: int, rest: seq<int>, s: Setup, from: int, to: int)
    ensures Admitted(c, [now] + rest, s, from, to) ==
            (if Allows(c, Tick(now), s) && from <= now < to then 1 else 0) + Admitted(Hit(c, Tick(now), s), rest, s, from, to)
  {
    assert ([now] + rest)[1..] == rest;
  }

  lemma LaterBursts(s: Setup, from: int, to: int)
    requires s.limit > 0 && s.window >= MILLISECOND && s.lag == 0
    requires from <= Milliseconds(s.window) * MILLISECOND && 2 * Milliseconds(s.window) * MILLISECOND < to
    ensures var ms := Milliseconds(s.window);
            Admitted(Live(s.limit, ms), Same(ms * MILLISECOND, s.limit) + Same(2 * ms * MILLISECOND, s.limit), s, from, to) == 2 * s.limit
  {
    var ms := Milliseconds(s.window);
    var last := Same(2 * ms * MILLISECOND, s.limit);
    Ticks(ms);
    Ticks(2 * ms);
    FreshBurst(Live(s.limit, ms), ms * MILLISECOND, last, s, from, to);
    FreshBurst(Live(s.limit, 2 * ms), 2 * ms * MILLISECOND, [], s, from, to);
    assert last + [] == last;
    assert Admitted(Live(s.limit, 3 * ms), [], s, from, to) == 0;
  }

  lemma ThreeBurstsCount(s: Setup)
    requires s.limit > 0 && s.window >= MILLISECOND && s.window % MILLISECOND >= 2 && s.lag == 0
    ensures var from := Milliseconds(s.window) * MILLISECOND - 1;
            Admitted(Gone, ThreeBursts(s), s, from, from + s.window) >= if Milliseconds(s.window) == 1 then 3 * s.limit else 3 * s.limit - 1
  {
    var ms := Milliseconds(s.window);
    var from, first := ms * MILLISECOND - 1, if ms == 1 then MILLISECOND - 1 else 0;
    var to, later := from + s.window, Same(ms * MILLISECOND, s.limit) + Same(2 * ms * MILLISECOND, s.limit);
    Ticks(ms);
    OneRequest(Gone, first, Same(ms * MILLISECOND - 1, s.limit - 1) + later, s, from, to);
    Burst(1, ms, ms * MILLISECOND - 1, s.limit - 1, later, s, from, to);
    LaterBursts(s, from, to);
  }

  /** For example a window of 1.9 ms, with keys gone at their deadline, admits three times the limit. */
  lemma PartialMillisecond(limit: nat)
    requires limit > 0
    ensures var s := Setup(limit, 1_900_000, 0);
            Ordered(ThreeBursts(s)) && Admitted(Gone, ThreeBursts(s), s, 999_999, 999_999 + 1_900_000) >= 3 * limit
  {
    ThreeBurstsCount(Setup(limit, 1_900_000, 0));
  }

  // ----- exactly how much -----

  /** This interval of one window admits this many of the requests. */
  predicate Admits(times: seq<int>, from: int, s: Setup, n: nat) {
    Ordered(times) && Admitted(Gone, times, s, from, from + s.window) == n
  }

  /** This window of these requests admits at most so many. */
  predicate AtMost(times: seq<int>, from: int, s: Setup, n: nat) {
    Ordered(times) ==> Admitted(Gone, times, s, from, from + s.window) <= n
  }

  lemma PeakIsReached(s: Setup) returns (times: seq<int>, from: int)
    requires s.limit > 0 && s.window >= MILLISECOND
    ensures Admits(times, from, s, Peak(s))
  {
    if s.lag == 0 && s.window % MILLISECOND >= 2 {
      times, from := ThreeBursts(s), Milliseconds(s.window) * MILLISECOND - 1;
      ThreeBurstsCount(s);
      assert Ordered(times);
      PeakBound(Gone, times, s, from);
    } else if s.lag == 0 || (s.lag == 1 && s.window % MILLISECOND >= 2) {
      times, from := TwoBursts(s), MILLISECOND - 1;
      TwoBurstsCount(s);
    } else {
      times, from := LateBursts(s), s.lag * MILLISECOND + MILLISECOND - 1;
      LateBurstsCount(s);
      LateBurstsOrdered(s);
    }
  }

  /** From one millisecond on, the peak is the least upper bound of what one configured window admits. */
  lemma PeakIsExact(s: Setup)
    requires s.limit > 0 && s.window >= MILLISECOND
    ensures forall times, from :: AtMost(times, from, s, Peak(s))
    ensures exists times, from :: Admits(times, from, s, Peak(s))
  {
    var times, from := PeakIsReached(s);
    forall times, from ensures AtMost(times, from, s, Peak(s)) {
      if Ordered(times) {
        PeakBound(Gone, times, s, from);
      }
    }
  }

  /** The settings under which one window never admits more than twice the limit. */
  predicate Sound(s: Setup) {
    s.window >= MILLISECOND && (s.window % MILLISECOND <= 1 || s.lag >= 1 || (s.limit == 1 && s.window >= 2 * MILLISECOND))
  }

  /** No interval of one configured window ever admits more than twice the limit, if and only if the settings are sound. */
  lemma AtMostTwiceIffSound(s: Setup)
    requires s.limit > 0 && s.window > 0
    ensures (forall times, from :: AtMost(times, from, s, 2 * s.limit)) <==> Sound(s)
  {
    if s.window < MILLISECOND {
      NoLimit(0, 2 * s.limit + 1, s, 0, s.window);
      assert !AtMost(Same(0, 2 * s.limit + 1), 0, s, 2 * s.limit);
    } else {
      PeakIsExact(s);
      assert Sound(s) <==> Peak(s) <= 2 * s.limit;
      if Sound(s) {
        forall times, from ensures AtMost(times, from, s, 2 * s.limit) {
          assert AtMost(times, from, s, Peak(s));
        }
      } else {
        var times, from :| Admits(times, from, s, Peak(s));
        assert !AtMost(times, from, s, 2 * s.limit);
      }
    }
  }
}
