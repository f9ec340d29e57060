/**
  The sliding-window rate limiter: per key, a list of admission times that is pruned and
  extended in place.
 */
module RateLimiter {
  import opened Domain

  datatype Settings = Settings(window: int, maxRequests: int)

  /** `kept` is what the limiter stores; `admitted` is a history variable, every admission ever made. */
  datatype Log = Log(kept: seq<int>, admitted: seq<int>)

  const NO_REQUESTS := Log([], [])

  /** The admission times still inside the window. */
  function Recent(s: seq<int>, now: int, window: int): seq<int> {
    if s == [] then []
    else
      var rest, last := Recent(s[..|s| - 1], now, window), s[|s| - 1];
      if now - last < window then rest + [last] else rest
  }

  function Request(c: Settings, l: Log, now: int): (Log, bool) {
    var pruned := Recent(l.kept, now, c.window);
    if |pruned| >= c.maxRequests then (l.(kept := pruned), false) else (Log(pruned + [now], l.admitted + [now]), true)
  }

  datatype Arrival = Arrival(key: Name, now: int)

  function LogOf(logs: map<Name, Log>, key: Name): Log {
    if key in logs then logs[key] else NO_REQUESTS
  }

  function Handle(c: Settings, logs: map<Name, Log>, a: Arrival): map<Name, Log> {
    logs[a.key := Request(c, LogOf(logs, a.key), a.now).0]
  }

  function HandleAll(c: Settings, arrivals: seq<Arrival>): map<Name, Log> {
    if arrivals == [] then map[] else Handle(c, HandleAll(c, arrivals[..|arrivals| - 1]), arrivals[|arrivals| - 1])
  }

  predicate Nondecreasing(arrivals: seq<Arrival>) {
    forall i, j :: 0 <= i < j < |arrivals| ==> arrivals[i].now <= arrivals[j].now
  }

  // ---- Counting ----

  function Count(s: seq<int>, from: int, until: int): nat {
    if s == [] then 0
    else Count(s[..|s| - 1], from, until) + if from <= s[|s| - 1] < until then 1 else 0
  }

  /** The elements in the half-open interval of the window's length that starts at `from`. */
  function InWindow(s: seq<int>, from: int, window: int): nat {
    Count(s, from, from + window)
  }

  function Bound(c: Settings): nat {
    if c.maxRequests > 0 then c.maxRequests else 0
  }

  lemma CountAppend(s: seq<int>, t: int, from: int, until: int)
    ensures Count(s + [t], from, until) == Count(s, from, until) + if from <= t < until then 1 else 0
  {
    assert (s + [t])[..|s|] == s;
  }

  lemma RecentAppend(s: seq<int>, t: int, now: int, window: int)
    ensures Recent(s + [t], now, window) == Recent(s, now, window) + if now - t < window then [t] else []
  {
    assert (s + [t])[..|s|] == s;
  }

  /** A window that is not over yet lies inside what is still kept. */
  lemma {:induction false} CountIsRecent(s: seq<int>, now: int, window: int, from: int)
    requires now < from + window
    ensures Count(s, from, from + window) <= |Recent(s, now, window)|
  {
    if s != [] { CountIsRecent(s[..|s| - 1], now, window, from); }
  }

  /** Conversely, what is kept of a history up to now is what the last window holds. */
  lemma {:induction false} RecentIsCount(s: seq<int>, now: int, window: int)
    requires forall i :: 0 <= i < |s| ==> s[i] <= now
    ensures |Recent(s, now, window)| == Count(s, now - window + 1, now + 1)
  {
    if s != [] { RecentIsCount(s[..|s| - 1], now, window); }
  }

  /** Pruning early loses nothing that matters later. */
  lemma {:induction false} PruneTwice(s: seq<int>, early: int, late: int, window: int)
    requires early <= late
    ensures Recent(Recent(s, early, window), late, window) == Recent(s, late, window)
  {
    if s != [] {
      var front, last := s[..|s| - 1], s[|s| - 1];
      PruneTwice(front, early, late, window);
      if early - last < window { RecentAppend(Recent(front, early, window), last, late, window); }
    }
  }

  // ---- The invariant of one key's log ----

  /** From now on, the pruned list and the full history have the same recent part. */
  ghost predicate Refines(c: Settings, l: Log, clock: int) {
    forall now :: now >= clock ==> Recent(l.kept, now, c.window) == Recent(l.admitted, now, c.window)
  }

  ghost predicate WithinLimit(c: Settings, l: Log) {
    forall from :: InWindow(l.admitted, from, c.window) <= Bound(c)
  }

  ghost predicate Past(l: Log, clock: int) {
    forall i :: 0 <= i < |l.admitted| ==> l.admitted[i] <= clock
  }

  ghost predicate LogOk(c: Settings, l: Log, clock: int) {
    Refines(c, l, clock) && WithinLimit(c, l) && Past(l, clock)
  }

  lemma RequestRefines(c: Settings, l: Log, clock: int, now: int)
    requires Refines(c, l, clock) && clock <= now
    ensures Refines(c, Request(c, l, now).0, now)
  {
    hide Recent;
    var pruned := Recent(l.kept, now, c.window);
    forall later | later >= now
      ensures Recent(Request(c, l, now).0.kept, later, c.window)
              == Recent(Request(c, l, now).0.admitted, later, c.window)
    {
      PruneTwice(l.kept, now, later, c.window);
      RecentAppend(pruned, now, later, c.window);
      RecentAppend(l.admitted, now, later, c.window);
    }
  }

  lemma RequestWithinLimit(c: Settings, l: Log, clock: int, now: int)
    requires Refines(c, l, clock) && WithinLimit(c, l) && clock <= now
    ensures WithinLimit(c, Request(c, l, now).0)
  {
    hide Recent, Count;
    var l' := Request(c, l, now).0;
    assert Recent(l.kept, now, c.window) == Recent(l.admitted, now, c.window);
    forall from ensures InWindow(l'.admitted, from, c.window) <= Bound(c) {
      assert InWindow(l.admitted, from, c.window) <= Bound(c);
      CountAppend(l.admitted, now, from, from + c.window);
      if from <= now < from + c.window { CountIsRecent(l.admitted, now, c.window, from); }
    }
  }

  lemma RequestOk(c: Settings, l: Log, clock: int, now: int)
    requires LogOk(c, l, clock) && clock <= now
    ensures LogOk(c, Request(c, l, now).0, now)
  {
    hide Recent, Refines, WithinLimit;
    RequestRefines(c, l, clock, now);
    RequestWithinLimit(c, l, clock, now);
  }

  lemma LogLater(c: Settings, l: Log, clock: int, now: int)
    requires LogOk(c, l, clock) && clock <= now
    ensures LogOk(c, l, now)
  {
  }

  lemma EmptyOk(c: Settings, clock: int)
    ensures LogOk(c, NO_REQUESTS, clock)
  {
  }

  lemma {:induction false} AllOk(c: Settings, arrivals: seq<Arrival>, key: Name, clock: int)
    requires Nondecreasing(arrivals) && (arrivals != [] ==> arrivals[|arrivals| - 1].now <= clock)
    ensures LogOk(c, LogOf(HandleAll(c, arrivals), key), clock)
    decreases |arrivals|
  {
    hide LogOk, Request;
    if arrivals == [] {
      EmptyOk(c, clock);
    } else {
      var front, a := arrivals[..|arrivals| - 1], arrivals[|arrivals| - 1];
      AllOk(c, front, key, a.now);
      if key == a.key { RequestOk(c, LogOf(HandleAll(c, front), key), a.now, a.now); }
      LogLater(c, LogOf(HandleAll(c, arrivals), key), a.now, clock);
    }
  }

  // ---- Theorems ----

  /** Every half-open interval of the window's length holds at most `max_requests` admissions of a key. */
  lemma AdmissionsAreLimited(c: Settings, arrivals: seq<Arrival>, key: Name, from: int)
    requires Nondecreasing(arrivals)
    ensures InWindow(LogOf(HandleAll(c, arrivals), key).admitted, from, c.window) <= Bound(c)
  {
    hide HandleAll, Count, Refines, Nondecreasing;
    AllOk(c, arrivals, key, if arrivals == [] then 0 else arrivals[|arrivals| - 1].now);
  }

  /** A request is admitted exactly when the window that ends with it really has room. */
  lemma RejectedOnlyWhenFull(c: Settings, arrivals: seq<Arrival>, a: Arrival)
    requires Nondecreasing(arrivals) && (arrivals != [] ==> arrivals[|arrivals| - 1].now <= a.now)
    ensures var l := LogOf(HandleAll(c, arrivals), a.key);
            Request(c, l, a.now).1 <==> Count(l.admitted, a.now - c.window + 1, a.now + 1) < c.maxRequests
  {
    hide HandleAll, Count, WithinLimit, Nondecreasing, Recent;
    AllOk(c, arrivals, a.key, a.now);
    var l := LogOf(HandleAll(c, arrivals), a.key);
    RecentIsCount(l.admitted, a.now, c.window);
  }

  // ---- What the logs are made of ----

  /** The arrivals of one key. */
  function ArrivalsOf(arrivals: seq<Arrival>, key: Name): seq<Arrival> {
    if arrivals == [] then []
    else
      var front, last := ArrivalsOf(arrivals[..|arrivals| - 1], key), arrivals[|arrivals| - 1];
      if last.key == key then front + [last] else front
  }

  /** The times of the requests under a key that were let through. */
  function LetThrough(c: Settings, arrivals: seq<Arrival>, key: Name): seq<int> {
    if arrivals == [] then []
    else
      var front, last := arrivals[..|arrivals| - 1], arrivals[|arrivals| - 1];
      LetThrough(c, front, key)
      + if last.key == key && Request(c, LogOf(HandleAll(c, front), key), last.now).1 then [last.now] else []
  }

  /** What one key does is nothing to another: a key's log is what its own arrivals alone would have made. */
  lemma {:induction false} KeysAreIndependent(c: Settings, arrivals: seq<Arrival>, key: Name)
    ensures LogOf(HandleAll(c, arrivals), key) == LogOf(HandleAll(c, ArrivalsOf(arrivals, key)), key)
    decreases |arrivals|
  {
    hide Request;
    if arrivals != [] {
      var front, last := arrivals[..|arrivals| - 1], arrivals[|arrivals| - 1];
      KeysAreIndependent(c, front, key);
      if last.key == key { HandleNext(c, ArrivalsOf(front, key), last); }
    }
  }

  /** The history of a key is the times of its requests that were let through. */
  lemma {:induction false} AdmittedWereLetThrough(c: Settings, arrivals: seq<Arrival>, key: Name)
    ensures LogOf(HandleAll(c, arrivals), key).admitted == LetThrough(c, arrivals, key)
    decreases |arrivals|
  {
    hide Recent;
    if arrivals != [] { AdmittedWereLetThrough(c, arrivals[..|arrivals| - 1], key); }
  }

  // ---- Which settings need a clock that does not step back ----

  /** Whatever the clock does, no window of any key holds more than the limit. */
  ghost predicate LimitedOnEveryClock(c: Settings) {
    forall arrivals, key, from :: InWindow(LogOf(HandleAll(c, arrivals), key).admitted, from, c.window) <= Bound(c)
  }

  /** Later admissions come at least a window after earlier ones. */
  ghost predicate Spaced(s: seq<int>, window: int) {
    forall i, j :: 0 <= i < j < |s| ==> s[j] - s[i] >= window
  }

  lemma {:induction false} SpacedCount(s: seq<int>, window: int, from: int)
    requires Spaced(s, window)
    ensures InWindow(s, from, window) <= 1
    ensures InWindow(s, from, window) > 0 ==> exists i :: 0 <= i < |s| && from <= s[i] < from + window
    decreases |s|
  {
    if s != [] {
      var n := |s| - 1;
      SpacedCount(s[..n], window, from);
      if InWindow(s[..n], from, window) > 0 {
        var i :| 0 <= i < n && from <= s[..n][i] < from + window;
        assert s[n] - s[i] >= window;
      }
    }
  }

  /** At a limit of one, only the last admission is kept, and it holds off the next one for a window. */
  ghost predicate OneAtATime(c: Settings, l: Log) {
    Spaced(l.admitted, c.window) && l.kept == if l.admitted == [] then [] else [l.admitted[|l.admitted| - 1]]
  }

  lemma RecentOfOne(t: int, now: int, window: int)
    ensures Recent([], now, window) == []
    ensures Recent([t], now, window) == if now - t < window then [t] else []
  {
    assert [t][..0] == [];
  }

  lemma RequestOneAtATime(c: Settings, l: Log, now: int)
    requires c.maxRequests == 1 && c.window > 0 && OneAtATime(c, l)
    ensures OneAtATime(c, Request(c, l, now).0)
  {
    hide Recent;
    RecentOfOne(if l.admitted == [] then 0 else l.admitted[|l.admitted| - 1], now, c.window);
  }

  /** What each setting without a need for the clock keeps: nothing admitted, or one at a time. */
  ghost predicate Easy(c: Settings, l: Log) {
    if c.maxRequests <= 0 then l.admitted == [] else c.window > 0 ==> OneAtATime(c, l)
  }

  lemma {:induction false} AllEasy(c: Settings, arrivals: seq<Arrival>, key: Name)
    requires c.maxRequests <= 1
    ensures Easy(c, LogOf(HandleAll(c, arrivals), key))
    decreases |arrivals|
  {
    hide Recent, OneAtATime;
    if arrivals == [] {
      assert OneAtATime(c, NO_REQUESTS) by { NothingIsSpaced(c); }
    } else {
      var front, a := arrivals[..|arrivals| - 1], arrivals[|arrivals| - 1];
      AllEasy(c, front, key);
      if c.maxRequests == 1 && c.window > 0 && key == a.key {
        RequestOneAtATime(c, LogOf(HandleAll(c, front), key), a.now);
      }
    }
  }

  lemma NothingIsSpaced(c: Settings)
    ensures OneAtATime(c, NO_REQUESTS)
  {
  }

  lemma {:induction false} EmptyWindow(s: seq<int>, from: int, window: int)
    requires window <= 0
    ensures InWindow(s, from, window) == 0
    decreases |s|
  {
    if s != [] { EmptyWindow(s[..|s| - 1], from, window); }
  }

  /** A limit of at most one, or an empty window, holds on any clock. */
  lemma AnyClockIsFine(c: Settings, arrivals: seq<Arrival>, key: Name, from: int)
    requires c.maxRequests <= 1 || c.window <= 0
    ensures InWindow(LogOf(HandleAll(c, arrivals), key).admitted, from, c.window) <= Bound(c)
  {
    hide HandleAll, Request;
    var s := LogOf(HandleAll(c, arrivals), key).admitted;
    if c.window <= 0 {
      EmptyWindow(s, from, c.window);
    } else {
      AllEasy(c, arrivals, key);
      if c.maxRequests == 1 { SpacedCount(s, c.window, from); }
    }
  }

  function Repeat(t: int, n: nat): (s: seq<int>)
    ensures |s| == n
  {
    if n == 0 then [] else Repeat(t, n - 1) + [t]
  }

  lemma {:induction false} RepeatRecent(t: int, n: nat, now: int, window: int)
    ensures Recent(Repeat(t, n), now, window) == if now - t < window then Repeat(t, n) else []
  {
    if n > 0 {
      RepeatRecent(t, n - 1, now, window);
      RecentAppend(Repeat(t, n - 1), t, now, window);
    }
  }

  lemma {:induction false} RepeatCount(t: int, n: nat, from: int, until: int)
    requires from <= t < until
    ensures Count(Repeat(t, n), from, until) == n
  {
    if n > 0 {
      RepeatCount(t, n - 1, from, until);
      CountAppend(Repeat(t, n - 1), t, from, until);
    }
  }

  /** `n` requests at the same time. */
  function Burst(key: Name, t: int, n: nat): (arrivals: seq<Arrival>)
    ensures forall i :: 0 <= i < |arrivals| ==> arrivals[i] == Arrival(key, t)
  {
    if n == 0 then [] else Burst(key, t, n - 1) + [Arrival(key, t)]
  }

  lemma HandleNext(c: Settings, arrivals: seq<Arrival>, a: Arrival)
    ensures LogOf(HandleAll(c, arrivals + [a]), a.key) == Request(c, LogOf(HandleAll(c, arrivals), a.key), a.now).0
  {
    assert (arrivals + [a])[..|arrivals|] == arrivals;
  }

  lemma {:induction false} BurstIsAdmitted(c: Settings, key: Name, t: int, n: nat)
    requires c.window > 0 && n <= c.maxRequests
    ensures LogOf(HandleAll(c, Burst(key, t, n)), key) == Log(Repeat(t, n), Repeat(t, n))
  {
    hide HandleAll;
    if n == 0 {
      assert HandleAll(c, []) == map[] by { HandleNothing(c); }
    } else {
      BurstIsAdmitted(c, key, t, n - 1);
      HandleNext(c, Burst(key, t, n - 1), Arrival(key, t));
      RepeatRecent(t, n - 1, t, c.window);
    }
  }

  lemma HandleNothing(c: Settings)
    ensures HandleAll(c, []) == map[]
  {
  }

  /**
    The time that a burst must have so that a clock falling from `t` to `back` forgets it and then
    comes back to it.
   */
  function BurstTime(c: Settings, t: int, back: int): int {
    if t - back <= c.window then t - c.window else back
  }

  /** A burst up to the limit and one request at `t`. */
  function UpTo(c: Settings, key: Name, t: int, back: int): seq<Arrival>
    requires c.maxRequests >= 0
  {
    Burst(key, BurstTime(c, t, back), c.maxRequests) + [Arrival(key, t)]
  }

  /**
    With a limit of two or more and a window, every single step back breaks the limit: some
    history that is nondecreasing up to that step puts one admission too many into a window.
   */
  lemma StepBackBreaksTheLimit(c: Settings, key: Name, t: int, back: int)
    requires c.maxRequests >= 2 && c.window > 0 && back < t
    ensures Nondecreasing(UpTo(c, key, t, back))
    ensures var l := LogOf(HandleAll(c, UpTo(c, key, t, back) + [Arrival(key, back)]), key);
            InWindow(l.admitted, BurstTime(c, t, back), c.window) == c.maxRequests + 1
  {
    hide HandleAll, Recent, Count;
    var s, n := BurstTime(c, t, back), c.maxRequests;
    var burst, all := Burst(key, s, n), Repeat(s, n);
    BurstIsAdmitted(c, key, s, n);
    HandleNext(c, burst, Arrival(key, t));
    RepeatRecent(s, n, t, c.window);
    assert LogOf(HandleAll(c, UpTo(c, key, t, back)), key) == Log([t], all + [t]);
    HandleNext(c, UpTo(c, key, t, back), Arrival(key, back));
    RecentOfOne(t, back, c.window);
    RepeatCount(s, n, s, s + c.window);
    CountAppend(all, t, s, s + c.window);
    CountAppend(all + [t], back, s, s + c.window);
  }

  /** The limit holds on every clock exactly for a limit of at most one or an empty window. */
  lemma ClockMatters(c: Settings)
    ensures LimitedOnEveryClock(c) <==> c.maxRequests <= 1 || c.window <= 0
  {
    hide HandleAll, InWindow;
    if c.maxRequests <= 1 || c.window <= 0 {
      forall arrivals, key, from
        ensures InWindow(LogOf(HandleAll(c, arrivals), key).admitted, from, c.window) <= Bound(c)
      {
        AnyClockIsFine(c, arrivals, key, from);
      }
    } else {
      StepBackBreaksTheLimit(c, Name(""), 1, 0);
    }
  }

  /** Requests at 5, 5, 20 and then 5 again put three admissions into [5, 15) at a limit of two. */
  lemma BackwardClockBreaksTheLimit(key: Name)
    ensures var c := Settings(10, 2);
            var at5, at20 := Arrival(key, 5), Arrival(key, 20);
            InWindow(LogOf(HandleAll(c, [at5, at5, at20, at5]), key).admitted, 5, c.window) == 3
  {
    var c, at5, at20 := Settings(10, 2), Arrival(key, 5), Arrival(key, 20);
    StepBackBreaksTheLimit(c, key, 20, 5);
    assert Burst(key, 5, 2) == [at5, at5] by {
      assert Burst(key, 5, 1) == [] + [at5];
      assert Burst(key, 5, 2) == Burst(key, 5, 1) + [at5];
    }
    assert UpTo(c, key, 20, 5) + [at5] == [at5, at5, at20, at5];
  }

  // ---- The middleware as an object ----

  class Limiter {
    const settings: Settings
    var requests: map<Name, seq<int>>
    ghost var logs: map<Name, Log>

    ghost predicate Valid()
      reads this
    {
      requests.Keys == logs.Keys && forall k :: k in logs ==> logs[k].kept == requests[k]
    }

    constructor (settings: Settings)
      ensures Valid() && this.settings == settings && logs == map[]
    {
      this.settings := settings;
      requests, logs := map[], map[];
    }

    method Prune(times: seq<int>, now: int) returns (pruned: seq<int>)
      ensures pruned == Recent(times, now, settings.window)
    {
      pruned := [];
      var i := 0;
      while i < |times|
        invariant 0 <= i <= |times| && pruned == Recent(times[..i], now, settings.window)
      {
        assert times[..i + 1] == times[..i] + [times[i]];
        RecentAppend(times[..i], times[i], now, settings.window);
        if now - times[i] < settings.window { pruned := pruned + [times[i]]; }
        i := i + 1;
      }
      assert times[..i] == times;
    }

    method Dispatch(key: Name, now: int) returns (admitted: bool)
      requires Valid()
      modifies this
      ensures Valid() && logs == Handle(settings, old(logs), Arrival(key, now))
      ensures admitted == Request(settings, LogOf(old(logs), key), now).1
    {
      ghost var log := LogOf(logs, key);
      logs := logs[key := Request(settings, log, now).0];
      var pruned := Prune(if key in requests then requests[key] else [], now);
      requests := requests[key := pruned];
      admitted := |pruned| < settings.maxRequests;
      if admitted { requests := requests[key := requests[key] + [now]]; }
    }
  }
}
