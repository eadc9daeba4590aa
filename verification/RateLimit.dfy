/**
 The fixed-window limiter of package/common/rate_limit.py over the shared store.
 A window opens with its first hit and lasts `window` seconds.
 */
module RateLimit {
  import opened Wrappers
  import opened RedisStore
  import opened Sets
  import Decimal

  /** enforce_rate: fail-open for a non-positive limit and when there is no count. */
  function Enforce(s: Store, key: string, limit: int, window: int): (Store, bool) {
    if limit <= 0 then (s, true)
    else
      var (s', n) := Incr(s, key, window);
      (s', n.None? || n.value <= limit)
  }

  method EnforceRate(redis: Redis, key: string, limit: int, window: int) returns (admitted: bool)
    modifies redis
    ensures (redis.Snapshot(), admitted) == Enforce(old(redis.Snapshot()), key, limit, window)
  {
    if limit <= 0 {
      return true;
    }
    var n := redis.Increment(key, window);
    if n.Some? && n.value > limit {
      return false;
    }
    admitted := true;
  }

  /** One admitted call: when it came, and when the window that counted it since. */
  datatype Admission = Admission(at: real, since: real)

  /** The window and the count stored under a counter key. */
  datatype Counter = Counter(since: real, count: nat)

  function ReadCounter(s: Store, key: string, window: nat): Option<Counter> {
    if key !in s.data || s.data[key].deadline.None? then None
    else
      match Decimal.Parse(s.data[key].value)
      case None => None
      case Some(n) => Some(Counter(s.data[key].deadline.value - window as real, n))
  }

  /** Between any two calls: how the stored counter relates to the admissions so far. */
  ghost predicate Windowed(s: Store, key: string, limit: nat, window: nat, log: seq<Admission>)
    requires limit > 0
  {
    && s.up
    && Ordered(limit, window, log)
    && if key !in s.data then log == []
       else
         var c := ReadCounter(s, key, window);
         c.Some? && c.value.since <= s.now && Tail(c.value, limit, window, log)
  }

  /** The current window owns the last `count` admissions (at most `limit`); older ones are over. */
  ghost predicate Tail(c: Counter, limit: nat, window: nat, log: seq<Admission>) {
    var cut := |log| - if c.count < limit then c.count else limit;
    && 0 < c.count && 0 <= cut
    && (forall i :: 0 <= i < cut ==> log[i].since + window as real <= c.since)
    && (forall i :: cut <= i < |log| ==> log[i].since == c.since)
  }

  /** Every call falls into the window that counted it. */
  ghost predicate InsideWindows(window: nat, log: seq<Admission>) {
    forall i :: 0 <= i < |log| ==> log[i].since <= log[i].at < log[i].since + window as real
  }

  ghost predicate WindowsInOrder(log: seq<Admission>) {
    forall i, j :: 0 <= i < j < |log| ==> log[i].since <= log[j].since
  }

  /** Calls `limit` apart in the log are in different windows. */
  ghost predicate WindowsFill(limit: nat, window: nat, log: seq<Admission>) {
    forall i, j :: 0 <= i < |log| - limit && j == i + limit ==> log[i].since + window as real <= log[j].since
  }

  /** A call that did not open its window shares it with the call before. */
  ghost predicate OpenedByFirst(log: seq<Admission>) {
    && (forall i, j :: 0 <= i && j == i + 1 && j < |log| && log[j].at != log[j].since ==> log[i].since == log[j].since)
    && (0 < |log| ==> log[0].at == log[0].since)
  }

  /** The shape of a log in which no window admits more than `limit` calls. */
  ghost predicate Ordered(limit: nat, window: nat, log: seq<Admission>)
    requires limit > 0
  {
    InsideWindows(window, log) && WindowsInOrder(log) && WindowsFill(limit, window, log) && OpenedByFirst(log)
  }

  function LogHit(s: Store, key: string, limit: nat, window: nat, log: seq<Admission>): seq<Admission>
    requires limit > 0
  {
    var (s', admitted) := Enforce(s, key, limit, window);
    var c := ReadCounter(s', key, window);
    if admitted && c.Some? then log + [Admission(s.now, c.value.since)] else log
  }

  /** What a hit makes of the counter: a fresh window once the old one is over. */
  function NextCounter(c: Option<Counter>, now: real, window: nat): Counter {
    if c.None? || c.value.since + window as real <= now then Counter(now, 1)
    else Counter(c.value.since, c.value.count + 1)
  }

  lemma IncrIsNextCounter(s: Store, key: string, window: nat)
    requires s.up && (key in s.data ==>
                        ReadCounter(s, key, window).Some? && ReadCounter(s, key, window).value.count > 0)
    ensures var (s', n) := Incr(s, key, window);
            var c := NextCounter(ReadCounter(s, key, window), s.now, window);
            && s'.up && s'.now == s.now && key in s'.data
            && ReadCounter(s', key, window) == Some(c) && n == Some(c.count)
  {
    Decimal.ParseNumeral(1);
    if s.Live(key) {
      Decimal.ParseNumeral(ReadCounter(s, key, window).value.count + 1);
    }
  }

  lemma OpenWindow(limit: nat, window: nat, log: seq<Admission>, c: Counter, now: real)
    requires limit > 0 && window > 0 && Ordered(limit, window, log)
    requires log == [] || (Tail(c, limit, window, log) && c.since + window as real <= now)
    ensures var log' := log + [Admission(now, now)];
            Ordered(limit, window, log') && Tail(Counter(now, 1), limit, window, log')
  {
    forall i | 0 <= i < |log|
      ensures log[i].since + window as real <= now
    {
      assert log[i].since <= c.since;
    }
    OpenedTail(limit, window, log, now);
    hide Tail;
    OpenedOrdered(limit, window, log, now);
  }

  lemma OpenedTail(limit: nat, window: nat, log: seq<Admission>, now: real)
    requires limit > 0 && forall i :: 0 <= i < |log| ==> log[i].since + window as real <= now
    ensures Tail(Counter(now, 1), limit, window, log + [Admission(now, now)])
  {
  }

  lemma OrderSnoc(window: nat, log: seq<Admission>, a: Admission)
    requires InsideWindows(window, log) && WindowsInOrder(log) && a.since <= a.at < a.since + window as real
    requires forall i :: 0 <= i < |log| ==> log[i].since <= a.since
    ensures InsideWindows(window, log + [a]) && WindowsInOrder(log + [a])
  {
  }

  lemma FillSnoc(limit: nat, window: nat, log: seq<Admission>, a: Admission)
    requires limit > 0 && WindowsFill(limit, window, log)
    requires limit <= |log| ==> log[|log| - limit].since + window as real <= a.since
    ensures WindowsFill(limit, window, log + [a])
  {
    var log' := log + [a];
    forall i, j | 0 <= i < |log'| - limit && j == i + limit
      ensures log'[i].since + window as real <= log'[j].since
    {
      if j < |log| {
        assert log'[i] == log[i] && log'[j] == log[j];
        assert log[i].since + window as real <= log[j].since;
      }
    }
  }

  lemma OpenedSnoc(log: seq<Admission>, a: Admission)
    requires OpenedByFirst(log) && (a.at != a.since ==> log != [] && log[|log| - 1].since == a.since)
    ensures OpenedByFirst(log + [a])
  {
    var log' := log + [a];
    forall i, j | 0 <= i && j == i + 1 && j < |log'| && log'[j].at != log'[j].since
      ensures log'[i].since == log'[j].since
    {
      if j < |log| {
        assert log'[i] == log[i] && log'[j] == log[j];
      }
    }
  }

  lemma OpenedOrdered(limit: nat, window: nat, log: seq<Admission>, now: real)
    requires limit > 0 && window > 0 && Ordered(limit, window, log)
    requires forall i :: 0 <= i < |log| ==> log[i].since + window as real <= now
    ensures Ordered(limit, window, log + [Admission(now, now)])
  {
    hide InsideWindows, WindowsInOrder, WindowsFill, OpenedByFirst;
    OrderSnoc(window, log, Admission(now, now));
    FillSnoc(limit, window, log, Admission(now, now));
    OpenedSnoc(log, Admission(now, now));
  }

  lemma ContinueWindow(limit: nat, window: nat, log: seq<Admission>, c: Counter, now: real)
    requires limit > 0 && window > 0 && Ordered(limit, window, log) && Tail(c, limit, window, log)
    requires c.since <= now < c.since + window as real && c.count < limit
    ensures var log' := log + [Admission(now, c.since)];
            Ordered(limit, window, log') && Tail(Counter(c.since, c.count + 1), limit, window, log')
  {
    ContinuedTail(limit, window, log, c, now);
    assert log != [] && log[|log| - 1].since == c.since && forall i :: 0 <= i < |log| ==> log[i].since <= c.since;
    forall i | 0 <= i <= |log| - limit
      ensures log[i].since + window as real <= c.since
    {
    }
    hide Tail;
    ContinuedOrdered(limit, window, log, c.since, now);
  }

  lemma ContinuedTail(limit: nat, window: nat, log: seq<Admission>, c: Counter, now: real)
    requires Tail(c, limit, window, log) && c.count < limit
    ensures Tail(Counter(c.since, c.count + 1), limit, window, log + [Admission(now, c.since)])
  {
  }

  lemma ContinuedOrdered(limit: nat, window: nat, log: seq<Admission>, since: real, now: real)
    requires limit > 0 && window > 0 && Ordered(limit, window, log) && since <= now < since + window as real
    requires log != [] && log[|log| - 1].since == since && forall i :: 0 <= i < |log| ==> log[i].since <= since
    requires forall i :: 0 <= i <= |log| - limit ==> log[i].since + window as real <= since
    ensures Ordered(limit, window, log + [Admission(now, since)])
  {
    hide InsideWindows, WindowsInOrder, WindowsFill, OpenedByFirst;
    OrderSnoc(window, log, Admission(now, since));
    FillSnoc(limit, window, log, Admission(now, since));
    OpenedSnoc(log, Admission(now, since));
  }

  /** A hit on the key keeps the log windowed; an admitted one is logged with its time. */
  lemma HitKeepsWindowed(s: Store, key: string, limit: nat, window: nat, log: seq<Admission>)
    requires limit > 0 && window > 0 && Windowed(s, key, limit, window, log)
    ensures var (s', admitted) := Enforce(s, key, limit, window);
            var log' := LogHit(s, key, limit, window, log);
            && Windowed(s', key, limit, window, log')
            && |log'| == |log| + (if admitted then 1 else 0)
            && (admitted ==> log'[|log|].at == s.now)
  {
    var cur := ReadCounter(s, key, window);
    IncrIsNextCounter(s, key, window);
    if cur.None? {
      OpenWindow(limit, window, log, Counter(s.now, 1), s.now);
    } else if cur.value.since + window as real <= s.now {
      OpenWindow(limit, window, log, cur.value, s.now);
    } else if cur.value.count < limit {
      ContinueWindow(limit, window, log, cur.value, s.now);
    }
  }

  /** Without Redis, or without a limit, every call is admitted and nothing is written. */
  lemma FailsOpen(s: Store, key: string, limit: int, window: int)
    requires !s.up || limit <= 0
    ensures Enforce(s, key, limit, window) == (s, true)
  {
  }

  /** With Redis a call is refused exactly when the running window has had `limit` calls already. */
  lemma RefusedIff(s: Store, key: string, limit: nat, window: nat)
    requires s.up && limit > 0 && window > 0
    requires key in s.data ==>
               ReadCounter(s, key, window).Some? && ReadCounter(s, key, window).value.count > 0
    ensures var c := ReadCounter(s, key, window);
            !Enforce(s, key, limit, window).1 <==>
            c.Some? && s.now < c.value.since + window as real && c.value.count >= limit
  {
    IncrIsNextCounter(s, key, window);
    hide ReadCounter;
  }

  /** Nothing but a hit on the key itself, or the clock, touches its window. */
  lemma OtherStepsKeepWindowed(s: Store, s': Store, key: string, limit: nat, window: nat, log: seq<Admission>)
    requires limit > 0 && window > 0 && Windowed(s, key, limit, window, log)
    requires s'.up && s.now <= s'.now
    requires key in s'.data <==> key in s.data
    requires key in s.data ==> s'.data[key] == s.data[key]
    ensures Windowed(s', key, limit, window, log)
  {
  }

  /** Index distance `limit` in the log means a later window. */
  lemma LaterWindow(limit: nat, window: nat, log: seq<Admission>, i: nat, j: nat)
    requires limit > 0 && Ordered(limit, window, log)
    requires i + limit <= j < |log|
    ensures log[i].since + window as real <= log[j].since
  {
    var k := i + limit;
    assert log[i].since + window as real <= log[k].since;
    assert k == j || log[k].since <= log[j].since;
  }

  /** Index distance 2 * limit - 1 means at least a window apart in time. */
  lemma FarApart(limit: nat, window: nat, log: seq<Admission>, i: nat, j: nat)
    requires limit > 0 && Ordered(limit, window, log)
    requires i + 2 * limit - 1 <= j < |log|
    ensures log[i].at + window as real <= log[j].at
  {
    if log[i].at == log[i].since {
      LaterWindow(limit, window, log, i, j);
    } else {
      assert log[i - 1].since == log[i].since;
      LaterWindow(limit, window, log, i - 1, i - 1 + limit);
      LaterWindow(limit, window, log, i - 1 + limit, j);
    }
  }

  ghost function Within(log: seq<Admission>, from: real, to: real): set<nat> {
    set i: nat | i < |log| && from <= log[i].at < to
  }

  function Range(lo: nat, n: nat): (r: set<nat>)
    ensures forall i :: i in r <==> lo <= i < lo + n
    ensures |r| == n
  {
    if n == 0 then {} else Range(lo, n - 1) + {lo + n - 1}
  }

  lemma Least(s: set<nat>) returns (m: nat)
    requires s != {}
    ensures m in s && forall i :: i in s ==> m <= i
  {
    var x :| x in s;
    m := x;
    if i :| i in s && i < x {
      assert i in s - {x};
      m := Least(s - {x});
      assert forall k :: k in s ==> k == x || k in s - {x};
    }
  }

  /** Any half-open interval one window long holds at most 2 * limit - 1 admitted calls. */
  lemma SlidingBound(limit: nat, window: nat, log: seq<Admission>, from: real)
    requires limit > 0 && window > 0 && Ordered(limit, window, log)
    ensures |Within(log, from, from + window as real)| <= 2 * limit - 1
  {
    var inside := Within(log, from, from + window as real);
    if inside != {} {
      var m := Least(inside);
      forall j | j in inside
        ensures j in Range(m, 2 * limit - 1)
      {
        if m + 2 * limit - 1 <= j {
          FarApart(limit, window, log, m, j);
        }
      }
      SubsetSize(inside, Range(m, 2 * limit - 1));
    }
  }

  /** The calls one fixed window admitted. */
  ghost function SameWindow(log: seq<Admission>, since: real): set<nat> {
    set i: nat | i < |log| && log[i].since == since
  }

  lemma FixedWindowBound(limit: nat, window: nat, log: seq<Admission>, since: real)
    requires limit > 0 && window > 0 && Ordered(limit, window, log)
    ensures |SameWindow(log, since)| <= limit
  {
    var inside := SameWindow(log, since);
    if inside != {} {
      var m := Least(inside);
      forall j | j in inside
        ensures j in Range(m, limit)
      {
        if m + limit <= j {
          LaterWindow(limit, window, log, m, j);
        }
      }
      SubsetSize(inside, Range(m, limit));
    }
  }

  // ---- runs over the whole store ----

  /** Everything that can happen to the store while one key is being limited. */
  datatype Event =
    | Call(key: string, limit: int, window: int)
    | Write(key: string, value: string, ttl: int)
    | Erase(key: string)
    | Tick(dt: real)

  function Step(s: Store, e: Event): Store {
    match e
    case Call(k, l, w) => Enforce(s, k, l, w).0
    case Write(k, v, ttl) => Set(s, k, v, ttl).0
    case Erase(k) => Delete(s, k)
    case Tick(dt) => Advance(s, dt)
  }

  function Run(s: Store, es: seq<Event>): Store {
    if es == [] then s else Step(Run(s, es[..|es| - 1]), es[|es| - 1])
  }

  /** `key` is only ever used as a counter, always with the same limit and window. */
  predicate Dedicated(es: seq<Event>, key: string, limit: nat, window: nat) {
    forall e :: e in es ==>
      match e
      case Call(k, l, w) => k == key ==> l == limit && w == window
      case Write(k, _, _) => k != key
      case Erase(k) => k != key
      case Tick(_) => true
  }

  /** The admitted calls for `key`, in order. */
  function Admitted(s: Store, es: seq<Event>, key: string, limit: nat, window: nat): seq<Admission>
    requires limit > 0
  {
    if es == [] then []
    else
      var before := es[..|es| - 1];
      var log := Admitted(s, before, key, limit, window);
      var last := es[|es| - 1];
      if last.Call? && last.key == key then LogHit(Run(s, before), key, limit, window, log) else log
  }

  lemma NothingYet(s: Store, key: string, limit: nat, window: nat)
    requires limit > 0 && s.up && key !in s.data
    ensures Windowed(s, key, limit, window, [])
  {
  }

  lemma StepKeepsWindowed(s: Store, e: Event, key: string, limit: nat, window: nat, log: seq<Admission>)
    requires limit > 0 && window > 0 && Windowed(s, key, limit, window, log) && Dedicated([e], key, limit, window)
    ensures Windowed(Step(s, e), key, limit, window,
                     if e.Call? && e.key == key then LogHit(s, key, limit, window, log) else log)
  {
    assert e in [e] && s.up;
    if e.Call? && e.key == key {
      HitKeepsWindowed(s, key, limit, window, log);
      hide Windowed, LogHit, Enforce;
    } else {
      StepLeavesKey(s, e, key);
      hide Step, Windowed;
      OtherStepsKeepWindowed(s, Step(s, e), key, limit, window, log);
    }
  }

  lemma StepLeavesKey(s: Store, e: Event, key: string)
    requires e.Tick? || e.key != key
    ensures var t := Step(s, e);
            && t.up == s.up && s.now <= t.now && (key in t.data <==> key in s.data)
            && (key in s.data ==> t.data[key] == s.data[key])
  {
  }

  lemma {:induction false} RunIsWindowed(s: Store, es: seq<Event>, key: string, limit: nat, window: nat)
    requires limit > 0 && window > 0 && s.up && key !in s.data && Dedicated(es, key, limit, window)
    ensures Windowed(Run(s, es), key, limit, window, Admitted(s, es, key, limit, window))
  {
    hide Step, Windowed, LogHit;
    if es == [] {
      NothingYet(s, key, limit, window);
    } else {
      var before, last := es[..|es| - 1], es[|es| - 1];
      assert forall e :: e in before ==> e in es;
      assert last in es;
      RunIsWindowed(s, before, key, limit, window);
      StepKeepsWindowed(Run(s, before), last, key, limit, window, Admitted(s, before, key, limit, window));
    }
  }

  /**
   With Redis up, whatever else the store is used for: a fixed window admits at most
   `limit` calls, and any interval of one window's length at most 2 * limit - 1.
   */
  lemma LimiterBounds(s: Store, es: seq<Event>, key: string, limit: nat, window: nat, t: real)
    requires limit > 0 && window > 0 && s.up && key !in s.data && Dedicated(es, key, limit, window)
    ensures var log := Admitted(s, es, key, limit, window);
            && |SameWindow(log, t)| <= limit
            && |Within(log, t, t + window as real)| <= 2 * limit - 1
  {
    RunIsWindowed(s, es, key, limit, window);
    var log := Admitted(s, es, key, limit, window);
    FixedWindowBound(limit, window, log, t);
    SlidingBound(limit, window, log, t);
  }

  lemma Snoc(s: Store, es: seq<Event>, e: Event, key: string, limit: nat, window: nat)
    requires limit > 0
    ensures Run(s, es + [e]) == Step(Run(s, es), e)
    ensures Admitted(s, es + [e], key, limit, window) ==
            var log := Admitted(s, es, key, limit, window);
            if e.Call? && e.key == key then LogHit(Run(s, es), key, limit, window, log) else log
  {
    assert (es + [e])[..|es|] == es;
  }

  /** Where a run stands for one key: the time, its counter, and the admissions so far. */
  ghost predicate Stands(s: Store, es: seq<Event>, key: string, limit: nat, window: nat,
                         now: real, c: Option<Counter>, log: seq<Admission>)
    requires limit > 0
  {
    var t := Run(s, es);
    && t.up && t.now == now && ReadCounter(t, key, window) == c && (c.Some? ==> c.value.count > 0)
    && (key in t.data ==> c.Some?)
    && Admitted(s, es, key, limit, window) == log
  }

  lemma CallStep(s: Store, es: seq<Event>, key: string, limit: nat, window: nat,
                 now: real, c: Option<Counter>, log: seq<Admission>)
    requires limit > 0 && Stands(s, es, key, limit, window, now, c, log)
    ensures var c' := NextCounter(c, now, window);
            Stands(s, es + [Call(key, limit, window)], key, limit, window, now, Some(c'),
                   if c'.count <= limit then log + [Admission(now, c'.since)] else log)
  {
    IncrIsNextCounter(Run(s, es), key, window);
    Snoc(s, es, Call(key, limit, window), key, limit, window);
  }

  lemma TickStep(s: Store, es: seq<Event>, key: string, limit: nat, window: nat,
                 now: real, c: Option<Counter>, log: seq<Admission>, dt: real)
    requires limit > 0 && dt > 0.0 && Stands(s, es, key, limit, window, now, c, log)
    ensures Stands(s, es + [Tick(dt)], key, limit, window, now + dt, c, log)
  {
    Snoc(s, es, Tick(dt), key, limit, window);
  }

  function Repeat<T>(x: T, n: nat): (r: seq<T>)
    ensures |r| == n && forall i :: 0 <= i < n ==> r[i] == x
  {
    if n == 0 then [] else Repeat(x, n - 1) + [x]
  }

  /** `n` calls at one moment, while the open window still has room for them. */
  lemma {:induction false} Burst(s: Store, es: seq<Event>, key: string, limit: nat, window: nat,
                                 now: real, c: Counter, log: seq<Admission>, n: nat)
    requires limit > 0 && c.count + n <= limit && now < c.since + window as real
    requires Stands(s, es, key, limit, window, now, Some(c), log)
    ensures Stands(s, es + Repeat(Call(key, limit, window), n), key, limit, window, now,
                   Some(Counter(c.since, c.count + n)), log + Repeat(Admission(now, c.since), n))
  {
    hide Stands;
    var call := Call(key, limit, window);
    if n == 0 {
      assert es + Repeat(call, 0) == es && log + Repeat(Admission(now, c.since), 0) == log;
    } else {
      var es', log' := es + Repeat(call, n - 1), log + Repeat(Admission(now, c.since), n - 1);
      Burst(s, es, key, limit, window, now, c, log, n - 1);
      CallStep(s, es', key, limit, window, now, Some(Counter(c.since, c.count + n - 1)), log');
      assert es' + [call] == es + Repeat(call, n);
      assert log' + [Admission(now, c.since)] == log + Repeat(Admission(now, c.since), n);
    }
  }

  /** First half of the schedule below: the window opens at 0 and fills up just before it closes. */
  lemma FillLate(limit: nat, window: nat, from: real) returns (es: seq<Event>)
    requires limit > 0 && window > 0 && from == window as real - 0.5
    ensures OnlyCallsAndTicks(es, "k", limit, window)
    ensures Stands(Store(true, 0.0, map[]), es, "k", limit, window, from, Some(Counter(0.0, limit)),
                   [Admission(0.0, 0.0)] + Repeat(Admission(from, 0.0), limit - 1))
  {
    var s, call, first := Store(true, 0.0, map[]), Call("k", limit, window), [Admission(0.0, 0.0)];
    es := [call, Tick(from)] + Repeat(call, limit - 1);
    FirstCall(s, limit, window);
    hide Stands, Repeat;
    assert 0.0 + from == from && [call] + [Tick(from)] == [call, Tick(from)];
    TickStep(s, [call], "k", limit, window, 0.0, Some(Counter(0.0, 1)), first, from);
    Burst(s, [call, Tick(from)], "k", limit, window, from, Counter(0.0, 1), first, limit - 1);
  }

  lemma FirstCall(s: Store, limit: nat, window: nat)
    requires limit > 0 && s == Store(true, 0.0, map[])
    ensures Stands(s, [Call("k", limit, window)], "k", limit, window, 0.0, Some(Counter(0.0, 1)), [Admission(0.0, 0.0)])
  {
    assert Stands(s, [], "k", limit, window, 0.0, None, []);
    hide Stands;
    CallStep(s, [], "k", limit, window, 0.0, None, []);
    assert [] + [Admission(0.0, 0.0)] == [Admission(0.0, 0.0)];
    assert [] + [Call("k", limit, window)] == [Call("k", limit, window)];
  }

  ghost predicate OnlyCallsAndTicks(es: seq<Event>, key: string, limit: nat, window: nat) {
    forall i :: 0 <= i < |es| ==> es[i] == Call(key, limit, window) || es[i].Tick?
  }

  /** Second half: across the boundary the next window opens and fills up at once. */
  lemma FillNext(limit: nat, window: nat, from: real) returns (es: seq<Event>)
    requires limit > 0 && window > 0 && from == window as real - 0.5
    ensures OnlyCallsAndTicks(es, "k", limit, window)
    ensures var w := window as real;
            Stands(Store(true, 0.0, map[]), es, "k", limit, window, w, Some(Counter(w, limit)),
                   [Admission(0.0, 0.0)] + Repeat(Admission(from, 0.0), limit - 1) + [Admission(w, w)]
                   + Repeat(Admission(w, w), limit - 1))
  {
    var s, w := Store(true, 0.0, map[]), window as real;
    var e := FillLate(limit, window, from);
    var log := [Admission(0.0, 0.0)] + Repeat(Admission(from, 0.0), limit - 1);
    var tail := [Tick(0.5), Call("k", limit, window)] + Repeat(Call("k", limit, window), limit - 1);
    es := e + tail;
    OnlyConcat(e, tail, "k", limit, window);
    assert from + 0.5 == w;
    hide *;
    TickStep(s, e, "k", limit, window, from, Some(Counter(0.0, limit)), log, 0.5);
    NextWindow(s, e + [Tick(0.5)], limit, window, w, log);
    assert es == e + [Tick(0.5)] + [Call("k", limit, window)] + Repeat(Call("k", limit, window), limit - 1);
  }

  lemma NextWindow(s: Store, e: seq<Event>, limit: nat, window: nat, w: real, log: seq<Admission>)
    requires limit > 0 && window > 0 && w == window as real
    requires Stands(s, e, "k", limit, window, w, Some(Counter(0.0, limit)), log)
    ensures Stands(s, e + [Call("k", limit, window)] + Repeat(Call("k", limit, window), limit - 1),
                   "k", limit, window, w,
                   Some(Counter(w, limit)), log + [Admission(w, w)] + Repeat(Admission(w, w), limit - 1))
  {
    hide Stands, Repeat;
    CallStep(s, e, "k", limit, window, w, Some(Counter(0.0, limit)), log);
    Burst(s, e + [Call("k", limit, window)], "k", limit, window, w, Counter(w, 1), log + [Admission(w, w)], limit - 1);
  }

  lemma OnlyConcat(a: seq<Event>, b: seq<Event>, key: string, limit: nat, window: nat)
    requires OnlyCallsAndTicks(a, key, limit, window) && OnlyCallsAndTicks(b, key, limit, window)
    ensures OnlyCallsAndTicks(a + b, key, limit, window)
  {
  }

  /** The interval bound is reached, for every limit and window: a call, then a burst on each side of the boundary. */
  lemma SlidingBoundIsReached(limit: nat, window: nat) returns (es: seq<Event>, from: real)
    requires limit > 0 && window > 0
    ensures Dedicated(es, "k", limit, window)
    ensures |Within(Admitted(Store(true, 0.0, map[]), es, "k", limit, window), from, from + window as real)|
            == 2 * limit - 1
  {
    from := window as real - 0.5;
    es := FillNext(limit, window, from);
    TwoBursts(limit, window, from);
  }

  lemma TwoBursts(limit: nat, window: nat, from: real)
    requires limit > 0 && window > 0 && from == window as real - 0.5
    ensures var w := window as real;
            var log := [Admission(0.0, 0.0)] + Repeat(Admission(from, 0.0), limit - 1) + [Admission(w, w)]
                       + Repeat(Admission(w, w), limit - 1);
            |Within(log, from, from + w)| == 2 * limit - 1
  {
    var w := window as real;
    var log := [Admission(0.0, 0.0)] + Repeat(Admission(from, 0.0), limit - 1) + [Admission(w, w)]
               + Repeat(Admission(w, w), limit - 1);
    assert |log| == 2 * limit && log[0].at == 0.0;
    forall i | 1 <= i < 2 * limit
      ensures log[i].at == if i < limit then from else w
    {
    }
    AllButFirst(log, limit, from, w);
  }

  lemma AllButFirst(log: seq<Admission>, limit: nat, from: real, w: real)
    requires limit > 0 && |log| == 2 * limit && 0.0 < from < w && log[0].at == 0.0
    requires forall i :: 1 <= i < 2 * limit ==> log[i].at == if i < limit then from else w
    ensures |Within(log, from, from + w)| == 2 * limit - 1
  {
    assert Within(log, from, from + w) == Range(1, 2 * limit - 1);
  }
}
