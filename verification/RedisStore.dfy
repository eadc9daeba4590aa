/**
 The keyed TTL store behind package/redis/client.py: one clock, string values, and
 an optional deadline per key. A key whose deadline has come reads as absent.
 */
module RedisStore {
  import opened Wrappers
  import Decimal

  datatype Entry = Entry(value: string, deadline: Option<real>)

  /** `up` is false when no Redis is configured or the first ping failed: then it stays so. */
  datatype Store = Store(up: bool, now: real, data: map<string, Entry>) {

    predicate Live(key: string) {
      key in data && (data[key].deadline.None? || now < data[key].deadline.value)
    }

    predicate Holds(key: string, value: string) {
      Live(key) && data[key].value == value
    }
  }

  function Get(s: Store, key: string): Option<string> {
    if s.up && s.Live(key) then Some(s.data[key].value) else None
  }

  /** SETEX: Redis refuses a TTL that is not positive, and the helper then reports False. */
  function Set(s: Store, key: string, value: string, ttl: int): (Store, bool) {
    if s.up && ttl > 0 then
      (s.(data := s.data[key := Entry(value, Some(s.now + ttl as real))]), true)
    else (s, false)
  }

  function Delete(s: Store, key: string): Store {
    if s.up then s.(data := s.data - {key}) else s
  }

  /** INCR, then EXPIRE when the count is 1. None: no Redis, or a value INCR rejects. */
  function Incr(s: Store, key: string, ttl: int): (Store, Option<nat>) {
    if !s.up then (s, None)
    else if !s.Live(key) then
      (s.(data := s.data[key := Entry(Decimal.Numeral(1), Some(s.now + ttl as real))]), Some(1))
    else
      match Decimal.Parse(s.data[key].value)
      case None => (s, None)
      case Some(n) =>
        var deadline := if n == 0 then Some(s.now + ttl as real) else s.data[key].deadline;
        (s.(data := s.data[key := Entry(Decimal.Numeral(n + 1), deadline)]), Some(n + 1))
  }

  /** SET key value NX EX ttl. */
  function SetNx(s: Store, key: string, value: string, ttl: int): (Store, bool) {
    if s.up && ttl > 0 && !s.Live(key) then
      (s.(data := s.data[key := Entry(value, Some(s.now + ttl as real))]), true)
    else (s, false)
  }

  /** Time passes; nothing is written. */
  function Advance(s: Store, dt: real): Store {
    if dt > 0.0 then s.(now := s.now + dt) else s
  }

  /** After SETEX the value is readable for exactly `ttl` seconds. */
  lemma SetIsReadableForTtl(s: Store, key: string, value: string, ttl: int, dt: real)
    requires s.up && ttl > 0 && dt >= 0.0
    ensures Get(Advance(Set(s, key, value, ttl).0, dt), key) ==
            if dt < ttl as real then Some(value) else None
  {
    assert s.now + dt < s.now + ttl as real <==> dt < ttl as real;
  }

  /** SETEX reports success exactly when it wrote, and writes no other key. */
  lemma SetAnswer(s: Store, key: string, value: string, ttl: int, other: string)
    ensures var (t, stored) := Set(s, key, value, ttl);
            && (stored <==> s.up && ttl > 0) && (!stored ==> t == s)
            && (stored ==> Get(t, key) == Some(value)) && (other != key ==> Get(t, other) == Get(s, other))
  {
    assert s.up && ttl > 0 ==> s.now < s.now + ttl as real;
  }

  /** A deleted key reads as absent, and no other key changes. */
  lemma DeleteAnswer(s: Store, key: string, other: string)
    ensures var t := Delete(s, key);
            Get(t, key) == None && (other != key ==> Get(t, other) == Get(s, other))
  {
  }

  /** The connection of one process to the store, as redis_set, redis_get, ... use it. */
  class Redis {
    const up: bool
    var now: real
    var data: map<string, Entry>

    function Snapshot(): Store
      reads this
    {
      Store(up, now, data)
    }

    constructor (up: bool, now: real)
      ensures Snapshot() == Store(up, now, map[])
    {
      this.up, this.now, this.data := up, now, map[];
    }

    method SetEx(key: string, value: string, ttl: int) returns (stored: bool)
      modifies this
      ensures (Snapshot(), stored) == Set(old(Snapshot()), key, value, ttl)
    {
      if !up || ttl <= 0 {
        return false;
      }
      data := data[key := Entry(value, Some(now + ttl as real))];
      stored := true;
    }

    method Read(key: string) returns (value: Option<string>)
      ensures value == Get(Snapshot(), key)
    {
      if !up || key !in data {
        return None;
      }
      var entry := data[key];
      if entry.deadline.Some? && entry.deadline.value <= now {
        return None;
      }
      value := Some(entry.value);
    }

    method Remove(key: string)
      modifies this
      ensures Snapshot() == Delete(old(Snapshot()), key)
    {
      if up {
        data := data - {key};
      }
    }

    method Increment(key: string, ttl: int) returns (count: Option<nat>)
      modifies this
      ensures (Snapshot(), count) == Incr(old(Snapshot()), key, ttl)
    {
      if !up {
        return None;
      }
      var current := Read(key);
      var n: nat := 0;
      if current.Some? {
        var parsed := Decimal.Parse(current.value);
        if parsed.None? {
          return None;
        }
        n := parsed.value;
      }
      ghost var before := data;
      var deadline := if current.Some? then data[key].deadline else None;
      data := data[key := Entry(Decimal.Numeral(n + 1), deadline)];
      if n + 1 == 1 {
        data := data[key := data[key].(deadline := Some(now + ttl as real))];
        assert data == before[key := Entry(Decimal.Numeral(1), Some(now + ttl as real))];
      }
      count := Some(n + 1);
    }

    method SetIfAbsent(key: string, value: string, ttl: int) returns (stored: bool)
      modifies this
      ensures (Snapshot(), stored) == SetNx(old(Snapshot()), key, value, ttl)
    {
      if !up || ttl <= 0 {
        return false;
      }
      var current := Read(key);
      if current.Some? {
        return false;
      }
      data := data[key := Entry(value, Some(now + ttl as real))];
      stored := true;
    }
  }
}
