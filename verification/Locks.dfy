/**
 The lock of package/redis/locks.py as a protocol: acquire, check and delete are
 separate atomic steps of many callers, interleaved with the clock.
 */
module Locks {
  import opened Wrappers
  import opened RedisStore

  /**
   Where a caller is in redis_lock. `until` is when its TTL lapses; `lapsed` records
   whether the key expired after the caller's check. Both are history, not data the code keeps.
   */
  datatype Phase =
    | Outside
    | Inside(token: string, until: real)
    | Checked(token: string, until: real, mine: bool, lapsed: bool)

  datatype System = System(store: Store, key: string, callers: map<nat, Phase>, used: set<string>) {

    function At(c: nat): Phase {
      if c in callers then callers[c] else Outside
    }

    /** Between a successful acquire and the end of the exit code. */
    predicate Holding(c: nat) {
      !At(c).Outside?
    }
  }

  datatype Event =
    | Acquire(caller: nat, token: string, ttl: int)  // SET key token NX EX ttl
    | Check(caller: nat)                             // GET key, compared with the own token
    | Finish(caller: nat)                            // DELETE key if the check matched; leave
    | Abandon(caller: nat)                           // Redis raised in the exit code: leave
    | Tick(dt: real)

  /** uuid4 tokens are fresh; a caller does one thing at a time. */
  predicate Possible(s: System, e: Event) {
    match e
    case Acquire(c, token, _) => s.At(c).Outside? && token !in s.used
    case Check(c) => s.At(c).Inside?
    case Finish(c) => s.At(c).Checked?
    case Abandon(c) => s.Holding(c)
    case Tick(dt) => dt >= 0.0
  }

  function Lapse(p: Phase): Phase {
    if p.Checked? then p.(lapsed := true) else p
  }

  function Step(s: System, e: Event): System {
    match e
    case Acquire(c, token, ttl) =>
      var (store, acquired) := SetNx(s.store, s.key, token, ttl);
      if acquired then
        s.(store := store, callers := s.callers[c := Inside(token, s.store.now + ttl as real)],
           used := s.used + {token})
      else s.(used := s.used + {token})
    case Check(c) =>
      var p := s.At(c);
      if p.Inside? then
        s.(callers := s.callers[c := Checked(p.token, p.until, Get(s.store, s.key) == Some(p.token), false)])
      else s
    case Finish(c) =>
      var p := s.At(c);
      s.(store := if p.Checked? && p.mine then Delete(s.store, s.key) else s.store, callers := s.callers - {c})
    case Abandon(c) => s.(callers := s.callers - {c})
    case Tick(dt) =>
      var store := Advance(s.store, dt);
      var expired := s.store.Live(s.key) && !store.Live(s.key);
      s.(store := store, callers := if expired then map c | c in s.callers :: Lapse(s.callers[c]) else s.callers)
  }

  function Run(s: System, es: seq<Event>): System {
    if es == [] then s else Step(Run(s, es[..|es| - 1]), es[|es| - 1])
  }

  /** Nobody is in the lock; the key may still carry an old token. */
  predicate Initial(s: System) {
    && s.store.up && s.callers == map[]
    && (s.key in s.store.data ==> s.store.data[s.key].value in s.used)
  }

  ghost predicate Legal(s: System, es: seq<Event>) {
    forall i :: 0 <= i < |es| ==> Possible(Run(s, es[..i]), es[i])
  }

  lemma PrefixOfPrefix<T>(es: seq<T>, i: nat)
    requires i < |es|
    ensures es[..|es| - 1][..i] == es[..i]
    ensures i < |es| - 1 ==> es[..|es| - 1][i] == es[i]
  {
  }

  lemma LegalPrefix(s: System, es: seq<Event>)
    requires es != [] && Legal(s, es)
    ensures Legal(s, es[..|es| - 1]) && Possible(Run(s, es[..|es| - 1]), es[|es| - 1])
  {
    var k := |es| - 1;
    assert Possible(Run(s, es[..k]), es[k]);
    forall i | 0 <= i < k
      ensures Possible(Run(s, es[..k][..i]), es[..k][i])
    {
      PrefixOfPrefix(es, i);
      assert Possible(Run(s, es[..i]), es[i]);
    }
  }

  // ---- what every step keeps ----

  /** Tokens are unique, and the key never carries a token nobody drew. */
  ghost predicate Sane(s: System) {
    && s.store.up
    && (s.key in s.store.data ==> s.store.data[s.key].value in s.used)
    && (forall c :: s.Holding(c) ==> s.At(c).token in s.used)
    && (forall c, d :: s.Holding(c) && s.Holding(d) && c != d ==> s.At(c).token != s.At(d).token)
  }

  lemma StepKeepsSane(s: System, e: Event)
    requires Sane(s) && Possible(s, e)
    ensures Sane(Step(s, e))
  {
    var s' := Step(s, e);
    forall c
      ensures s'.Holding(c) ==> (s.Holding(c) && s'.At(c).token == s.At(c).token)
                                || (e.Acquire? && e.caller == c && s'.At(c).token == e.token)
    {
    }
  }

  lemma {:induction false} RunIsSane(s: System, es: seq<Event>)
    requires Initial(s) && Legal(s, es)
    ensures Sane(Run(s, es)) && Run(s, es).key == s.key
  {
    if es != [] {
      LegalPrefix(s, es);
      RunIsSane(s, es[..|es| - 1]);
      StepKeepsSane(Run(s, es[..|es| - 1]), es[|es| - 1]);
    }
  }

  // ---- mutual exclusion ----

  /** Every caller in the lock still has its own TTL running. */
  ghost predicate InTime(s: System) {
    forall c :: s.Holding(c) ==> s.store.now < s.At(c).until
  }

  ghost predicate AlwaysInTime(s: System, es: seq<Event>) {
    forall i :: 0 <= i <= |es| ==> InTime(Run(s, es[..i]))
  }

  /** The key carries the token and the deadline of whoever is in the lock. */
  ghost predicate Owned(s: System) {
    forall c :: s.Holding(c) ==>
      && s.key in s.store.data && s.store.data[s.key] == Entry(s.At(c).token, Some(s.At(c).until))
      && (s.At(c).Checked? ==> s.At(c).mine)
  }

  lemma StepKeepsOwned(s: System, e: Event)
    requires Sane(s) && Owned(s) && InTime(s) && Possible(s, e) && InTime(Step(s, e))
    ensures Owned(Step(s, e))
  {
    var s' := Step(s, e);
    forall c | s'.Holding(c)
      ensures s'.key in s'.store.data && s'.store.data[s'.key] == Entry(s'.At(c).token, Some(s'.At(c).until))
      ensures s'.At(c).Checked? ==> s'.At(c).mine
    {
      assert s.Holding(c) || (e.Acquire? && e.caller == c);
      assert s.Holding(c) ==> s.store.Holds(s.key, s.At(c).token);
    }
  }

  lemma {:induction false} RunIsOwned(s: System, es: seq<Event>)
    requires Initial(s) && Legal(s, es) && AlwaysInTime(s, es)
    ensures Owned(Run(s, es))
  {
    if es != [] {
      var k := |es| - 1;
      LegalPrefix(s, es);
      forall i | 0 <= i <= k
        ensures InTime(Run(s, es[..k][..i]))
      {
        assert es[..k][..i] == es[..i];
        assert InTime(Run(s, es[..i]));
      }
      RunIsOwned(s, es[..k]);
      RunIsSane(s, es[..k]);
      assert es[..k + 1] == es && InTime(Run(s, es[..k])) && InTime(Run(s, es[..k + 1]));
      StepKeepsOwned(Run(s, es[..k]), es[k]);
    }
  }

  /** If every holder is out before its own TTL lapses, at most one caller is in the lock. */
  lemma MutualExclusion(s: System, es: seq<Event>, c: nat, d: nat)
    requires Initial(s) && Legal(s, es) && AlwaysInTime(s, es)
    requires Run(s, es).Holding(c) && Run(s, es).Holding(d)
    ensures c == d
  {
    RunIsSane(s, es);
    RunIsOwned(s, es);
  }

  // ---- the answer of each step ----

  /** A caller gets in exactly when no live key is there, and then the key is its own for `ttl` seconds. */
  lemma AcquireAnswer(s: System, c: nat, token: string, ttl: int, d: nat)
    requires s.At(c).Outside?
    ensures var t := Step(s, Acquire(c, token, ttl));
            && (t.Holding(c) <==> s.store.up && ttl > 0 && !s.store.Live(s.key))
            && (t.Holding(c) ==>
                  && t.At(c) == Inside(token, s.store.now + ttl as real)
                  && t.store.Holds(t.key, token) && t.store.data[t.key].deadline == Some(t.At(c).until))
            && (!t.Holding(c) ==> t.store == s.store)
            && (d != c ==> t.At(d) == s.At(d))
  {
    assert ttl > 0 ==> s.store.now < s.store.now + ttl as real;
  }

  /** A caller whose check found its own token deletes the key; any other leaves the store alone. */
  lemma LeaveAnswer(s: System, c: nat, other: string, d: nat)
    requires s.At(c).Inside?
    ensures var checked := Step(s, Check(c));
            var t := Step(checked, Finish(c));
            && !t.Holding(c) && (d != c ==> t.At(d) == s.At(d)) && checked.store == s.store
            && (s.store.up && s.store.Holds(s.key, s.At(c).token) ==> !t.store.Live(t.key))
            && (!s.store.Holds(s.key, s.At(c).token) ==> t.store == s.store)
            && (other != s.key ==> Get(t.store, other) == Get(s.store, other))
  {
  }

  // ---- what the delete removes ----

  /** The exit code of `c` is about to delete, and its check is not stale. */
  predicate PromptFinish(s: System, e: Event) {
    e.Finish? && s.At(e.caller).Checked? && s.At(e.caller).mine ==> !s.At(e.caller).lapsed
  }

  ghost predicate AlwaysPrompt(s: System, es: seq<Event>) {
    forall i :: 0 <= i < |es| ==> PromptFinish(Run(s, es[..i]), es[i])
  }

  /** A check that matched still describes the key until the key expires. */
  ghost predicate FreshChecks(s: System) {
    forall c :: s.At(c).Checked? && s.At(c).mine && !s.At(c).lapsed ==> s.store.Holds(s.key, s.At(c).token)
  }

  lemma StepKeepsFreshChecks(s: System, e: Event)
    requires Sane(s) && FreshChecks(s) && Possible(s, e) && PromptFinish(s, e)
    ensures FreshChecks(Step(s, e))
  {
    var s' := Step(s, e);
    forall c | s'.At(c).Checked? && s'.At(c).mine && !s'.At(c).lapsed
      ensures s'.store.Holds(s'.key, s'.At(c).token)
    {
      if e == Check(c) {
      } else {
        assert s.At(c).Checked? && s.At(c).mine && !s.At(c).lapsed;
        assert s.store.Holds(s.key, s.At(c).token);
      }
    }
  }

  lemma {:induction false} RunHasFreshChecks(s: System, es: seq<Event>)
    requires Initial(s) && Legal(s, es) && AlwaysPrompt(s, es)
    ensures FreshChecks(Run(s, es))
  {
    if es != [] {
      var k := |es| - 1;
      LegalPrefix(s, es);
      forall i | 0 <= i < k
        ensures PromptFinish(Run(s, es[..k][..i]), es[..k][i])
      {
        PrefixOfPrefix(es, i);
        assert PromptFinish(Run(s, es[..i]), es[i]);
      }
      RunHasFreshChecks(s, es[..k]);
      RunIsSane(s, es[..k]);
      assert PromptFinish(Run(s, es[..k]), es[k]);
      StepKeepsFreshChecks(Run(s, es[..k]), es[k]);
    }
  }

  /**
   When no check in the run so far was overtaken by an expiry, a delete that is not
   overtaken either removes exactly the caller's own live token.
   */
  lemma DeleteRemovesOwnToken(s: System, es: seq<Event>, c: nat)
    requires Initial(s) && Legal(s, es) && AlwaysPrompt(s, es)
    requires var t := Run(s, es); t.At(c).Checked? && t.At(c).mine && !t.At(c).lapsed
    ensures var t := Run(s, es);
            && t.store.Holds(t.key, t.At(c).token)
            && !Step(t, Finish(c)).store.Live(t.key)
  {
    RunHasFreshChecks(s, es);
    RunIsSane(s, es);
    assert Run(s, es).store.up && Run(s, es).store.Holds(Run(s, es).key, Run(s, es).At(c).token);
    hide *;
    FinishFreesKey(Run(s, es), c);
  }

  lemma FinishFreesKey(t: System, c: nat)
    requires t.At(c).Checked? && t.At(c).mine && t.store.Holds(t.key, t.At(c).token)
    ensures t.store.up ==> !Step(t, Finish(c)).store.Live(t.key)
  {
  }

  /** Between a matching check and the delete: no expiry of the key and no other caller's delete. */
  ghost predicate Undisturbed(s: System, es: seq<Event>) {
    forall i :: 0 <= i < |es| ==>
      var t := Run(s, es[..i]);
      && (es[i].Tick? ==> Step(t, es[i]).store.Live(t.key))
      && (es[i].Finish? ==> !(t.At(es[i].caller).Checked? && t.At(es[i].caller).mine))
  }

  /** The state of one caller's window: its token is used, so once gone it never returns. */
  lemma {:induction false} OwnTokenWindow(s: System, es: seq<Event>, c: nat)
    requires Sane(s) && Legal(s, es) && s.At(c).Checked? && s.store.Holds(s.key, s.At(c).token)
    requires forall i :: 0 <= i < |es| ==> es[i] != Finish(c) && es[i] != Abandon(c)
    ensures var t := Run(s, es);
            && Sane(t) && t.key == s.key && t.At(c).Checked? && t.At(c).token == s.At(c).token
            && (t.store.Holds(t.key, s.At(c).token) <==> Undisturbed(s, es))
  {
    if es != [] {
      var k := |es| - 1;
      LegalPrefix(s, es);
      OwnTokenWindow(s, es[..k], c);
      var t := Run(s, es[..k]);
      StepKeepsSane(t, es[k]);
      UndisturbedSnoc(s, es);
      assert es[k] != Finish(c) && es[k] != Abandon(c);
    }
  }

  lemma UndisturbedSnoc(s: System, es: seq<Event>)
    requires es != []
    ensures var k := |es| - 1;
            var t := Run(s, es[..k]);
            Undisturbed(s, es) <==>
              && Undisturbed(s, es[..k])
              && (es[k].Tick? ==> Step(t, es[k]).store.Live(t.key))
              && (es[k].Finish? ==> !(t.At(es[k].caller).Checked? && t.At(es[k].caller).mine))
  {
    var k := |es| - 1;
    assert forall i :: 0 <= i < k ==> es[..k][..i] == es[..i] && es[..k][i] == es[i];
  }

  /**
   For one caller: its delete finds its own token exactly when, since its matching
   check, the key has neither expired nor been deleted by another caller.
   */
  lemma DeleteIsOwnIffUndisturbed(s: System, before: seq<Event>, c: nat, es: seq<Event>)
    requires Initial(s) && Legal(s, before)
    requires var t := Run(s, before);
             && t.At(c).Inside? && Get(t.store, t.key) == Some(t.At(c).token)
             && Legal(Step(t, Check(c)), es)
    requires forall i :: 0 <= i < |es| ==> es[i] != Finish(c) && es[i] != Abandon(c)
    ensures var checked := Step(Run(s, before), Check(c));
            var t := Run(checked, es);
            t.At(c).Checked? && t.At(c).mine == checked.At(c).mine
            && (t.store.Holds(t.key, t.At(c).token) <==> Undisturbed(checked, es))
  {
    RunIsSane(s, before);
    var t := Run(s, before);
    StepKeepsSane(t, Check(c));
    OwnTokenWindow(Step(t, Check(c)), es, c);
    MineIsKept(Step(t, Check(c)), es, c);
  }

  lemma {:induction false} MineIsKept(s: System, es: seq<Event>, c: nat)
    requires s.At(c).Checked? && Legal(s, es)
    requires forall i :: 0 <= i < |es| ==> es[i] != Finish(c) && es[i] != Abandon(c)
    ensures Run(s, es).At(c).Checked? && Run(s, es).At(c).mine == s.At(c).mine
  {
    if es != [] {
      LegalPrefix(s, es);
      MineIsKept(s, es[..|es| - 1], c);
      assert es[|es| - 1] != Finish(c) && es[|es| - 1] != Abandon(c);
    }
  }

  // The states of the run below, one after another.

  function Scene(now: real, holder: Option<Entry>, callers: map<nat, Phase>, used: set<string>): System {
    System(Store(true, now, if holder.Some? then map["lock:x" := holder.value] else map[]), "lock:x", callers, used)
  }

  function SceneAt(i: nat): System {
    if i == 0 then Scene(0.0, None, map[], {})
    else if i == 1 then Scene(0.0, Some(Entry("a", Some(10.0))), map[1 := Inside("a", 10.0)], {"a"})
    else if i == 2 then Scene(0.0, Some(Entry("a", Some(10.0))), map[1 := Checked("a", 10.0, true, false)], {"a"})
    else if i == 3 then Scene(10.0, Some(Entry("a", Some(10.0))), map[1 := Checked("a", 10.0, true, true)], {"a"})
    else if i == 4 then
      Scene(10.0, Some(Entry("b", Some(20.0))),
            map[1 := Checked("a", 10.0, true, true), 2 := Inside("b", 20.0)], {"a", "b"})
    else if i == 5 then
      Scene(10.0, Some(Entry("b", Some(20.0))),
            map[1 := Checked("a", 10.0, true, true), 2 := Checked("b", 20.0, true, false)], {"a", "b"})
    else if i == 6 then Scene(10.0, None, map[2 := Checked("b", 20.0, true, false)], {"a", "b"})
    else
      Scene(10.0, Some(Entry("c", Some(20.0))), map[2 := Checked("b", 20.0, true, false), 3 := Inside("c", 20.0)],
            {"a", "b", "c"})
  }

  function EventAt(i: nat): Event {
    if i == 0 then Acquire(1, "a", 10)
    else if i == 1 then Check(1)
    else if i == 2 then Tick(10.0)
    else if i == 3 then Acquire(2, "b", 10)
    else if i == 4 then Check(2)
    else if i == 5 then Finish(1)
    else Acquire(3, "c", 10)
  }

  ghost predicate Leads(i: nat) {
    Possible(SceneAt(i), EventAt(i)) && Step(SceneAt(i), EventAt(i)) == SceneAt(i + 1)
  }

  lemma Scene0()
    ensures Leads(0)
  {
  }

  lemma Scene1()
    ensures Leads(1)
  {
  }

  lemma Scene2()
    ensures Leads(2)
  {
    assert Step(SceneAt(2), Tick(10.0)).callers == SceneAt(3).callers;
  }

  lemma Scene3()
    ensures Leads(3)
  {
    assert Step(SceneAt(3), Acquire(2, "b", 10)).store == SceneAt(4).store;
    assert Step(SceneAt(3), Acquire(2, "b", 10)).callers == SceneAt(4).callers;
  }

  lemma Scene4()
    ensures Leads(4)
  {
    assert Step(SceneAt(4), Check(2)).callers == SceneAt(5).callers;
  }

  lemma Scene5()
    ensures Leads(5)
  {
    assert Step(SceneAt(5), Finish(1)).callers == SceneAt(6).callers;
    assert Step(SceneAt(5), Finish(1)).store == SceneAt(6).store;
  }

  lemma Scene6()
    ensures Leads(6)
  {
    assert Step(SceneAt(6), Acquire(3, "c", 10)).callers == SceneAt(7).callers;
  }

  lemma AllScenes(i: nat)
    requires i < 7
    ensures Leads(i)
  {
    hide *;
    if i == 0 { Scene0(); }
    if i == 1 { Scene1(); }
    if i == 2 { Scene2(); }
    if i == 3 { Scene3(); }
    if i == 4 { Scene4(); }
    if i == 5 { Scene5(); }
    if i == 6 { Scene6(); }
  }

  function EventsTo(n: nat): (es: seq<Event>)
    ensures |es| == n
  {
    if n == 0 then [] else EventsTo(n - 1) + [EventAt(n - 1)]
  }

  lemma {:induction false} ScenesRun(n: nat)
    requires n <= 7
    ensures Legal(SceneAt(0), EventsTo(n)) && Run(SceneAt(0), EventsTo(n)) == SceneAt(n)
  {
    hide Possible, Step, SceneAt, EventAt;
    if n > 0 {
      ScenesRun(n - 1);
      AllScenes(n - 1);
      LegalSnoc(SceneAt(0), EventsTo(n - 1), EventAt(n - 1));
    }
  }

  lemma LastScene()
    ensures var t := SceneAt(7);
            && t.At(2).Checked? && t.At(2).mine && !t.At(2).lapsed
            && t.store.Holds(t.key, "c") && t.At(3).Inside? && t.At(3).token == "c"
            && !Step(t, Finish(2)).store.Live(t.key)
    ensures Initial(SceneAt(0))
  {
  }

  lemma SevenEvents()
    ensures EventsTo(7) == [Acquire(1, "a", 10), Check(1), Tick(10.0), Acquire(2, "b", 10), Check(2),
                            Finish(1), Acquire(3, "c", 10)]
  {
    assert EventsTo(3) == [Acquire(1, "a", 10), Check(1), Tick(10.0)];
    assert EventsTo(5) == EventsTo(3) + [Acquire(2, "b", 10), Check(2)];
  }

  /**
   No expiry between one caller's own check and delete is not enough: here caller 1's
   stale delete frees the key under caller 2, whose undelayed delete then removes caller 3's token.
   */
  lemma StaleDeleteOfAnotherCaller(s: System) returns (es: seq<Event>)
    requires s == System(Store(true, 0.0, map[]), "lock:x", map[], {})
    ensures es == [Acquire(1, "a", 10), Check(1), Tick(10.0), Acquire(2, "b", 10), Check(2),
                   Finish(1), Acquire(3, "c", 10)]
    ensures Initial(s) && Legal(s, es)
    ensures var t := Run(s, es);
            && t.At(2).Checked? && t.At(2).mine && !t.At(2).lapsed
            && t.store.Holds(t.key, "c") && t.At(3).Inside? && t.At(3).token == "c"
            && !Step(t, Finish(2)).store.Live(t.key)
  {
    assert s == SceneAt(0);
    SevenEvents();
    LastScene();
    es := EventsTo(7);
    hide *;
    ScenesRun(7);
  }

  lemma LegalSnoc(s: System, es: seq<Event>, e: Event)
    requires Legal(s, es) && Possible(Run(s, es), e)
    ensures Legal(s, es + [e]) && Run(s, es + [e]) == Step(Run(s, es), e)
  {
    assert (es + [e])[..|es|] == es;
    forall i | 0 <= i < |es + [e]|
      ensures Possible(Run(s, (es + [e])[..i]), (es + [e])[i])
    {
      if i < |es| {
        assert (es + [e])[..i] == es[..i];
        assert Possible(Run(s, es[..i]), es[i]);
      }
    }
  }

  /** One entry into `with redis_lock(name, ttl)`: its three Redis calls, each atomic on its own. */
  class LockEntry {
    const redis: Redis
    const key: string
    const token: string
    var acquired: bool
    var mine: bool

    constructor (redis: Redis, name: string, token: string)
      ensures this.redis == redis && this.key == "lock:" + name && this.token == token
      ensures !acquired && !mine
    {
      this.redis, this.key, this.token := redis, "lock:" + name, token;
      acquired, mine := false, false;
    }

    /** A system in which caller `c` is this entry. */
    ghost predicate Plays(c: nat, s: System)
      reads this, redis
    {
      && s.store == redis.Snapshot() && s.key == key
      && acquired == s.Holding(c)
      && (acquired ==> s.At(c).token == token)
      && mine == (s.At(c).Checked? && s.At(c).mine)
    }

    method Enter(ttl: int, ghost c: nat, ghost s: System)
      requires Plays(c, s) && s.At(c).Outside?
      modifies this`acquired, redis
      ensures Plays(c, Step(s, Acquire(c, token, ttl)))
    {
      acquired := redis.SetIfAbsent(key, token, ttl);
    }

    method CheckToken(ghost c: nat, ghost s: System)
      requires Plays(c, s) && s.At(c).Inside?
      modifies this`mine
      ensures Plays(c, Step(s, Check(c)))
    {
      var current := redis.Read(key);
      mine := current == Some(token);
    }

    method Leave(ghost c: nat, ghost s: System)
      requires Plays(c, s) && s.At(c).Checked?
      modifies this, redis
      ensures Plays(c, Step(s, Finish(c)))
    {
      if mine {
        redis.Remove(key);
      }
      acquired, mine := false, false;
    }
  }
}
