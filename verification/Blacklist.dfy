/**
 Token revocation: package/common/auth/blacklist.py and the acceptance test of jwt.py.
 A revoked jti is kept until the token would expire anyway, in Redis when there is one and
 in process memory otherwise. Expiry follows section 4.1.4 of RFC 7519: on or after `exp`
 a token is refused.
 */
module Blacklist {
  import opened Wrappers
  import opened Money
  import opened RedisStore

  datatype Kind = Access | Refresh

  /** `genuine` abstracts the signature check; `exp` is in whole seconds. */
  datatype Token = Token(jti: string, exp: int, kind: Kind, subject: nat, genuine: bool)

  datatype Revoker = Revoker(store: Store, memory: map<string, real>) {
    function Now(): real { store.now }
  }

  function Key(jti: string): string {
    "jwt:bl:" + jti
  }

  function Purge(memory: map<string, real>, now: real): map<string, real> {
    map jti | jti in memory && now < memory[jti] :: memory[jti]
  }

  function BlacklistJti(r: Revoker, jti: string, ttl: int): Revoker {
    if jti == "" || ttl <= 0 then r
    else
      var (store, stored) := Set(r.store, Key(jti), "1", ttl);
      if stored then r.(store := store)
      else r.(memory := Purge(r.memory, r.Now())[jti := r.Now() + ttl as real])
  }

  predicate Blacklisted(r: Revoker, jti: string) {
    jti != "" && (Get(r.store, Key(jti)) == Some("1") || (jti in r.memory && r.Now() < r.memory[jti]))
  }

  function RevokeToken(r: Revoker, t: Token): (Revoker, bool) {
    if !t.genuine || t.jti == "" || t.exp == 0 then (r, false)
    else
      var ttl := Truncate(t.exp as real - r.Now());
      if ttl <= 0 then (r, true) else (BlacklistJti(r, t.jti, ttl), true)
  }

  /** decode_token with its blacklist check. */
  predicate Accepts(r: Revoker, t: Token) {
    t.genuine && r.Now() < t.exp as real && !Blacklisted(r, t.jti)
  }

  // ---- the guarantee ----

  /**
   What a successful revocation leaves behind for good: the jti is on record past
   exp - 1, or that moment has passed.
   */
  ghost predicate Guarded(r: Revoker, t: Token) {
    || t.exp as real - 1.0 < r.Now()
    || (&& t.jti != ""
        && if r.store.up then
             && Key(t.jti) in r.store.data
             && var e := r.store.data[Key(t.jti)];
                e.value == "1" && e.deadline.Some? && t.exp as real - 1.0 < e.deadline.value
           else t.jti in r.memory && t.exp as real - 1.0 < r.memory[t.jti])
  }

  lemma RevokeGuards(r: Revoker, t: Token)
    requires RevokeToken(r, t).1
    ensures Guarded(RevokeToken(r, t).0, t)
  {
    var ttl := Truncate(t.exp as real - r.Now());
    assert t.exp as real - 1.0 < r.Now() + ttl as real || ttl <= 0;
  }

  lemma GuardedIsRefused(r: Revoker, t: Token)
    requires Guarded(r, t) && Accepts(r, t)
    ensures t.exp as real - 1.0 < r.Now() < t.exp as real
  {
  }

  /** Everything else that can happen to the two stores. */
  datatype Event =
    | Revoke(token: Token)
    | Ban(jti: string, ttl: int)
    | Look(jti: string)
    | PurgeMemory
    | Write(key: string, value: string, ttl: int)
    | Erase(key: string)
    | Tick(dt: real)

  /** is_blacklisted drops an expired memory entry it meets. */
  function Forget(r: Revoker, jti: string): Revoker {
    if jti in r.memory && r.memory[jti] <= r.Now() && Get(r.store, Key(jti)) != Some("1") && jti != "" then
      r.(memory := r.memory - {jti})
    else r
  }

  function Step(r: Revoker, e: Event): Revoker {
    match e
    case Revoke(t) => RevokeToken(r, t).0
    case Ban(jti, ttl) => BlacklistJti(r, jti, ttl)
    case Look(jti) => Forget(r, jti)
    case PurgeMemory => r.(memory := Purge(r.memory, r.Now()))
    case Write(k, v, ttl) => r.(store := Set(r.store, k, v, ttl).0)
    case Erase(k) => r.(store := Delete(r.store, k))
    case Tick(dt) => r.(store := Advance(r.store, dt))
  }

  function Run(r: Revoker, es: seq<Event>): Revoker {
    if es == [] then r else Step(Run(r, es[..|es| - 1]), es[|es| - 1])
  }

  /** Other uses of the store keep off the revocation key, and one jti names one token. */
  predicate Apart(e: Event, t: Token) {
    match e
    case Revoke(u) => u.genuine && u.jti == t.jti ==> u.exp == t.exp
    case Ban(jti, _) => jti != t.jti
    case Write(k, _, _) => k != Key(t.jti)
    case Erase(k) => k != Key(t.jti)
    case _ => true
  }

  lemma StepKeepsGuarded(r: Revoker, e: Event, t: Token)
    requires Guarded(r, t) && Apart(e, t)
    ensures Guarded(Step(r, e), t) && Step(r, e).store.up == r.store.up && r.Now() <= Step(r, e).Now()
  {
    if e.Revoke? && e.token.jti == t.jti && RevokeToken(r, e.token).1 {
      RevokeGuards(r, e.token);
    }
    if e.Revoke? || e.Ban? {
      var jti := if e.Revoke? then e.token.jti else e.jti;
      assert jti != t.jti ==> Key(jti) != Key(t.jti) by {
        assert Key(jti)[7..] == jti && Key(t.jti)[7..] == t.jti;
      }
    }
  }

  lemma {:induction false} RunKeepsGuarded(r: Revoker, es: seq<Event>, t: Token)
    requires Guarded(r, t) && forall e :: e in es ==> Apart(e, t)
    ensures Guarded(Run(r, es), t)
  {
    if es != [] {
      assert forall e :: e in es[..|es| - 1] ==> e in es;
      RunKeepsGuarded(r, es[..|es| - 1], t);
      assert es[|es| - 1] in es;
      StepKeepsGuarded(Run(r, es[..|es| - 1]), es[|es| - 1], t);
    }
  }

  /**
   Once blacklist_token has returned True, the token is refused at every later time,
   except possibly within the last second before `exp`.
   */
  lemma RevocationGap(r: Revoker, t: Token, es: seq<Event>)
    requires RevokeToken(r, t).1
    requires forall e :: e in es ==> Apart(e, t)
    ensures var r' := Run(RevokeToken(r, t).0, es);
            Accepts(r', t) ==> t.exp as real - 1.0 < r'.Now() < t.exp as real
  {
    RevokeGuards(r, t);
    RunKeepsGuarded(RevokeToken(r, t).0, es, t);
    if Accepts(Run(RevokeToken(r, t).0, es), t) {
      GuardedIsRefused(Run(RevokeToken(r, t).0, es), t);
    }
  }

  /**
   The gap, exactly: after one revocation of a running, unrevoked token the code accepts it
   again from `now + int(exp - now)` until `exp`, so there is no gap just when
   `exp - now` is a whole number of seconds.
   */
  lemma ExactGap(r: Revoker, t: Token, dt: real)
    requires Accepts(r, t) && t.jti != "" && t.exp != 0 && dt >= 0.0
    requires Key(t.jti) !in r.store.data && t.jti !in r.memory
    ensures var left := t.exp as real - r.Now();
            Accepts(Step(RevokeToken(r, t).0, Tick(dt)), t) <==> left.Floor as real <= dt < left
  {
  }

  lemma NoGapIffWholeSeconds(r: Revoker, t: Token)
    requires Accepts(r, t) && t.jti != "" && t.exp != 0
    requires Key(t.jti) !in r.store.data && t.jti !in r.memory
    ensures var left := t.exp as real - r.Now();
            (forall dt :: dt >= 0.0 ==> !Accepts(Step(RevokeToken(r, t).0, Tick(dt)), t))
            <==> left == left.Floor as real
  {
    var left := t.exp as real - r.Now();
    ExactGap(r, t, left.Floor as real);
    forall dt: real | dt >= 0.0 && left == left.Floor as real
      ensures !Accepts(Step(RevokeToken(r, t).0, Tick(dt)), t)
    {
      ExactGap(r, t, dt);
    }
  }

  // ---- the code itself ----

  /** The module-level dict and the shared Redis client. */
  class BlacklistModule {
    const redis: Redis
    var memory: map<string, real>

    constructor (redis: Redis)
      ensures this.redis == redis && memory == map[]
    {
      this.redis, this.memory := redis, map[];
    }

    function State(): Revoker
      reads this, redis
    {
      Revoker(redis.Snapshot(), memory)
    }

    method PurgeExpired()
      modifies this
      ensures State() == Step(old(State()), Event.PurgeMemory)
      ensures forall jti :: jti in memory <==> jti in old(memory) && redis.now < old(memory)[jti]
      ensures forall jti :: jti in memory ==> memory[jti] == old(memory)[jti]
    {
      var dead: set<string> := set jti | jti in memory && memory[jti] <= redis.now;
      ghost var all := dead;
      ghost var before := memory;
      while dead != {}
        invariant dead <= all
        invariant memory == before - (all - dead)
        decreases dead
      {
        var jti :| jti in dead;
        memory := memory - {jti};
        dead := dead - {jti};
      }
      assert memory == Purge(before, redis.now);
    }

    method Ban(jti: string, ttl: int)
      modifies this, redis
      ensures State() == BlacklistJti(old(State()), jti, ttl)
    {
      if jti == "" || ttl <= 0 {
        return;
      }
      var stored := redis.SetEx("jwt:bl:" + jti, "1", ttl);
      if stored {
        return;
      }
      PurgeExpired();
      memory := memory[jti := redis.now + ttl as real];
    }

    method IsBlacklisted(jti: string) returns (revoked: bool)
      modifies this
      ensures revoked == Blacklisted(old(State()), jti)
      ensures State() == Forget(old(State()), jti)
      ensures !revoked && jti != "" ==> jti !in memory
    {
      if jti == "" {
        return false;
      }
      var mark := redis.Read("jwt:bl:" + jti);
      if mark == Some("1") {
        return true;
      }
      if jti !in memory {
        return false;
      }
      if memory[jti] <= redis.now {
        memory := memory - {jti};
        return false;
      }
      revoked := true;
    }

    method BlacklistToken(t: Token) returns (accepted: bool)
      modifies this, redis
      ensures (State(), accepted) == RevokeToken(old(State()), t)
    {
      if !t.genuine || t.jti == "" || t.exp == 0 {
        return false;
      }
      var ttl := Truncate(t.exp as real - redis.now);
      if ttl > 0 {
        Ban(t.jti, ttl);
      }
      accepted := true;
    }

    method DecodeToken(t: Token) returns (ok: bool)
      modifies this
      ensures ok == Accepts(old(State()), t)
      ensures State() == if t.genuine && old(State()).Now() < t.exp as real
                         then Forget(old(State()), t.jti) else old(State())
    {
      if !t.genuine || t.exp as real <= redis.now {
        return false;
      }
      var revoked := IsBlacklisted(t.jti);
      ok := !revoked;
    }
  }
}
