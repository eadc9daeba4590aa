/**
 Refresh-token rotation: login, refresh_tokens and logout of the auth service, on top of
 the revocation list.
 */
module Sessions {
  import opened Wrappers
  import opened Money
  import opened RedisStore
  import opened Sets
  import opened Blacklist

  /** `life` is refresh_token_expire_days in seconds; `exchanges` and `logins` are the run's history. */
  datatype State = State(revoker: Revoker, life: nat, accessLife: nat,
                         issued: set<Token>, jtis: set<string>,
                         logins: nat, exchanges: seq<Token>)

  datatype Request =
    | Login(user: nat, accessJti: string, refreshJti: string)
    | Exchange(token: Token, userActive: bool, accessJti: string, refreshJti: string)
    | Logout(accessToken: Option<Token>, refreshToken: Option<Token>)
    | Wait(dt: real)

  function NewRefresh(s: State, user: nat, jti: string): Token {
    Token(jti, Truncate(s.revoker.Now()) + s.life, Refresh, user, true)
  }

  /** create_token_pair: exp is a NumericDate, so the clock is truncated to seconds. */
  function Issue(s: State, user: nat, accessJti: string, refreshJti: string): State {
    var access := Token(accessJti, Truncate(s.revoker.Now()) + s.accessLife, Access, user, true);
    s.(issued := s.issued + {access, NewRefresh(s, user, refreshJti)}, jtis := s.jtis + {accessJti, refreshJti})
  }

  function RevokeMaybe(r: Revoker, t: Option<Token>): Revoker {
    if t.Some? then RevokeToken(r, t.value).0 else r
  }

  /** decode_token may drop a lapsed memory entry of the jti it looks up. */
  function Decoded(s: State, t: Token): State {
    if t.genuine && s.revoker.Now() < t.exp as real then s.(revoker := Forget(s.revoker, t.jti)) else s
  }

  /** The first half of a successful exchange. */
  function Record(s: State, t: Token): State {
    s.(revoker := RevokeToken(s.revoker, t).0, exchanges := s.exchanges + [t])
  }

  /** refresh_tokens: decode, type and user checks, revoke the old token, issue a new pair. */
  function Apply(s: State, e: Request): (State, Outcome) {
    match e
    case Login(user, a, r) => (Issue(s, user, a, r).(logins := s.logins + 1), Done)
    case Exchange(t, active, a, r) =>
      var decoded := Decoded(s, t);
      if !Accepts(s.revoker, t) || t.kind != Refresh then (decoded, Refused(Unauthorized))
      else if !active then (decoded, Refused(Unauthorized))
      else (Issue(Record(decoded, t), t.subject, a, r), Done)
    case Logout(a, r) => (s.(revoker := RevokeMaybe(RevokeMaybe(s.revoker, a), r)), Done)
    case Wait(dt) => (s.(revoker := s.revoker.(store := Advance(s.revoker.store, dt))), Done)
  }

  /** jtis are fresh, and a genuine token is one that was issued. */
  predicate Possible(s: State, e: Request) {
    match e
    case Login(_, a, r) => FreshPair(s, a, r)
    case Exchange(t, _, a, r) => (t.genuine ==> t in s.issued) && FreshPair(s, a, r)
    case Logout(a, r) =>
      (a.Some? && a.value.genuine ==> a.value in s.issued) && (r.Some? && r.value.genuine ==> r.value in s.issued)
    case Wait(dt) => dt >= 0.0
  }

  predicate FreshPair(s: State, a: string, r: string) {
    a != "" && r != "" && a != r && a !in s.jtis && r !in s.jtis
  }

  predicate WholeSecond(x: real) {
    x == x.Floor as real
  }

  predicate WholeWait(e: Request) {
    e.Wait? ==> WholeSecond(e.dt)
  }

  function Run(s: State, es: seq<Request>): State {
    if es == [] then s else Apply(Run(s, es[..|es| - 1]), es[|es| - 1]).0
  }

  ghost predicate Legal(s: State, es: seq<Request>) {
    forall i :: 0 <= i < |es| ==> Possible(Run(s, es[..i]), es[i])
  }

  predicate Blank(s: State) {
    && s.issued == {} && s.jtis == {} && s.logins == 0 && s.exchanges == []
    && s.revoker.memory == map[] && s.revoker.store.data == map[] && s.revoker.Now() >= 1.0
  }

  predicate Initial(s: State) {
    Blank(s) && WholeSecond(s.revoker.Now())
  }

  /** Refresh tokens the service would still exchange. */
  ghost function Live(s: State): set<Token> {
    set t | t in s.issued && t.kind == Refresh && Accepts(s.revoker, t)
  }

  // ---- what every step keeps, on a whole-second clock ----

  /** The service's own tokens: one for each jti. */
  ghost predicate Tokens(s: State) {
    && (forall t :: t in s.issued ==> t.jti in s.jtis && t.jti != "" && t.genuine && t.exp >= 1)
    && (forall t, u :: t in s.issued && u in s.issued && t.jti == u.jti ==> t == u)
  }

  ghost predicate ExchangedAreGuarded(s: State) {
    forall i :: 0 <= i < |s.exchanges| ==> s.exchanges[i] in s.issued && Guarded(s.revoker, s.exchanges[i])
  }

  predicate ExchangedOnce(s: State) {
    forall i, j :: 0 <= i < j < |s.exchanges| ==> s.exchanges[i] != s.exchanges[j]
  }

  /** Whatever is on the lists is a jti the service gave out, and guards its token. */
  ghost predicate Listed(s: State) {
    && (forall t :: t in s.issued && Blacklisted(s.revoker, t.jti) ==> Guarded(s.revoker, t))
    && (forall jti :: Key(jti) in s.revoker.store.data ==> jti in s.jtis)
    && (forall jti :: jti in s.revoker.memory ==> jti in s.jtis)
  }

  predicate Clock(s: State) {
    s.revoker.Now() >= 1.0 && WholeSecond(s.revoker.Now())
  }

  ghost predicate Inv(s: State) {
    Clock(s) && Tokens(s) && ExchangedAreGuarded(s) && ExchangedOnce(s) && Listed(s) && |Live(s)| <= s.logins
  }

  /** On a whole-second clock the gap before `exp` holds no reading of the clock. */
  lemma GuardedMeansDead(r: Revoker, t: Token)
    requires WholeSecond(r.Now()) && Guarded(r, t)
    ensures !Accepts(r, t)
  {
    assert r.Now().Floor <= t.exp - 1 || t.exp <= r.Now().Floor;
  }

  lemma KeyInjective(a: string, b: string)
    requires Key(a) == Key(b)
    ensures a == b
  {
    assert Key(a)[7..] == a && Key(b)[7..] == b;
  }

  /** Revoking one token leaves the standing of every other jti alone. */
  lemma RevokeLeavesOthers(r: Revoker, t: Token, jti: string)
    requires jti != t.jti
    ensures Blacklisted(RevokeToken(r, t).0, jti) == Blacklisted(r, jti)
  {
    if Key(jti) == Key(t.jti) {
      KeyInjective(jti, t.jti);
    }
  }

  /** ... and never un-revokes a genuine token, on a whole-second clock. */
  lemma RevokeOnlyShrinks(r: Revoker, t: Token, u: Token)
    requires t.genuine && u.genuine && (u.jti == t.jti ==> u == t) && WholeSecond(r.Now())
    ensures Accepts(RevokeToken(r, t).0, u) ==> Accepts(r, u)
    ensures u != t && u.jti != t.jti ==> Accepts(RevokeToken(r, t).0, u) == Accepts(r, u)
  {
    if u.jti != t.jti {
      RevokeLeavesOthers(r, t, u.jti);
    } else if RevokeToken(r, t).1 {
      RevokeGuards(r, t);
      GuardedMeansDead(RevokeToken(r, t).0, t);
    }
  }

  lemma IssueAddsOneLive(s: State, user: nat, a: string, r: string)
    ensures |Live(Issue(s, user, a, r))| <= |Live(s)| + 1
  {
    var s' := Issue(s, user, a, r);
    var added := NewRefresh(s, user, r);
    hide Accepts;
    assert Live(s') <= Live(s) + {added};
    SubsetSize(Live(s'), Live(s) + {added});
  }

  lemma IssueKeepsTokens(s: State, user: nat, a: string, r: string)
    requires Clock(s) && Tokens(s) && FreshPair(s, a, r)
    ensures Tokens(Issue(s, user, a, r))
  {
  }

  lemma IssueKeepsListed(s: State, user: nat, a: string, r: string)
    requires Listed(s) && FreshPair(s, a, r)
    ensures Listed(Issue(s, user, a, r))
  {
    assert !Blacklisted(s.revoker, a) && !Blacklisted(s.revoker, r);
    hide Blacklisted, Guarded;
  }

  lemma IssueKeepsInv(s: State, user: nat, a: string, r: string, extra: nat)
    requires Inv(s) && FreshPair(s, a, r) && |Live(s)| + 1 <= s.logins + extra
    ensures Inv(Issue(s, user, a, r).(logins := s.logins + extra))
  {
    IssueAddsOneLive(s, user, a, r);
    IssueKeepsTokens(s, user, a, r);
    IssueKeepsListed(s, user, a, r);
    hide Guarded, Blacklisted, FreshPair, Accepts;
    var s1 := Issue(s, user, a, r);
    assert Live(s1.(logins := s.logins + extra)) == Live(s1);
  }

  lemma RevokeKeepsListed(s: State, t: Token)
    requires Clock(s) && Tokens(s) && Listed(s) && t in s.issued
    ensures Listed(s.(revoker := RevokeToken(s.revoker, t).0))
  {
    var s' := s.(revoker := RevokeToken(s.revoker, t).0);
    forall u | u in s.issued && Blacklisted(s'.revoker, u.jti)
      ensures Guarded(s'.revoker, u)
    {
      if u == t {
        RevokeGuards(s.revoker, t);
      } else {
        RevokeLeavesOthers(s.revoker, t, u.jti);
        StepKeepsGuarded(s.revoker, Event.Revoke(t), u);
      }
    }
    forall jti | Key(jti) in s'.revoker.store.data
      ensures jti in s'.jtis
    {
      if Key(jti) == Key(t.jti) {
        KeyInjective(jti, t.jti);
      }
    }
  }

  lemma RevokeKeepsExchanged(s: State, t: Token)
    requires Tokens(s) && ExchangedAreGuarded(s) && t in s.issued
    ensures ExchangedAreGuarded(s.(revoker := RevokeToken(s.revoker, t).0))
  {
    hide Guarded, RevokeToken;
    forall i | 0 <= i < |s.exchanges|
      ensures Guarded(RevokeToken(s.revoker, t).0, s.exchanges[i])
    {
      StepKeepsGuarded(s.revoker, Event.Revoke(t), s.exchanges[i]);
    }
  }

  lemma RevokeKillsOne(s: State, t: Token)
    requires Clock(s) && Tokens(s) && t in s.issued
    ensures Live(s.(revoker := RevokeToken(s.revoker, t).0)) == Live(s) - {t}
  {
    var s' := s.(revoker := RevokeToken(s.revoker, t).0);
    RevokeGuards(s.revoker, t);
    GuardedMeansDead(s'.revoker, t);
    forall u | u in s.issued && u != t
      ensures Accepts(s'.revoker, u) == Accepts(s.revoker, u)
    {
      RevokeOnlyShrinks(s.revoker, t, u);
    }
    hide Accepts, Guarded, RevokeToken;
    assert Live(s') == Live(s) - {t};
  }

  lemma RevokeLeavesClock(r: Revoker, t: Token)
    ensures RevokeToken(r, t).0.Now() == r.Now() && (!t.genuine ==> RevokeToken(r, t).0 == r)
  {
  }

  lemma RevokeKeepsInv(s: State, t: Token)
    requires Inv(s) && (t.genuine ==> t in s.issued)
    ensures Inv(s.(revoker := RevokeToken(s.revoker, t).0))
    ensures Live(s.(revoker := RevokeToken(s.revoker, t).0)) == if t.genuine then Live(s) - {t} else Live(s)
  {
    RevokeLeavesClock(s.revoker, t);
    hide RevokeToken, Live, Guarded, Blacklisted, Listed, Accepts, WholeSecond;
    if t.genuine {
      RevokeKeepsListed(s, t);
      RevokeKeepsExchanged(s, t);
      RevokeKillsOne(s, t);
      SubsetSize(Live(s) - {t}, Live(s));
    }
  }

  lemma WholeSum(x: real, y: real)
    requires WholeSecond(x) && WholeSecond(y)
    ensures WholeSecond(x + y)
  {
    assert (x.Floor + y.Floor) as real == x + y;
  }

  /** What waiting does for one token: a guard stays, nothing is newly listed, nothing comes back. */
  lemma WaitForToken(s: State, dt: real, t: Token)
    requires dt >= 0.0 && WholeSecond(s.revoker.Now() + dt)
    ensures var r := Apply(s, Wait(dt)).0.revoker;
            && (Guarded(s.revoker, t) ==> Guarded(r, t))
            && (Blacklisted(r, t.jti) ==> Blacklisted(s.revoker, t.jti))
            && (Accepts(r, t) && (Blacklisted(s.revoker, t.jti) ==> Guarded(s.revoker, t)) ==> Accepts(s.revoker, t))
  {
    var r := Apply(s, Wait(dt)).0.revoker;
    if Guarded(s.revoker, t) {
      StepKeepsGuarded(s.revoker, Tick(dt), t);
      GuardedMeansDead(r, t);
    }
  }

  lemma WaitKeepsInv(s: State, dt: real)
    requires Inv(s) && dt >= 0.0 && WholeSecond(dt)
    ensures Inv(Apply(s, Wait(dt)).0) && Live(Apply(s, Wait(dt)).0) <= Live(s)
  {
    var s' := Apply(s, Wait(dt)).0;
    WholeSum(s.revoker.Now(), dt);
    forall t | t in s.issued
      ensures Guarded(s.revoker, t) ==> Guarded(s'.revoker, t)
      ensures Blacklisted(s'.revoker, t.jti) ==> Blacklisted(s.revoker, t.jti)
      ensures Accepts(s'.revoker, t) ==> Accepts(s.revoker, t)
    {
      WaitForToken(s, dt, t);
    }
    hide Guarded, Blacklisted, Accepts, WholeSecond;
    assert Live(s') <= Live(s);
    SubsetSize(Live(s'), Live(s));
  }

  lemma DecodedIsNeutral(s: State, t: Token)
    requires Inv(s)
    ensures Inv(Decoded(s, t)) && Live(Decoded(s, t)) == Live(s)
    ensures Accepts(Decoded(s, t).revoker, t) == Accepts(s.revoker, t)
  {
    var s' := Decoded(s, t);
    forall u | u in s.issued && Guarded(s.revoker, u)
      ensures Guarded(s'.revoker, u)
    {
      StepKeepsGuarded(s.revoker, Look(t.jti), u);
    }
    assert forall jti :: Blacklisted(s'.revoker, jti) == Blacklisted(s.revoker, jti);
    assert Live(s') == Live(s);
  }

  lemma LoginsBoundLive(s: State)
    requires Inv(s)
    ensures |Live(s)| <= s.logins
  {
  }

  lemma RecordKeepsLogins(s: State, t: Token)
    ensures Record(s, t).logins == s.logins
  {
  }

  lemma SameLogins(s: State, user: nat, a: string, r: string)
    ensures Issue(s, user, a, r).(logins := s.logins + 0) == Issue(s, user, a, r)
  {
  }

  lemma RecordAndIssueKeepInv(s: State, t: Token, a: string, r: string)
    requires Inv(s) && t in Live(s) && FreshPair(Record(s, t), a, r)
    ensures Inv(Issue(Record(s, t), t.subject, a, r))
  {
    hide *;
    LoginsBoundLive(s);
    RecordKeepsLogins(s, t);
    RecordKeepsInv(s, t);
    IssueKeepsInv(Record(s, t), t.subject, a, r, 0);
    SameLogins(Record(s, t), t.subject, a, r);
  }

  lemma ExchangeKeepsInv(s: State, e: Request)
    requires Inv(s) && e.Exchange? && Possible(s, e)
    ensures Inv(Apply(s, e).0)
  {
    hide Inv, Decoded, Live, Accepts, Issue, Record, FreshPair, Possible;
    DecodedIsNeutral(s, e.token);
    if Apply(s, e).1 == Done {
      ExchangeShape(s, e);
      RecordAndIssueKeepInv(Decoded(s, e.token), e.token, e.accessJti, e.refreshJti);
    }
  }

  /** A successful exchange: the old token dies, exactly one new one is live in its place. */
  lemma ExchangeReplaces(s: State, e: Request)
    requires Inv(s) && e.Exchange? && Possible(s, e) && Apply(s, e).1 == Done
    ensures e.token in Live(s) && e.token !in Live(Apply(s, e).0)
    ensures Apply(s, e).0.exchanges == s.exchanges + [e.token] && e.token !in s.exchanges
    ensures s.life > 0 ==>
              && Live(Apply(s, e).0) == Live(s) - {e.token} + {NewRefresh(s, e.token.subject, e.refreshJti)}
              && |Live(Apply(s, e).0)| == |Live(s)|
  {
    DecodedIsNeutral(s, e.token);
    ExchangeShape(s, e);
    DecodedKeepsRows(s, e.token);
    hide Inv, Decoded, Live, Accepts, Issue, FreshPair, Possible, Apply;
    var s0 := Decoded(s, e.token);
    RecordKeepsInv(s0, e.token);
    var s1 := Record(s0, e.token);
    RecordKeepsRows(s0, e.token);
    hide Record;
    NewTokenIsLive(s1, e.token.subject, e.accessJti, e.refreshJti);
    var added := NewRefresh(s1, e.token.subject, e.refreshJti);
    LiveIsIssued(s1, added);
    assert added == NewRefresh(s, e.token.subject, e.refreshJti);
  }

  lemma DecodedKeepsRows(s: State, t: Token)
    ensures var s0 := Decoded(s, t);
            && s0.life == s.life && s0.exchanges == s.exchanges && s0.revoker.Now() == s.revoker.Now()
  {
  }

  lemma RecordKeepsRows(s: State, t: Token)
    ensures Record(s, t).life == s.life && Record(s, t).revoker.Now() == s.revoker.Now()
  {
  }

  lemma LiveIsIssued(s: State, t: Token)
    ensures t in Live(s) ==> t in s.issued && Accepts(s.revoker, t)
  {
  }

  lemma ExchangeShape(s: State, e: Request)
    requires e.Exchange? && Possible(s, e) && Apply(s, e).1 == Done
    ensures var t := e.token;
            var s0 := Decoded(s, t);
            && Accepts(s.revoker, t) && (Accepts(s0.revoker, t) ==> t in Live(s0))
            && Apply(s, e).0 == Issue(Record(s0, t), t.subject, e.accessJti, e.refreshJti)
            && FreshPair(Record(s0, t), e.accessJti, e.refreshJti)
            && Apply(s, e).0.revoker == Record(s0, t).revoker
            && Apply(s, e).0.exchanges == s.exchanges + [t]
            && Apply(s, e).0.logins == Record(s0, t).logins
            && (t in Live(Apply(s, e).0) ==> Accepts(Record(s0, t).revoker, t))
  {
  }

  lemma LiveIsNotExchanged(s: State, t: Token)
    requires Clock(s) && ExchangedAreGuarded(s) && t in Live(s)
    ensures t !in s.exchanges
  {
    hide Guarded, Accepts, WholeSecond;
    forall i | 0 <= i < |s.exchanges|
      ensures s.exchanges[i] != t
    {
      GuardedMeansDead(s.revoker, s.exchanges[i]);
    }
  }

  /** Writing an exchange down changes nothing else. */
  lemma NoteKeepsInv(s: State, t: Token)
    requires Inv(s) && t in s.issued && t !in s.exchanges && Guarded(s.revoker, t)
    ensures var noted := s.(exchanges := s.exchanges + [t]);
            Inv(noted) && Live(noted) == Live(s)
  {
    hide Guarded, Blacklisted, Accepts;
    assert Live(s.(exchanges := s.exchanges + [t])) == Live(s);
  }

  lemma RecordKeepsInv(s: State, t: Token)
    requires Inv(s) && t in Live(s)
    ensures Inv(Record(s, t)) && t !in s.exchanges
    ensures Live(Record(s, t)) == Live(s) - {t} && !Accepts(Record(s, t).revoker, t)
    ensures |Live(Record(s, t))| + 1 == |Live(s)|
  {
    LiveIsIssued(s, t);
    assert t.genuine && t.jti != "" && t.exp >= 1;
    LiveIsNotExchanged(s, t);
    RevokeKeepsInv(s, t);
    RevokeGuards(s.revoker, t);
    var s0 := s.(revoker := RevokeToken(s.revoker, t).0);
    hide RevokeToken, Guarded, Blacklisted, Tokens, Listed, ExchangedAreGuarded, ExchangedOnce;
    GuardedMeansDead(s0.revoker, t);
    NoteKeepsInv(s0, t);
    assert Record(s, t) == s0.(exchanges := s0.exchanges + [t]);
  }

  lemma NewTokenIsLive(s: State, user: nat, a: string, r: string)
    requires Inv(s) && FreshPair(s, a, r)
    ensures var added := NewRefresh(s, user, r);
            && added !in s.issued
            && (s.life > 0 ==> Live(Issue(s, user, a, r)) == Live(s) + {added})
  {
    assert !Blacklisted(s.revoker, r);
    if s.life > 0 {
      assert Live(Issue(s, user, a, r)) == Live(s) + {NewRefresh(s, user, r)};
    }
  }

  lemma LogoutKeepsInv(s: State, e: Request)
    requires Inv(s) && e.Logout? && Possible(s, e)
    ensures Inv(Apply(s, e).0)
  {
    var s1 := s;
    if e.accessToken.Some? {
      RevokeKeepsInv(s, e.accessToken.value);
      s1 := s.(revoker := RevokeToken(s.revoker, e.accessToken.value).0);
    }
    if e.refreshToken.Some? {
      RevokeKeepsInv(s1, e.refreshToken.value);
    }
  }

  lemma StepKeepsInv(s: State, e: Request)
    requires Inv(s) && Possible(s, e) && WholeWait(e)
    ensures Inv(Apply(s, e).0)
  {
    match e
    case Login(user, a, r) =>
      LoginsBoundLive(s);
      hide Inv, Issue, FreshPair;
      IssueKeepsInv(s, user, a, r, 1);
    case Exchange(t, active, a, r) =>
      hide *;
      ExchangeKeepsInv(s, e);
    case Logout(_, _) =>
      hide *;
      LogoutKeepsInv(s, e);
    case Wait(dt) =>
      hide Inv, Apply;
      WaitKeepsInv(s, dt);
  }

  lemma InitialIsInv(s: State)
    requires Initial(s)
    ensures Inv(s)
  {
    assert Live(s) == {};
  }

  lemma {:induction false} RunKeepsInv(s: State, es: seq<Request>)
    requires Initial(s) && Legal(s, es) && forall e :: e in es ==> WholeWait(e)
    ensures Inv(Run(s, es))
  {
    hide Inv, Initial, Possible, Apply, WholeWait;
    if es == [] {
      InitialIsInv(s);
    } else {
      var k := |es| - 1;
      assert Possible(Run(s, es[..k]), es[k]) && es[k] in es;
      forall i | 0 <= i < k
        ensures Possible(Run(s, es[..k][..i]), es[..k][i])
      {
        assert es[..k][..i] == es[..i] && Possible(Run(s, es[..i]), es[i]);
      }
      assert forall e :: e in es[..k] ==> e in es;
      RunKeepsInv(s, es[..k]);
      StepKeepsInv(Run(s, es[..k]), es[k]);
    }
  }

  /**
   On a whole-second clock, over any run: no refresh token is exchanged twice, and there
   are never more live refresh tokens than there were logins.
   */
  lemma RotationSafety(s: State, es: seq<Request>)
    requires Initial(s) && Legal(s, es) && forall e :: e in es ==> WholeWait(e)
    ensures var t := Run(s, es);
            && (forall i, j :: 0 <= i < j < |t.exchanges| ==> t.exchanges[i] != t.exchanges[j])
            && |Live(t)| <= t.logins
  {
    RunKeepsInv(s, es);
  }

  // ---- on any clock ----

  /** What is known of the tokens whatever the clock reads: an exchanged one stays guarded. */
  ghost predicate Registered(s: State) {
    && s.revoker.Now() >= 1.0
    && (forall t :: t in s.issued ==> t.jti in s.jtis && t.jti != "" && t.genuine && t.exp >= 1)
    && (forall t, u :: t in s.issued && u in s.issued && t.jti == u.jti ==> t == u)
    && (forall i :: 0 <= i < |s.exchanges| ==> s.exchanges[i] in s.issued && Guarded(s.revoker, s.exchanges[i]))
  }

  /** A step of the revocation list that keeps off no issued token's key. */
  lemma RevokerStepKeepsRegistered(s: State, e: Event)
    requires Registered(s) && forall t :: t in s.issued ==> Apart(e, t)
    ensures Registered(s.(revoker := Blacklist.Step(s.revoker, e)))
  {
    hide Guarded, Blacklist.Step, Apart;
    forall t | t in s.issued
      ensures Guarded(s.revoker, t) ==> Guarded(Blacklist.Step(s.revoker, e), t)
    {
      if Guarded(s.revoker, t) {
        StepKeepsGuarded(s.revoker, e, t);
      }
    }
    ClockMovesOn(s.revoker, e);
  }

  lemma ClockMovesOn(r: Revoker, e: Event)
    ensures r.Now() <= Blacklist.Step(r, e).Now()
  {
  }

  lemma RevokeKeepsRegistered(s: State, t: Token)
    requires Registered(s) && (t.genuine ==> t in s.issued)
    ensures Registered(s.(revoker := RevokeToken(s.revoker, t).0))
  {
    RevokerStepKeepsRegistered(s, Event.Revoke(t));
  }

  lemma DecodedKeepsRegistered(s: State, t: Token)
    requires Registered(s)
    ensures Registered(Decoded(s, t))
  {
    if Decoded(s, t) != s {
      RevokerStepKeepsRegistered(s, Look(t.jti));
    }
  }

  lemma RecordKeepsRegistered(s: State, t: Token)
    requires Registered(s) && t in s.issued
    ensures Registered(Record(s, t))
  {
    RevokeKeepsRegistered(s, t);
    RevokeGuards(s.revoker, t);
    hide Guarded, RevokeToken;
  }

  lemma IssueKeepsRegistered(s: State, user: nat, a: string, r: string)
    requires Registered(s) && FreshPair(s, a, r)
    ensures Registered(Issue(s, user, a, r))
  {
    hide Guarded;
  }

  lemma StepKeepsRegistered(s: State, e: Request)
    requires Registered(s) && Possible(s, e)
    ensures Registered(Apply(s, e).0)
  {
    match e
    case Login(user, a, r) =>
      IssueKeepsRegistered(s, user, a, r);
      hide Guarded;
    case Exchange(t, active, a, r) =>
      DecodedKeepsRegistered(s, t);
      if Apply(s, e).1 == Done {
        ExchangeShape(s, e);
        assert t in Decoded(s, t).issued;
        hide *;
        RecordKeepsRegistered(Decoded(s, t), t);
        IssueKeepsRegistered(Record(Decoded(s, t), t), t.subject, a, r);
      }
    case Logout(a, r) =>
      var s1 := s.(revoker := RevokeMaybe(s.revoker, a));
      if a.Some? {
        RevokeKeepsRegistered(s, a.value);
      }
      if r.Some? {
        RevokeKeepsRegistered(s1, r.value);
      }
      hide Registered;
    case Wait(dt) => RevokerStepKeepsRegistered(s, Tick(dt));
  }

  lemma {:induction false} RunKeepsRegistered(s: State, es: seq<Request>)
    requires Blank(s) && Legal(s, es)
    ensures Registered(Run(s, es))
  {
    hide Possible, Apply, Guarded;
    if es != [] {
      var k := |es| - 1;
      assert Possible(Run(s, es[..k]), es[k]);
      forall i | 0 <= i < k
        ensures Possible(Run(s, es[..k][..i]), es[..k][i])
      {
        assert es[..k][..i] == es[..i] && Possible(Run(s, es[..i]), es[i]);
      }
      RunKeepsRegistered(s, es[..k]);
      StepKeepsRegistered(Run(s, es[..k]), es[k]);
    }
  }

  /**
   Over every run, on any clock: a token already exchanged is exchanged again only within the last
   second of its life.
   */
  lemma ExchangedAgainOnlyInLastSecond(s: State, es: seq<Request>, e: Request)
    requires Blank(s) && Legal(s, es) && e.Exchange? && Possible(Run(s, es), e)
    requires e.token in Run(s, es).exchanges && Apply(Run(s, es), e).1 == Done
    ensures e.token.exp as real - 1.0 < Run(s, es).revoker.Now() < e.token.exp as real
  {
    RunKeepsRegistered(s, es);
    hide Run;
    ExchangeShape(Run(s, es), e);
    GuardedIsRefused(Run(s, es).revoker, e.token);
  }

  // ---- answers of refresh and logout ----

  /** Exactly which exchanges go through, and that a refused one changes nothing that counts. */
  lemma ExchangeAnswer(s: State, e: Request)
    requires Inv(s) && e.Exchange? && Possible(s, e)
    ensures var (t, outcome) := Apply(s, e);
            && (outcome == Done <==> e.token in Live(s) && e.userActive)
            && (outcome != Done ==>
                  && outcome == Refused(Unauthorized) && Live(t) == Live(s)
                  && t.issued == s.issued && t.exchanges == s.exchanges)
  {
    DecodedIsNeutral(s, e.token);
    LiveIs(s, e.token);
    hide Inv, Live, Issue, Record, FreshPair;
  }

  lemma LiveIs(s: State, t: Token)
    ensures t in Live(s) <==> t in s.issued && t.kind == Refresh && Accepts(s.revoker, t)
  {
  }

  /** An access and a refresh token of the user, each lasting its life from the current second on. */
  predicate IsPair(s: State, user: nat, access: Token, refresh: Token) {
    && access.genuine && refresh.genuine && access.kind == Access && refresh.kind == Refresh
    && access.subject == user && refresh.subject == user
    && s.revoker.Now() + s.accessLife as real - 1.0 < access.exp as real <= s.revoker.Now() + s.accessLife as real
    && s.revoker.Now() + s.life as real - 1.0 < refresh.exp as real <= s.revoker.Now() + s.life as real
  }

  lemma IssuedPair(s: State, user: nat, a: string, r: string)
    requires s.revoker.Now() >= 0.0
    ensures exists access, refresh ::
              && IsPair(s, user, access, refresh) && access.jti == a && refresh.jti == r
              && Issue(s, user, a, r).issued == s.issued + {access, refresh}
  {
    var now := Truncate(s.revoker.Now());
    var access, refresh := Token(a, now + s.accessLife, Access, user, true), NewRefresh(s, user, r);
    assert IsPair(s, user, access, refresh);
  }

  /** A login and a successful exchange issue one such pair: of its user, or of the old token's subject. */
  lemma PairAnswer(s: State, e: Request)
    requires s.revoker.Now() >= 0.0 && (e.Login? || e.Exchange?) && Apply(s, e).1 == Done
    ensures var user := if e.Login? then e.user else e.token.subject;
            exists access, refresh ::
              && IsPair(s, user, access, refresh) && access.jti == e.accessJti && refresh.jti == e.refreshJti
              && Apply(s, e).0.issued == s.issued + {access, refresh}
  {
    if e.Login? {
      IssuedPair(s, e.user, e.accessJti, e.refreshJti);
    } else {
      var s1 := Record(Decoded(s, e.token), e.token);
      RevokeLeavesClock(Decoded(s, e.token).revoker, e.token);
      DecodedKeepsRows(s, e.token);
      IssuedPair(s1, e.token.subject, e.accessJti, e.refreshJti);
      hide RevokeToken, Issue, Accepts;
      var access, refresh :|
        && IsPair(s1, e.token.subject, access, refresh) && access.jti == e.accessJti && refresh.jti == e.refreshJti
        && Issue(s1, e.token.subject, e.accessJti, e.refreshJti).issued == s1.issued + {access, refresh};
      assert IsPair(s, e.token.subject, access, refresh);
    }
  }

  /** The token is one of those a logout was given. */
  predicate HandedIn(e: Request, t: Token) {
    e.Logout? && t.genuine && (e.accessToken == Some(t) || e.refreshToken == Some(t))
  }

  function HandedInSet(e: Request): set<Token>
    requires e.Logout?
  {
    (if e.accessToken.Some? then {e.accessToken.value} else {})
    + if e.refreshToken.Some? then {e.refreshToken.value} else {}
  }

  lemma RevokeMaybeKeepsInv(s: State, t: Option<Token>)
    requires Inv(s) && (t.Some? && t.value.genuine ==> t.value in s.issued)
    ensures var s' := s.(revoker := RevokeMaybe(s.revoker, t));
            Inv(s') && Live(s') == Live(s) - if t.Some? then {t.value} else {}
  {
    if t.Some? {
      RevokeKeepsInv(s, t.value);
      assert !t.value.genuine ==> t.value !in Live(s);
    }
    hide Inv, Live, RevokeToken;
  }

  /** A logout answers success and takes exactly the given tokens from the live ones. */
  lemma LogoutTakesTokens(s: State, e: Request)
    requires Inv(s) && e.Logout? && Possible(s, e)
    ensures var (t, outcome) := Apply(s, e);
            && outcome == Done && Live(t) == Live(s) - HandedInSet(e)
            && t.issued == s.issued && t.exchanges == s.exchanges && t.logins == s.logins
  {
    hide Inv, Live, RevokeMaybe;
    RevokeMaybeKeepsInv(s, e.accessToken);
    var s1 := s.(revoker := RevokeMaybe(s.revoker, e.accessToken));
    RevokeMaybeKeepsInv(s1, e.refreshToken);
    assert Apply(s, e).0 == s1.(revoker := RevokeMaybe(s1.revoker, e.refreshToken));
  }

  /** A token the list guards stays guarded at every step, on any clock. */
  lemma StepKeepsTokenGuarded(s: State, e: Request, t: Token)
    requires Registered(s) && Possible(s, e) && t in s.issued && Guarded(s.revoker, t)
    ensures t in Apply(s, e).0.issued && Guarded(Apply(s, e).0.revoker, t)
  {
    hide Guarded, Accepts;
    match e
    case Login(user, a, r) =>
    case Exchange(u, active, a, r) =>
      if Decoded(s, u) != s {
        StepKeepsGuarded(s.revoker, Look(u.jti), t);
      }
      if Apply(s, e).1 == Done {
        ExchangeShape(s, e);
        StepKeepsGuarded(Decoded(s, u).revoker, Event.Revoke(u), t);
      }
    case Logout(a, r) =>
      if a.Some? {
        StepKeepsGuarded(s.revoker, Event.Revoke(a.value), t);
      }
      if r.Some? {
        StepKeepsGuarded(RevokeMaybe(s.revoker, a), Event.Revoke(r.value), t);
      }
    case Wait(dt) => StepKeepsGuarded(s.revoker, Tick(dt), t);
  }

  lemma LogoutGuards(s: State, e: Request, t: Token)
    requires Registered(s) && Possible(s, e) && HandedIn(e, t)
    ensures t in Apply(s, e).0.issued && Guarded(Apply(s, e).0.revoker, t)
  {
    assert t in s.issued && RevokeToken(s.revoker, t).1;
    if e.accessToken == Some(t) {
      RevokeGuards(s.revoker, t);
      if e.refreshToken.Some? {
        StepKeepsGuarded(RevokeToken(s.revoker, t).0, Event.Revoke(e.refreshToken.value), t);
      }
    } else {
      RevokeGuards(RevokeMaybe(s.revoker, e.accessToken), t);
    }
    hide Guarded, RevokeToken;
  }

  /** The logout at `k` of the run was given `t`. */
  ghost predicate LoggedOutAt(es: seq<Request>, k: nat, t: Token) {
    k < |es| && HandedIn(es[k], t)
  }

  lemma LegalFront(s: State, es: seq<Request>)
    requires es != [] && Legal(s, es)
    ensures Legal(s, es[..|es| - 1]) && Possible(Run(s, es[..|es| - 1]), es[|es| - 1])
  {
    hide Possible, Run;
    var k := |es| - 1;
    assert Possible(Run(s, es[..k]), es[k]);
    forall i | 0 <= i < k
      ensures Possible(Run(s, es[..k][..i]), es[..k][i])
    {
      assert es[..k][..i] == es[..i] && Possible(Run(s, es[..i]), es[i]);
    }
  }

  lemma {:induction false} LoggedOutIsGuarded(s: State, es: seq<Request>, k: nat, t: Token)
    requires Blank(s) && Legal(s, es) && LoggedOutAt(es, k, t)
    ensures t in Run(s, es).issued && Guarded(Run(s, es).revoker, t)
  {
    var n := |es| - 1;
    LegalFront(s, es);
    RunKeepsRegistered(s, es[..n]);
    hide Legal, Blank, Apply, Possible, Guarded, Registered;
    if k == n {
      LogoutGuards(Run(s, es[..n]), es[n], t);
    } else {
      LoggedOutIsGuarded(s, es[..n], k, t);
      StepKeepsTokenGuarded(Run(s, es[..n]), es[n], t);
    }
  }

  /** On any clock, a token handed in at a logout is accepted later only within the last second of its life. */
  lemma LoggedOutOnlyInLastSecond(s: State, es: seq<Request>, k: nat, t: Token)
    requires Blank(s) && Legal(s, es) && LoggedOutAt(es, k, t)
    ensures Accepts(Run(s, es).revoker, t) ==>
              t.exp as real - 1.0 < Run(s, es).revoker.Now() < t.exp as real
  {
    LoggedOutIsGuarded(s, es, k, t);
    hide Run, Guarded;
    if Accepts(Run(s, es).revoker, t) {
      GuardedIsRefused(Run(s, es).revoker, t);
    }
  }

  /** On a whole-second clock it is never accepted again, and never exchanged. */
  lemma LoggedOutIsRefused(s: State, es: seq<Request>, k: nat, t: Token, e: Request)
    requires Initial(s) && Legal(s, es) && (forall r :: r in es ==> WholeWait(r)) && LoggedOutAt(es, k, t)
    requires e.Exchange? && e.token == t
    ensures !Accepts(Run(s, es).revoker, t)
    ensures Apply(Run(s, es), e).1 == Refused(Unauthorized)
  {
    LoggedOutIsGuarded(s, es, k, t);
    RunKeepsInv(s, es);
    hide Run, Guarded;
    GuardedMeansDead(Run(s, es).revoker, t);
  }

  /**
   And exactly when: after the exchange of a token the lists did not know, a second exchange of it
   `dt` seconds later goes through just when `dt` is past the whole seconds that were left.
   */
  lemma SecondExchangeIff(s: State, e: Request, dt: real, again: Request)
    requires e.Exchange? && Apply(s, e).1 == Done && dt >= 0.0
    requires e.token.jti != "" && e.token.exp != 0
    requires Key(e.token.jti) !in s.revoker.store.data && e.token.jti !in s.revoker.memory
    requires again.Exchange? && again.token == e.token && again.userActive
    ensures var left := e.token.exp as real - s.revoker.Now();
            Apply(Apply(Apply(s, e).0, Wait(dt)).0, again).1 == Done <==> left.Floor as real <= dt < left
  {
    ExactGap(s.revoker, e.token, dt);
    var waited := Apply(Apply(s, e).0, Wait(dt)).0;
    assert Decoded(s, e.token) == s;
    assert waited.revoker == Blacklist.Step(RevokeToken(s.revoker, e.token).0, Tick(dt));
    hide RevokeToken, Accepts, Blacklist.Step;
  }

  /** With sub-second readings the same token can be exchanged twice in the last second of its life. */
  lemma DoubleExchangeBetweenSeconds(s: State)
    requires s == State(Revoker(Store(true, 1.0, map[]), map[]), 10, 5, {}, {}, 0, [])
    ensures var s1 := Apply(s, Login(7, "a1", "r1")).0;
            var s2 := Apply(s1, Wait(0.5)).0;
            var t := Token("r1", 11, Refresh, 7, true);
            var s3 := Apply(s2, Exchange(t, true, "a2", "r2")).0;
            var s4 := Apply(s3, Wait(9.25)).0;
            var s5 := Apply(s4, Exchange(t, true, "a3", "r3")).0;
            && Initial(s) && Possible(s, Login(7, "a1", "r1"))
            && Possible(s2, Exchange(t, true, "a2", "r2")) && Possible(s4, Exchange(t, true, "a3", "r3"))
            && s5.exchanges == [t, t]
  {
    var t := Token("r1", 11, Refresh, 7, true);
    LoginAndWait(s, t);
    var s2 := Apply(Apply(s, Login(7, "a1", "r1")).0, Wait(0.5)).0;
    hide Apply;
    ExchangeTwice(s2, t);
  }

  lemma LoginAndWait(s: State, t: Token)
    requires s == State(Revoker(Store(true, 1.0, map[]), map[]), 10, 5, {}, {}, 0, [])
    requires t == Token("r1", 11, Refresh, 7, true)
    ensures Possible(s, Login(7, "a1", "r1"))
    ensures var s2 := Apply(Apply(s, Login(7, "a1", "r1")).0, Wait(0.5)).0;
            && s2.revoker == Revoker(Store(true, 1.5, map[]), map[]) && s2.exchanges == []
            && t in s2.issued && s2.jtis == {"a1", "r1"}
  {
  }

  lemma ExchangeTwice(s: State, t: Token)
    requires s.revoker == Revoker(Store(true, 1.5, map[]), map[]) && s.exchanges == []
    requires t == Token("r1", 11, Refresh, 7, true) && t in s.issued && s.jtis == {"a1", "r1"}
    ensures var e, again := Exchange(t, true, "a2", "r2"), Exchange(t, true, "a3", "r3");
            var s4 := Apply(Apply(s, e).0, Wait(9.25)).0;
            Possible(s, e) && Possible(s4, again) && Apply(s4, again).0.exchanges == [t, t]
  {
    var e, again := Exchange(t, true, "a2", "r2"), Exchange(t, true, "a3", "r3");
    assert Possible(s, e) && Accepts(s.revoker, t) && (9.5).Floor == 9;
    var s3 := Apply(s, e).0;
    hide Apply, Accepts, Possible;
    FirstOfTwo(s, e);
    SecondExchangeIff(s, e, 9.25, again);
    WaitLeavesTokens(s3, 9.25);
    var s4 := Apply(s3, Wait(9.25)).0;
    FreshAgain(s4, again);
    ExchangeShape(s4, again);
  }

  lemma FreshAgain(s: State, e: Request)
    requires e.Exchange? && e.token in s.issued && e.accessJti == "a3" && e.refreshJti == "r3"
    requires s.jtis == {"a1", "r1"} + {"a2", "r2"}
    ensures Possible(s, e)
  {
  }

  lemma WaitLeavesTokens(s: State, dt: real)
    ensures var t := Apply(s, Wait(dt)).0;
            t.issued == s.issued && t.jtis == s.jtis && t.exchanges == s.exchanges
  {
  }

  lemma FirstOfTwo(s: State, e: Request)
    requires e.Exchange? && Accepts(s.revoker, e.token) && e.token.kind == Refresh && e.userActive
    requires e.token in s.issued
    ensures var t := Apply(s, e).0;
            && Apply(s, e).1 == Done && t.exchanges == s.exchanges + [e.token] && e.token in t.issued
            && t.jtis == s.jtis + {e.accessJti, e.refreshJti}
  {
    hide Accepts, RevokeToken;
  }

  /** What a revocation leaves of a token that names a jti and an expiry. */
  predicate TurnedAway(r: Revoker, t: Token) {
    t.jti != "" && t.exp != 0 ==>
      && (Accepts(r, t) ==> t.exp as real - 1.0 < r.Now())
      && (WholeSecond(r.Now()) ==> !Accepts(r, t))
  }

  lemma GuardedIsTurnedAway(r: Revoker, t: Token)
    requires t.genuine ==> Guarded(r, t)
    ensures TurnedAway(r, t)
  {
    if t.genuine && WholeSecond(r.Now()) {
      GuardedMeansDead(r, t);
    }
    if Accepts(r, t) {
      GuardedIsRefused(r, t);
    }
  }

  lemma RevokedIsTurnedAway(r: Revoker, t: Token)
    ensures TurnedAway(RevokeToken(r, t).0, t)
  {
    if t.jti != "" && t.exp != 0 {
      if t.genuine {
        RevokeGuards(r, t);
      }
      GuardedIsTurnedAway(RevokeToken(r, t).0, t);
    }
  }

  lemma LogoutTurnsAway(r: Revoker, a: Option<Token>, b: Option<Token>)
    ensures var r' := RevokeMaybe(RevokeMaybe(r, a), b);
            && (b.Some? ==> TurnedAway(r', b.value))
            && (a.Some? ==> TurnedAway(r', a.value) || (b.Some? && b.value.jti == a.value.jti))
  {
    hide TurnedAway, RevokeToken, Guarded;
    if b.Some? {
      RevokedIsTurnedAway(RevokeMaybe(r, a), b.value);
    }
    if a.Some? {
      RevokedIsTurnedAway(r, a.value);
      if b.Some? && b.value.jti != a.value.jti {
        SecondRevocation(r, a.value, b.value);
      }
    }
  }

  lemma SecondRevocation(r: Revoker, a: Token, b: Token)
    requires b.jti != a.jti
    ensures TurnedAway(RevokeToken(RevokeToken(r, a).0, b).0, a)
  {
    if a.jti != "" && a.exp != 0 {
      if a.genuine {
        RevokeGuards(r, a);
        StepKeepsGuarded(RevokeToken(r, a).0, Event.Revoke(b), a);
      }
      hide RevokeToken;
      GuardedIsTurnedAway(RevokeToken(RevokeToken(r, a).0, b).0, a);
    }
  }

  /** The token-handling half of the auth service, on one process's revocation list. */
  class AuthService {
    const revocations: BlacklistModule
    const life: nat
    const accessLife: nat
    ghost var history: State

    constructor (revocations: BlacklistModule, life: nat, accessLife: nat)
      ensures this.revocations == revocations
      ensures history == State(revocations.State(), life, accessLife, {}, {}, 0, [])
    {
      this.revocations, this.life, this.accessLife := revocations, life, accessLife;
      history := State(revocations.State(), life, accessLife, {}, {}, 0, []);
    }

    ghost predicate Valid()
      reads this, revocations, revocations.redis
    {
      history.revoker == revocations.State() && history.life == life && history.accessLife == accessLife
    }

    method CreateTokenPair(user: nat, accessJti: string, refreshJti: string) returns (access: Token, refresh: Token)
      ensures access == Token(accessJti, Truncate(revocations.State().Now()) + accessLife, Access, user, true)
      ensures refresh == Token(refreshJti, Truncate(revocations.State().Now()) + life, Refresh, user, true)
    {
      var now := Truncate(revocations.redis.now);
      access := Token(accessJti, now + accessLife, Access, user, true);
      refresh := Token(refreshJti, now + life, Refresh, user, true);
    }

    /** The end of every login flow. */
    method LogIn(user: nat, accessJti: string, refreshJti: string) returns (access: Token, refresh: Token)
      requires Valid()
      modifies this
      ensures Valid()
      ensures history == Apply(old(history), Login(user, accessJti, refreshJti)).0
      ensures history.issued == old(history).issued + {access, refresh}
      ensures refresh == NewRefresh(old(history), user, refreshJti) && access.kind == Access
    {
      history := Apply(history, Login(user, accessJti, refreshJti)).0;
      access, refresh := CreateTokenPair(user, accessJti, refreshJti);
    }

    /** The pair comes back exactly when the exchange goes through, and is what the step issues. */
    method RefreshTokens(t: Token, userActive: bool, accessJti: string, refreshJti: string)
      returns (outcome: Outcome, pair: Option<(Token, Token)>)
      requires Valid()
      modifies this, revocations, revocations.redis
      ensures Valid()
      ensures (history, outcome) == Apply(old(history), Exchange(t, userActive, accessJti, refreshJti))
      ensures pair.Some? <==> outcome == Done
      ensures history.issued == old(history).issued + if pair.Some? then {pair.value.0, pair.value.1} else {}
      ensures pair.Some? ==>
                pair.value.1 == NewRefresh(old(history), t.subject, refreshJti) && pair.value.0.kind == Access
    {
      history := Apply(history, Exchange(t, userActive, accessJti, refreshJti)).0;
      pair := None;
      var ok := revocations.DecodeToken(t);
      if !ok || t.kind != Refresh {
        return Refused(Unauthorized), None;
      }
      if !userActive {
        return Refused(Unauthorized), None;
      }
      var _ := revocations.BlacklistToken(t);
      var access, refresh := CreateTokenPair(t.subject, accessJti, refreshJti);
      pair := Some((access, refresh));
      outcome := Done;
    }

    method LogOut(accessToken: Option<Token>, refreshToken: Option<Token>)
      requires Valid()
      modifies this, revocations, revocations.redis
      ensures Valid()
      ensures history == Apply(old(history), Logout(accessToken, refreshToken)).0
      ensures refreshToken.Some? ==> TurnedAway(revocations.State(), refreshToken.value)
      ensures accessToken.Some? ==>
                || TurnedAway(revocations.State(), accessToken.value)
                || (refreshToken.Some? && refreshToken.value.jti == accessToken.value.jti)
    {
      history := Apply(history, Logout(accessToken, refreshToken)).0;
      LogoutTurnsAway(revocations.State(), accessToken, refreshToken);
      hide TurnedAway, RevokeToken;
      if accessToken.Some? {
        var _ := revocations.BlacklistToken(accessToken.value);
      }
      if refreshToken.Some? {
        var _ := revocations.BlacklistToken(refreshToken.value);
      }
    }
  }
}
