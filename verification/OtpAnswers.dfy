/**
 What the caller of each code flow is told, as a condition on rows, cache and clock, and how often
 a code is answered with success.
 */
module OtpAnswers {
  import opened Wrappers
  import opened RedisStore
  import opened Otp
  import opened OtpLaws
  import RateLimit

  /** The row could be used by the flow: its phone, code and, for resets and confirmations, its purpose. */
  predicate Usable(row: Row, flow: Flow, phone: string, code: string) {
    && row.phone == phone && row.code == code && !row.used
    && (flow.Reset? ==> row.purpose == "reset")
    && (flow.Confirm? ==> row.purpose == "admin_confirm")
  }

  /** The key a flow looks its code up under. */
  function LookupKey(flow: Flow, phone: string): string {
    if flow.Reset? then "otp:reset:" + phone
    else if flow.Confirm? then "otp:admin_confirm:" + phone
    else "otp:login:" + phone
  }

  predicate InCache(s: State, flow: Flow, phone: string, code: string) {
    code != "" && s.store.up && s.store.Holds(LookupKey(flow, phone), code)
  }

  /** The newest usable row has not expired. */
  predicate InTable(s: State, flow: Flow, phone: string, code: string) {
    exists i :: 0 <= i < |s.rows| && Usable(s.rows[i], flow, phone, code) && s.store.now <= s.rows[i].expires
                && forall j :: i < j < |s.rows| ==> !Usable(s.rows[j], flow, phone, code)
  }

  predicate Good(s: State, flow: Flow, phone: string, code: string) {
    InCache(s, flow, phone, code) || InTable(s, flow, phone, code)
  }

  lemma LookupKeyIs(flow: Flow, phone: string)
    ensures CacheKey(flow, phone) == LookupKey(flow, phone)
  {
    assert "otp:" + "reset" + ":" == "otp:reset:";
    assert "otp:" + "admin_confirm" + ":" == "otp:admin_confirm:";
    assert "otp:" + "login" + ":" == "otp:login:";
  }

  lemma UsableIs(row: Row, flow: Flow, phone: string, code: string)
    ensures Usable(row, flow, phone, code) <==> Matches(row, phone, code, Purpose(flow))
  {
  }

  lemma InTableIff(s: State, flow: Flow, phone: string, code: string)
    ensures var i := Latest(s.rows, phone, code, Purpose(flow));
            InTable(s, flow, phone, code) <==> i.Some? && s.store.now <= s.rows[i.value].expires
  {
    forall i | 0 <= i < |s.rows|
      ensures Usable(s.rows[i], flow, phone, code) <==> Matches(s.rows[i], phone, code, Purpose(flow))
    {
      UsableIs(s.rows[i], flow, phone, code);
    }
    hide Usable, Matches;
    var i := Latest(s.rows, phone, code, Purpose(flow));
    if i.Some? && s.store.now <= s.rows[i.value].expires {
      assert Usable(s.rows[i.value], flow, phone, code);
    }
  }

  lemma CheckPassesIff(s: State, flow: Flow, phone: string, code: string)
    ensures var (t, found) := Check(s, flow, phone, code);
            && (found.Some? <==> Good(s, flow, phone, code)) && (found.None? ==> t == s)
            && t.store == s.store && t.consumed == s.consumed && s.rows <= t.rows
  {
    LookupKeyIs(flow, phone);
    InTableIff(s, flow, phone, code);
    hide InTable, Latest, LookupKey, CacheKey;
  }

  /** The flows that look at the user before the code, and those that end in the retailer gate. */
  predicate UserFirst(flow: Flow) {
    flow.CheckedLogin? || flow.Confirm?
  }

  predicate IsLogin(flow: Flow) {
    flow.CheckedLogin? || flow.Login?
  }

  lemma FinishAnswer(s: State, i: nat, flow: Flow, user: Option<Error>, gate: Option<Error>)
    requires i < |s.rows| && (UserFirst(flow) ==> user.None?)
    ensures var (t, outcome) := Finish(s, i, flow, user, gate);
            if user.Some? then outcome == Refused(user.value) && t.consumed == s.consumed && t.rows == s.rows
            else
              && outcome == (if IsLogin(flow) && gate.Some? then Refused(gate.value) else Done)
              && t.consumed == s.consumed + [Use(s.rows[i].phone, s.rows[i].code)]
              && t.rows == s.rows[i := s.rows[i].(used := true)]
  {
    hide DeleteKeys;
  }

  /**
   Every answer of every flow, in any state. A refused user is told so, before the code check or
   after a passed one, and uses up nothing; a code that is neither cached nor the newest usable row
   and running is a bad request that changes nothing; and success means that one use of exactly
   this phone and code was committed.
   */
  lemma ConsumeAnswer(s: State, e: Request)
    requires e.Consume?
    ensures var (t, outcome) := Apply(s, e);
            var good := Good(s, e.flow, e.phone, e.code);
            if UserFirst(e.flow) && e.user.Some? then outcome == Refused(e.user.value) && t == s
            else if !good then outcome == Refused(BadRequest) && t == s
            else if e.user.Some? then outcome == Refused(e.user.value) && t.consumed == s.consumed && s.rows <= t.rows
            else
              && t.consumed == s.consumed + [Use(e.phone, e.code)]
              && outcome == (if IsLogin(e.flow) && e.gate.Some? then Refused(e.gate.value) else Done)
  {
    CheckPassesIff(s, e.flow, e.phone, e.code);
    var (checked, found) := Check(s, e.flow, e.phone, e.code);
    if found.Some? && !(UserFirst(e.flow) && e.user.Some?) {
      FinishAnswer(checked, found.value, e.flow, e.user, e.gate);
    }
    hide Check, Finish, Good;
  }

  /** Exactly when the answer is success. */
  lemma DoneIff(s: State, e: Request)
    requires e.Consume?
    ensures Apply(s, e).1 == Done <==>
            Good(s, e.flow, e.phone, e.code) && e.user.None? && (IsLogin(e.flow) ==> e.gate.None?)
  {
    ConsumeAnswer(s, e);
    hide Apply, Good;
  }

  /** Which keys a passed check takes away, and that it touches no other. */
  lemma KeysAfterConsume(s: State, e: Request, key: string)
    requires e.Consume? && s.store.up && Good(s, e.flow, e.phone, e.code)
    requires e.user.None? || e.flow.Login?
    ensures var data := Apply(s, e).0.store.data;
            && LookupKey(e.flow, e.phone) !in data
            && (key in data ==> key in s.store.data && data[key] == s.store.data[key])
            && (key in s.store.data && key !in data ==>
                  || key == LookupKey(e.flow, e.phone)
                  || (IsLogin(e.flow) && exists purpose :: key == "otp:" + purpose + ":" + e.phone))
  {
    LookupKeyIs(e.flow, e.phone);
    CheckPassesIff(s, e.flow, e.phone, e.code);
    var (checked, found) := Check(s, e.flow, e.phone, e.code);
    var row := checked.rows[found.value];
    hide Check, Good, LookupKey;
    assert Key(row.purpose, e.phone) == "otp:" + row.purpose + ":" + e.phone;
    hide Key;
  }

  // ---- over runs ----

  /** How many of the run's checks of a phone and code were answered with success. */
  function Successes(s: State, es: seq<Request>, u: Use): nat {
    if es == [] then 0
    else
      var before, e := Run(s, es[..|es| - 1]), es[|es| - 1];
      Successes(s, es[..|es| - 1], u)
      + if e.Consume? && Use(e.phone, e.code) == u && Apply(before, e).1 == Done then 1 else 0
  }

  lemma StepConsumes(s: State, e: Request)
    ensures s.consumed <= Apply(s, e).0.consumed
  {
    if e.Consume? {
      ConsumeAnswer(s, e);
      hide Apply, Good;
    }
  }

  lemma SuccessIsConsumed(s: State, e: Request, u: Use)
    ensures var (t, outcome) := Apply(s, e);
            var success := e.Consume? && Use(e.phone, e.code) == u && outcome == Done;
            multiset(t.consumed)[u] >= multiset(s.consumed)[u] + if success then 1 else 0
  {
    StepConsumes(s, e);
    if e.Consume? {
      ConsumeAnswer(s, e);
    }
    hide Apply, Good;
    var t := Apply(s, e).0;
    assert t.consumed == s.consumed + t.consumed[|s.consumed|..];
  }

  lemma {:induction false} SuccessesAreConsumed(s: State, es: seq<Request>, u: Use)
    ensures Successes(s, es, u) <= multiset(Run(s, es).consumed)[u]
  {
    hide Apply;
    if es != [] {
      SuccessesAreConsumed(s, es[..|es| - 1], u);
      SuccessIsConsumed(Run(s, es[..|es| - 1]), es[|es| - 1], u);
    }
  }

  /** Over every run within the limits of single use, a code succeeds at most as often as it was sent to the phone. */
  lemma SuccessesNeverExceedSends(s: State, es: seq<Request>, u: Use)
    requires Initial(s) && Legal(s, es)
    ensures Successes(s, es, u) <= multiset(Run(s, es).issued)[u]
  {
    SuccessesAreConsumed(s, es, u);
    CodesAreSingleUse(s, es);
    hide Run, Legal, Successes;
  }

  /** Over any run at all, it succeeds at most as often as it was sent and made up. */
  lemma SuccessesBalance(s: State, es: seq<Request>, u: Use)
    requires Initial(s)
    ensures Successes(s, es, u) + Unused(Run(s, es).rows, u)
            <= multiset(Run(s, es).issued)[u] + multiset(Run(s, es).madeUp)[u]
  {
    SuccessesAreConsumed(s, es, u);
    UsesBalance(s, es, u);
    hide Run, Successes, Unused;
  }

  /** A waiting code: sent to the phone, not used, not expired, and for the flow's purpose if it has one. */
  predicate Waiting(s: State, i: nat, flow: Flow, phone: string, code: string) {
    i < |s.rows| && Usable(s.rows[i], flow, phone, code) && s.store.now <= s.rows[i].expires
  }

  /** In every reachable state a code is accepted exactly while it waits. */
  lemma AcceptedIffWaiting(s: State, es: seq<Request>, e: Request)
    requires Initial(s) && Legal(s, es) && e.Consume? && OwnKey(Run(s, es), e.flow, e.phone)
    requires e.user.None? && e.gate.None?
    ensures Apply(Run(s, es), e).1 == Done <==>
            exists i: nat :: Waiting(Run(s, es), i, e.flow, e.phone, e.code)
  {
    RunKeepsInv(s, es);
    hide Run;
    var t := Run(s, es);
    DoneIff(t, e);
    GoodIffWaiting(t, e.flow, e.phone, e.code);
  }

  lemma GoodIffWaiting(t: State, flow: Flow, phone: string, code: string)
    requires Inv(t) && OwnKey(t, flow, phone)
    ensures Good(t, flow, phone, code) <==> exists i: nat :: Waiting(t, i, flow, phone, code)
  {
    if InCache(t, flow, phone, code) {
      CachedWaits(t, flow, phone, code);
    } else if i: nat :| Waiting(t, i, flow, phone, code) {
      assert ExpiresInOrder(t);
      hide Inv, LookupKey, CacheKey;
      NewestWaits(t, i, flow, phone, code);
    } else if InTable(t, flow, phone, code) {
      var i :| 0 <= i < |t.rows| && Usable(t.rows[i], flow, phone, code) && t.store.now <= t.rows[i].expires
               && forall j :: i < j < |t.rows| ==> !Usable(t.rows[j], flow, phone, code);
      assert Waiting(t, i, flow, phone, code);
    }
  }

  lemma CachedWaits(t: State, flow: Flow, phone: string, code: string)
    requires Inv(t) && OwnKey(t, flow, phone) && InCache(t, flow, phone, code)
    ensures exists i: nat :: Waiting(t, i, flow, phone, code)
  {
    LookupKeyIs(flow, phone);
    hide LookupKey, CacheKey;
    assert CacheHit(t, flow, phone, code);
    HitFindsItsRow(t, flow, phone, code);
    hide Inv, CacheHit, OwnKey;
    var i := Latest(t.rows, phone, code, None).value;
    assert Waiting(t, i, flow, phone, code);
  }

  lemma NewestWaits(t: State, i: nat, flow: Flow, phone: string, code: string)
    requires Waiting(t, i, flow, phone, code) && ExpiresInOrder(t)
    ensures InTable(t, flow, phone, code)
  {
    InTableIff(t, flow, phone, code);
    UsableIs(t.rows[i], flow, phone, code);
    var j := Latest(t.rows, phone, code, Purpose(flow));
    assert j.Some? && i <= j.value;
    assert i == j.value || t.rows[i].expires <= t.rows[j.value].expires;
  }

  /** What a send answers and does: refused only past the limit, and otherwise one row and one cached code. */
  lemma SendAnswer(s: State, phone: string, purpose: string, code: string)
    requires s.minutes > 0
    ensures var (t, outcome) := Apply(s, Send(phone, purpose, code));
            && (!s.store.up ==> outcome == Done)
            && (outcome == Done || outcome == Refused(RateLimited))
            && (outcome != Done ==> t.rows == s.rows && t.issued == s.issued)
            && (outcome == Done ==>
                  && t.issued == s.issued + [Use(phone, code)]
                  && t.rows == s.rows + [Row(phone, code, purpose, s.store.now + 60.0 * s.minutes as real, false)]
                  && (s.store.up ==>
                        Get(t.store, "otp:" + purpose + ":" + phone) == Some(code)))
  {
  }

  /** ... and it is refused exactly when it would be the sixth or a later one of a running window. */
  lemma SendRefusedIff(s: State, phone: string, purpose: string, code: string)
    requires s.store.up
    requires CounterKey(phone) in s.store.data ==>
               var c := RateLimit.ReadCounter(s.store, CounterKey(phone), 600);
               c.Some? && c.value.count > 0
    ensures var c := RateLimit.ReadCounter(s.store, CounterKey(phone), 600);
            Apply(s, Send(phone, purpose, code)).1 != Done <==>
            c.Some? && s.store.now < c.value.since + 600.0 && c.value.count >= 5
  {
    RateLimit.IncrIsNextCounter(s.store, CounterKey(phone), 600);
    hide RateLimit.ReadCounter, AddCode;
  }

  /** A code just sent is accepted by the flow it was sent for, up to the end of its minutes. */
  lemma SentCodeIsAccepted(s: State, flow: Flow, phone: string, code: string, dt: real)
    requires s.minutes > 0 && 0.0 <= dt <= 60.0 * s.minutes as real
    ensures var purpose := if flow.Reset? then "reset" else if flow.Confirm? then "admin_confirm" else "login";
            var sent := Apply(s, Send(phone, purpose, code));
            sent.1 == Done ==>
              Apply(Apply(sent.0, Wait(dt)).0, Consume(flow, phone, code, None, None)).1 == Done
  {
    var purpose := if flow.Reset? then "reset" else if flow.Confirm? then "admin_confirm" else "login";
    var sent := Apply(s, Send(phone, purpose, code));
    if sent.1 == Done {
      SendAnswer(s, phone, purpose, code);
      LastRowWaits(sent.0, flow, phone, code, dt);
      DoneIff(Apply(sent.0, Wait(dt)).0, Consume(flow, phone, code, None, None));
    }
    hide Apply, Good;
  }

  lemma LastRowWaits(s: State, flow: Flow, phone: string, code: string, dt: real)
    requires s.rows != [] && Usable(s.rows[|s.rows| - 1], flow, phone, code)
    requires dt >= 0.0 && s.store.now + dt <= s.rows[|s.rows| - 1].expires
    ensures Good(Apply(s, Wait(dt)).0, flow, phone, code)
  {
    var t := Apply(s, Wait(dt)).0;
    assert t.rows == s.rows && t.store.now <= t.rows[|t.rows| - 1].expires;
  }
}
