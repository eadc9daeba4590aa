/**
 One-time codes of the auth service, kept both as table rows and in the TTL store.
 A request is one atomic step; a request that raises keeps its Redis deletions and
 loses its uncommitted row changes.
 */
module Otp {
  import opened Wrappers
  import opened RedisStore

  const SEND_LIMIT: nat := 5
  const SEND_WINDOW: nat := 600

  /** A row of otp_codes; its id is its position in the table. */
  datatype Row = Row(phone: string, code: string, purpose: string, expires: real, used: bool)

  datatype Use = Use(phone: string, code: string)

  /** `issued`, `madeUp` and `consumed` are history: codes sent out, rows made up by a check, committed uses. */
  datatype State = State(store: Store, minutes: nat, rows: seq<Row>,
                         issued: seq<Use>, madeUp: seq<Use>, consumed: seq<Use>)

  /** The code-consuming flows, by what they check and delete. */
  datatype Flow =
    | Login          // verify_otp_and_login, retailer_otp_login: user checks come after the code check
    | CheckedLogin   // admin_otp_login, retailer_login, delivery_login: they come before it
    | Reset          // reset_password: after it, but before anything is deleted
    | Confirm        // admin_confirm_email: before it

  /** `user` is the flow's user check failing, `gate` the retailer gate after the commit failing. */
  datatype Request =
    | Send(phone: string, purpose: string, code: string)
    | SendConfirmation(phone: string, code: string)
    | Consume(flow: Flow, phone: string, code: string, user: Option<Error>, gate: Option<Error>)
    | Wait(dt: real)

  function Key(purpose: string, phone: string): string {
    "otp:" + purpose + ":" + phone
  }

  function CounterKey(phone: string): string {
    Key("rl", phone)
  }

  function Purpose(flow: Flow): Option<string> {
    match flow
    case Reset => Some("reset")
    case Confirm => Some("admin_confirm")
    case _ => None
  }

  /** `purpose or "login"`. */
  function PurposeName(flow: Flow): string {
    match flow
    case Reset => "reset"
    case Confirm => "admin_confirm"
    case _ => "login"
  }

  function CacheKey(flow: Flow, phone: string): string {
    Key(PurposeName(flow), phone)
  }

  predicate Matches(row: Row, phone: string, code: string, purpose: Option<string>) {
    row.phone == phone && row.code == code && !row.used && (purpose.Some? ==> row.purpose == purpose.value)
  }

  /** ORDER BY id DESC, first row. */
  function Latest(rows: seq<Row>, phone: string, code: string, purpose: Option<string>): (r: Option<nat>)
    ensures r.Some? ==> r.value < |rows| && Matches(rows[r.value], phone, code, purpose)
    ensures r.None? ==> forall i :: 0 <= i < |rows| ==> !Matches(rows[i], phone, code, purpose)
    ensures r.Some? ==> forall i :: r.value < i < |rows| ==> !Matches(rows[i], phone, code, purpose)
  {
    if rows == [] then None
    else if Matches(rows[|rows| - 1], phone, code, purpose) then Some(|rows| - 1)
    else Latest(rows[..|rows| - 1], phone, code, purpose)
  }

  /** The cached code equals the given one. */
  predicate CacheHit(s: State, flow: Flow, phone: string, code: string) {
    code != "" && Get(s.store, CacheKey(flow, phone)) == Some(code)
  }

  /** The row a check makes up, and commits, when only the cache knows the code. */
  function MakeUp(s: State, flow: Flow, phone: string, code: string): State {
    s.(rows := s.rows + [Row(phone, code, PurposeName(flow), s.store.now + 60.0, false)],
       madeUp := s.madeUp + [Use(phone, code)])
  }

  /** _check_otp: the row to use, or None for "Invalid or expired OTP". */
  function Check(s: State, flow: Flow, phone: string, code: string): (r: (State, Option<nat>))
    ensures r.1.Some? ==> r.1.value < |r.0.rows| && Matches(r.0.rows[r.1.value], phone, code, None)
  {
    if CacheHit(s, flow, phone, code) then
      match Latest(s.rows, phone, code, None)
      case Some(i) => (s, Some(i))
      case None => (MakeUp(s, flow, phone, code), Some(|s.rows|))
    else
      match Latest(s.rows, phone, code, Purpose(flow))
      case Some(i) => if s.rows[i].expires < s.store.now then (s, None) else (s, Some(i))
      case None => (s, None)
  }

  /** The cache keys a flow deletes once the code check has passed. */
  function DeleteKeys(s: Store, flow: Flow, phone: string, purpose: string): Store {
    match flow
    case Reset => Delete(s, Key("reset", phone))
    case Confirm => Delete(s, Key("admin_confirm", phone))
    case _ => Delete(Delete(s, Key("login", phone)), Key(purpose, phone))
  }

  function AddCode(s: State, phone: string, purpose: string, code: string): State {
    var row := Row(phone, code, purpose, s.store.now + (s.minutes * 60) as real, false);
    s.(rows := s.rows + [row], issued := s.issued + [Use(phone, code)],
       store := Set(s.store, Key(purpose, phone), code, s.minutes * 60).0)
  }

  function MarkUsed(s: State, i: nat): State
    requires i < |s.rows|
  {
    s.(rows := s.rows[i := s.rows[i].(used := true)],
       consumed := s.consumed + [Use(s.rows[i].phone, s.rows[i].code)])
  }

  /** A flow after its code check has passed. */
  function Finish(s: State, i: nat, flow: Flow, user: Option<Error>, gate: Option<Error>): (State, Outcome)
    requires i < |s.rows|
  {
    var deleted := s.(store := DeleteKeys(s.store, flow, s.rows[i].phone, s.rows[i].purpose));
    if flow.Reset? && user.Some? then (s, Refused(user.value))
    else if flow.Login? && user.Some? then (deleted, Refused(user.value))
    else (MarkUsed(deleted, i), if (flow.Login? || flow.CheckedLogin?) && gate.Some? then Refused(gate.value) else Done)
  }

  function SendCode(s: State, phone: string, purpose: string, code: string): (State, Outcome) {
    var (store, count) := Incr(s.store, CounterKey(phone), SEND_WINDOW);
    var counted := s.(store := store);
    if count.Some? && count.value > SEND_LIMIT then (counted, Refused(RateLimited))
    else (AddCode(counted, phone, purpose, code), Done)
  }

  function ConsumeCode(s: State, e: Request): (State, Outcome)
    requires e.Consume?
  {
    if (e.flow.CheckedLogin? || e.flow.Confirm?) && e.user.Some? then (s, Refused(e.user.value))
    else
      var (checked, found) := Check(s, e.flow, e.phone, e.code);
      if found.None? then (checked, Refused(BadRequest))
      else Finish(checked, found.value, e.flow, e.user, e.gate)
  }

  function Apply(s: State, e: Request): (State, Outcome) {
    match e
    case Send(phone, purpose, code) => SendCode(s, phone, purpose, code)
    case SendConfirmation(phone, code) => (AddCode(s, phone, "admin_confirm", code), Done)
    case Consume(_, _, _, _, _) => ConsumeCode(s, e)
    case Wait(dt) => (s.(store := Advance(s.store, dt)), Done)
  }

  function Run(s: State, es: seq<Request>): State {
    if es == [] then s else Apply(Run(s, es[..|es| - 1]), es[|es| - 1]).0
  }

  predicate Initial(s: State) {
    && s.store.data == map[] && s.rows == [] && s.minutes > 0
    && s.issued == [] && s.madeUp == [] && s.consumed == []
  }

  // ---- keys ----

  lemma KeyShape(p: string, phone: string)
    ensures var k := Key(p, phone);
            |k| == 5 + |p| + |phone| && k[4 + |p|] == ':' && k[4..4 + |p|] == p && k[5 + |p|..] == phone
  {
  }

  /**
   When two keys meet, for a purpose without a colon: they are the same purpose and phone, or
   the other purpose runs on past that one's colon and takes the front of the phone.
   */
  lemma KeysMeetIff(p: string, phone: string, name: string, other: string)
    requires ':' !in name
    ensures Key(p, phone) == Key(name, other) <==>
            || (p == name && phone == other)
            || (name + ":" <= p && other == p[|name| + 1..] + ":" + phone)
  {
    if name + ":" <= p {
      LongPurposeKey(p, phone, name);
    }
    if Key(p, phone) == Key(name, other) {
      MeetingKeys(p, phone, name, other);
    }
  }

  lemma LongPurposeKey(p: string, phone: string, name: string)
    requires name + ":" <= p
    ensures Key(p, phone) == Key(name, p[|name| + 1..] + ":" + phone)
  {
    assert p == name + ":" + p[|name| + 1..];
  }

  lemma MeetingKeys(p: string, phone: string, name: string, other: string)
    requires ':' !in name && Key(p, phone) == Key(name, other)
    ensures || (p == name && phone == other)
            || (name + ":" <= p && other == p[|name| + 1..] + ":" + phone)
  {
    var k := Key(p, phone);
    KeyShape(p, phone);
    KeyShape(name, other);
    assert !(|p| < |name|);
    if |p| > |name| {
      assert k[4..4 + |p|][..|name|] == k[4..4 + |name|];
      assert k[4..4 + |p|][|name|] == k[4 + |name|];
      assert k[5 + |name|..] == k[4..4 + |p|][|name| + 1..] + ":" + k[5 + |p|..];
    }
  }

  lemma HasColon(a: string, b: string)
    ensures ':' in a + ":" + b
  {
    assert (a + ":" + b)[|a|] == ':';
  }

  /** No colon in the phone: then every purpose has a key of its own. */
  lemma ColonFreePhoneKeys(p: string, phone: string, name: string, other: string)
    requires ':' !in name && ':' !in other
    ensures Key(p, phone) == Key(name, other) <==> p == name && phone == other
  {
    KeysMeetIff(p, phone, name, other);
    if |name| < |p| {
      HasColon(p[|name| + 1..], phone);
    }
  }

  lemma SamePhoneKeys(p: string, q: string, phone: string)
    requires Key(p, phone) == Key(q, phone)
    ensures p == q
  {
    KeyShape(p, phone);
    KeyShape(q, phone);
  }

  /** A flow's cache key is never a send counter. */
  lemma CacheKeyIsNoCounter(flow: Flow, phone: string, other: string)
    ensures CacheKey(flow, phone) != CounterKey(other)
  {
    KeysMeetIff(PurposeName(flow), phone, "rl", other);
    assert ':' !in PurposeName(flow) && PurposeName(flow) != "rl";
    assert PurposeName(flow)[2] != ':' && ("rl:")[2] == ':';
  }

  // ---- the code itself ----

  class OtpService {
    const redis: Redis
    const minutes: nat
    var rows: seq<Row>
    ghost var issued: seq<Use>
    ghost var madeUp: seq<Use>
    ghost var consumed: seq<Use>

    constructor (redis: Redis, minutes: nat)
      ensures this.redis == redis
      ensures Contents() == State(redis.Snapshot(), minutes, [], [], [], [])
    {
      this.redis, this.minutes, this.rows := redis, minutes, [];
      issued, madeUp, consumed := [], [], [];
    }

    ghost function Contents(): State
      reads this, redis
    {
      State(redis.Snapshot(), minutes, rows, issued, madeUp, consumed)
    }

    method StoreCode(phone: string, purpose: string, code: string)
      modifies this, redis
      ensures Contents() == AddCode(old(Contents()), phone, purpose, code)
    {
      rows := rows + [Row(phone, code, purpose, redis.now + (minutes * 60) as real, false)];
      issued := issued + [Use(phone, code)];
      var _ := redis.SetEx("otp:" + purpose + ":" + phone, code, minutes * 60);
    }

    method SendOtp(phone: string, purpose: string, code: string) returns (outcome: Outcome)
      modifies this, redis
      ensures (Contents(), outcome) == Apply(old(Contents()), Send(phone, purpose, code))
    {
      var count := redis.Increment("otp:" + "rl" + ":" + phone, SEND_WINDOW);
      if count.Some? && count.value > SEND_LIMIT {
        return Refused(RateLimited);
      }
      StoreCode(phone, purpose, code);
      outcome := Done;
    }

    method CheckOtp(flow: Flow, phone: string, code: string) returns (found: Option<nat>)
      modifies this
      ensures (Contents(), found) == Check(old(Contents()), flow, phone, code)
    {
      hide Key, PurposeName, Latest, Matches;
      var cached := redis.Read(CacheKey(flow, phone));
      if cached.Some? && cached.value != "" && cached.value == code {
        assert CacheHit(Contents(), flow, phone, code);
        found := Latest(rows, phone, code, None);
        if found.None? {
          rows := rows + [Row(phone, code, PurposeName(flow), redis.now + 60.0, false)];
          madeUp := madeUp + [Use(phone, code)];
          found := Some(|rows| - 1);
          assert Contents() == MakeUp(old(Contents()), flow, phone, code);
        }
        return;
      }
      assert !CacheHit(Contents(), flow, phone, code);
      hide CacheHit, CacheKey;
      found := Latest(rows, phone, code, Purpose(flow));
      if found.Some? && rows[found.value].expires < redis.now {
        found := None;
      }
    }

    /** verify_otp_and_login and retailer_otp_login: the user is looked at once the keys are gone. */
    method LoginWithCode(phone: string, code: string, user: Option<Error>, gate: Option<Error>)
      returns (outcome: Outcome)
      modifies this, redis
      ensures (Contents(), outcome) == Apply(old(Contents()), Consume(Login, phone, code, user, gate))
      ensures outcome == Done ==> user.None? && gate.None?
      ensures consumed == old(consumed) || (user.None? && consumed == old(consumed) + [Use(phone, code)])
    {
      var found := CheckOtp(Login, phone, code);
      if found.None? {
        return Refused(BadRequest);
      }
      var committed := rows;
      var purpose := rows[found.value].purpose;
      rows := rows[found.value := rows[found.value].(used := true)];
      redis.Remove("otp:" + "login" + ":" + phone);
      redis.Remove("otp:" + purpose + ":" + phone);
      if user.Some? {
        rows := committed;
        return Refused(user.value);
      }
      consumed := consumed + [Use(phone, code)];
      outcome := if gate.Some? then Refused(gate.value) else Done;
    }

    /** admin_otp_login, retailer_login and delivery_login: the user is looked at first. */
    method CheckedLoginWithCode(phone: string, code: string, user: Option<Error>, gate: Option<Error>)
      returns (outcome: Outcome)
      modifies this, redis
      ensures (Contents(), outcome) == Apply(old(Contents()), Consume(CheckedLogin, phone, code, user, gate))
      ensures outcome == Done ==> user.None? && gate.None?
      ensures consumed == old(consumed) || (user.None? && consumed == old(consumed) + [Use(phone, code)])
    {
      if user.Some? {
        return Refused(user.value);
      }
      var found := CheckOtp(CheckedLogin, phone, code);
      if found.None? {
        return Refused(BadRequest);
      }
      var purpose := rows[found.value].purpose;
      rows := rows[found.value := rows[found.value].(used := true)];
      redis.Remove("otp:" + "login" + ":" + phone);
      redis.Remove("otp:" + purpose + ":" + phone);
      consumed := consumed + [Use(phone, code)];
      outcome := if gate.Some? then Refused(gate.value) else Done;
    }

    method ResetPassword(phone: string, code: string, user: Option<Error>) returns (outcome: Outcome)
      modifies this, redis
      ensures (Contents(), outcome) == Apply(old(Contents()), Consume(Reset, phone, code, user, None))
      ensures outcome == Done <==> consumed == old(consumed) + [Use(phone, code)]
      ensures outcome == Done ==> user.None?
    {
      var found := CheckOtp(Reset, phone, code);
      if found.None? {
        return Refused(BadRequest);
      }
      if user.Some? {
        return Refused(user.value);
      }
      rows := rows[found.value := rows[found.value].(used := true)];
      redis.Remove("otp:" + "reset" + ":" + phone);
      consumed := consumed + [Use(phone, code)];
      outcome := Done;
    }

    method ConfirmEmail(phone: string, code: string, user: Option<Error>) returns (outcome: Outcome)
      modifies this, redis
      ensures (Contents(), outcome) == Apply(old(Contents()), Consume(Confirm, phone, code, user, None))
      ensures outcome == Done <==> consumed == old(consumed) + [Use(phone, code)]
      ensures outcome == Done ==> user.None?
    {
      if user.Some? {
        return Refused(user.value);
      }
      var found := CheckOtp(Confirm, phone, code);
      if found.None? {
        return Refused(BadRequest);
      }
      rows := rows[found.value := rows[found.value].(used := true)];
      redis.Remove("otp:" + "admin_confirm" + ":" + phone);
      consumed := consumed + [Use(phone, code)];
      outcome := Done;
    }
  }
}
