/**
 Which codes can be used, and how often: a conservation law that every run keeps, the exact
 moments at which a row is made up, and the single use of codes that follows where none is.
 */
module OtpLaws {
  import opened Wrappers
  import opened RedisStore
  import opened Otp
  import RateLimit

  // ---- what every run keeps, whatever the codes, purposes and phones ----

  /** How many rows of the pair are not used yet. */
  function Unused(rows: seq<Row>, u: Use): nat {
    if rows == [] then 0
    else
      var last := rows[|rows| - 1];
      Unused(rows[..|rows| - 1], u) + if !last.used && Use(last.phone, last.code) == u then 1 else 0
  }

  /** Every code sent or made up is either used or still waiting in its own unused row. */
  predicate BalancedFor(s: State, u: Use) {
    multiset(s.consumed)[u] + Unused(s.rows, u) == multiset(s.issued)[u] + multiset(s.madeUp)[u]
  }

  ghost predicate Balanced(s: State) {
    forall u :: BalancedFor(s, u)
  }

  /** Row `i` wrote the live cache entry under `key`. */
  predicate Wrote(s: State, i: nat, key: string) {
    && i < |s.rows| && key in s.store.data
    && Key(s.rows[i].purpose, s.rows[i].phone) == key
    && s.store.data[key] == Entry(s.rows[i].code, Some(s.rows[i].expires))
  }

  ghost predicate CachesWritten(s: State) {
    forall flow, phone :: s.store.Live(CacheKey(flow, phone)) ==> exists i: nat :: Wrote(s, i, CacheKey(flow, phone))
  }

  ghost predicate Sound(s: State) {
    && s.minutes > 0 && (!s.store.up ==> s.store.data == map[])
    && Balanced(s) && CachesWritten(s)
  }

  lemma UnusedSnoc(rows: seq<Row>, row: Row, u: Use)
    ensures Unused(rows + [row], u) == Unused(rows, u) + if !row.used && Use(row.phone, row.code) == u then 1 else 0
  {
    assert (rows + [row])[..|rows|] == rows;
  }

  lemma {:induction false} UnusedUpdate(rows: seq<Row>, i: nat, u: Use)
    requires i < |rows| && !rows[i].used
    ensures Unused(rows[i := rows[i].(used := true)], u)
            == Unused(rows, u) - if Use(rows[i].phone, rows[i].code) == u then 1 else 0
  {
    var n := |rows| - 1;
    var marked := rows[i := rows[i].(used := true)];
    if i < n {
      UnusedUpdate(rows[..n], i, u);
      assert marked[..n] == rows[..n][i := rows[i].(used := true)];
    } else {
      assert marked[..n] == rows[..n];
    }
  }

  lemma StoreKeepsBalanced(s: State, store: Store)
    requires Balanced(s)
    ensures Balanced(s.(store := store))
  {
    forall u
      ensures BalancedFor(s.(store := store), u)
    {
      assert BalancedFor(s, u);
    }
  }

  lemma AddCodeKeepsBalanced(s: State, phone: string, purpose: string, code: string)
    requires Balanced(s)
    ensures Balanced(AddCode(s, phone, purpose, code))
  {
    var t := AddCode(s, phone, purpose, code);
    assert t.rows == s.rows + [t.rows[|s.rows|]];
    forall u
      ensures BalancedFor(t, u)
    {
      UnusedSnoc(s.rows, t.rows[|s.rows|], u);
      assert BalancedFor(s, u);
    }
  }

  lemma MakeUpKeepsBalanced(s: State, flow: Flow, phone: string, code: string)
    requires Balanced(s)
    ensures Balanced(MakeUp(s, flow, phone, code))
  {
    var t := MakeUp(s, flow, phone, code);
    assert t.rows == s.rows + [t.rows[|s.rows|]];
    forall u
      ensures BalancedFor(t, u)
    {
      UnusedSnoc(s.rows, t.rows[|s.rows|], u);
      assert BalancedFor(s, u);
    }
  }

  lemma MarkUsedKeepsBalanced(s: State, i: nat)
    requires Balanced(s) && i < |s.rows| && !s.rows[i].used
    ensures Balanced(MarkUsed(s, i))
  {
    var t := MarkUsed(s, i);
    forall u
      ensures BalancedFor(t, u)
    {
      UnusedUpdate(s.rows, i, u);
      assert BalancedFor(s, u);
    }
  }

  /** Removing keys, marking rows and adding rows all keep the writer of a remaining entry. */
  lemma WritersStay(s: State, t: State)
    requires CachesWritten(s) && |s.rows| <= |t.rows|
    requires forall i :: 0 <= i < |s.rows| ==> t.rows[i].(used := true) == s.rows[i].(used := true)
    requires forall flow, phone :: t.store.Live(CacheKey(flow, phone)) ==>
               && s.store.Live(CacheKey(flow, phone))
               && t.store.data[CacheKey(flow, phone)] == s.store.data[CacheKey(flow, phone)]
    ensures CachesWritten(t)
  {
    forall flow, phone | t.store.Live(CacheKey(flow, phone))
      ensures exists i: nat :: Wrote(t, i, CacheKey(flow, phone))
    {
      var key := CacheKey(flow, phone);
      var i: nat :| Wrote(s, i, key);
      assert t.rows[i].(used := true) == s.rows[i].(used := true);
      assert Wrote(t, i, key);
    }
  }

  lemma AddCodeKeepsWriters(s: State, phone: string, purpose: string, code: string)
    requires CachesWritten(s) && s.minutes > 0
    ensures CachesWritten(AddCode(s, phone, purpose, code))
  {
    var t := AddCode(s, phone, purpose, code);
    forall flow, other | t.store.Live(CacheKey(flow, other))
      ensures exists i: nat :: Wrote(t, i, CacheKey(flow, other))
    {
      var key := CacheKey(flow, other);
      if key == Key(purpose, phone) && s.store.up {
        assert Wrote(t, |s.rows|, key);
      } else {
        assert s.store.Live(key);
        var i: nat :| Wrote(s, i, key);
        assert Wrote(t, i, key);
      }
    }
  }

  lemma SendKeepsSound(s: State, phone: string, purpose: string, code: string)
    requires Sound(s)
    ensures Sound(SendCode(s, phone, purpose, code).0)
  {
    var counted := s.(store := Incr(s.store, CounterKey(phone), SEND_WINDOW).0);
    forall flow, other
      ensures CacheKey(flow, other) != CounterKey(phone)
    {
      CacheKeyIsNoCounter(flow, other, phone);
    }
    hide Key, CacheKey, CounterKey;
    WritersStay(s, counted);
    hide CachesWritten;
    StoreKeepsBalanced(s, counted.store);
    AddCodeKeepsBalanced(counted, phone, purpose, code);
    AddCodeKeepsWriters(counted, phone, purpose, code);
  }

  lemma CheckKeepsSound(s: State, flow: Flow, phone: string, code: string)
    requires Sound(s)
    ensures Sound(Check(s, flow, phone, code).0)
  {
    if Check(s, flow, phone, code).0 != s {
      MakeUpKeepsBalanced(s, flow, phone, code);
      WritersStay(s, MakeUp(s, flow, phone, code));
    }
  }

  lemma FinishKeepsSound(s: State, i: nat, flow: Flow, user: Option<Error>, gate: Option<Error>)
    requires Sound(s) && i < |s.rows| && !s.rows[i].used
    ensures Sound(Finish(s, i, flow, user, gate).0)
  {
    var deleted := s.(store := DeleteKeys(s.store, flow, s.rows[i].phone, s.rows[i].purpose));
    hide Key, CacheKey;
    WritersStay(s, deleted);
    WritersStay(deleted, MarkUsed(deleted, i));
    StoreKeepsBalanced(s, deleted.store);
    MarkUsedKeepsBalanced(deleted, i);
  }

  lemma StepKeepsSound(s: State, e: Request)
    requires Sound(s)
    ensures Sound(Apply(s, e).0)
  {
    match e
    case Send(phone, purpose, code) => SendKeepsSound(s, phone, purpose, code);
    case SendConfirmation(phone, code) =>
      AddCodeKeepsBalanced(s, phone, "admin_confirm", code);
      AddCodeKeepsWriters(s, phone, "admin_confirm", code);
    case Consume(flow, phone, code, user, gate) =>
      var (checked, found) := Check(s, flow, phone, code);
      CheckKeepsSound(s, flow, phone, code);
      if found.Some? {
        FinishKeepsSound(checked, found.value, flow, user, gate);
      }
    case Wait(dt) =>
      WritersStay(s, Apply(s, e).0);
      StoreKeepsBalanced(s, Advance(s.store, dt));
  }

  lemma {:induction false} RunIsSound(s: State, es: seq<Request>)
    requires Initial(s)
    ensures Sound(Run(s, es))
  {
    if es != [] {
      RunIsSound(s, es[..|es| - 1]);
      StepKeepsSound(Run(s, es[..|es| - 1]), es[|es| - 1]);
    }
  }

  /**
   Conservation, over any run at all: for every phone and code, the committed uses are the codes
   sent and the rows made up, less those still waiting unused.
   */
  lemma UsesBalance(s: State, es: seq<Request>, u: Use)
    requires Initial(s)
    ensures var t := Run(s, es);
            multiset(t.consumed)[u] + Unused(t.rows, u) == multiset(t.issued)[u] + multiset(t.madeUp)[u]
  {
    RunIsSound(s, es);
    hide Run;
    assert BalancedFor(Run(s, es), u);
  }

  // ---- when a row is made up ----

  predicate UsedUp(rows: seq<Row>, phone: string, code: string) {
    forall i :: 0 <= i < |rows| && rows[i].phone == phone && rows[i].code == code ==> rows[i].used
  }

  predicate ReachesCheck(e: Request) {
    e.Consume? && !((e.flow.CheckedLogin? || e.flow.Confirm?) && e.user.Some?)
  }

  /**
   A check makes up a row exactly when the flow's cache key holds the code and every row of that
   phone and code has been used. In any run the cached entry then has a writing row that was sent
   to another phone, or that some other flow has used up without deleting this key.
   */
  lemma MadeUpIff(s: State, es: seq<Request>, e: Request)
    requires Initial(s) && ReachesCheck(e)
    ensures var t := Run(s, es);
            var madeUp := CacheHit(t, e.flow, e.phone, e.code) && UsedUp(t.rows, e.phone, e.code);
            && Apply(t, e).0.madeUp == t.madeUp + (if madeUp then [Use(e.phone, e.code)] else [])
            && (madeUp ==> exists i: nat :: Wrote(t, i, CacheKey(e.flow, e.phone)) && t.rows[i].code == e.code
                                            && (t.rows[i].phone != e.phone || t.rows[i].used))
  {
    RunIsSound(s, es);
    var t := Run(s, es);
    CheckMakesUpIff(t, e.flow, e.phone, e.code);
    if CacheHit(t, e.flow, e.phone, e.code) && UsedUp(t.rows, e.phone, e.code) {
      assert t.store.Live(CacheKey(e.flow, e.phone));
      var i: nat :| Wrote(t, i, CacheKey(e.flow, e.phone));
    }
  }

  lemma CheckMakesUpIff(s: State, flow: Flow, phone: string, code: string)
    ensures Check(s, flow, phone, code) ==
            if CacheHit(s, flow, phone, code) && UsedUp(s.rows, phone, code)
            then (MakeUp(s, flow, phone, code), Some(|s.rows|))
            else (s, Check(s, flow, phone, code).1)
  {
  }

  /** The request commits a use. */
  predicate Commits(s: State, e: Request) {
    |Apply(s, e).0.consumed| > |s.consumed|
  }

  /**
   When a code can be used once more than it was sent: as long as no row was made up for it, a
   committed use exceeds the codes sent exactly when the cache still holds the code and every row
   of it has been used.
   */
  lemma OverusedIff(s: State, es: seq<Request>, e: Request)
    requires Initial(s) && e.Consume? && Commits(Run(s, es), e)
    requires Use(e.phone, e.code) !in Run(s, es).madeUp
    ensures var t := Run(s, es);
            var u := Use(e.phone, e.code);
            && Apply(t, e).0.consumed == t.consumed + [u]
            && (multiset(Apply(t, e).0.consumed)[u] > multiset(t.issued)[u] <==>
                  CacheHit(t, e.flow, e.phone, e.code) && UsedUp(t.rows, e.phone, e.code))
  {
    RunIsSound(s, es);
    hide Run;
    OverusedAt(Run(s, es), e);
  }

  lemma OverusedAt(t: State, e: Request)
    requires Balanced(t) && e.Consume? && Commits(t, e) && Use(e.phone, e.code) !in t.madeUp
    ensures var u := Use(e.phone, e.code);
            && Apply(t, e).0.consumed == t.consumed + [u]
            && (multiset(Apply(t, e).0.consumed)[u] > multiset(t.issued)[u] <==>
                  CacheHit(t, e.flow, e.phone, e.code) && UsedUp(t.rows, e.phone, e.code))
  {
    var u := Use(e.phone, e.code);
    CheckMakesUpIff(t, e.flow, e.phone, e.code);
    UsedUpIff(t.rows, u);
    CommitsMatch(t, e);
    assert BalancedFor(t, u);
    hide *;
    assert multiset(t.consumed + [u])[u] == multiset(t.consumed)[u] + 1;
    assert multiset(t.madeUp)[u] == 0;
  }

  /** A committed use found a row to mark: an unused one, or one made up. */
  lemma CommitsMatch(t: State, e: Request)
    requires e.Consume? && Commits(t, e)
    ensures Apply(t, e).0.consumed == t.consumed + [Use(e.phone, e.code)]
    ensures UsedUp(t.rows, e.phone, e.code) ==> CacheHit(t, e.flow, e.phone, e.code)
  {
    hide CacheHit, DeleteKeys;
  }

  lemma {:induction false} UsedUpIff(rows: seq<Row>, u: Use)
    ensures UsedUp(rows, u.phone, u.code) <==> Unused(rows, u) == 0
  {
    if rows != [] {
      UsedUpIff(rows[..|rows| - 1], u);
      UsedUpSnoc(rows, u.phone, u.code);
      hide UsedUp;
    }
  }

  lemma UsedUpSnoc(rows: seq<Row>, phone: string, code: string)
    requires rows != []
    ensures var last := rows[|rows| - 1];
            UsedUp(rows, phone, code) <==>
            UsedUp(rows[..|rows| - 1], phone, code) && (last.phone == phone && last.code == code ==> last.used)
  {
  }

  // ---- single use ----

  /** No unused, unexpired row of the phone has the code for another purpose. */
  predicate Fresh(s: State, phone: string, purpose: string, code: string) {
    forall i :: 0 <= i < |s.rows| && s.rows[i].phone == phone && s.rows[i].code == code && !s.rows[i].used ==>
      s.rows[i].purpose == purpose || s.rows[i].expires < s.store.now
  }

  /** No unused, unexpired row of another phone shares the flow's cache key. */
  predicate OwnKey(s: State, flow: Flow, phone: string) {
    forall i :: 0 <= i < |s.rows| && !s.rows[i].used && s.store.now < s.rows[i].expires
      ==> Key(s.rows[i].purpose, s.rows[i].phone) == CacheKey(flow, phone) ==> s.rows[i].phone == phone
  }

  /**
   What a request must meet: a code repeats a waiting one for the same purpose only, and a check
   reads its own phone's key.
   */
  predicate Possible(s: State, e: Request) {
    match e
    case Send(phone, purpose, code) => Fresh(s, phone, purpose, code)
    case SendConfirmation(phone, code) => Fresh(s, phone, "admin_confirm", code)
    case Consume(flow, phone, _, _, _) => OwnKey(s, flow, phone)
    case Wait(_) => true
  }

  ghost predicate Legal(s: State, es: seq<Request>) {
    forall i :: 0 <= i < |es| ==> Possible(Run(s, es[..i]), es[i])
  }

  predicate Alike(a: Row, b: Row) {
    a.phone == b.phone && a.code == b.code
  }

  /** Of two unused rows alike the older has expired, or both have one purpose. */
  predicate Distinct(s: State) {
    forall i, j :: 0 <= i < j < |s.rows| && Alike(s.rows[i], s.rows[j]) && !s.rows[i].used && !s.rows[j].used ==>
      s.rows[i].purpose == s.rows[j].purpose || s.rows[i].expires < s.store.now
  }

  /** Later rows expire no earlier, and none later than a code sent now. */
  predicate ExpiresInOrder(s: State) {
    && (forall i :: 0 <= i < |s.rows| ==> s.rows[i].expires <= s.store.now + (s.minutes * 60) as real)
    && (forall i, j :: 0 <= i < j < |s.rows| ==> s.rows[i].expires <= s.rows[j].expires)
  }

  /** A live cached code's own row is unused. */
  ghost predicate CacheBacked(s: State) {
    forall flow, phone :: s.store.Live(CacheKey(flow, phone)) ==>
      exists i: nat :: Wrote(s, i, CacheKey(flow, phone)) && !s.rows[i].used
  }

  ghost predicate Inv(s: State) {
    && s.minutes > 0 && (!s.store.up ==> s.store.data == map[])
    && Distinct(s) && ExpiresInOrder(s) && CacheBacked(s) && s.madeUp == []
    && |s.rows| == |s.issued|
    && forall i :: 0 <= i < |s.rows| ==> s.issued[i] == Use(s.rows[i].phone, s.rows[i].code)
  }

  /**
   The branch that makes up a row is unreachable: a cache hit finds the row that was cached, or a
   later one like it.
   */
  lemma HitFindsItsRow(s: State, flow: Flow, phone: string, code: string)
    requires Inv(s) && OwnKey(s, flow, phone) && CacheHit(s, flow, phone, code)
    ensures var i := Latest(s.rows, phone, code, None);
            i.Some? && s.rows[i.value].purpose == PurposeName(flow) && s.store.now < s.rows[i.value].expires
  {
    var key := CacheKey(flow, phone);
    assert s.store.Live(key);
    var i: nat :| Wrote(s, i, key) && !s.rows[i].used;
    SamePhoneKeys(s.rows[i].purpose, PurposeName(flow), phone);
    assert Matches(s.rows[i], phone, code, None);
    assert s.store.now < s.rows[i].expires;
    var j := Latest(s.rows, phone, code, None).value;
    assert Distinct(s) && ExpiresInOrder(s) && i <= j && Matches(s.rows[j], phone, code, None);
    hide Key, Latest, CacheBacked, Wrote, OwnKey, CacheHit, Inv;
    assert i == j || (Alike(s.rows[i], s.rows[j]) && s.rows[i].expires <= s.rows[j].expires);
  }

  /** The row a passed check selects: unused, unexpired, never made up, and of the flow's purpose if it asks for one. */
  lemma CheckSelects(s: State, flow: Flow, phone: string, code: string)
    requires Inv(s) && OwnKey(s, flow, phone)
    ensures var (s', found) := Check(s, flow, phone, code);
            && s' == s
            && (found.Some? ==>
                  var row := s.rows[found.value];
                  && row.phone == phone && row.code == code && !row.used && s.store.now <= row.expires
                  && (Purpose(flow).Some? ==> row.purpose == Purpose(flow).value))
  {
    if CacheHit(s, flow, phone, code) {
      HitFindsItsRow(s, flow, phone, code);
    }
  }

  /** Entries whose rows stay unused keep their backing. */
  lemma BackingStays(s: State, t: State)
    requires CacheBacked(s) && |s.rows| <= |t.rows|
    requires forall i :: 0 <= i < |s.rows| ==> t.rows[i].(used := true) == s.rows[i].(used := true)
    requires forall flow, phone :: t.store.Live(CacheKey(flow, phone)) ==>
               && s.store.Live(CacheKey(flow, phone))
               && t.store.data[CacheKey(flow, phone)] == s.store.data[CacheKey(flow, phone)]
    requires forall i :: 0 <= i < |s.rows| && t.rows[i].used && !s.rows[i].used ==>
               !t.store.Live(Key(s.rows[i].purpose, s.rows[i].phone))
    ensures CacheBacked(t)
  {
    forall flow, phone | t.store.Live(CacheKey(flow, phone))
      ensures exists i: nat :: Wrote(t, i, CacheKey(flow, phone)) && !t.rows[i].used
    {
      var key := CacheKey(flow, phone);
      var i: nat :| Wrote(s, i, key) && !s.rows[i].used;
      assert t.rows[i].(used := true) == s.rows[i].(used := true);
      assert Wrote(t, i, key) && !t.rows[i].used;
    }
  }

  lemma AddCodeKeepsBacked(s: State, phone: string, purpose: string, code: string)
    requires CacheBacked(s) && s.minutes > 0
    ensures CacheBacked(AddCode(s, phone, purpose, code))
  {
    var t := AddCode(s, phone, purpose, code);
    forall flow, other | t.store.Live(CacheKey(flow, other))
      ensures exists i: nat :: Wrote(t, i, CacheKey(flow, other)) && !t.rows[i].used
    {
      var key := CacheKey(flow, other);
      if key == Key(purpose, phone) && s.store.up {
        assert Wrote(t, |s.rows|, key);
      } else {
        assert s.store.Live(key);
        var i: nat :| Wrote(s, i, key) && !s.rows[i].used;
        assert Wrote(t, i, key);
      }
    }
  }

  lemma AddCodeKeepsDistinct(s: State, phone: string, purpose: string, code: string)
    requires Distinct(s) && ExpiresInOrder(s) && Fresh(s, phone, purpose, code)
    ensures var t := AddCode(s, phone, purpose, code);
            Distinct(t) && ExpiresInOrder(t)
  {
    hide Key;
  }

  lemma AddCodeKeepsInv(s: State, phone: string, purpose: string, code: string)
    requires Inv(s) && Fresh(s, phone, purpose, code)
    ensures Inv(AddCode(s, phone, purpose, code))
  {
    AddCodeKeepsBacked(s, phone, purpose, code);
    AddCodeKeepsDistinct(s, phone, purpose, code);
    hide CacheBacked, Distinct, ExpiresInOrder, Key;
  }

  lemma SendKeepsInv(s: State, phone: string, purpose: string, code: string)
    requires Inv(s) && Fresh(s, phone, purpose, code)
    ensures Inv(SendCode(s, phone, purpose, code).0)
  {
    var counted := s.(store := Incr(s.store, CounterKey(phone), SEND_WINDOW).0);
    forall flow, other
      ensures CacheKey(flow, other) != CounterKey(phone)
    {
      CacheKeyIsNoCounter(flow, other, phone);
    }
    hide Key, CacheKey, CounterKey;
    BackingStays(s, counted);
    hide CacheBacked;
    AddCodeKeepsInv(counted, phone, purpose, code);
  }

  lemma DeleteKeepsInv(s: State, store: Store)
    requires Inv(s) && store.up == s.store.up && store.now == s.store.now && (!store.up ==> store.data == map[])
    requires forall key :: key in store.data ==> key in s.store.data && store.data[key] == s.store.data[key]
    ensures Inv(s.(store := store))
  {
    hide Key, CacheKey;
    BackingStays(s, s.(store := store));
    hide CacheBacked;
  }

  lemma MarkUsedKeepsInv(s: State, i: nat)
    requires Inv(s) && i < |s.rows| && !s.rows[i].used
    requires Key(s.rows[i].purpose, s.rows[i].phone) !in s.store.data
    ensures Inv(MarkUsed(s, i))
  {
    hide Key, CacheKey;
    BackingStays(s, MarkUsed(s, i));
    hide CacheBacked;
  }

  lemma DeletedKeys(s: Store, flow: Flow, phone: string, purpose: string)
    requires !s.up ==> s.data == map[]
    requires Purpose(flow).Some? ==> purpose == Purpose(flow).value
    ensures var t := DeleteKeys(s, flow, phone, purpose);
            && t.up == s.up && t.now == s.now && (!t.up ==> t.data == map[]) && Key(purpose, phone) !in t.data
            && forall key :: key in t.data ==> key in s.data && t.data[key] == s.data[key]
  {
    hide Key;
  }

  lemma FinishKeepsInv(s: State, i: nat, flow: Flow, user: Option<Error>, gate: Option<Error>)
    requires Inv(s) && i < |s.rows| && !s.rows[i].used
    requires Purpose(flow).Some? ==> s.rows[i].purpose == Purpose(flow).value
    ensures Inv(Finish(s, i, flow, user, gate).0)
  {
    var row := s.rows[i];
    var store := DeleteKeys(s.store, flow, row.phone, row.purpose);
    assert !s.store.up ==> s.store.data == map[];
    hide Inv, Key, DeleteKeys, MarkUsed;
    DeletedKeys(s.store, flow, row.phone, row.purpose);
    DeleteKeepsInv(s, store);
    MarkUsedKeepsInv(s.(store := store), i);
  }

  lemma StepKeepsInv(s: State, e: Request)
    requires Inv(s) && Possible(s, e)
    ensures Inv(Apply(s, e).0)
  {
    match e
    case Send(phone, purpose, code) => SendKeepsInv(s, phone, purpose, code);
    case SendConfirmation(phone, code) => AddCodeKeepsInv(s, phone, "admin_confirm", code);
    case Consume(flow, phone, code, user, gate) =>
      CheckSelects(s, flow, phone, code);
      var found := Check(s, flow, phone, code).1;
      if found.Some? {
        FinishKeepsInv(s, found.value, flow, user, gate);
      }
    case Wait(dt) => BackingStays(s, Apply(s, e).0);
  }

  lemma LegalPrefix(s: State, es: seq<Request>)
    requires es != [] && Legal(s, es)
    ensures Legal(s, es[..|es| - 1]) && Possible(Run(s, es[..|es| - 1]), es[|es| - 1])
  {
    var k := |es| - 1;
    assert Possible(Run(s, es[..k]), es[k]);
    forall i | 0 <= i < k
      ensures Possible(Run(s, es[..k][..i]), es[..k][i])
    {
      assert es[..k][..i] == es[..i] && Possible(Run(s, es[..i]), es[i]);
    }
  }

  lemma {:induction false} RunKeepsInv(s: State, es: seq<Request>)
    requires Initial(s) && Legal(s, es)
    ensures Inv(Run(s, es))
  {
    if es != [] {
      LegalPrefix(s, es);
      RunKeepsInv(s, es[..|es| - 1]);
      StepKeepsInv(Run(s, es[..|es| - 1]), es[|es| - 1]);
    }
  }

  /**
   Over any interleaving of sends, expiries and checks of every flow and every purpose: no row is
   ever made up, and no code is used more often than it was sent. A code may repeat one that is
   used or expired, or that waits for the same purpose.
   */
  lemma CodesAreSingleUse(s: State, es: seq<Request>)
    requires Initial(s) && Legal(s, es)
    ensures var t := Run(s, es);
            && t.madeUp == [] && |t.rows| == |t.issued|
            && multiset(t.consumed) <= multiset(t.issued)
            && forall u :: multiset(t.consumed)[u] + Unused(t.rows, u) == multiset(t.issued)[u]
  {
    RunKeepsInv(s, es);
    RunIsSound(s, es);
    hide Run;
    var t := Run(s, es);
    forall u: Use
      ensures multiset(t.consumed)[u] + Unused(t.rows, u) == multiset(t.issued)[u]
    {
      assert BalancedFor(t, u);
    }
  }

  /** In every reachable state a live cached code has its own unused row, and both end at the same time. */
  lemma CachedCodesHaveRows(s: State, es: seq<Request>, flow: Flow, phone: string)
    requires Initial(s) && Legal(s, es) && OwnKey(Run(s, es), flow, phone)
    requires Run(s, es).store.Live(CacheKey(flow, phone))
    ensures var t := Run(s, es);
            var entry := t.store.data[CacheKey(flow, phone)];
            exists i: nat :: i < |t.rows| && entry.deadline == Some(t.rows[i].expires) &&
              t.rows[i] == Row(phone, entry.value, PurposeName(flow), t.rows[i].expires, false)
  {
    RunKeepsInv(s, es);
    hide Run, Key;
    var t := Run(s, es);
    var i: nat :| Wrote(t, i, CacheKey(flow, phone)) && !t.rows[i].used;
    SamePhoneKeys(t.rows[i].purpose, PurposeName(flow), phone);
  }

  /**
   What a committed use consumes, in every reachable state: one unused row of that phone and
   code, not past its expiry, and for a reset or a confirmation one sent for that purpose.
   */
  lemma UsesAreTimely(s: State, es: seq<Request>, e: Request)
    requires Initial(s) && Legal(s, es) && e.Consume? && OwnKey(Run(s, es), e.flow, e.phone)
    requires Commits(Run(s, es), e)
    ensures var t := Run(s, es);
            var t' := Apply(t, e).0;
            exists i: nat :: i < |t.rows| && t'.rows == t.rows[i := t.rows[i].(used := true)]
              && t.rows[i].phone == e.phone && t.rows[i].code == e.code && !t.rows[i].used
              && t.store.now <= t.rows[i].expires
              && (e.flow.Reset? ==> t.rows[i].purpose == "reset")
              && (e.flow.Confirm? ==> t.rows[i].purpose == "admin_confirm")
  {
    RunKeepsInv(s, es);
    hide Run;
    var t := Run(s, es);
    CheckSelects(t, e.flow, e.phone, e.code);
    hide Inv, Check, CacheHit;
    var i := Check(t, e.flow, e.phone, e.code).1.value;
    assert Apply(t, e).0.rows == t.rows[i := t.rows[i].(used := true)];
  }

  // ---- when a check reads its own phone's key ----

  /** Checks for phones without a colon always do, whatever purposes clients send. */
  lemma ColonFreePhonesOwnTheirKeys(s: State, flow: Flow, phone: string)
    requires ':' !in phone
    ensures OwnKey(s, flow, phone)
  {
    forall i | 0 <= i < |s.rows| && Key(s.rows[i].purpose, s.rows[i].phone) == CacheKey(flow, phone)
      ensures s.rows[i].phone == phone
    {
      ColonFreePhoneKeys(s.rows[i].purpose, s.rows[i].phone, PurposeName(flow), phone);
    }
  }

  /** So codes are single-use for every client purpose, as long as no check is for a phone with a colon. */
  lemma SingleUseForColonFreePhones(s: State, es: seq<Request>)
    requires Initial(s)
    requires forall i :: 0 <= i < |es| ==> es[i].Consume? || Possible(Run(s, es[..i]), es[i])
    requires forall i :: 0 <= i < |es| && es[i].Consume? ==> ':' !in es[i].phone
    ensures var t := Run(s, es); t.madeUp == [] && multiset(t.consumed) <= multiset(t.issued)
  {
    forall i | 0 <= i < |es|
      ensures Possible(Run(s, es[..i]), es[i])
    {
      if es[i].Consume? {
        ColonFreePhonesOwnTheirKeys(Run(s, es[..i]), es[i].flow, es[i].phone);
      }
    }
    CodesAreSingleUse(s, es);
  }

  /** A code sent to `phone` for `purpose` is cached where `flow` looks for `other`'s. */
  predicate Astray(purpose: string, phone: string, flow: Flow, other: string) {
    PurposeName(flow) + ":" <= purpose && other == purpose[|PurposeName(flow)| + 1..] + ":" + phone
  }

  /** Two phones share a key exactly through a purpose that continues the flow's own past a colon. */
  lemma SharedKeyIff(purpose: string, phone: string, flow: Flow, other: string)
    ensures Key(purpose, phone) == CacheKey(flow, other) && phone != other <==> Astray(purpose, phone, flow, other)
  {
    KeysMeetIff(purpose, phone, PurposeName(flow), other);
    if PurposeName(flow) + ":" <= purpose && other == purpose[|PurposeName(flow)| + 1..] + ":" + phone {
      assert |other| > |phone|;
    }
  }

  /**
   The converse: from any state, a code sent astray and accepted logs the other phone in at once,
   by a row made up for a code that phone was never sent.
   */
  lemma AstrayCodeIsMadeUp(s: State, purpose: string, phone: string, flow: Flow, other: string, code: string)
    requires s.store.up && s.minutes > 0 && code != "" && UsedUp(s.rows, other, code)
    requires Astray(purpose, phone, flow, other) && Apply(s, Send(phone, purpose, code)).1 == Done
    ensures var t := Apply(s, Send(phone, purpose, code)).0;
            var e := Consume(flow, other, code, None, None);
            Apply(t, e).1 == Done && Apply(t, e).0.madeUp == s.madeUp + [Use(other, code)]
            && Apply(t, e).0.consumed == s.consumed + [Use(other, code)]
  {
    SharedKeyIff(purpose, phone, flow, other);
    var t := Apply(s, Send(phone, purpose, code)).0;
    assert t.rows[..|s.rows|] == s.rows && t.rows[|s.rows|].phone == phone;
    assert UsedUp(t.rows, other, code);
    assert Get(t.store, CacheKey(flow, other)) == Some(code);
    hide Key, CacheKey, UsedUp;
    CheckMakesUpIff(t, flow, other, code);
  }

  /** For instance: a client sends to one phone for the purpose "login:+1111". */
  lemma AstrayLogin(s: State)
    requires Initial(s) && s.store.up
    ensures var t := Apply(s, Send("+222222222", "login:+1111", "123456")).0;
            var t' := Apply(t, Consume(Login, "+1111:+222222222", "123456", None, None)).0;
            t'.issued == [Use("+222222222", "123456")] && t'.consumed == [Use("+1111:+222222222", "123456")]
  {
    var purpose := "login:+1111";
    assert purpose[|PurposeName(Login)| + 1..] == "+1111";
    assert "login" + ":" == purpose[..6];
    AstrayCodeIsMadeUp(s, purpose, "+222222222", Login, "+1111:+222222222", "123456");
  }

  // ---- why a code must not repeat while it waits ----

  /**
   From any state: a phone has a reset code cached and waiting, and is sent the same code to log
   in. A reset then uses the login row, a second reset its own, and the login code still cached
   gets a row made up: three uses of two codes.
   */
  lemma RepeatedCodeIsMadeUp(s: State, phone: string, code: string, j: nat)
    requires s.store.up && s.minutes > 0 && code != "" && j < |s.rows|
    requires s.rows[j].purpose == "reset" && Matches(s.rows[j], phone, code, None) && s.store.now <= s.rows[j].expires
    requires forall i :: 0 <= i < |s.rows| && i != j ==> !Matches(s.rows[i], phone, code, None)
    requires CacheHit(s, Reset, phone, code) && Apply(s, Send(phone, "login", code)).1 == Done
    ensures var u, reset := Use(phone, code), Consume(Reset, phone, code, None, None);
            var t := Apply(Apply(Apply(Apply(s, Send(phone, "login", code)).0, reset).0, reset).0,
                           Consume(Login, phone, code, None, None)).0;
            t.madeUp == s.madeUp + [u] && t.consumed == s.consumed + [u, u, u] && t.issued == s.issued + [u]
  {
    var s1 := SentAgain(s, phone, code, j);
    hide CacheHit, Key, Latest, Apply, UsedUp;
    var reset := Consume(Reset, phone, code, None, None);
    var s2 := FirstReset(s1, phone, code, j);
    var s3 := SecondReset(s2, phone, code, j);
    hide *;
    MadeUpLogin(s3, phone, code);
    ThreeMore(s.consumed, Use(phone, code));
  }

  lemma ThreeMore(uses: seq<Use>, u: Use)
    ensures uses + [u] + [u] + [u] == uses + [u, u, u]
  {
  }

  lemma MadeUpLogin(s: State, phone: string, code: string)
    requires CacheHit(s, Login, phone, code) && UsedUp(s.rows, phone, code)
    ensures var t := Apply(s, Consume(Login, phone, code, None, None)).0;
            && t.madeUp == s.madeUp + [Use(phone, code)] && t.consumed == s.consumed + [Use(phone, code)]
            && t.issued == s.issued
  {
    CheckMakesUpIff(s, Login, phone, code);
    hide Key, UsedUp, CacheHit, Latest, DeleteKeys;
  }

  lemma SentAgain(s: State, phone: string, code: string, j: nat) returns (s1: State)
    requires s.store.up && s.minutes > 0 && j < |s.rows|
    requires CacheHit(s, Reset, phone, code) && Apply(s, Send(phone, "login", code)).1 == Done
    ensures s1 == Apply(s, Send(phone, "login", code)).0 && s1.store.up && s1.store.now == s.store.now
    ensures s1.rows == s.rows + [s1.rows[|s.rows|]] && Matches(s1.rows[|s.rows|], phone, code, Some("login"))
    ensures s1.issued == s.issued + [Use(phone, code)] && s1.consumed == s.consumed && s1.madeUp == s.madeUp
    ensures CacheHit(s1, Reset, phone, code) && CacheHit(s1, Login, phone, code)
  {
    s1 := Apply(s, Send(phone, "login", code)).0;
    CacheKeyIsNoCounter(Reset, phone, phone);
    LoginIsNotReset(phone);
    hide Key;
  }

  lemma LoginIsNotReset(phone: string)
    ensures Key("login", phone) != Key("reset", phone)
  {
    if Key("login", phone) == Key("reset", phone) {
      SamePhoneKeys("login", "reset", phone);
    }
  }

  lemma FirstReset(s1: State, phone: string, code: string, j: nat) returns (s2: State)
    requires s1.store.up && j < |s1.rows| - 1 && Matches(s1.rows[|s1.rows| - 1], phone, code, Some("login"))
    requires CacheHit(s1, Reset, phone, code) && CacheHit(s1, Login, phone, code)
    ensures s2 == Apply(s1, Consume(Reset, phone, code, None, None)).0 && s2.store.up && s2.store.now == s1.store.now
    ensures s2.rows == s1.rows[|s1.rows| - 1 := s1.rows[|s1.rows| - 1].(used := true)]
    ensures s2.issued == s1.issued && s2.consumed == s1.consumed + [Use(phone, code)] && s2.madeUp == s1.madeUp
    ensures !CacheHit(s2, Reset, phone, code) && CacheHit(s2, Login, phone, code)
  {
    s2 := Apply(s1, Consume(Reset, phone, code, None, None)).0;
    LoginIsNotReset(phone);
    hide Key;
    assert Latest(s1.rows, phone, code, None) == Some(|s1.rows| - 1);
  }

  lemma SecondReset(s2: State, phone: string, code: string, j: nat) returns (s3: State)
    requires s2.store.up && j < |s2.rows| && Matches(s2.rows[j], phone, code, Some("reset"))
    requires s2.store.now <= s2.rows[j].expires
    requires forall i :: 0 <= i < |s2.rows| && i != j ==> !Matches(s2.rows[i], phone, code, None)
    requires !CacheHit(s2, Reset, phone, code) && CacheHit(s2, Login, phone, code)
    ensures s3 == Apply(s2, Consume(Reset, phone, code, None, None)).0
    ensures s3.issued == s2.issued && s3.consumed == s2.consumed + [Use(phone, code)] && s3.madeUp == s2.madeUp
    ensures CacheHit(s3, Login, phone, code) && UsedUp(s3.rows, phone, code)
  {
    s3 := Apply(s2, Consume(Reset, phone, code, None, None)).0;
    LoginIsNotReset(phone);
    hide Key;
    assert Latest(s2.rows, phone, code, Some("reset")) == Some(j);
  }

  lemma FirstCode(s0: State, phone: string) returns (s: State)
    requires Initial(s0) && s0.store.up
    ensures s == Apply(s0, Send(phone, "reset", "123456")).0
    ensures s.store.up && s.minutes > 0 && s.issued == [Use(phone, "123456")] && s.madeUp == [] && s.consumed == []
    ensures |s.rows| == 1 && s.rows[0].purpose == "reset" && Matches(s.rows[0], phone, "123456", None)
    ensures s.store.now <= s.rows[0].expires && CacheHit(s, Reset, phone, "123456")
    ensures Apply(s, Send(phone, "login", "123456")).1 == Done
  {
    s := Apply(s0, Send(phone, "reset", "123456")).0;
    CacheKeyIsNoCounter(Reset, phone, phone);
    hide Key, CounterKey;
    RateLimit.IncrIsNextCounter(s0.store, CounterKey(phone), SEND_WINDOW);
    assert RateLimit.ReadCounter(s.store, CounterKey(phone), SEND_WINDOW) == Some(RateLimit.Counter(s0.store.now, 1));
    RateLimit.IncrIsNextCounter(s.store, CounterKey(phone), SEND_WINDOW);
  }

  /** So with one fixed code, the two sends of a new phone give three committed uses. */
  lemma FixedCodeIsUsedThreeTimes(s0: State, phone: string)
    requires Initial(s0) && s0.store.up
    ensures var u, reset := Use(phone, "123456"), Consume(Reset, phone, "123456", None, None);
            var sent := Apply(Apply(s0, Send(phone, "reset", "123456")).0, Send(phone, "login", "123456")).0;
            var t := Apply(Apply(Apply(sent, reset).0, reset).0, Consume(Login, phone, "123456", None, None)).0;
            t.issued == [u, u] && t.consumed == [u, u, u] && t.madeUp == [u]
  {
    var s := FirstCode(s0, phone);
    hide *;
    RepeatedCodeIsMadeUp(s, phone, "123456", 0);
  }
}
