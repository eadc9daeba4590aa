/**
 The shop credit ledger of credit.py, with the profile changes of shops.py that can
 happen between its entries. Amounts are whole paise.
 */
module Credit {
  import opened Wrappers

  datatype Kind = Debit | Collection

  /** A row of credit_ledger_entries. */
  datatype Entry = Entry(shop: nat, kind: Kind, amount: int, balanceAfter: int, order: Option<nat>) {
    function Signed(): int {
      if kind.Debit? then amount else -amount
    }
  }

  /** The credit part of a retailer profile. */
  datatype Profile = Profile(outstanding: int, creditLimit: int, allowed: bool, blocked: bool)

  datatype Book = Book(profiles: map<nat, Profile>, ledger: seq<Entry>)

  /** A field of a patch: absent, sent as null, or sent with a value. */
  datatype Field<T> = Unset | Null | Set(value: T)

  datatype Request =
    | DebitCredit(shop: nat, amount: int, order: Option<nat>)
    | CreditPayment(shop: nat, amount: int)
    | ApproveShop(shop: nat, permission: Option<bool>, newLimit: Option<int>)
    | PatchShop(shop: nat, blocked: Field<bool>, allowed: Field<bool>, creditLimit: Field<int>)

  function Or<T>(o: Option<T>, default: T): T {
    if o.Some? then o.value else default
  }

  function Patched<T>(f: Field<T>, current: T): T {
    if f.Set? then f.value else current
  }

  function Max(a: int, b: int): int {
    if a < b then b else a
  }

  function Min(a: int, b: int): int {
    if a < b then a else b
  }

  function Debited(b: Book, shop: nat, amount: int, order: Option<nat>): (Book, Outcome) {
    if amount <= 0 then (b, Refused(BadRequest))
    else if shop !in b.profiles then (b, Refused(NotFound))
    else
      var p := b.profiles[shop];
      var projected := p.outstanding + amount;
      if p.blocked then (b, Refused(Forbidden))
      else if !p.allowed then (b, Refused(BadRequest))
      else if projected > p.creditLimit then (b, Refused(BadRequest))
      else (Book(b.profiles[shop := p.(outstanding := projected)],
                 b.ledger + [Entry(shop, Debit, amount, projected, order)]), Done)
  }

  function Collected(b: Book, shop: nat, amount: int): (Book, Outcome) {
    if amount <= 0 then (b, Refused(BadRequest))
    else if shop !in b.profiles then (b, Refused(NotFound))
    else
      var p := b.profiles[shop];
      var balance := Max(0, p.outstanding - amount);
      (Book(b.profiles[shop := p.(outstanding := balance)],
            b.ledger + [Entry(shop, Collection, amount, balance, None)]), Done)
  }

  function Apply(b: Book, e: Request): (Book, Outcome) {
    match e
    case DebitCredit(shop, amount, order) => Debited(b, shop, amount, order)
    case CreditPayment(shop, amount) => Collected(b, shop, amount)
    case ApproveShop(shop, allowed, lim) =>
      if shop !in b.profiles then (b, Refused(NotFound))
      else
        var p := b.profiles[shop];
        (b.(profiles := b.profiles[shop := p.(blocked := false, allowed := Or(allowed, p.allowed),
                                              creditLimit := Or(lim, p.creditLimit))]), Done)
    case PatchShop(shop, blocked, allowed, lim) =>
      if shop !in b.profiles then (b, Refused(NotFound))
      else if blocked.Null? || allowed.Null? || lim.Null? then (b, Refused(Internal))
      else
        var p := b.profiles[shop];
        (b.(profiles := b.profiles[shop := p.(blocked := Patched(blocked, p.blocked),
                                              allowed := Patched(allowed, p.allowed),
                                              creditLimit := Patched(lim, p.creditLimit))]), Done)
  }

  function Run(b: Book, es: seq<Request>): Book {
    if es == [] then b else Apply(Run(b, es[..|es| - 1]), es[|es| - 1]).0
  }

  // ---- one shop's ledger ----

  /** The shop's entries, oldest first. */
  function Entries(ledger: seq<Entry>, shop: nat): seq<Entry> {
    if ledger == [] then []
    else
      var before := Entries(ledger[..|ledger| - 1], shop);
      var last := ledger[|ledger| - 1];
      if last.shop == shop then before + [last] else before
  }

  /** Signed sum of the entries, from a starting balance. */
  function Walk(start: int, entries: seq<Entry>): int {
    if entries == [] then start
    else Walk(start, entries[..|entries| - 1]) + entries[|entries| - 1].Signed()
  }

  /** The lowest point the free walk has reached, zero included. */
  function Lowest(start: int, entries: seq<Entry>): (m: int)
    ensures m <= 0
    ensures m <= Walk(start, entries)
  {
    if entries == [] then Min(0, start)
    else Min(Lowest(start, entries[..|entries| - 1]), Walk(start, entries))
  }

  /** Lowest is what its name says: a bound of every prefix, and reached unless it is zero. */
  lemma {:induction false} LowestIsMinimum(start: int, entries: seq<Entry>)
    ensures forall k :: 0 <= k <= |entries| ==> Lowest(start, entries) <= Walk(start, entries[..k])
    ensures Lowest(start, entries) == 0
            || exists k :: 0 <= k <= |entries| && Lowest(start, entries) == Walk(start, entries[..k])
  {
    assert entries[..|entries|] == entries;
    if entries == [] {
      assert Walk(start, entries[..0]) == start;
    } else {
      var n := |entries| - 1;
      LowestIsMinimum(start, entries[..n]);
      forall k | 0 <= k <= n
        ensures entries[..n][..k] == entries[..k]
        ensures Lowest(start, entries) <= Walk(start, entries[..k])
      {
        assert entries[..n][..k] == entries[..k];
        assert Lowest(start, entries[..n]) <= Walk(start, entries[..n][..k]);
      }
      if Lowest(start, entries) == Walk(start, entries) {
        assert Lowest(start, entries) == Walk(start, entries[..n + 1]);
      } else if Lowest(start, entries) != 0 {
        var k :| 0 <= k <= n && Lowest(start, entries[..n]) == Walk(start, entries[..n][..k]);
        assert Lowest(start, entries) == Walk(start, entries[..k]);
      }
    }
  }

  /** A balance replayed from the entries alone, clamped at zero after each. */
  function Replay(start: int, entries: seq<Entry>): int {
    if entries == [] then start
    else Max(0, Replay(start, entries[..|entries| - 1]) + entries[|entries| - 1].Signed())
  }

  /** Clamping at zero after every entry is the free walk reflected at its lowest point. */
  lemma {:induction false} ReplayIsReflectedWalk(start: int, entries: seq<Entry>)
    requires start >= 0
    ensures Replay(start, entries) == Walk(start, entries) - Lowest(start, entries)
  {
    if entries != [] {
      ReplayIsReflectedWalk(start, entries[..|entries| - 1]);
    }
  }

  // ---- what every step keeps ----

  /** The profile and the recorded balances of one shop agree with replaying its entries. */
  ghost predicate Consistent(b: Book, shop: nat, start: int) {
    var entries := Entries(b.ledger, shop);
    && shop in b.profiles && b.profiles[shop].outstanding == Replay(start, entries)
    && Recorded(entries, start)
  }

  lemma EntriesSnoc(ledger: seq<Entry>, e: Entry, shop: nat)
    ensures Entries(ledger + [e], shop) ==
            if e.shop == shop then Entries(ledger, shop) + [e] else Entries(ledger, shop)
  {
    assert (ledger + [e])[..|ledger|] == ledger;
  }

  /** The recorded balances are those of replaying the entries. */
  predicate Recorded(entries: seq<Entry>, start: int) {
    forall i :: 0 <= i < |entries| ==>
      entries[i].amount > 0 && entries[i].balanceAfter == Replay(start, entries[..i + 1])
  }

  lemma RecordedSnoc(entries: seq<Entry>, start: int, e: Entry)
    requires Recorded(entries, start) && e.amount > 0
    requires e.balanceAfter == Max(0, Replay(start, entries) + e.Signed())
    ensures Recorded(entries + [e], start) && Replay(start, entries + [e]) == e.balanceAfter
  {
    var longer := entries + [e];
    assert longer[..|entries|] == entries && longer[..|entries| + 1] == longer;
    forall i | 0 <= i < |longer|
      ensures longer[i].amount > 0 && longer[i].balanceAfter == Replay(start, longer[..i + 1])
    {
      if i < |entries| {
        assert longer[..i + 1] == entries[..i + 1] && longer[i] == entries[i];
      }
    }
  }

  lemma AppendKeepsConsistent(b: Book, shop: nat, start: int, e: Entry, p: Profile)
    requires Consistent(b, shop, start) && e.amount > 0
    requires e.shop == shop ==> e.balanceAfter == p.outstanding == Max(0, b.profiles[shop].outstanding + e.Signed())
    ensures Consistent(Book(b.profiles[e.shop := p], b.ledger + [e]), shop, start)
  {
    hide Entries, Replay, Recorded;
    EntriesSnoc(b.ledger, e, shop);
    if e.shop == shop {
      RecordedSnoc(Entries(b.ledger, shop), start, e);
    }
  }

  lemma StepKeepsConsistent(b: Book, e: Request, shop: nat, start: int)
    requires Consistent(b, shop, start) && start >= 0 && b.profiles[shop].outstanding >= 0
    ensures Consistent(Apply(b, e).0, shop, start) && Apply(b, e).0.profiles[shop].outstanding >= 0
  {
    match e
    case DebitCredit(s, amount, order) => DebitKeepsConsistent(b, s, amount, order, shop, start);
    case CreditPayment(s, amount) => CollectKeepsConsistent(b, s, amount, shop, start);
    case _ => ProfileChangeKeepsConsistent(b, Apply(b, e).0, shop, start);
  }

  lemma DebitKeepsConsistent(b: Book, s: nat, amount: int, order: Option<nat>, shop: nat, start: int)
    requires shop in b.profiles && Consistent(b, shop, start) && b.profiles[shop].outstanding >= 0
    ensures var b' := Debited(b, s, amount, order).0;
            shop in b'.profiles && Consistent(b', shop, start) && b'.profiles[shop].outstanding >= 0
  {
    hide Consistent, Entries, Replay;
    if Debited(b, s, amount, order).1 == Done {
      var p := b.profiles[s].(outstanding := b.profiles[s].outstanding + amount);
      AppendKeepsConsistent(b, shop, start, Entry(s, Debit, amount, p.outstanding, order), p);
    }
  }

  lemma CollectKeepsConsistent(b: Book, s: nat, amount: int, shop: nat, start: int)
    requires shop in b.profiles && Consistent(b, shop, start) && b.profiles[shop].outstanding >= 0
    ensures var b' := Collected(b, s, amount).0;
            shop in b'.profiles && Consistent(b', shop, start) && b'.profiles[shop].outstanding >= 0
  {
    hide Consistent, Entries, Replay;
    if Collected(b, s, amount).1 == Done {
      var p := b.profiles[s].(outstanding := Max(0, b.profiles[s].outstanding - amount));
      AppendKeepsConsistent(b, shop, start, Entry(s, Collection, amount, p.outstanding, None), p);
    }
  }

  lemma ProfileChangeKeepsConsistent(b: Book, b': Book, shop: nat, start: int)
    requires Consistent(b, shop, start)
    requires b'.ledger == b.ledger && shop in b'.profiles
    requires b'.profiles[shop].outstanding == b.profiles[shop].outstanding
    ensures Consistent(b', shop, start)
  {
  }

  lemma {:induction false} RunKeepsConsistent(b: Book, es: seq<Request>, shop: nat)
    requires b.ledger == [] && shop in b.profiles && b.profiles[shop].outstanding >= 0
    ensures Consistent(Run(b, es), shop, b.profiles[shop].outstanding)
    ensures Run(b, es).profiles[shop].outstanding >= 0
  {
    if es != [] {
      RunKeepsConsistent(b, es[..|es| - 1], shop);
      StepKeepsConsistent(Run(b, es[..|es| - 1]), es[|es| - 1], shop, b.profiles[shop].outstanding);
    }
  }

  /**
   Over any run of debits, collections and profile changes of all shops: a shop's outstanding
   balance is the signed walk of its own entries, reflected at the lowest point below zero.
   */
  lemma OutstandingIsReflectedWalk(b: Book, es: seq<Request>, shop: nat)
    requires b.ledger == [] && shop in b.profiles && b.profiles[shop].outstanding >= 0
    ensures var t := Run(b, es);
            var start := b.profiles[shop].outstanding;
            var entries := Entries(t.ledger, shop);
            shop in t.profiles && t.profiles[shop].outstanding == Walk(start, entries) - Lowest(start, entries)
  {
    RunKeepsConsistent(b, es, shop);
    ReplayIsReflectedWalk(b.profiles[shop].outstanding, Entries(Run(b, es).ledger, shop));
  }

  /** The entries alone reproduce every recorded balance, and the last is the outstanding one. */
  lemma LedgerReplays(b: Book, es: seq<Request>, shop: nat)
    requires b.ledger == [] && shop in b.profiles && b.profiles[shop].outstanding >= 0
    ensures var t := Run(b, es);
            var start := b.profiles[shop].outstanding;
            var entries := Entries(t.ledger, shop);
            && shop in t.profiles
            && (forall i :: 0 <= i < |entries| ==> entries[i].balanceAfter == Replay(start, entries[..i + 1]))
            && (entries != [] ==> entries[|entries| - 1].balanceAfter == t.profiles[shop].outstanding)
            && (entries == [] ==> t.profiles[shop].outstanding == start)
  {
    RunKeepsConsistent(b, es, shop);
    var entries := Entries(Run(b, es).ledger, shop);
    assert entries[..|entries|] == entries;
  }

  // ---- the credit limit over a run ----

  predicate AcceptedDebit(b: Book, e: Request, shop: nat) {
    e.DebitCredit? && e.shop == shop && Apply(b, e).1 == Done
  }

  /** The limit in force at the shop's most recent accepted debit; without one, its starting balance. */
  function LastDebitLimit(b: Book, es: seq<Request>, shop: nat): int
    requires shop in b.profiles
  {
    if es == [] then b.profiles[shop].outstanding
    else
      var before := Run(b, es[..|es| - 1]);
      if AcceptedDebit(before, es[|es| - 1], shop) && shop in before.profiles then before.profiles[shop].creditLimit
      else LastDebitLimit(b, es[..|es| - 1], shop)
  }

  /** However limits, blocks and permissions change: never negative, never above that limit. */
  lemma {:induction false} WithinLimitOfLastDebit(b: Book, es: seq<Request>, shop: nat)
    requires shop in b.profiles && b.profiles[shop].outstanding >= 0
    ensures var t := Run(b, es);
            shop in t.profiles && 0 <= t.profiles[shop].outstanding <= LastDebitLimit(b, es, shop)
  {
    if es != [] {
      WithinLimitOfLastDebit(b, es[..|es| - 1], shop);
    }
  }

  /** A debit goes through exactly when the shop may buy on credit and stays within its limit. */
  lemma DebitAcceptedIff(b: Book, shop: nat, amount: int, order: Option<nat>)
    ensures Debited(b, shop, amount, order).1 == Done <==>
              && amount > 0 && shop in b.profiles
              && !b.profiles[shop].blocked && b.profiles[shop].allowed
              && b.profiles[shop].outstanding + amount <= b.profiles[shop].creditLimit
    ensures Debited(b, shop, amount, order).1 != Done ==> Debited(b, shop, amount, order).0 == b
  {
  }

  // ---- answers ----

  /** What a debit answers, its checks in order, and the entry that an accepted one leaves. */
  lemma DebitAnswer(b: Book, shop: nat, amount: int, order: Option<nat>)
    ensures var (t, outcome) := Apply(b, DebitCredit(shop, amount, order));
            && outcome == (
                 if amount <= 0 then Refused(BadRequest)
                 else if shop !in b.profiles then Refused(NotFound)
                 else if b.profiles[shop].blocked then Refused(Forbidden)
                 else if !b.profiles[shop].allowed then Refused(BadRequest)
                 else if b.profiles[shop].outstanding + amount > b.profiles[shop].creditLimit then Refused(BadRequest)
                 else Done)
            && (outcome == Done ==>
                  var balance := b.profiles[shop].outstanding + amount;
                  && t.profiles[shop] == b.profiles[shop].(outstanding := balance)
                  && t.ledger == b.ledger + [Entry(shop, Debit, amount, balance, order)])
  {
  }

  /**
   A collection is accepted exactly when it is positive and the shop exists, also above the balance
   and from a blocked shop: it then leaves nothing owed. Its entry keeps the whole amount.
   */
  lemma CollectionAnswer(b: Book, shop: nat, amount: int)
    ensures var (t, outcome) := Apply(b, CreditPayment(shop, amount));
            && (outcome == Done <==> amount > 0 && shop in b.profiles)
            && (outcome != Done ==> t == b && outcome == Refused(if amount <= 0 then BadRequest else NotFound))
            && (outcome == Done ==>
                  var p := b.profiles[shop];
                  var balance := t.profiles[shop].outstanding;
                  && t.profiles[shop].(outstanding := p.outstanding) == p
                  && (amount >= p.outstanding ==> balance == 0)
                  && (amount < p.outstanding ==> balance == p.outstanding - amount)
                  && t.ledger == b.ledger + [Entry(shop, Collection, amount, balance, None)])
  {
  }

  /** Approving unblocks; a permission or a limit that is not given stays, and the balance always does. */
  lemma ApproveAnswer(b: Book, shop: nat, permission: Option<bool>, newLimit: Option<int>)
    ensures var (t, outcome) := Apply(b, ApproveShop(shop, permission, newLimit));
            && (outcome == Done <==> shop in b.profiles) && t.ledger == b.ledger
            && (outcome == Done ==>
                  var p, q := b.profiles[shop], t.profiles[shop];
                  && !q.blocked && q.outstanding == p.outstanding
                  && (permission.Some? ==> q.allowed == permission.value)
                  && (permission.None? ==> q.allowed == p.allowed)
                  && (newLimit.Some? ==> q.creditLimit == newLimit.value)
                  && (newLimit.None? ==> q.creditLimit == p.creditLimit))
  {
  }

  /** A patch sets what it sends, and only that. */
  lemma PatchAnswer(b: Book, shop: nat, blocked: Field<bool>, allowed: Field<bool>, newLimit: Field<int>)
    ensures var (t, outcome) := Apply(b, PatchShop(shop, blocked, allowed, newLimit));
            && (outcome == Done <==> shop in b.profiles && !blocked.Null? && !allowed.Null? && !newLimit.Null?)
            && (outcome != Done ==> t == b) && t.ledger == b.ledger
            && (outcome == Done ==>
                  var p, q := b.profiles[shop], t.profiles[shop];
                  && q.outstanding == p.outstanding
                  && q.blocked == (if blocked.Set? then blocked.value else p.blocked)
                  && q.allowed == (if allowed.Set? then allowed.value else p.allowed)
                  && q.creditLimit == (if newLimit.Set? then newLimit.value else p.creditLimit))
  {
  }

  /** No request removes a profile. */
  lemma {:induction false} ShopsStay(b: Book, es: seq<Request>, shop: nat)
    requires shop in b.profiles
    ensures shop in Run(b, es).profiles
  {
    if es != [] {
      ShopsStay(b, es[..|es| - 1], shop);
    }
  }

  /** Nothing done for one shop touches another's profile or entries. */
  lemma ShopsAreSeparate(b: Book, e: Request, other: nat)
    requires e.shop != other
    ensures var b' := Apply(b, e).0;
            && (other in b'.profiles <==> other in b.profiles)
            && (other in b.profiles ==> b'.profiles[other] == b.profiles[other])
            && Entries(b'.ledger, other) == Entries(b.ledger, other)
  {
    var b' := Apply(b, e).0;
    if b'.ledger != b.ledger {
      EntriesSnoc(b.ledger, b'.ledger[|b.ledger|], other);
      assert b'.ledger == b.ledger + [b'.ledger[|b.ledger|]];
    }
  }

  // ---- the code itself ----

  class CreditDesk {
    var profiles: map<nat, Profile>
    var ledger: seq<Entry>

    constructor (profiles: map<nat, Profile>)
      ensures Contents() == Book(profiles, [])
    {
      this.profiles, this.ledger := profiles, [];
    }

    function Contents(): Book
      reads this
    {
      Book(profiles, ledger)
    }

    method Debit(shop: nat, amount: int, order: Option<nat>) returns (outcome: Outcome)
      modifies this
      ensures (Contents(), outcome) == Debited(old(Contents()), shop, amount, order)
    {
      if amount <= 0 {
        return Refused(BadRequest);
      }
      if shop !in profiles {
        return Refused(NotFound);
      }
      var profile := profiles[shop];
      if profile.blocked {
        return Refused(Forbidden);
      }
      if !profile.allowed {
        return Refused(BadRequest);
      }
      var projected := profile.outstanding + amount;
      if projected > profile.creditLimit {
        return Refused(BadRequest);
      }
      profiles := profiles[shop := profile.(outstanding := projected)];
      ledger := ledger + [Entry(shop, Kind.Debit, amount, projected, order)];
      outcome := Done;
    }

    method Collect(shop: nat, amount: int) returns (outcome: Outcome)
      modifies this
      ensures (Contents(), outcome) == Collected(old(Contents()), shop, amount)
    {
      if amount <= 0 {
        return Refused(BadRequest);
      }
      if shop !in profiles {
        return Refused(NotFound);
      }
      var profile := profiles[shop];
      var balance := profile.outstanding - amount;
      if balance < 0 {
        balance := 0;
      }
      profiles := profiles[shop := profile.(outstanding := balance)];
      ledger := ledger + [Entry(shop, Collection, amount, balance, None)];
      outcome := Done;
    }

    method Approve(shop: nat, allowed: Option<bool>, creditLimit: Option<int>) returns (outcome: Outcome)
      modifies this
      ensures (Contents(), outcome) == Apply(old(Contents()), ApproveShop(shop, allowed, creditLimit))
    {
      if shop !in profiles {
        return Refused(NotFound);
      }
      var profile := profiles[shop].(blocked := false);
      if allowed.Some? {
        profile := profile.(allowed := allowed.value);
      }
      if creditLimit.Some? {
        profile := profile.(creditLimit := creditLimit.value);
      }
      profiles := profiles[shop := profile];
      outcome := Done;
    }

    /** The columns are NOT NULL: a null fails at the commit, which keeps none of the fields. */
    method Patch(shop: nat, blocked: Field<bool>, allowed: Field<bool>, creditLimit: Field<int>)
      returns (outcome: Outcome)
      modifies this
      ensures (Contents(), outcome) == Apply(old(Contents()), PatchShop(shop, blocked, allowed, creditLimit))
    {
      if shop !in profiles {
        return Refused(NotFound);
      }
      var profile := profiles[shop];
      if blocked.Set? {
        profile := profile.(blocked := blocked.value);
      }
      if allowed.Set? {
        profile := profile.(allowed := allowed.value);
      }
      if creditLimit.Set? {
        profile := profile.(creditLimit := creditLimit.value);
      }
      if blocked.Null? || allowed.Null? || creditLimit.Null? {
        return Refused(Internal);
      }
      profiles := profiles[shop := profile];
      outcome := Done;
    }
  }
}
