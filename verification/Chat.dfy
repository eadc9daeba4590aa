/**
 Conversations between a shop or customer and the bakery: four writers, five readers and the
 hand-over, all sharing two unread counters and the flags on the messages.
 */
module Chat {
  import opened Wrappers
  import opened Text

  const MAX_PREVIEW: nat := 500
  const HANDOVER_TEXT: string := "Connecting you to SweetCrust bakery owner. Please wait\U{2026}"

  datatype Message = Message(role: string, content: Option<string>, delivered: bool, read: bool)

  datatype Conversation = Conversation(
    customerId: int, adminId: Option<int>, isAi: bool, aiHandedOver: bool, lastMessage: Option<string>,
    unreadCustomer: int, unreadAdmin: int, messages: seq<Message>)

  /** Who a message is waiting for. */
  datatype Side = Admin | Peer

  /** The guardrails' answer: is a user's text allowed, its cleaned text, and an AI reply's cleaned text. */
  datatype Gate = Gate(allowed: bool, text: Option<string>, reply: string)

  datatype Online = Online(admin: bool, peer: bool)

  datatype Request =
    | AiSend(role: string, content: Option<string>, kind: string, skip: bool, gate: Gate, online: Online)
    | CartSend(role: string, content: Option<string>, kind: string, media: Option<string>, online: Online)
    | AdminSend(content: Option<string>)
    | ShopSend(user: int, content: Option<string>, kind: string)
    | AiList(byAdmin: bool, user: int)
    | CartList(user: int)
    | ShopList(user: int)
    | OpsAdminList
    | OpsShopList(user: int)
    | Handover(firstAdmin: Option<int>, online: Online)

  function Opened(customerId: int, isAi: bool): Conversation {
    Conversation(customerId, None, isAi, false, None, 0, 0, [])
  }

  predicate Addresses(role: string, side: Side) {
    match side
    case Admin => role == "customer" || role == "retailer"
    case Peer => role == "admin" || role == "ai" || role == "system"
  }

  lemma AiIsStaff()
    ensures !Addresses("ai", Admin)
  {
  }

  function Or(s: Option<string>, other: string): string {
    if Given(s) then s.value else other
  }

  function Preview(s: string): string {
    if |s| <= MAX_PREVIEW then s else s[..MAX_PREVIEW]
  }

  // ---- what each request does ----

  /** None: the guardrails refuse the text. */
  function Screened(role: string, content: Option<string>, kind: string, skip: bool, gate: Gate)
    : Option<Option<string>>
  {
    if !skip && Addresses(role, Admin) && Given(content) && kind == "text" then
      if !gate.allowed then None
      else Some(if Given(gate.text) then gate.text else content)
    else if role == "ai" && Given(content) then Some(Some(gate.reply))
    else Some(content)
  }

  /** The row and the preview that every writer adds. */
  function Post(c: Conversation, role: string, content: Option<string>, preview: string, delivered: bool)
    : Conversation
  {
    c.(messages := c.messages + [Message(role, content, delivered, false)], lastMessage := Some(Preview(preview)))
  }

  function Bump(c: Conversation, side: Side): Conversation {
    match side
    case Admin => c.(unreadAdmin := c.unreadAdmin + 1)
    case Peer => c.(unreadCustomer := c.unreadCustomer + 1)
  }

  function AiPost(c: Conversation, role: string, content: Option<string>, kind: string, online: Online): Conversation {
    var posted := Post(c, role, content, Or(content, kind),
                       if Addresses(role, Admin) then online.admin else online.peer);
    if Addresses(role, Admin) then Bump(posted, Admin)
    else if Addresses(role, Peer) then Bump(posted, Peer)
    else posted
  }

  /** Only "customer" counts as a message for the admin here. */
  function CartPost(c: Conversation, role: string, content: Option<string>, kind: string, online: Online)
    : Conversation
  {
    var posted := Post(c, role, content, Or(content, kind), if role == "customer" then online.admin else online.peer);
    if role == "customer" then Bump(posted, Admin)
    else if Addresses(role, Peer) then Bump(posted, Peer)
    else posted
  }

  function Seen(m: Message, side: Side): Message {
    if Addresses(m.role, side) then m.(delivered := true, read := true) else m
  }

  function AllSeen(ms: seq<Message>, side: Side): (r: seq<Message>)
    ensures |r| == |ms| && forall i :: 0 <= i < |ms| ==> r[i] == Seen(ms[i], side)
  {
    seq(|ms|, i requires 0 <= i < |ms| => Seen(ms[i], side))
  }

  function ReadBy(c: Conversation, side: Side): Conversation {
    match side
    case Admin => c.(unreadAdmin := 0, messages := AllSeen(c.messages, side))
    case Peer => c.(unreadCustomer := 0, messages := AllSeen(c.messages, side))
  }

  /** The role whose own messages a store_ops reader leaves alone: every other one is marked. */
  function OwnRole(side: Side): string {
    if side.Admin? then "admin" else "retailer"
  }

  function Skimmed(m: Message, side: Side): Message {
    if m.role != OwnRole(side) && !m.read then m.(delivered := true, read := true) else m
  }

  function AllSkimmed(ms: seq<Message>, side: Side): (r: seq<Message>)
    ensures |r| == |ms| && forall i :: 0 <= i < |ms| ==> r[i] == Skimmed(ms[i], side)
  {
    seq(|ms|, i requires 0 <= i < |ms| => Skimmed(ms[i], side))
  }

  /** "Mark-on-open" of store_ops: one counter is cleared, and messages of both sides are marked. */
  function SkimmedBy(c: Conversation, side: Side): Conversation {
    match side
    case Admin =>
      c.(unreadAdmin := if c.unreadAdmin > 0 then 0 else c.unreadAdmin, messages := AllSkimmed(c.messages, side))
    case Peer =>
      c.(unreadCustomer := if c.unreadCustomer > 0 then 0 else c.unreadCustomer,
         messages := AllSkimmed(c.messages, side))
  }

  /** The hand-over's own changes, before its message. */
  function Handed(c: Conversation, firstAdmin: Option<int>): Conversation {
    c.(isAi := false, aiHandedOver := true, adminId := if firstAdmin.Some? then firstAdmin else c.adminId)
  }

  function Step(c: Conversation, r: Request): (Outcome, Conversation) {
    match r
    case AiSend(role, content, kind, skip, gate, online) =>
      var text := Screened(role, content, kind, skip, gate);
      if text.None? then (Refused(BadRequest), c) else (Done, AiPost(c, role, text.value, kind, online))
    case CartSend(role, content, kind, media, online) =>
      if role == "customer" && !Given(content) && kind == "text" && !Given(media) then (Refused(BadRequest), c)
      else (Done, CartPost(c, role, content, kind, online))
    case AdminSend(content) =>
      var text := Or(content, "");
      (Done, Bump(Post(c, "admin", Some(text), text, false).(aiHandedOver := true), Peer))
    case ShopSend(user, content, kind) =>
      if c.customerId != user then (Refused(Forbidden), c)
      else (Done, Bump(Post(c, "retailer", content, Or(content, kind), false), Admin))
    case AiList(byAdmin, user) =>
      if !byAdmin && c.customerId != user then (Refused(Forbidden), c)
      else (Done, ReadBy(c, if byAdmin then Admin else Peer))
    case CartList(user) =>
      if c.customerId != user then (Refused(Forbidden), c) else (Done, ReadBy(c, Peer))
    case ShopList(user) =>
      (if c.customerId != user then Refused(Forbidden) else Done, c)
    case OpsAdminList => (Done, SkimmedBy(c, Admin))
    case OpsShopList(user) =>
      if c.customerId != user then (Refused(Forbidden), c) else (Done, SkimmedBy(c, Peer))
    case Handover(firstAdmin, online) =>
      (Done, AiPost(Handed(c, firstAdmin), "system", Some(HANDOVER_TEXT), "system", online))
  }

  // ---- what each writer leaves, in the request's own fields ----

  lemma RolesOfSides(role: string)
    ensures Addresses(role, Admin) <==> role in {"customer", "retailer"}
    ensures Addresses(role, Peer) <==> role in {"admin", "ai", "system"}
  {
  }

  /** One more message, unread, and the preview cut at 500 characters; all else of the conversation stays. */
  predicate Wrote(c: Conversation, d: Conversation, m: Message, preview: string) {
    && d.messages == c.messages + [m] && !m.read
    && d.lastMessage.Some? && d.lastMessage.value <= preview
    && |d.lastMessage.value| == (if |preview| <= 500 then |preview| else 500)
    && d.customerId == c.customerId
  }

  /**
   The AI service's writer: only the guardrails refuse, and only text of customers and shops; the
   message is delivered at once exactly when its recipient, the admin for those two roles and the
   peer for all others, is online.
   */
  lemma AiSendAnswer(c: Conversation, r: Request)
    requires r.AiSend?
    ensures var (d, outcome) := (Step(c, r).1, Step(c, r).0);
            var fromPeer := r.role in {"customer", "retailer"};
            var given := r.content.Some? && r.content.value != "";
            && outcome == (if !r.skip && fromPeer && given && r.kind == "text" && !r.gate.allowed
                           then Refused(BadRequest) else Done)
            && (outcome != Done ==> d == c)
            && (outcome == Done ==>
                  && |d.messages| == |c.messages| + 1
                  && var m := d.messages[|c.messages|];
                     && Wrote(c, d, m, if m.content.Some? && m.content.value != "" then m.content.value else r.kind)
                     && m.role == r.role && m.delivered == (if fromPeer then r.online.admin else r.online.peer)
                     && d.isAi == c.isAi && d.aiHandedOver == c.aiHandedOver && d.adminId == c.adminId)
  {
    RolesOfSides(r.role);
    hide Addresses;
  }

  /** What the guardrails make of the text. */
  lemma ScreenedText(role: string, content: Option<string>, kind: string, skip: bool, gate: Gate)
    requires content.Some? && content.value != "" && Screened(role, content, kind, skip, gate).Some?
    ensures var text := Screened(role, content, kind, skip, gate).value;
            && (role == "ai" ==> text == Some(gate.reply))
            && (role in {"customer", "retailer"} && !skip && kind == "text" ==>
                  text == if gate.text.Some? && gate.text.value != "" then gate.text else content)
            && (role !in {"customer", "retailer", "ai"} ==> text == content)
            && (role != "ai" && (skip || kind != "text") ==> text == content)
  {
  }

  /** The cart writer: a customer must send something, and only customers write to the admin. */
  lemma CartSendAnswer(c: Conversation, r: Request)
    requires r.CartSend?
    ensures var (d, outcome) := (Step(c, r).1, Step(c, r).0);
            var nothing := !(r.content.Some? && r.content.value != "") && !(r.media.Some? && r.media.value != "");
            var shown := if r.content.Some? && r.content.value != "" then r.content.value else r.kind;
            && outcome == (if r.role == "customer" && nothing && r.kind == "text" then Refused(BadRequest) else Done)
            && (outcome != Done ==> d == c)
            && (outcome == Done ==>
                  var present := if r.role == "customer" then r.online.admin else r.online.peer;
                  Wrote(c, d, Message(r.role, r.content, present, false), shown))
  {
    hide Addresses;
  }

  /** The admin panel's and the shop's writers leave an undelivered message. */
  lemma PlainSendAnswers(c: Conversation, r: Request)
    ensures r.AdminSend? ==>
              var text := if r.content.Some? then r.content.value else "";
              var d := Step(c, r).1;
              Step(c, r).0 == Done && Wrote(c, d, Message("admin", Some(text), false, false), text) && d.aiHandedOver
    ensures r.ShopSend? ==>
              && Step(c, r).0 == (if c.customerId == r.user then Done else Refused(Forbidden))
              && (c.customerId != r.user ==> Step(c, r).1 == c)
              && (c.customerId == r.user ==>
                    Wrote(c, Step(c, r).1, Message("retailer", r.content, false, false),
                          if r.content.Some? && r.content.value != "" then r.content.value else r.kind))
  {
  }

  /** The hand-over: a human takes the conversation, and the customer is told. */
  lemma HandoverAnswer(c: Conversation, r: Request)
    requires r.Handover?
    ensures var d := Step(c, r).1;
            && Step(c, r).0 == Done && !d.isAi && d.aiHandedOver
            && d.adminId == (if r.firstAdmin.Some? then r.firstAdmin else c.adminId)
            && Wrote(c, d, Message("system", Some(HANDOVER_TEXT), r.online.peer, false), HANDOVER_TEXT)
  {
  }

  /** Who may read: the admin or the owner in the AI service, the admin in store_ops, else the owner. */
  lemma ReadAnswers(c: Conversation, r: Request)
    requires r.AiList? || r.CartList? || r.ShopList? || r.OpsAdminList? || r.OpsShopList?
    ensures Step(c, r).0 ==
            if r.OpsAdminList? || (r.AiList? && r.byAdmin) || c.customerId == r.user then Done else Refused(Forbidden)
    ensures Step(c, r).0 != Done || r.ShopList? ==> Step(c, r).1 == c
  {
  }

  /**
   A reader of the AI or the cart service clears its own side's counter and marks the messages of
   the roles that write to it; all others, and all other fields, stay.
   */
  lemma ReaderMarks(c: Conversation, r: Request, i: nat)
    requires (r.AiList? || r.CartList?) && Step(c, r).0 == Done && i < |c.messages|
    ensures var d, m := Step(c, r).1, c.messages[i];
            var byAdmin := r.AiList? && r.byAdmin;
            var forReader := m.role in if byAdmin then {"customer", "retailer"} else {"admin", "ai", "system"};
            && |d.messages| == |c.messages|
            && d.messages[i] == (if forReader then Message(m.role, m.content, true, true) else m)
            && d.unreadAdmin == (if byAdmin then 0 else c.unreadAdmin)
            && d.unreadCustomer == (if byAdmin then c.unreadCustomer else 0)
            && d.(unreadAdmin := 0, unreadCustomer := 0, messages := []) ==
               c.(unreadAdmin := 0, unreadCustomer := 0, messages := [])
  {
    RolesOfSides(c.messages[i].role);
    hide Addresses;
  }

  /** A store_ops reader clears its own counter and marks every unread message of another role than its own. */
  lemma OpsReaderMarks(c: Conversation, r: Request, i: nat)
    requires (r.OpsAdminList? || r.OpsShopList?) && Step(c, r).0 == Done && i < |c.messages|
    requires c.unreadAdmin >= 0 && c.unreadCustomer >= 0
    ensures var d, m := Step(c, r).1, c.messages[i];
            && |d.messages| == |c.messages|
            && d.messages[i] ==
               (if m.role != (if r.OpsAdminList? then "admin" else "retailer") && !m.read
                then Message(m.role, m.content, true, true) else m)
            && d.unreadAdmin == (if r.OpsAdminList? then 0 else c.unreadAdmin)
            && d.unreadCustomer == (if r.OpsAdminList? then c.unreadCustomer else 0)
  {
  }

  // ---- the counters against the messages ----

  function CountUnread(ms: seq<Message>, side: Side): nat {
    if ms == [] then 0
    else
      var m := ms[|ms| - 1];
      CountUnread(ms[..|ms| - 1], side) + if Addresses(m.role, side) && !m.read then 1 else 0
  }

  ghost predicate ReadAreDelivered(ms: seq<Message>) {
    forall i :: 0 <= i < |ms| ==> ms[i].read ==> ms[i].delivered
  }

  /** Both counters are exact and nothing is read before it is delivered. */
  ghost predicate Agrees(c: Conversation) {
    && c.unreadAdmin == CountUnread(c.messages, Admin)
    && c.unreadCustomer == CountUnread(c.messages, Peer)
    && ReadAreDelivered(c.messages)
  }

  lemma CountUnreadSnoc(ms: seq<Message>, m: Message, side: Side)
    ensures CountUnread(ms + [m], side) == CountUnread(ms, side) + if Addresses(m.role, side) && !m.read then 1 else 0
  {
    assert (ms + [m])[..|ms|] == ms;
  }

  /** Reading clears the reader's side and leaves the other side as it was. */
  lemma {:induction false} AllSeenCounts(ms: seq<Message>, side: Side, other: Side)
    requires side != other
    ensures CountUnread(AllSeen(ms, side), side) == 0
    ensures CountUnread(AllSeen(ms, side), other) == CountUnread(ms, other)
  {
    if ms != [] {
      AllSeenCounts(ms[..|ms| - 1], side, other);
      assert AllSeen(ms, side)[..|ms| - 1] == AllSeen(ms[..|ms| - 1], side);
    }
  }

  /** The cart writer posting as a retailer: the row waits for the admin, the counter does not move. */
  predicate Overlooked(r: Request) {
    r.CartSend? && r.role == "retailer"
  }

  function Waiting(c: Conversation, side: Side): int {
    CountUnread(c.messages, side) - (if side.Admin? then c.unreadAdmin else c.unreadCustomer)
  }

  lemma PostCounts(c: Conversation, role: string, content: Option<string>, preview: string, delivered: bool, side: Side)
    ensures Waiting(Post(c, role, content, preview, delivered), side)
         == Waiting(c, side) + if Addresses(role, side) then 1 else 0
    ensures ReadAreDelivered(c.messages) ==> ReadAreDelivered(Post(c, role, content, preview, delivered).messages)
  {
    CountUnreadSnoc(c.messages, Message(role, content, delivered, false), side);
  }

  lemma OneSide(role: string)
    ensures !(Addresses(role, Admin) && Addresses(role, Peer))
  {
  }

  lemma AiPostCounts(c: Conversation, role: string, content: Option<string>, kind: string, online: Online, side: Side)
    ensures Waiting(AiPost(c, role, content, kind, online), side) == Waiting(c, side)
    ensures ReadAreDelivered(c.messages) ==> ReadAreDelivered(AiPost(c, role, content, kind, online).messages)
  {
    PostCounts(c, role, content, Or(content, kind), if Addresses(role, Admin) then online.admin else online.peer, side);
    OneSide(role);
    hide Post, CountUnread, ReadAreDelivered, Addresses;
  }

  lemma CartPostCounts(c: Conversation, role: string, content: Option<string>, kind: string, online: Online, side: Side)
    ensures Waiting(CartPost(c, role, content, kind, online), side)
         == Waiting(c, side) + if role == "retailer" && side.Admin? then 1 else 0
    ensures ReadAreDelivered(c.messages) ==> ReadAreDelivered(CartPost(c, role, content, kind, online).messages)
  {
    PostCounts(c, role, content, Or(content, kind), if role == "customer" then online.admin else online.peer, side);
    hide Post, CountUnread, ReadAreDelivered;
  }

  lemma ReadByCounts(c: Conversation, side: Side)
    ensures Waiting(ReadBy(c, side), side) == 0
    ensures forall other :: other != side ==> Waiting(ReadBy(c, side), other) == Waiting(c, other)
    ensures ReadAreDelivered(c.messages) ==> ReadAreDelivered(ReadBy(c, side).messages)
  {
    AllSeenCounts(c.messages, side, if side.Admin? then Peer else Admin);
  }

  /** The side's unread messages that a store_ops reader of `reader` marks. */
  function SkimCount(ms: seq<Message>, reader: Side, side: Side): nat {
    if ms == [] then 0
    else
      var m := ms[|ms| - 1];
      SkimCount(ms[..|ms| - 1], reader, side)
      + if Addresses(m.role, side) && !m.read && m.role != OwnRole(reader) then 1 else 0
  }

  lemma {:induction false} AllSkimmedCounts(ms: seq<Message>, reader: Side, side: Side)
    ensures CountUnread(AllSkimmed(ms, reader), side) == CountUnread(ms, side) - SkimCount(ms, reader, side)
  {
    if ms != [] {
      AllSkimmedCounts(ms[..|ms| - 1], reader, side);
      assert AllSkimmed(ms, reader)[..|ms| - 1] == AllSkimmed(ms[..|ms| - 1], reader);
    }
  }

  /** A reader marks all that waits for it: its own role never writes to itself. */
  lemma {:induction false} OwnSideIsSkimmed(ms: seq<Message>, reader: Side)
    ensures SkimCount(ms, reader, reader) == CountUnread(ms, reader)
  {
    if ms != [] {
      OwnSideIsSkimmed(ms[..|ms| - 1], reader);
      OwnRoleAddressesOther(reader);
    }
  }

  lemma OwnRoleAddressesOther(reader: Side)
    ensures !Addresses(OwnRole(reader), reader)
  {
  }

  predicate CountersNotNegative(c: Conversation) {
    c.unreadAdmin >= 0 && c.unreadCustomer >= 0
  }

  lemma SkimmedByCounts(c: Conversation, reader: Side, side: Side)
    requires CountersNotNegative(c)
    ensures Waiting(SkimmedBy(c, reader), side) ==
            if side == reader then 0 else Waiting(c, side) - SkimCount(c.messages, reader, side)
    ensures ReadAreDelivered(c.messages) ==> ReadAreDelivered(SkimmedBy(c, reader).messages)
  {
    AllSkimmedCounts(c.messages, reader, side);
    OwnSideIsSkimmed(c.messages, reader);
    hide CountUnread, SkimCount, OwnRole, Addresses;
  }

  /** The request is an accepted reading for that side. */
  predicate Reads(c: Conversation, r: Request, side: Side) {
    match side
    case Admin => r.OpsAdminList? || (r.AiList? && r.byAdmin)
    case Peer => ((r.AiList? && !r.byAdmin) || r.CartList? || r.OpsShopList?) && r.user == c.customerId
  }

  /** How many of a side's unread messages the other side's store_ops reader marks. */
  function Skims(c: Conversation, r: Request, side: Side): nat {
    match side
    case Admin => if r.OpsShopList? && r.user == c.customerId then SkimCount(c.messages, Peer, Admin) else 0
    case Peer => if r.OpsAdminList? then SkimCount(c.messages, Admin, Peer) else 0
  }

  /** How far one request moves a side's unread messages ahead of its counter. */
  lemma StepCounts(c: Conversation, r: Request, side: Side)
    requires CountersNotNegative(c)
    ensures var next := Step(c, r).1;
            Waiting(next, side) ==
            if Overlooked(r) && side.Admin? then Waiting(c, side) + 1
            else if Reads(c, r, side) then 0
            else Waiting(c, side) - Skims(c, r, side)
    ensures ReadAreDelivered(c.messages) ==> ReadAreDelivered(Step(c, r).1.messages)
  {
    hide CountUnread, ReadAreDelivered, AllSeen, ReadBy, SkimmedBy, Post, AiPost, CartPost;
    match r
    case AiSend(role, content, kind, skip, gate, online) =>
      var text := Screened(role, content, kind, skip, gate);
      if text.Some? {
        AiPostCounts(c, role, text.value, kind, online, side);
      }
    case CartSend(role, content, kind, media, online) =>
      CartPostCounts(c, role, content, kind, online, side);
    case AdminSend(content) =>
      PostCounts(c, "admin", Some(Or(content, "")), Or(content, ""), false, side);
    case ShopSend(user, content, kind) =>
      PostCounts(c, "retailer", content, Or(content, kind), false, side);
    case AiList(byAdmin, user) =>
      ReadByCounts(c, if byAdmin then Admin else Peer);
    case CartList(user) =>
      ReadByCounts(c, Peer);
    case ShopList(user) =>
    case OpsAdminList =>
      SkimmedByCounts(c, Admin, side);
    case OpsShopList(user) =>
      SkimmedByCounts(c, Peer, side);
    case Handover(firstAdmin, online) =>
      AiPostCounts(Handed(c, firstAdmin), "system", Some(HANDOVER_TEXT), "system", online, side);
  }

  lemma StepKeepsCountersNotNegative(c: Conversation, r: Request)
    requires CountersNotNegative(c)
    ensures CountersNotNegative(Step(c, r).1) && Step(c, r).1.customerId == c.customerId
  {
    hide AllSeen, AllSkimmed, Screened, Preview;
  }

  /**
   From an agreeing state every request keeps agreement, except exactly the cart writer posting as
   a retailer, and a store_ops reader that marks unread messages of the other side.
   */
  lemma AgreementKeptIff(c: Conversation, r: Request)
    requires Agrees(c)
    ensures Agrees(Step(c, r).1) <==> !Overlooked(r) && Skims(c, r, Admin) == 0 && Skims(c, r, Peer) == 0
  {
    StepCounts(c, r, Admin);
    StepCounts(c, r, Peer);
    assert Waiting(c, Admin) == 0 && Waiting(c, Peer) == 0;
    hide Step, ReadAreDelivered, CountUnread, SkimCount;
    assert Waiting(Step(c, r).1, Peer) == 0 - Skims(c, r, Peer);
  }

  // ---- over whole runs ----

  function Run(c: Conversation, rs: seq<Request>): Conversation {
    if rs == [] then c else Step(Run(c, rs[..|rs| - 1]), rs[|rs| - 1]).1
  }

  /**
   What a side's counter misses: the messages overlooked, less those the other side's store_ops
   reader marked, since the side's own last reading.
   */
  function Missed(c: Conversation, rs: seq<Request>, side: Side): int {
    if rs == [] then 0
    else
      var front, r := rs[..|rs| - 1], rs[|rs| - 1];
      if Overlooked(r) && side.Admin? then Missed(c, front, side) + 1
      else if Reads(Run(c, front), r, side) then 0
      else Missed(c, front, side) - Skims(Run(c, front), r, side)
  }

  lemma {:induction false} MissedOverRuns(c: Conversation, rs: seq<Request>, side: Side)
    requires CountersNotNegative(c) && Waiting(c, side) == 0 && ReadAreDelivered(c.messages)
    ensures var t := Run(c, rs);
            Waiting(t, side) == Missed(c, rs, side) && ReadAreDelivered(t.messages) && CountersNotNegative(t)
  {
    hide Step, ReadAreDelivered, Waiting, Reads, Skims, Overlooked, CountersNotNegative;
    if rs != [] {
      var front, r := rs[..|rs| - 1], rs[|rs| - 1];
      MissedOverRuns(c, front, side);
      StepCounts(Run(c, front), r, side);
      StepKeepsCountersNotNegative(Run(c, front), r);
    }
  }

  /**
   Over every run of all writers and readers from a new conversation: nothing is read undelivered,
   and each side's unread messages are its counter plus exactly what the counter misses. So both
   agree just when neither misses anything.
   */
  lemma CountersOverRuns(customerId: int, isAi: bool, rs: seq<Request>)
    ensures var c := Opened(customerId, isAi);
            var t := Run(c, rs);
            && CountUnread(t.messages, Peer) == t.unreadCustomer + Missed(c, rs, Peer)
            && CountUnread(t.messages, Admin) == t.unreadAdmin + Missed(c, rs, Admin)
            && ReadAreDelivered(t.messages)
            && (Agrees(t) <==> Missed(c, rs, Admin) == 0 && Missed(c, rs, Peer) == 0)
  {
    var c := Opened(customerId, isAi);
    assert Waiting(c, Admin) == 0 && Waiting(c, Peer) == 0 && ReadAreDelivered(c.messages);
    MissedOverRuns(c, rs, Admin);
    MissedOverRuns(c, rs, Peer);
    hide Run, Missed, CountUnread, ReadAreDelivered;
  }

  /** A request of the routes that agree on what each side reads. */
  predicate InStep(r: Request) {
    !Overlooked(r) && !r.OpsAdminList? && !r.OpsShopList?
  }

  lemma {:induction false} NothingMissed(c: Conversation, rs: seq<Request>, side: Side)
    requires forall r :: r in rs ==> InStep(r)
    ensures Missed(c, rs, side) == 0
  {
    hide Run;
    if rs != [] {
      NothingMissed(c, rs[..|rs| - 1], side);
      assert rs[|rs| - 1] in rs;
    }
  }

  /** Without the cart writer as a retailer and without the store_ops readers, both counters are exact throughout. */
  lemma CountersAgree(customerId: int, isAi: bool, rs: seq<Request>)
    requires forall r :: r in rs ==> InStep(r)
    ensures Agrees(Run(Opened(customerId, isAi), rs))
  {
    hide Run, Missed, Agrees;
    NothingMissed(Opened(customerId, isAi), rs, Admin);
    NothingMissed(Opened(customerId, isAi), rs, Peer);
    CountersOverRuns(customerId, isAi, rs);
  }

  /** The cart writer called with the role "retailer" makes a new conversation disagree at once. */
  lemma FirstRetailerMessageIsOverlooked(customerId: int, text: Option<string>, media: Option<string>, online: Online)
    ensures !Agrees(Run(Opened(customerId, false), [CartSend("retailer", text, "text", media, online)]))
  {
    var r := CartSend("retailer", text, "text", media, online);
    AgreementKeptIff(Opened(customerId, false), r);
    assert [r][..0] == [] && Run(Opened(customerId, false), []) == Opened(customerId, false);
    hide Step, Agrees;
  }

  /**
   An admin who opens a thread in store_ops with an AI reply unread leaves the customer's counter
   at 1 for no message.
   */
  lemma UnreadReplyIsSkimmed(c: Conversation)
    requires c.messages == [Message("ai", Some("Hello"), false, false)] && c.unreadCustomer == 1 && c.unreadAdmin == 0
    ensures Agrees(c)
    ensures var t := Step(c, OpsAdminList).1;
            t.unreadCustomer == 1 && CountUnread(t.messages, Peer) == 0 && !Agrees(t)
  {
    assert c.messages[..0] == [];
    assert CountUnread([], Peer) == 0 && CountUnread([], Admin) == 0;
    assert AllSkimmed(c.messages, Admin) == [Message("ai", Some("Hello"), true, true)];
    assert AllSkimmed(c.messages, Admin)[..0] == [];
  }

  /** Reading twice is reading once, and the two services' customer views do the same. */
  lemma ReadingTwice(c: Conversation, r: Request)
    requires r.AiList? || r.CartList?
    ensures Step(Step(c, r).1, r) == Step(c, r)
    ensures r.AiList? && !r.byAdmin ==> Step(c, r) == Step(c, CartList(r.user))
  {
    forall side: Side
      ensures AllSeen(AllSeen(c.messages, side), side) == AllSeen(c.messages, side)
    {
    }
  }

  /** Flags only ever go up. */
  predicate Follows(m: Message, before: Message) {
    m.role == before.role && m.content == before.content
    && (before.delivered ==> m.delivered) && (before.read ==> m.read)
  }

  predicate AllFollow(now: seq<Message>, before: seq<Message>) {
    |before| <= |now| && forall i :: 0 <= i < |before| ==> Follows(now[i], before[i])
  }

  lemma PostFollows(c: Conversation, role: string, content: Option<string>, preview: string, delivered: bool)
    ensures AllFollow(Post(c, role, content, preview, delivered).messages, c.messages)
  {
  }

  lemma MarkingFollows(ms: seq<Message>, side: Side)
    ensures AllFollow(ms, ms) && AllFollow(AllSeen(ms, side), ms) && AllFollow(AllSkimmed(ms, side), ms)
  {
    hide Addresses, OwnRole;
  }

  lemma StepKeepsMessages(c: Conversation, r: Request)
    ensures AllFollow(Step(c, r).1.messages, c.messages)
  {
    MarkingFollows(c.messages, Admin);
    MarkingFollows(c.messages, Peer);
    hide AllFollow, AllSeen, AllSkimmed, Post, Screened, Addresses;
    match r
    case AiSend(role, content, kind, skip, gate, online) =>
      var text := Screened(role, content, kind, skip, gate);
      if text.Some? {
        var to := if Addresses(role, Admin) then online.admin else online.peer;
        PostFollows(c, role, text.value, Or(text.value, kind), to);
      }
    case CartSend(role, content, kind, media, online) =>
      PostFollows(c, role, content, Or(content, kind), if role == "customer" then online.admin else online.peer);
    case AdminSend(content) => PostFollows(c, "admin", Some(Or(content, "")), Or(content, ""), false);
    case ShopSend(user, content, kind) => PostFollows(c, "retailer", content, Or(content, kind), false);
    case Handover(firstAdmin, online) =>
      var to := if Addresses("system", Admin) then online.admin else online.peer;
      PostFollows(Handed(c, firstAdmin), "system", Some(HANDOVER_TEXT), Or(Some(HANDOVER_TEXT), "system"), to);
    case _ =>
  }

  /** Messages are never lost, changed or marked unread again. */
  lemma {:induction false} MessagesAreKept(c: Conversation, rs: seq<Request>)
    ensures AllFollow(Run(c, rs).messages, c.messages)
  {
    hide Step;
    if rs != [] {
      MessagesAreKept(c, rs[..|rs| - 1]);
      StepKeepsMessages(Run(c, rs[..|rs| - 1]), rs[|rs| - 1]);
    }
  }

  // ---- the services ----

  type Table = map<int, Conversation>

  function Apply(t: Table, id: int, r: Request): (Outcome, Table) {
    if id !in t then (Refused(NotFound), t)
    else
      var (outcome, c) := Step(t[id], r);
      (outcome, if outcome.Done? then t[id := c] else t)
  }

  class ChatService {
    var conversations: Table

    constructor ()
      ensures conversations == map[]
    {
      conversations := map[];
    }

    /** create_conversation, without its optional first message. */
    method Open(id: int, customerId: int, isAi: bool)
      requires id !in conversations
      modifies this
      ensures conversations == old(conversations)[id := Opened(customerId, isAi)]
      ensures Agrees(conversations[id])
    {
      conversations := conversations[id := Conversation(customerId, None, isAi, false, None, 0, 0, [])];
    }

    /** The AI service's send_message. */
    method AiSendMessage(id: int, role: string, content: Option<string>, kind: string, skip: bool,
                         gate: Gate, online: Online)
      returns (outcome: Outcome)
      modifies this
      ensures (outcome, conversations) == Apply(old(conversations), id, AiSend(role, content, kind, skip, gate, online))
    {
      if id !in conversations {
        return Refused(NotFound);
      }
      var screened := Screen(role, content, kind, skip, gate);
      if screened.None? {
        return Refused(BadRequest);
      }
      hide Addresses, Preview, Screened, Given;
      var conv, text := conversations[id], screened.value;
      var recipientOnline := online.peer;
      if Addresses(role, Admin) {
        recipientOnline := online.admin;
      }
      var msg := Message(role, text, recipientOnline, false);
      conv := conv.(lastMessage := Some(Preview(Or(text, kind))));
      if Addresses(role, Admin) {
        conv := conv.(unreadAdmin := conv.unreadAdmin + 1);
      } else if Addresses(role, Peer) {
        conv := conv.(unreadCustomer := conv.unreadCustomer + 1);
      }
      conv := conv.(messages := conv.messages + [msg]);
      assert conv == AiPost(old(conversations)[id], role, text, kind, online);
      conversations := conversations[id := conv];
      outcome := Done;
    }

    /** The guardrails at the head of the AI service's send_message; None when they refuse. */
    static method Screen(role: string, content: Option<string>, kind: string, skip: bool, gate: Gate)
      returns (screened: Option<Option<string>>)
      ensures screened == Screened(role, content, kind, skip, gate)
    {
      AiIsStaff();
      hide Addresses;
      var text := content;
      if !skip && Addresses(role, Admin) && Given(text) && kind == "text" {
        if !gate.allowed {
          return None;
        }
        if Given(gate.text) {
          text := gate.text;
        }
      }
      if role == "ai" && Given(text) {
        text := Some(gate.reply);
      }
      screened := Some(text);
    }

    /** The cart service's send_message. */
    method CartSendMessage(id: int, role: string, content: Option<string>, kind: string, media: Option<string>,
                           online: Online)
      returns (outcome: Outcome)
      modifies this
      ensures (outcome, conversations) == Apply(old(conversations), id, CartSend(role, content, kind, media, online))
    {
      if id !in conversations {
        return Refused(NotFound);
      }
      if role == "customer" && !Given(content) && kind == "text" && !Given(media) {
        return Refused(BadRequest);
      }
      hide Addresses, Preview;
      var conv := conversations[id];
      var msg := Message(role, content, if role == "customer" then online.admin else online.peer, false);
      conv := conv.(lastMessage := Some(Preview(Or(content, kind))));
      if role == "customer" {
        conv := conv.(unreadAdmin := conv.unreadAdmin + 1);
      } else if Addresses(role, Peer) {
        conv := conv.(unreadCustomer := conv.unreadCustomer + 1);
      }
      conv := conv.(messages := conv.messages + [msg]);
      assert conv == CartPost(old(conversations)[id], role, content, kind, online);
      conversations := conversations[id := conv];
      outcome := Done;
    }

    /** The admin panel's send_chat. */
    method SendChat(id: int, content: Option<string>) returns (outcome: Outcome)
      modifies this
      ensures (outcome, conversations) == Apply(old(conversations), id, AdminSend(content))
    {
      if id !in conversations {
        return Refused(NotFound);
      }
      var conv, text := conversations[id], Or(content, "");
      conv := conv.(lastMessage := Some(Preview(text)), unreadCustomer := conv.unreadCustomer + 1);
      conv := conv.(aiHandedOver := true);
      conv := conv.(messages := conv.messages + [Message("admin", Some(text), false, false)]);
      conversations := conversations[id := conv];
      outcome := Done;
    }

    /** The shop app's send_message. */
    method ShopSendMessage(id: int, user: int, content: Option<string>, kind: string) returns (outcome: Outcome)
      modifies this
      ensures (outcome, conversations) == Apply(old(conversations), id, ShopSend(user, content, kind))
    {
      if id !in conversations {
        return Refused(NotFound);
      }
      var conv := conversations[id];
      if conv.customerId != user {
        return Refused(Forbidden);
      }
      conv := conv.(lastMessage := Some(Preview(Or(content, kind))), unreadAdmin := conv.unreadAdmin + 1);
      conv := conv.(messages := conv.messages + [Message("retailer", content, false, false)]);
      conversations := conversations[id := conv];
      outcome := Done;
    }

    /** The loop of both store_ops readers. */
    static method MarkSkimmed(ms: seq<Message>, side: Side) returns (r: seq<Message>)
      ensures r == AllSkimmed(ms, side)
    {
      r := ms;
      var i := 0;
      while i < |ms|
        invariant 0 <= i <= |ms| && |r| == |ms|
        invariant forall j :: 0 <= j < |ms| ==> r[j] == if j < i then Skimmed(ms[j], side) else ms[j]
      {
        if r[i].role != OwnRole(side) && !r[i].read {
          r := r[i := r[i].(read := true)];
          r := r[i := r[i].(delivered := true)];
        }
        i := i + 1;
      }
    }

    /** store_ops' chat_messages: the admin opens a thread. */
    method OpsAdminMessages(id: int) returns (outcome: Outcome)
      modifies this
      ensures (outcome, conversations) == Apply(old(conversations), id, OpsAdminList)
    {
      if id !in conversations {
        return Refused(NotFound);
      }
      var conv := conversations[id];
      if conv.unreadAdmin > 0 {
        conv := conv.(unreadAdmin := 0);
      }
      var marked := MarkSkimmed(conv.messages, Admin);
      conversations := conversations[id := conv.(messages := marked)];
      outcome := Done;
    }

    /** store_ops' list_messages: the shop opens a thread. */
    method OpsShopMessages(id: int, user: int) returns (outcome: Outcome)
      modifies this
      ensures (outcome, conversations) == Apply(old(conversations), id, OpsShopList(user))
    {
      if id !in conversations {
        return Refused(NotFound);
      }
      var conv := conversations[id];
      if conv.customerId != user {
        return Refused(Forbidden);
      }
      if conv.unreadCustomer > 0 {
        conv := conv.(unreadCustomer := 0);
      }
      var marked := MarkSkimmed(conv.messages, Peer);
      conversations := conversations[id := conv.(messages := marked)];
      outcome := Done;
    }

    /** The loop both list_messages share: deliver and read what was sent to the viewer. */
    static method MarkSeen(ms: seq<Message>, side: Side) returns (r: seq<Message>)
      ensures r == AllSeen(ms, side)
    {
      r := ms;
      var i := 0;
      while i < |ms|
        invariant 0 <= i <= |ms| && |r| == |ms|
        invariant forall j :: 0 <= j < |ms| ==> r[j] == if j < i then Seen(ms[j], side) else ms[j]
      {
        if Addresses(r[i].role, side) && !r[i].delivered {
          r := r[i := r[i].(delivered := true)];
        }
        if Addresses(r[i].role, side) && !r[i].read {
          r := r[i := r[i].(read := true)];
        }
        i := i + 1;
      }
    }

    /** The AI service's list_messages. */
    method AiListMessages(id: int, byAdmin: bool, user: int) returns (outcome: Outcome)
      modifies this
      ensures (outcome, conversations) == Apply(old(conversations), id, AiList(byAdmin, user))
      ensures outcome == Done ==> CountUnread(conversations[id].messages, if byAdmin then Admin else Peer) == 0
    {
      if id !in conversations {
        return Refused(NotFound);
      }
      var conv := conversations[id];
      if !byAdmin && conv.customerId != user {
        return Refused(Forbidden);
      }
      AllSeenCounts(conv.messages, if byAdmin then Admin else Peer, if byAdmin then Peer else Admin);
      if byAdmin {
        var seen := MarkSeen(conv.messages, Admin);
        conv := conv.(unreadAdmin := 0, messages := seen);
      } else {
        var seen := MarkSeen(conv.messages, Peer);
        conv := conv.(unreadCustomer := 0, messages := seen);
      }
      conversations := conversations[id := conv];
      outcome := Done;
    }

    /** The cart service's list_messages. */
    method CartListMessages(id: int, user: int) returns (outcome: Outcome)
      modifies this
      ensures (outcome, conversations) == Apply(old(conversations), id, CartList(user))
    {
      if id !in conversations {
        return Refused(NotFound);
      }
      var conv := conversations[id];
      if conv.customerId != user {
        return Refused(Forbidden);
      }
      var seen := MarkSeen(conv.messages, Peer);
      conversations := conversations[id := conv.(unreadCustomer := 0, messages := seen)];
      outcome := Done;
    }

    /** The shop app's list_messages, which marks nothing. */
    method ShopListMessages(id: int, user: int) returns (outcome: Outcome)
      ensures (outcome, conversations) == Apply(conversations, id, ShopList(user))
    {
      if id !in conversations {
        return Refused(NotFound);
      }
      if conversations[id].customerId != user {
        return Refused(Forbidden);
      }
      assert conversations[id := conversations[id]] == conversations;
      outcome := Done;
    }

    /** handover_to_admin. */
    method HandoverToAdmin(id: int, firstAdmin: Option<int>, online: Online) returns (outcome: Outcome)
      modifies this
      ensures (outcome, conversations) == Apply(old(conversations), id, Handover(firstAdmin, online))
    {
      if id !in conversations {
        return Refused(NotFound);
      }
      var conv := conversations[id].(isAi := false, aiHandedOver := true);
      if firstAdmin.Some? {
        conv := conv.(adminId := firstAdmin);
      }
      ghost var before := conversations;
      conversations := conversations[id := conv];
      outcome := AiSendMessage(id, "system", Some(HANDOVER_TEXT), "system", true, Gate(true, None, ""), online);
      assert conversations == before[id := AiPost(conv, "system", Some(HANDOVER_TEXT), "system", online)];
    }
  }
}
