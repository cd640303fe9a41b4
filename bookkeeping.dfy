/** The token bookkeeping behind the payment routes, as transitions of an
    abstract store of orders, users and an append-only ledger:

    - the sale route, which saves one order and credits tokens at once when
      the gateway returned a redirect;
    - the reconciliation sweep, which moves every `PROCESSING` order to the
      gateway's state and credits tokens on `APPROVED`;
    - the manual ledger post, a top-up or an adjustment.

    The database is the `StoreState` value; each request is one sequential
    step. Gateway replies and the signed-in session are parameters. */
module Bookkeeping {
  import opened Common
  import opened Js
  import opened Currencies
  import opened CardServ

  /** An order row. `id` is its index in the store; the fields that come
      straight from the gateway's reply are kept as JSON values. */
  datatype Order = Order(
    id: nat,
    userEmail: string,
    amount: real,
    currency: string,
    description: string,
    tokens: Option<real>,
    orderSystemId: Value,
    orderMerchantId: Value,
    status: Value,
    response: Value)

  datatype User = User(id: nat, email: string, tokenBalance: real, currency: string)

  datatype LedgerEntry = LedgerEntry(
    userId: nat,
    kind: string,
    delta: real,
    balanceAfter: real,
    currency: string,
    amount: Option<real>,
    receiptUrl: Option<string>)

  datatype StoreState = StoreState(orders: seq<Order>, users: seq<User>, ledger: seq<LedgerEntry>)

  const Processing: Value := Str("PROCESSING")
  const Approved: Value := Str("APPROVED")

  /** Order ids are their positions; user ids and emails are unique (the
      database's keys). */
  predicate WellFormed(s: StoreState) {
    && (forall i :: 0 <= i < |s.orders| ==> s.orders[i].id == i)
    && (forall i, j :: 0 <= i < j < |s.users| ==> s.users[i].id != s.users[j].id)
    && (forall i, j :: 0 <= i < j < |s.users| ==> s.users[i].email != s.users[j].email)
  }

  // ---------------------------------------------------------------------
  // lookups

  /** The unique key a lookup goes by: `{ where: { email } }` or
      `{ where: { id } }`. */
  datatype UserKey = ByEmail(email: string) | ById(id: nat)

  predicate HasKey(u: User, key: UserKey) {
    match key
    case ByEmail(email) => u.email == email
    case ById(id) => u.id == id
  }

  /** `findUnique`: the position of the first user with the key. */
  function FindUser(users: seq<User>, key: UserKey): (r: Option<nat>)
    ensures r.Some? ==> r.value < |users| && HasKey(users[r.value], key)
    ensures r.Some? ==> forall i :: 0 <= i < r.value ==> !HasKey(users[i], key)
    ensures r.None? ==> forall i :: 0 <= i < |users| ==> !HasKey(users[i], key)
  {
    if users == [] then None
    else if HasKey(users[0], key) then Some(0)
    else
      var r := FindUser(users[1..], key);
      if r.Some? then Some(r.value + 1) else None
  }

  // ---------------------------------------------------------------------
  // crediting: the read-modify-write all three paths share

  /** Adds `delta` to user `k`'s balance and appends the entry that records
      it, with the new balance as `balanceAfter`. */
  function Credit(s: StoreState, k: nat, kind: string, delta: real, currency: string,
                  amount: Option<real>, receiptUrl: Option<string>): (r: (StoreState, LedgerEntry))
    requires k < |s.users|
    ensures var (t, e) := r;
      && t.orders == s.orders
      && |t.users| == |s.users|
      && t.users[k] == s.users[k].(tokenBalance := s.users[k].tokenBalance + delta)
      && (forall i :: 0 <= i < |s.users| && i != k ==> t.users[i] == s.users[i])
      && t.ledger == s.ledger + [e]
      && e == LedgerEntry(s.users[k].id, kind, delta, t.users[k].tokenBalance, currency, amount, receiptUrl)
  {
    var u := s.users[k];
    var newBalance := u.tokenBalance + delta;
    var entry := LedgerEntry(u.id, kind, delta, newBalance, currency, amount, receiptUrl);
    (s.(users := s.users[k := u.(tokenBalance := newBalance)], ledger := s.ledger + [entry]), entry)
  }

  // ---------------------------------------------------------------------
  // the sale route

  /** The fields of the sale request body the route reads itself. */
  datatype SaleInput = SaleInput(email: string, amount: real, currency: string, description: string, tokens: Option<real>)

  datatype SaleResponse =
    | SaleFailed
    | Redirected(url: Value)
    | Saved(orderId: nat, orderMerchantId: Value, orderSystemId: Value, status: Value, redirectUrl: Value)

  function SaleStatusCode(r: SaleResponse): int {
    match r
    case SaleFailed => 500
    case Redirected(_) => 302
    case Saved(_, _, _, _, _) => 202
  }

  /** `body.tokens || null`: a zero count is stored as no count. */
  function StoredTokens(t: Option<real>): (r: Option<real>)
    ensures r.Some? <==> t.Some? && t.value != 0.0
    ensures r.Some? ==> r.value == t.value
  {
    if t.Some? && t.value != 0.0 then t else None
  }

  /** The order row the sale route creates from the request and the
      gateway's normalised reply. */
  function NewOrder(id: nat, input: SaleInput, sale: Value): (r: Order)
    ensures r.id == id && r.userEmail == input.email && r.amount == input.amount
    ensures r.currency == input.currency && r.description == input.description
    ensures Truthy(r.status) && !r.orderSystemId.Undefined?
  {
    Order(id, input.email, input.amount, input.currency, input.description,
      StoredTokens(input.tokens),
      Coalesce(Get(sale, "orderSystemId"), Null),
      Get(sale, "orderMerchantId"),
      Or(Get(sale, "orderState"), Processing),
      Get(sale, "raw"))
  }

  /** The sale route given what `createCardServOrder` produced for the
      request (`Failure` when it threw). */
  function SaleStep(s: StoreState, input: SaleInput, sale: Result<Value>): (r: (StoreState, SaleResponse))
    ensures sale.Failure? ==> r == (s, SaleFailed)
    ensures sale.Ok? ==> var (t, resp) := r;
      && t.orders == s.orders + [NewOrder(|s.orders|, input, sale.value)]
      && (Truthy(Get(sale.value, "redirectUrl")) <==> resp.Redirected?)
      && (resp.Redirected? ==> resp.url == Get(sale.value, "redirectUrl"))
      && (resp.Saved? ==> resp.orderId == |s.orders|)
  {
    if sale.Failure? then (s, SaleFailed)
    else
      var data := sale.value;
      var order := NewOrder(|s.orders|, input, data);
      var saved := s.(orders := s.orders + [order]);
      if Truthy(Get(data, "redirectUrl")) then
        var k := FindUser(s.users, ByEmail(input.email));
        if k.Some? then
          var user := s.users[k.value];
          var delta := input.tokens.GetOr(0.0);
          var (t, _) := Credit(saved, k.value, "Top-up", delta, user.currency,
                               Some(Round(input.amount * 100.0) as real), None);
          (t, Redirected(Get(data, "redirectUrl")))
        else
          (saved, Redirected(Get(data, "redirectUrl")))
      else
        (saved, Saved(order.id, Get(data, "orderMerchantId"), Get(data, "orderSystemId"),
                      Get(data, "orderState"), Get(data, "redirectUrl")))
  }

  // ---------------------------------------------------------------------
  // the reconciliation sweep

  /** `CARDSERV_BASE_URL?.replace(/\/+$/, "") || "https://test.cardserv.io/api"`
      followed by the status path: unlike the sale URL, the fallback host
      already ends in `/api`. */
  function StatusUrl(cfg: Config): (r: string)
    ensures cfg.baseUrl.Some? && StripTrailingSlashes(cfg.baseUrl.value) != [] ==>
      r == BaseUrl(cfg) + "/payments/status/" + EnvText(cfg.requestorId)
    ensures !(cfg.baseUrl.Some? && StripTrailingSlashes(cfg.baseUrl.value) != []) ==>
      r == BaseUrl(cfg) + "/api/payments/status/" + EnvText(cfg.requestorId)
  {
    var base := if cfg.baseUrl.Some? && StripTrailingSlashes(cfg.baseUrl.value) != [] then
      StripTrailingSlashes(cfg.baseUrl.value) else "https://test.cardserv.io/api";
    base + "/payments/status/" + EnvText(cfg.requestorId)
  }

  /** Configuring the base URL as the very host the sale call falls back
      to moves the status call off `/api`: the sale URL keeps its `/api`
      segment either way. */
  lemma ConfiguredStatusUrl(cfg: Config)
    requires cfg.baseUrl == Some("https://test.cardserv.io")
    ensures StatusUrl(cfg) == "https://test.cardserv.io/payments/status/" + EnvText(cfg.requestorId)
    ensures StatusUrl(cfg.(baseUrl := None)) == "https://test.cardserv.io/api/payments/status/" + EnvText(cfg.requestorId)
    ensures SaleUrl(cfg) == SaleUrl(cfg.(baseUrl := None))
  {
    assert StripTrailingSlashes("https://test.cardserv.io") == "https://test.cardserv.io";
  }

  /** What the status call for one order produced: it threw (the fetch,
      or the write of the new status, failed), or the gateway answered
      with a body, parsed when it is JSON. */
  datatype StatusReply = Threw | Answered(raw: string, parsed: Option<Value>)

  /** The gateway as seen by one sweep: its reply for each order id. */
  type Gateway = nat -> StatusReply

  /** The positions of the orders whose status is `PROCESSING`, in order. */
  function PendingFrom(orders: seq<Order>, from: nat): (r: seq<nat>)
    requires from <= |orders|
    ensures forall j :: 0 <= j < |r| ==> from <= r[j] < |orders| && orders[r[j]].status == Processing
    ensures forall i :: from <= i < |orders| && orders[i].status == Processing ==> i in r
    ensures forall j, k :: 0 <= j < k < |r| ==> r[j] < r[k]
    decreases |orders| - from
  {
    if from == |orders| then []
    else if orders[from].status == Processing then [from] + PendingFrom(orders, from + 1)
    else PendingFrom(orders, from + 1)
  }

  function PendingIds(s: StoreState): seq<nat> {
    PendingFrom(s.orders, 0)
  }

  /** `data.orderState || "UNKNOWN"`, where `data` is the parsed body or
      `{ raw }`. */
  function ReplyData(raw: string, parsed: Option<Value>): Value {
    if parsed.Some? then parsed.value else Obj(map["raw" := Str(raw)])
  }

  /** Whether the loop body gets past reading `data.orderState`: the call
      must have answered, and the body must not be the JSON text `null`,
      whose properties cannot be read (the `catch` then skips the order). */
  predicate Readable(reply: StatusReply) {
    reply.Answered? && reply.parsed != Some(Null)
  }

  function NewStatus(data: Value): (r: Value)
    ensures Truthy(r)
  {
    Or(Get(data, "orderState"), Str("UNKNOWN"))
  }

  /** One pass of the loop body for order `id`: on a readable answer, the
      status and response are overwritten and an `APPROVED` order's user is
      credited `tokens || 0`; `true` when the order was updated. A throw,
      including the one a `null` body causes, changes nothing. */
  function CheckOne(s: StoreState, id: nat, reply: StatusReply): (r: (StoreState, bool))
    requires id < |s.orders|
    ensures !Readable(reply) ==> r == (s, false)
    ensures |r.0.users| == |s.users|
    ensures Readable(reply) ==> var (t, updated) := r;
      && updated
      && |t.orders| == |s.orders|
      && t.orders[id] == s.orders[id].(status := NewStatus(ReplyData(reply.raw, reply.parsed)),
                                       response := ReplyData(reply.raw, reply.parsed))
      && (forall j :: 0 <= j < |s.orders| && j != id ==> t.orders[j] == s.orders[j])
    ensures Readable(reply) ==> var o := s.orders[id];
      var k := FindUser(s.users, ByEmail(o.userEmail));
      var delta := o.tokens.GetOr(0.0);
      if NewStatus(ReplyData(reply.raw, reply.parsed)) == Approved && k.Some? then
        var u := s.users[k.value];
        && r.0.users == s.users[k.value := u.(tokenBalance := u.tokenBalance + delta)]
        && r.0.ledger == s.ledger + [LedgerEntry(u.id, "Top-up", delta, u.tokenBalance + delta, o.currency, Some(o.amount), None)]
      else
        r.0.users == s.users && r.0.ledger == s.ledger
  {
    match reply
    case Threw => (s, false)
    case Answered(raw, parsed) =>
      if parsed == Some(Null) then (s, false)
      else
        var data := ReplyData(raw, parsed);
        var status := NewStatus(data);
        var order := s.orders[id];
        var updated := order.(status := status, response := data);
        var s1 := s.(orders := s.orders[id := updated]);
        if status == Approved then
          var k := FindUser(s.users, ByEmail(order.userEmail));
          if k.Some? then
            var (t, _) := Credit(s1, k.value, "Top-up", order.tokens.GetOr(0.0), order.currency,
                                 Some(order.amount), None);
            (t, true)
          else (s1, true)
        else (s1, true)
  }

  /** One turn of the loop: check order `id` and count it if it was
      updated. */
  function Turn(before: (StoreState, nat), id: nat, gw: Gateway): (StoreState, nat)
    requires id < |before.0.orders|
  {
    var step := CheckOne(before.0, id, gw(id));
    (step.0, if step.1 then before.1 + 1 else before.1)
  }

  /** The loop over `ids`, left to right, with the number of orders
      updated. */
  function SweepOver(s: StoreState, ids: seq<nat>, gw: Gateway): (r: (StoreState, nat))
    requires forall j :: 0 <= j < |ids| ==> ids[j] < |s.orders|
    ensures |r.0.orders| == |s.orders| && |r.0.users| == |s.users| && r.1 <= |ids|
    decreases |ids|
  {
    if ids == [] then (s, 0)
    else
      Turn(SweepOver(s, ids[..|ids| - 1], gw), ids[|ids| - 1], gw)
  }

  /** One more turn of the loop over a prefix of `ids`. */
  lemma SweepOverStep(s: StoreState, p: seq<nat>, x: nat, gw: Gateway)
    requires forall j :: 0 <= j < |p| ==> p[j] < |s.orders|
    requires x < |s.orders|
    ensures SweepOver(s, p + [x], gw) == Turn(SweepOver(s, p, gw), x, gw)
  {
    var q := p + [x];
    assert q[..|q| - 1] == p;
  }

  datatype SweepResponse = NoPending | Checked(checked: nat, updated: nat)

  /** The whole `GET` handler. */
  function Sweep(s: StoreState, gw: Gateway): (r: (StoreState, SweepResponse))
    ensures |r.0.users| == |s.users|
    ensures PendingIds(s) == [] ==> r == (s, NoPending)
    ensures PendingIds(s) != [] ==> r.1 == Checked(|PendingIds(s)|, SweepOver(s, PendingIds(s), gw).1)
  {
    var ids := PendingIds(s);
    if ids == [] then (s, NoPending)
    else
      var (t, n) := SweepOver(s, ids, gw);
      (t, Checked(|ids|, n))
  }

  // ---------------------------------------------------------------------
  // the ledger post

  /** The signed-in user of the session. */
  datatype Session = Session(userId: nat, currency: Option<string>)

  /** The request body, with `Number(body.amount ?? 0)` already taken
      (`None` stands for `NaN`). `Number(body.delta ?? 0)` is taken to be a
      number, and `type`, `currency` and `receiptUrl` to be strings, with
      the empty string for a missing one. */
  datatype LedgerInput = LedgerInput(
    kind: string,
    amount: Option<real>,
    delta: real,
    currency: string,
    receiptUrl: string)

  datatype LedgerResponse =
    | Unauthorized
    | AmountRequired
    | UserNotFound
    | Posted(entry: LedgerEntry, tokenBalance: real)

  function LedgerStatusCode(r: LedgerResponse): int {
    match r
    case Unauthorized => 401
    case AmountRequired => 400
    case UserNotFound => 404
    case Posted(_, _) => 200
  }

  /** `(body.type as string) || 'Top-up'`. */
  function EntryKind(input: LedgerInput): string {
    if input.kind == [] then "Top-up" else input.kind
  }

  /** `!amount`: zero and `NaN` are falsy. */
  predicate AmountMissing(input: LedgerInput) {
    input.amount.None? || input.amount.value == 0.0
  }

  /** The `POST` handler. */
  function LedgerPost(s: StoreState, session: Option<Session>, input: LedgerInput): (r: (StoreState, LedgerResponse))
    ensures session.None? ==> r == (s, Unauthorized)
    ensures session.Some? && EntryKind(input) == "Top-up" && AmountMissing(input) ==> r == (s, AmountRequired)
    ensures r.1.Posted? <==> session.Some? && !(EntryKind(input) == "Top-up" && AmountMissing(input))
                             && FindUser(s.users, ById(session.value.userId)).Some?
    ensures !r.1.Posted? ==> r.0 == s
  {
    if session.None? then (s, Unauthorized)
    else
      var kind := EntryKind(input);
      if kind == "Top-up" && AmountMissing(input) then (s, AmountRequired)
      else
        var k := FindUser(s.users, ById(session.value.userId));
        if k.None? then (s, UserNotFound)
        else
          var delta := if kind == "Top-up" then input.amount.value * 100.0 else input.delta;
          var currency := if input.currency != [] then input.currency else session.value.currency.GetOr("GBP");
          var amount := if kind == "Top-up" then input.amount else None;
          var receipt := if input.receiptUrl != [] then Some(input.receiptUrl) else None;
          var (t, e) := Credit(s, k.value, kind, delta, currency, amount, receipt);
          (t, Posted(e, t.users[k.value].tokenBalance))
  }

  // ---------------------------------------------------------------------
  // accounting: balances against the ledger

  /** The sum of the deltas the entries record for user `uid`. */
  function SumDeltas(entries: seq<LedgerEntry>, uid: nat): real {
    if entries == [] then 0.0
    else
      var last := entries[|entries| - 1];
      SumDeltas(entries[..|entries| - 1], uid) + (if last.userId == uid then last.delta else 0.0)
  }

  /** The last entry recorded for user `uid`. */
  function LastEntryFor(entries: seq<LedgerEntry>, uid: nat): (r: Option<LedgerEntry>)
    ensures r.Some? ==> r.value in entries && r.value.userId == uid
  {
    if entries == [] then None
    else if entries[|entries| - 1].userId == uid then Some(entries[|entries| - 1])
    else LastEntryFor(entries[..|entries| - 1], uid)
  }

  /** Since state `s0`, the ledger has only grown, the users are the same
      ones, and each balance moved by exactly the deltas appended for that
      user. */
  predicate Accounted(s0: StoreState, s: StoreState) {
    && |s.users| == |s0.users|
    && |s0.ledger| <= |s.ledger| && s.ledger[..|s0.ledger|] == s0.ledger
    && (forall i :: 0 <= i < |s.users| ==>
          && s.users[i].id == s0.users[i].id
          && s.users[i].email == s0.users[i].email
          && s.users[i].tokenBalance == s0.users[i].tokenBalance + SumDeltas(s.ledger[|s0.ledger|..], s.users[i].id))
  }

  /** Every user's latest entry records the balance the user has. */
  predicate BalancesMatchLedger(s: StoreState) {
    forall i :: 0 <= i < |s.users| ==>
      LastEntryFor(s.ledger, s.users[i].id).Some? ==>
        LastEntryFor(s.ledger, s.users[i].id).value.balanceAfter == s.users[i].tokenBalance
  }

  lemma AccountedRefl(s: StoreState)
    ensures Accounted(s, s)
  {
    assert s.ledger[|s.ledger|..] == [];
  }

  lemma SumDeltasSnoc(entries: seq<LedgerEntry>, e: LedgerEntry, uid: nat)
    ensures SumDeltas(entries + [e], uid) == SumDeltas(entries, uid) + (if e.userId == uid then e.delta else 0.0)
    ensures LastEntryFor(entries + [e], uid) == if e.userId == uid then Some(e) else LastEntryFor(entries, uid)
  {
    assert (entries + [e])[..|entries|] == entries;
  }

  /** What a credit does to each user: the same id and email, the delta
      added for the credited user only, and that user's latest entry is
      the new one. */
  lemma CreditUsers(s: StoreState, k: nat, kind: string, delta: real, currency: string,
                    amount: Option<real>, receiptUrl: Option<string>)
    requires k < |s.users| && WellFormed(s)
    ensures var (t, e) := Credit(s, k, kind, delta, currency, amount, receiptUrl);
      forall i :: 0 <= i < |s.users| ==>
        && t.users[i].id == s.users[i].id && t.users[i].email == s.users[i].email
        && t.users[i].tokenBalance == s.users[i].tokenBalance + (if e.userId == s.users[i].id then delta else 0.0)
        && LastEntryFor(t.ledger, t.users[i].id) == if i == k then Some(e) else LastEntryFor(s.ledger, s.users[i].id)
  {
    var (t, e) := Credit(s, k, kind, delta, currency, amount, receiptUrl);
    forall i | 0 <= i < |s.users|
      ensures t.users[i].id == s.users[i].id && t.users[i].email == s.users[i].email
      ensures t.users[i].tokenBalance == s.users[i].tokenBalance + (if e.userId == s.users[i].id then delta else 0.0)
      ensures LastEntryFor(t.ledger, t.users[i].id) == if i == k then Some(e) else LastEntryFor(s.ledger, s.users[i].id)
    {
      SumDeltasSnoc(s.ledger, e, s.users[i].id);
    }
  }

  lemma CreditAccounted(s0: StoreState, s: StoreState, k: nat, kind: string, delta: real, currency: string,
                        amount: Option<real>, receiptUrl: Option<string>)
    requires k < |s.users| && WellFormed(s) && Accounted(s0, s)
    ensures Accounted(s0, Credit(s, k, kind, delta, currency, amount, receiptUrl).0)
  {
    var (t, e) := Credit(s, k, kind, delta, currency, amount, receiptUrl);
    CreditUsers(s, k, kind, delta, currency, amount, receiptUrl);
    var n := |s0.ledger|;
    assert t.ledger[..n] == s0.ledger by {
      assert t.ledger[..n] == s.ledger[..n];
    }
    assert t.ledger[n..] == s.ledger[n..] + [e];
    forall i | 0 <= i < |t.users|
      ensures t.users[i].tokenBalance == s0.users[i].tokenBalance + SumDeltas(t.ledger[n..], t.users[i].id)
    {
      SumDeltasSnoc(s.ledger[n..], e, s.users[i].id);
    }
  }

  /** A credit keeps the store well formed, accounted since any earlier
      state, and its balances matching the ledger. */
  lemma CreditKeeps(s0: StoreState, s: StoreState, k: nat, kind: string, delta: real, currency: string,
                    amount: Option<real>, receiptUrl: Option<string>)
    requires k < |s.users| && WellFormed(s)
    ensures var t := Credit(s, k, kind, delta, currency, amount, receiptUrl).0;
      && WellFormed(t)
      && (Accounted(s0, s) ==> Accounted(s0, t))
      && (BalancesMatchLedger(s) ==> BalancesMatchLedger(t))
  {
    CreditUsers(s, k, kind, delta, currency, amount, receiptUrl);
    if Accounted(s0, s) {
      CreditAccounted(s0, s, k, kind, delta, currency, amount, receiptUrl);
    }
  }

  // ---------------------------------------------------------------------
  // properties of the sale route

  /** With a redirect and a known user, the user's balance grows by
      `tokens ?? 0` and exactly one "Top-up" entry is appended, in the
      user's currency and with the amount in cents; the saved order's
      status is the gateway's state and is not moved by the credit. */
  lemma SaleCredits(s: StoreState, input: SaleInput, sale: Result<Value>)
    requires sale.Ok? && Truthy(Get(sale.value, "redirectUrl"))
    requires FindUser(s.users, ByEmail(input.email)).Some?
    ensures var k := FindUser(s.users, ByEmail(input.email)).value;
      var u := s.users[k];
      var (t, resp) := SaleStep(s, input, sale);
      var delta := if input.tokens.Some? then input.tokens.value else 0.0;
      && resp == Redirected(Get(sale.value, "redirectUrl"))
      && t.users[k].tokenBalance == u.tokenBalance + delta
      && (forall i :: 0 <= i < |s.users| && i != k ==> t.users[i] == s.users[i])
      && t.ledger == s.ledger + [LedgerEntry(u.id, "Top-up", delta, u.tokenBalance + delta, u.currency,
                                             Some(Round(input.amount * 100.0) as real), None)]
      && t.orders[|s.orders|].status == Or(Get(sale.value, "orderState"), Processing)
  {
  }

  /** Without a redirect nothing but the new order changes and a 202
      reports it; with a redirect for an unknown user nothing but the new
      order changes either, and the answer is still the 302. */
  lemma SaleWithoutCredit(s: StoreState, input: SaleInput, sale: Result<Value>)
    requires sale.Ok?
    requires !Truthy(Get(sale.value, "redirectUrl")) || FindUser(s.users, ByEmail(input.email)).None?
    ensures var (t, resp) := SaleStep(s, input, sale);
      && t == s.(orders := s.orders + [NewOrder(|s.orders|, input, sale.value)])
      && (Truthy(Get(sale.value, "redirectUrl")) ==> SaleStatusCode(resp) == 302)
      && (!Truthy(Get(sale.value, "redirectUrl")) ==>
            resp == Saved(|s.orders|, Get(sale.value, "orderMerchantId"), Get(sale.value, "orderSystemId"),
                          Get(sale.value, "orderState"), Get(sale.value, "redirectUrl"))
            && SaleStatusCode(resp) == 202)
  {
  }

  /** The saved order: a zero or missing token count is stored as none, a
      missing gateway id as `null`, and the status is never empty. */
  lemma NewOrderFields(id: nat, input: SaleInput, sale: Value)
    ensures var o := NewOrder(id, input, sale);
      && (o.tokens.None? <==> input.tokens.None? || input.tokens == Some(0.0))
      && (Nullish(Get(sale, "orderSystemId")) ==> o.orderSystemId == Null)
      && Truthy(o.status)
      && (Truthy(Get(sale, "orderState")) ==> o.status == Get(sale, "orderState"))
  {
  }

  /** The fields of the gateway's reply that the sale route reads. */
  predicate SameSaleFields(a: Value, b: Value) {
    && Get(a, "redirectUrl") == Get(b, "redirectUrl")
    && Get(a, "orderSystemId") == Get(b, "orderSystemId")
    && Get(a, "orderMerchantId") == Get(b, "orderMerchantId")
    && Get(a, "orderState") == Get(b, "orderState")
    && Get(a, "raw") == Get(b, "raw")
  }

  /** The sale route depends on the reply only through those fields. */
  lemma SaleReadsFields(s: StoreState, input: SaleInput, a: Value, b: Value)
    requires SameSaleFields(a, b)
    ensures SaleStep(s, input, Ok(a)) == SaleStep(s, input, Ok(b))
  {
    assert NewOrder(|s.orders|, input, a) == NewOrder(|s.orders|, input, b);
  }

  /** The route never looks at the gateway's `ok` flag or HTTP status: the
      same body answered with any flag and status saves the same order and
      gives the same answer. */
  lemma SaleIgnoresHttpOutcome(s: StoreState, input: SaleInput, reply: Reply, ok: bool, status: int)
    ensures SaleStep(s, input, Ok(Normalize(reply))) == SaleStep(s, input, Ok(Normalize(reply.(ok := ok, status := status))))
  {
    var a := Normalize(reply);
    var b := Normalize(reply.(ok := ok, status := status));
    assert ParsedBody(reply) == ParsedBody(reply.(ok := ok, status := status));
    forall k | !Reserved(k)
      ensures Get(a, k) == Get(b, k)
    {
    }
    assert Get(a, "orderState") == Get(b, "orderState");
    SaleReadsFields(s, input, a, b);
  }


  /** The sale keeps the store well formed and accounted, and its balances
      matching the ledger. */
  lemma SaleKeeps(s0: StoreState, s: StoreState, input: SaleInput, sale: Result<Value>)
    requires WellFormed(s)
    ensures var t := SaleStep(s, input, sale).0;
      && WellFormed(t)
      && (Accounted(s0, s) ==> Accounted(s0, t))
      && (BalancesMatchLedger(s) ==> BalancesMatchLedger(t))
  {
    if sale.Ok? {
      var saved := s.(orders := s.orders + [NewOrder(|s.orders|, input, sale.value)]);
      assert WellFormed(saved);
      assert Accounted(s0, s) ==> Accounted(s0, saved);
      assert BalancesMatchLedger(s) ==> BalancesMatchLedger(saved);
      var k := FindUser(s.users, ByEmail(input.email));
      if Truthy(Get(sale.value, "redirectUrl")) && k.Some? {
        var u := s.users[k.value];
        var delta := input.tokens.GetOr(0.0);
        var amount := Some(Round(input.amount * 100.0) as real);
        assert SaleStep(s, input, sale).0 == Credit(saved, k.value, "Top-up", delta, u.currency, amount, None).0;
        CreditKeeps(s0, saved, k.value, "Top-up", delta, u.currency, amount, None);
      } else {
        assert SaleStep(s, input, sale).0 == saved;
      }
    }
  }

  // ---------------------------------------------------------------------
  // properties of the sweep

  predicate Increasing(ids: seq<nat>) {
    forall j, k :: 0 <= j < k < |ids| ==> ids[j] < ids[k]
  }

  /** The order as the sweep leaves it after examining it with `reply`. */
  function AfterCheck(o: Order, reply: StatusReply): Order {
    if !Readable(reply) then o
    else o.(status := NewStatus(ReplyData(reply.raw, reply.parsed)), response := ReplyData(reply.raw, reply.parsed))
  }

  /** The sweep over `ids` rewrites exactly the orders it examines, each
      once, from the gateway's reply, and leaves every other order as it
      was. */
  lemma {:induction false} SweepOverOrders(s: StoreState, ids: seq<nat>, gw: Gateway)
    requires forall j :: 0 <= j < |ids| ==> ids[j] < |s.orders|
    requires Increasing(ids)
    ensures var t := SweepOver(s, ids, gw).0;
      forall j :: 0 <= j < |s.orders| ==> t.orders[j] == if j in ids then AfterCheck(s.orders[j], gw(j)) else s.orders[j]
    decreases |ids|
  {
    if ids != [] {
      var p := ids[..|ids| - 1];
      var x := ids[|ids| - 1];
      SweepOverOrders(s, p, gw);
      var s1 := SweepOver(s, p, gw).0;
      assert x !in p;
      assert forall j :: j in ids <==> j in p || j == x;
    }
  }

  /** Checking one order keeps the store well formed and accounted since
      any earlier state, with balances matching the ledger. */
  lemma CheckOneKeeps(s0: StoreState, s: StoreState, id: nat, reply: StatusReply)
    requires id < |s.orders| && WellFormed(s)
    ensures var t := CheckOne(s, id, reply).0;
      && WellFormed(t)
      && (Accounted(s0, s) ==> Accounted(s0, t))
      && (BalancesMatchLedger(s) ==> BalancesMatchLedger(t))
  {
    if Readable(reply) {
      var data := ReplyData(reply.raw, reply.parsed);
      var order := s.orders[id];
      var s1 := s.(orders := s.orders[id := order.(status := NewStatus(data), response := data)]);
      assert WellFormed(s1);
      assert Accounted(s0, s) ==> Accounted(s0, s1);
      assert BalancesMatchLedger(s) ==> BalancesMatchLedger(s1);
      var k := FindUser(s.users, ByEmail(order.userEmail));
      if NewStatus(data) == Approved && k.Some? {
        var delta := order.tokens.GetOr(0.0);
        assert CheckOne(s, id, reply).0 == Credit(s1, k.value, "Top-up", delta, order.currency, Some(order.amount), None).0;
        CreditKeeps(s0, s1, k.value, "Top-up", delta, order.currency, Some(order.amount), None);
      } else {
        assert CheckOne(s, id, reply).0 == s1;
      }
    }
  }

  /** Each step of the sweep keeps the store well formed and accounted
      since any earlier state, with balances matching the ledger. */
  lemma {:induction false} SweepOverKeeps(s0: StoreState, s: StoreState, ids: seq<nat>, gw: Gateway)
    requires forall j :: 0 <= j < |ids| ==> ids[j] < |s.orders|
    requires WellFormed(s)
    ensures var t := SweepOver(s, ids, gw).0;
      && WellFormed(t)
      && (Accounted(s0, s) ==> Accounted(s0, t))
      && (BalancesMatchLedger(s) ==> BalancesMatchLedger(t))
    decreases |ids|
  {
    if ids != [] {
      var p := ids[..|ids| - 1];
      var x := ids[|ids| - 1];
      SweepOverKeeps(s0, s, p, gw);
      var s1 := SweepOver(s, p, gw).0;
      CheckOneKeeps(s0, s1, x, gw(x));
      assert SweepOver(s, ids, gw).0 == CheckOne(s1, x, gw(x)).0;
    }
  }


  /** The sweep examines only `PROCESSING` orders: every other order is
      left exactly as it was, and every examined order that got an answer
      now holds the gateway's state (or "UNKNOWN"). */
  lemma SweepOrders(s: StoreState, gw: Gateway)
    ensures var t := Sweep(s, gw).0;
      && |t.orders| == |s.orders|
      && (forall j :: 0 <= j < |s.orders| && s.orders[j].status != Processing ==> t.orders[j] == s.orders[j])
      && (forall j :: 0 <= j < |s.orders| && s.orders[j].status == Processing ==> t.orders[j] == AfterCheck(s.orders[j], gw(j)))
  {
    var ids := PendingIds(s);
    if ids != [] {
      SweepOverOrders(s, ids, gw);
    }
  }

  /** The sweep keeps the store well formed, the ledger append-only, every
      balance equal to its opening value plus the appended deltas, and
      every latest entry equal to the balance. */
  lemma SweepKeeps(s0: StoreState, s: StoreState, gw: Gateway)
    requires WellFormed(s)
    ensures var t := Sweep(s, gw).0;
      && WellFormed(t)
      && (Accounted(s0, s) ==> Accounted(s0, t))
      && (BalancesMatchLedger(s) ==> BalancesMatchLedger(t))
  {
    if PendingIds(s) != [] {
      SweepOverKeeps(s0, s, PendingIds(s), gw);
    }
  }

  /** The orders a sweep credits: examined, answered `APPROVED`, and
      belonging to a known user. */
  function CreditedBy(s: StoreState, gw: Gateway): set<nat> {
    set id | id in PendingIds(s) && Credits(s, id, gw(id))
  }

  /** Order `id`, answered with `reply`, is credited: the answer is
      readable, says `APPROVED`, and the order's email belongs to a user. */
  predicate Credits(s: StoreState, id: nat, reply: StatusReply)
    requires id < |s.orders|
  {
    && Readable(reply)
    && NewStatus(ReplyData(reply.raw, reply.parsed)) == Approved
    && FindUser(s.users, ByEmail(s.orders[id].userEmail)).Some?
  }

  /** The ids among `ids` whose orders the loop credits, in loop order. */
  function CreditedIds(s: StoreState, ids: seq<nat>, gw: Gateway): (r: seq<nat>)
    requires forall j :: 0 <= j < |ids| ==> ids[j] < |s.orders|
    ensures forall j :: 0 <= j < |r| ==> r[j] in ids && r[j] < |s.orders| && Credits(s, r[j], gw(r[j]))
    ensures forall j :: 0 <= j < |ids| && Credits(s, ids[j], gw(ids[j])) ==> ids[j] in r
    ensures Increasing(ids) ==> Increasing(r)
    decreases |ids|
  {
    if ids == [] then []
    else
      var p := ids[..|ids| - 1];
      var x := ids[|ids| - 1];
      var c := CreditedIds(s, p, gw);
      assert forall j :: 0 <= j < |ids| - 1 ==> ids[j] == p[j];
      assert Increasing(ids) ==> forall j :: 0 <= j < |c| ==> c[j] < x;
      c + (if Credits(s, x, gw(x)) then [x] else [])
  }

  /** Entry `e` records the sweep's credit of order `id` of store `s`: a
      "Top-up" of the order's tokens (0 when absent) to the user with the
      order's email, in the order's currency, with the order's amount and
      no receipt. */
  predicate EntryFor(e: LedgerEntry, s: StoreState, id: nat) {
    && id < |s.orders|
    && var o := s.orders[id];
       var k := FindUser(s.users, ByEmail(o.userEmail));
       && k.Some?
       && e == LedgerEntry(s.users[k.value].id, "Top-up", o.tokens.GetOr(0.0), e.balanceAfter, o.currency, Some(o.amount), None)
  }

  /** The same users, in the same places, with the same ids and emails. */
  predicate SameKeys(a: seq<User>, b: seq<User>) {
    && |a| == |b|
    && forall i :: 0 <= i < |a| ==> a[i].id == b[i].id && a[i].email == b[i].email
  }

  /** A lookup by id or email does not depend on the balances. */
  lemma {:induction false} FindUserSameKeys(a: seq<User>, b: seq<User>, key: UserKey)
    requires SameKeys(a, b)
    ensures FindUser(a, key) == FindUser(b, key)
    decreases |a|
  {
    if a != [] {
      assert HasKey(a[0], key) == HasKey(b[0], key);
      FindUserSameKeys(a[1..], b[1..], key);
    }
  }

  /** The loop over `ids` appends one ledger entry per credited order, in
      loop order, and nothing else; it changes no user's id or email. */
  lemma {:induction false} SweepOverLedger(s: StoreState, ids: seq<nat>, gw: Gateway)
    requires forall j :: 0 <= j < |ids| ==> ids[j] < |s.orders|
    requires Increasing(ids)
    ensures var t := SweepOver(s, ids, gw).0;
      var c := CreditedIds(s, ids, gw);
      && SameKeys(t.users, s.users)
      && |t.ledger| == |s.ledger| + |c|
      && t.ledger[..|s.ledger|] == s.ledger
      && forall j :: 0 <= j < |c| ==> EntryFor(t.ledger[|s.ledger| + j], s, c[j])
    decreases |ids|
  {
    if ids != [] {
      var p := ids[..|ids| - 1];
      var x := ids[|ids| - 1];
      assert forall j :: 0 <= j < |p| ==> p[j] == ids[j];
      assert Increasing(p);
      SweepOverLedger(s, p, gw);
      SweepOverOrders(s, p, gw);
      var s1 := SweepOver(s, p, gw).0;
      var c1 := CreditedIds(s, p, gw);
      assert x !in p;
      assert s1.orders[x] == s.orders[x];
      assert SweepOver(s, ids, gw).0 == CheckOne(s1, x, gw(x)).0;
      CheckOneLedger(s, s1, x, gw(x));
      assert CreditedIds(s, ids, gw) == c1 + (if Credits(s, x, gw(x)) then [x] else []);
    }
  }

  /** One turn of the loop, on a store whose users have the keys of `s`
      and whose order `x` is still as in `s`, appends the entry for `x`
      exactly when `s` credits it. */
  lemma CheckOneLedger(s: StoreState, s1: StoreState, x: nat, reply: StatusReply)
    requires x < |s.orders| && x < |s1.orders| && s1.orders[x] == s.orders[x]
    requires SameKeys(s1.users, s.users)
    ensures var t := CheckOne(s1, x, reply).0;
      && SameKeys(t.users, s.users)
      && (Credits(s, x, reply) ==> |t.ledger| == |s1.ledger| + 1 && t.ledger[..|s1.ledger|] == s1.ledger)
      && (Credits(s, x, reply) ==> EntryFor(t.ledger[|s1.ledger|], s, x))
      && (!Credits(s, x, reply) ==> t.ledger == s1.ledger)
  {
    FindUserSameKeys(s1.users, s.users, ByEmail(s.orders[x].userEmail));
  }

  /** The ledger entries a sweep appends are exactly one "Top-up" per
      credited order: the credited orders are those in `CreditedBy`, taken
      in the sweep's order, and each entry carries its order's tokens,
      currency and amount. */
  lemma SweepLedger(s: StoreState, gw: Gateway)
    ensures var t := Sweep(s, gw).0;
      var c := CreditedIds(s, PendingIds(s), gw);
      && (forall id :: id in c <==> id in CreditedBy(s, gw))
      && Increasing(c)
      && |t.ledger| == |s.ledger| + |c|
      && t.ledger[..|s.ledger|] == s.ledger
      && forall j :: 0 <= j < |c| ==> EntryFor(t.ledger[|s.ledger| + j], s, c[j])
  {
    var ids := PendingIds(s);
    assert Increasing(ids);
    if ids != [] {
      SweepOverLedger(s, ids, gw);
    }
  }

  /** An order credited by one sweep has left `PROCESSING`: the next
      sweep, whatever the gateway says then, neither examines it nor
      appends an entry for it (the entries it appends are those of
      `CreditedIds(s1, PendingIds(s1), gw2)`, by `SweepLedger`). */
  lemma SweepNoRecredit(s: StoreState, gw1: Gateway, gw2: Gateway)
    ensures var s1 := Sweep(s, gw1).0; var s2 := Sweep(s1, gw2).0;
      forall id :: id in CreditedBy(s, gw1) ==>
        && id !in PendingIds(s1)
        && id !in CreditedIds(s1, PendingIds(s1), gw2)
        && s2.orders[id] == s1.orders[id]
  {
    var s1 := Sweep(s, gw1).0;
    SweepOrders(s, gw1);
    SweepOrders(s1, gw2);
  }

  /** The report: `checked` is the number of `PROCESSING` orders and
      `updated` is at most that. */
  lemma SweepReport(s: StoreState, gw: Gateway)
    ensures var r := Sweep(s, gw).1;
      && (r.NoPending? <==> forall j :: 0 <= j < |s.orders| ==> s.orders[j].status != Processing)
      && (r.Checked? ==> r.checked == |PendingIds(s)| && r.updated == CountReadable(PendingIds(s), gw))
  {
    if PendingIds(s) != [] {
      SweepOverCount(s, PendingIds(s), gw);
    }
  }

  /** How many of `ids` got a readable answer. */
  function CountReadable(ids: seq<nat>, gw: Gateway): (r: nat)
    ensures r <= |ids|
  {
    if ids == [] then 0
    else CountReadable(ids[..|ids| - 1], gw) + (if Readable(gw(ids[|ids| - 1])) then 1 else 0)
  }

  /** The loop counts exactly the orders whose answer it could read: a
      throw, a `null` body included, is not counted. */
  lemma {:induction false} SweepOverCount(s: StoreState, ids: seq<nat>, gw: Gateway)
    requires forall j :: 0 <= j < |ids| ==> ids[j] < |s.orders|
    ensures SweepOver(s, ids, gw).1 == CountReadable(ids, gw)
    decreases |ids|
  {
    if ids != [] {
      SweepOverCount(s, ids[..|ids| - 1], gw);
    }
  }

  /** A status reply whose body is the JSON text `null` leaves the order
      `PROCESSING` and the store untouched, and is not counted. */
  lemma NullReplySkipped(s: StoreState, gw: Gateway)
    requires |s.orders| == 1 && s.orders[0].status == Processing
    requires gw(0) == Answered("null", Some(Null))
    ensures Sweep(s, gw) == (s, Checked(1, 0))
  {
    assert PendingFrom(s.orders, 1) == [];
    assert PendingIds(s) == [0];
    assert [0][..0] == [];
  }

  // ---------------------------------------------------------------------
  // properties of the ledger post

  /** A successful post adds `amount * 100` for a top-up and `delta`
      otherwise, with no lower bound; the entry records the balance
      written, which is also the balance returned, and an amount only for
      top-ups. */
  lemma LedgerPostEntry(s: StoreState, session: Session, input: LedgerInput)
    requires LedgerPost(s, Some(session), input).1.Posted?
    ensures var k := FindUser(s.users, ById(session.userId)).value;
      var (t, resp) := LedgerPost(s, Some(session), input);
      var topUp := EntryKind(input) == "Top-up";
      var delta := if topUp then input.amount.value * 100.0 else input.delta;
      && resp.entry.kind == EntryKind(input)
      && resp.entry.delta == delta
      && t.users[k].tokenBalance == s.users[k].tokenBalance + delta
      && resp.entry.balanceAfter == t.users[k].tokenBalance == resp.tokenBalance
      && (topUp ==> resp.entry.amount == input.amount)
      && (!topUp ==> resp.entry.amount.None?)
      && t.ledger == s.ledger + [resp.entry]
      && (forall i :: 0 <= i < |s.users| && i != k ==> t.users[i] == s.users[i])
  {
  }

  /** The post keeps the store well formed and accounted, with balances
      matching the ledger. */
  lemma LedgerPostKeeps(s0: StoreState, s: StoreState, session: Option<Session>, input: LedgerInput)
    requires WellFormed(s)
    ensures var t := LedgerPost(s, session, input).0;
      && WellFormed(t)
      && (Accounted(s0, s) ==> Accounted(s0, t))
      && (BalancesMatchLedger(s) ==> BalancesMatchLedger(t))
  {
    if LedgerPost(s, session, input).1.Posted? {
      var k := FindUser(s.users, ById(session.value.userId)).value;
      var kind := EntryKind(input);
      var delta := if kind == "Top-up" then input.amount.value * 100.0 else input.delta;
      var currency := if input.currency != [] then input.currency else session.value.currency.GetOr("GBP");
      var amount := if kind == "Top-up" then input.amount else None;
      var receipt := if input.receiptUrl != [] then Some(input.receiptUrl) else None;
      assert LedgerPost(s, session, input).0 == Credit(s, k, kind, delta, currency, amount, receipt).0;
      CreditKeeps(s0, s, k, kind, delta, currency, amount, receipt);
    }
  }

  /** Any run of posts: each balance ends at its opening value plus the
      deltas appended for that user, and the latest entries still match. */
  function Posts(s: StoreState, session: Option<Session>, inputs: seq<LedgerInput>): StoreState
    decreases |inputs|
  {
    if inputs == [] then s
    else LedgerPost(Posts(s, session, inputs[..|inputs| - 1]), session, inputs[|inputs| - 1]).0
  }

  lemma {:induction false} PostsAccounted(s: StoreState, session: Option<Session>, inputs: seq<LedgerInput>)
    requires WellFormed(s)
    ensures WellFormed(Posts(s, session, inputs)) && Accounted(s, Posts(s, session, inputs))
    ensures BalancesMatchLedger(s) ==> BalancesMatchLedger(Posts(s, session, inputs))
    decreases |inputs|
  {
    if inputs == [] {
      AccountedRefl(s);
    } else {
      PostsAccounted(s, session, inputs[..|inputs| - 1]);
      LedgerPostKeeps(s, Posts(s, session, inputs[..|inputs| - 1]), session, inputs[|inputs| - 1]);
    }
  }

  /** An adjustment can take a balance below zero. */
  lemma AdjustCanGoNegative()
    ensures var s := StoreState([], [User(7, "a@example.com", 0.0, "GBP")], []);
      var (t, resp) := LedgerPost(s, Some(Session(7, None)), LedgerInput("Adjust", Some(0.0), -5.0, "", ""));
      resp.Posted? && t.users[0].tokenBalance == -5.0
  {
    var s := StoreState([], [User(7, "a@example.com", 0.0, "GBP")], []);
    assert FindUser(s.users, ById(7)) == Some(0);
  }

  // ---------------------------------------------------------------------
  // the two crediting paths together

  /** A sweep over a store whose one order is `PROCESSING` and which the
      gateway reports `APPROVED` credits that order's tokens to its buyer. */
  lemma ApprovedSweepCredits(s: StoreState, gw: Gateway)
    requires |s.orders| == 1 && s.orders[0].status == Processing
    requires gw(0) == Answered("", Some(Obj(map["orderState" := Approved])))
    requires FindUser(s.users, ByEmail(s.orders[0].userEmail)) == Some(0)
    ensures var t := Sweep(s, gw).0;
      var o := s.orders[0];
      var balance := s.users[0].tokenBalance + o.tokens.GetOr(0.0);
      && t.users[0].tokenBalance == balance
      && t.ledger == s.ledger + [LedgerEntry(s.users[0].id, "Top-up", o.tokens.GetOr(0.0), balance, o.currency, Some(o.amount), None)]
  {
    assert PendingFrom(s.orders, 1) == [];
    assert PendingIds(s) == [0];
    assert [0][..0] == [];
    var reply := gw(0);
    assert NewStatus(ReplyData(reply.raw, reply.parsed)) == Approved;
    var s1 := s.(orders := s.orders[0 := AfterCheck(s.orders[0], reply)]);
    assert FindUser(s1.users, ByEmail(s.orders[0].userEmail)) == Some(0);
    var t := Credit(s1, 0, "Top-up", s.orders[0].tokens.GetOr(0.0), s.orders[0].currency, Some(s.orders[0].amount), None).0;
    assert Sweep(s, gw).0 == t;
  }

  /** The sale of the example: the buyer is credited at once and the order
      stays `PROCESSING`. */
  lemma RedirectedSaleCredits()
    ensures var user := User(1, "buyer@example.com", 0.0, "GBP");
      var s0 := StoreState([], [user], []);
      var input := SaleInput("buyer@example.com", 10.0, "GBP", "Beginner", Some(1000.0));
      var sale := Ok(Obj(map["orderState" := Processing, "redirectUrl" := Str("https://3ds.example")]));
      var s1 := SaleStep(s0, input, sale).0;
      && |s1.orders| == 1 && s1.orders[0].status == Processing && s1.orders[0].userEmail == "buyer@example.com"
      && s1.orders[0].tokens == Some(1000.0)
      && s1.users == [user.(tokenBalance := 1000.0)] && |s1.ledger| == 1 && s1.ledger[0].delta == 1000.0
  {
    var user := User(1, "buyer@example.com", 0.0, "GBP");
    var s0 := StoreState([], [user], []);
    var data := Obj(map["orderState" := Processing, "redirectUrl" := Str("https://3ds.example")]);
    assert Get(data, "redirectUrl") == Str("https://3ds.example");
    assert Get(data, "orderState") == Processing;
    assert FindUser(s0.users, ByEmail("buyer@example.com")) == Some(0);
  }

  /** A sale that gets a redirect credits its tokens and leaves the order
      `PROCESSING`; the next sweep, told `APPROVED`, credits the same
      order again: one purchase, two top-ups. */
  lemma DoubleCredit()
    ensures var user := User(1, "buyer@example.com", 0.0, "GBP");
      var s0 := StoreState([], [user], []);
      var input := SaleInput("buyer@example.com", 10.0, "GBP", "Beginner", Some(1000.0));
      var sale := Ok(Obj(map["orderState" := Processing, "redirectUrl" := Str("https://3ds.example")]));
      var s1 := SaleStep(s0, input, sale).0;
      var gw: Gateway := _ => Answered("", Some(Obj(map["orderState" := Approved])));
      var s2 := Sweep(s1, gw).0;
      && s1.users[0].tokenBalance == 1000.0 && s1.orders[0].status == Processing
      && s2.users[0].tokenBalance == 2000.0 && |s2.ledger| == 2
      && s2.ledger[0].delta == s2.ledger[1].delta == 1000.0
  {
    RedirectedSaleCredits();
    var user := User(1, "buyer@example.com", 0.0, "GBP");
    var input := SaleInput("buyer@example.com", 10.0, "GBP", "Beginner", Some(1000.0));
    var sale := Ok(Obj(map["orderState" := Processing, "redirectUrl" := Str("https://3ds.example")]));
    var s1 := SaleStep(StoreState([], [user], []), input, sale).0;
    var gw: Gateway := _ => Answered("", Some(Obj(map["orderState" := Approved])));
    assert FindUser(s1.users, ByEmail(s1.orders[0].userEmail)) == Some(0);
    ApprovedSweepCredits(s1, gw);
  }

}
