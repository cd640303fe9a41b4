/** The database behind the payment routes as an object whose tables the
    route handlers update in place. Each handler is proved to leave the
    tables exactly as the matching transition of `Bookkeeping` says, so
    every property proved there holds of the handlers. */
module TokenStore {
  import opened Common
  import opened Js
  import opened Currencies
  import opened Bookkeeping

  class Store {
    var orders: seq<Order>
    var users: seq<User>
    var ledger: seq<LedgerEntry>

    function State(): StoreState
      reads this
    {
      StoreState(orders, users, ledger)
    }

    predicate Valid()
      reads this
    {
      WellFormed(State())
    }

    constructor (initial: StoreState)
      requires WellFormed(initial)
      ensures Valid() && State() == initial
    {
      orders := initial.orders;
      users := initial.users;
      ledger := initial.ledger;
    }

    /** `tokenBalance: newBalance` for user `k`, then `ledgerEntry.create`. */
    method CreditUser(k: nat, kind: string, delta: real, currency: string, amount: Option<real>,
                      receiptUrl: Option<string>) returns (entry: LedgerEntry)
      requires k < |users|
      modifies this
      ensures (State(), entry) == Credit(old(State()), k, kind, delta, currency, amount, receiptUrl)
    {
      var user := users[k];
      var newBalance := user.tokenBalance + delta;
      users := users[k := user.(tokenBalance := newBalance)];
      entry := LedgerEntry(user.id, kind, delta, newBalance, currency, amount, receiptUrl);
      ledger := ledger + [entry];
    }

    /** The sale route's `POST`, given what `createCardServOrder` produced. */
    method CreateSale(input: SaleInput, sale: Result<Value>) returns (response: SaleResponse)
      requires Valid()
      modifies this
      ensures Valid()
      ensures (State(), response) == SaleStep(old(State()), input, sale)
    {
      ghost var s0 := State();
      assert WellFormed(SaleStep(s0, input, sale).0) by {
        SaleKeeps(s0, s0, input, sale);
      }
      if sale.Failure? {
        return SaleFailed;
      }
      var data := sale.value;
      var order := NewOrder(|orders|, input, data);
      orders := orders + [order];
      ghost var saved := State();
      var redirect := Get(data, "redirectUrl");
      if Truthy(redirect) {
        var k := FindUser(users, ByEmail(input.email));
        if k.Some? {
          var user := users[k.value];
          var tokensToAdd := input.tokens.GetOr(0.0);
          var amount := Some(Round(input.amount * 100.0) as real);
          var _ := CreditUser(k.value, "Top-up", tokensToAdd, user.currency, amount, None);
          assert State() == Credit(saved, k.value, "Top-up", tokensToAdd, user.currency, amount, None).0;
        }
        response := Redirected(redirect);
      } else {
        response := Saved(order.id, Get(data, "orderMerchantId"), Get(data, "orderSystemId"),
                          Get(data, "orderState"), redirect);
      }
    }

    /** The body of the sweep's loop for the order at `id`. */
    method CheckOrder(id: nat, reply: StatusReply) returns (updated: bool)
      requires id < |orders|
      modifies this
      ensures (State(), updated) == CheckOne(old(State()), id, reply)
    {
      if reply.Threw? || reply.parsed == Some(Null) {
        return false;
      }
      var data := ReplyData(reply.raw, reply.parsed);
      var newStatus := NewStatus(data);
      var order := orders[id];
      orders := orders[id := order.(status := newStatus, response := data)];
      updated := true;
      if newStatus == Approved {
        var k := FindUser(users, ByEmail(order.userEmail));
        if k.Some? {
          var _ := CreditUser(k.value, "Top-up", order.tokens.GetOr(0.0), order.currency, Some(order.amount), None);
        }
      }
    }

    /** The sweep's loop: each order of `ids` in turn, counting the
        updated ones. */
    method CheckEach(ids: seq<nat>, gw: Gateway) returns (updatedCount: nat)
      requires forall j :: 0 <= j < |ids| ==> ids[j] < |orders|
      modifies this
      ensures (State(), updatedCount) == SweepOver(old(State()), ids, gw)
    {
      ghost var s0 := State();
      updatedCount := 0;
      var i := 0;
      while i < |ids|
        invariant 0 <= i <= |ids|
        invariant (State(), updatedCount) == SweepOver(s0, ids[..i], gw)
        invariant |orders| == |s0.orders|
      {
        var id := ids[i];
        SweepOverStep(s0, ids[..i], id, gw);
        assert ids[..i + 1] == ids[..i] + [id];
        var updated := CheckOrder(id, gw(id));
        if updated {
          updatedCount := updatedCount + 1;
        }
        i := i + 1;
      }
      assert ids[..i] == ids;
    }

    /** The check-orders `GET`: one pass over the `PROCESSING` orders found
        when it starts. */
    method CheckOrders(gw: Gateway) returns (response: SweepResponse)
      requires Valid()
      modifies this
      ensures Valid()
      ensures (State(), response) == Sweep(old(State()), gw)
    {
      assert WellFormed(Sweep(State(), gw).0) by {
        SweepKeeps(State(), State(), gw);
      }
      var pending := PendingIds(State());
      if |pending| == 0 {
        return NoPending;
      }
      var updatedCount := CheckEach(pending, gw);
      response := Checked(|pending|, updatedCount);
    }

    /** The ledger route's `POST`. */
    method PostLedger(session: Option<Session>, input: LedgerInput) returns (response: LedgerResponse)
      requires Valid()
      modifies this
      ensures Valid()
      ensures (State(), response) == LedgerPost(old(State()), session, input)
    {
      assert WellFormed(LedgerPost(State(), session, input).0) by {
        LedgerPostKeeps(State(), State(), session, input);
      }
      if session.None? {
        return Unauthorized;
      }
      var kind := EntryKind(input);
      if kind == "Top-up" && AmountMissing(input) {
        return AmountRequired;
      }
      var k := FindUser(users, ById(session.value.userId));
      if k.None? {
        return UserNotFound;
      }
      var delta := if kind == "Top-up" then input.amount.value * 100.0 else input.delta;
      var currency := if input.currency != [] then input.currency else session.value.currency.GetOr("GBP");
      var amount := if kind == "Top-up" then input.amount else None;
      var receipt := if input.receiptUrl != [] then Some(input.receiptUrl) else None;
      var entry := CreditUser(k.value, kind, delta, currency, amount, receipt);
      response := Posted(entry, users[k.value].tokenBalance);
    }
  }
}
