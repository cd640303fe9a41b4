/** The gateway's webhook: it finds the order the notification names and
    answers 400, 404 or 200. It reads the orders and writes nothing, so it
    is a function of the order table and the request body. */
module Webhook {
  import opened Common
  import opened Js
  import opened Bookkeeping

  datatype WebhookResponse =
    | InvalidId        // 400, "Invalid or missing orderSystemId"
    | OrderNotFound    // 404
    | Acknowledged     // 200, `{ ok: true }`
    | InvalidRequest   // 400 from the catch: the body is not JSON

  function WebhookStatusCode(r: WebhookResponse): int {
    match r
    case InvalidId => 400
    case OrderNotFound => 404
    case Acknowledged => 200
    case InvalidRequest => 400
  }

  /** `body?.order?.orderSystemId ?? body?.orderSystemId ?? body?.orderId`. */
  function NotifiedId(body: Value): (r: Value)
    ensures var a := Get(Get(body, "order"), "orderSystemId");
      var b := Get(body, "orderSystemId");
      && (!Nullish(a) ==> r == a)
      && (Nullish(a) && !Nullish(b) ==> r == b)
      && (Nullish(a) && Nullish(b) ==> r == Get(body, "orderId"))
  {
    Coalesce(Coalesce(Get(Get(body, "order"), "orderSystemId"), Get(body, "orderSystemId")), Get(body, "orderId"))
  }

  /** `typeof id === 'string' && id.trim()`. */
  predicate UsableId(id: Value) {
    id.Str? && Trim(id.s) != []
  }

  /** `order.findFirst({ where: { orderSystemId } })`. */
  function FindBySystemId(orders: seq<Order>, id: string): (r: Option<nat>)
    ensures r.Some? ==> r.value < |orders| && orders[r.value].orderSystemId == Str(id)
    ensures r.None? ==> forall i :: 0 <= i < |orders| ==> orders[i].orderSystemId != Str(id)
  {
    if orders == [] then None
    else if orders[0].orderSystemId == Str(id) then Some(0)
    else
      var r := FindBySystemId(orders[1..], id);
      if r.Some? then Some(r.value + 1) else None
  }

  /** The `POST` handler; `body` is `None` when it is not JSON. */
  function HandleWebhook(orders: seq<Order>, body: Option<Value>): (r: WebhookResponse)
    ensures body.None? <==> r == InvalidRequest
    ensures body.Some? && !UsableId(NotifiedId(body.value)) <==> r == InvalidId
    ensures r == OrderNotFound <==>
      (body.Some? && UsableId(NotifiedId(body.value))
       && forall i :: 0 <= i < |orders| ==> orders[i].orderSystemId != NotifiedId(body.value))
    ensures r == Acknowledged <==>
      (body.Some? && UsableId(NotifiedId(body.value))
       && exists i :: 0 <= i < |orders| && orders[i].orderSystemId == NotifiedId(body.value))
  {
    if body.None? then InvalidRequest
    else
      var id := NotifiedId(body.value);
      if !UsableId(id) then InvalidId
      else if FindBySystemId(orders, id.s).None? then OrderNotFound
      else Acknowledged
  }

  /** The chain takes the first field that is present: an empty string in
      `order.orderSystemId` wins over a good `orderSystemId` or `orderId`
      further on, and the request is refused. */
  lemma EmptyIdShadows(orders: seq<Order>, body: Value)
    requires Get(Get(body, "order"), "orderSystemId") == Str("")
    ensures NotifiedId(body) == Str("")
    ensures HandleWebhook(orders, Some(body)) == InvalidId
  {
  }

  /** A later field is used only when every earlier one is `undefined` or
      `null`. */
  lemma IdFallback(body: Value)
    ensures !Nullish(Get(Get(body, "order"), "orderSystemId")) ==>
      NotifiedId(body) == Get(Get(body, "order"), "orderSystemId")
    ensures Nullish(Get(Get(body, "order"), "orderSystemId")) && !Nullish(Get(body, "orderSystemId")) ==>
      NotifiedId(body) == Get(body, "orderSystemId")
    ensures Nullish(Get(Get(body, "order"), "orderSystemId")) && Nullish(Get(body, "orderSystemId")) ==>
      NotifiedId(body) == Get(body, "orderId")
  {
  }

  /** Whitespace-only ids are refused. */
  lemma BlankIdRefused(orders: seq<Order>, body: Value)
    requires NotifiedId(body).Str? && forall k :: 0 <= k < |NotifiedId(body).s| ==> IsSpace(NotifiedId(body).s[k])
    ensures HandleWebhook(orders, Some(body)) == InvalidId
  {
    TrimBlank(NotifiedId(body).s);
  }
}
