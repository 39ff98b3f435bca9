/**
 * What the bank simulator's handlers do, as functions over its order map:
 * opening a payment session, registering a withdrawal, and the approval that
 * notifies the ledger by webhook before it records the outcome. The random
 * hex suffixes, the clock and the result of the webhook delivery are inputs;
 * the webhook request the bank sends is an output.
 */
module BankSpec {
  import opened Wrappers
  import opened BankStore
  import AmountParsing

  type Orders = map<string, BankOrder>

  const SessionPrefix := "bank_session_"
  const WithdrawalPrefix := "bank_wdr_"

  /** `${prefix}${hex}`: a fixed prefix followed by the random hex, both recoverable from the result. */
  function Tagged(prefix: string, hex: string): (t: string)
    ensures |t| == |prefix| + |hex|
    ensures t[..|prefix|] == prefix && t[|prefix|..] == hex
  {
    prefix + hex
  }

  /** `bank_session_<hex>`, the session token handed back by `createOrder`. */
  function SessionToken(hex: string): string
  {
    Tagged(SessionPrefix, hex)
  }

  /** `bank_wdr_<hex>`, the reference handed back by `registerWithdrawal`. */
  function WithdrawalReference(hex: string): string
  {
    Tagged(WithdrawalPrefix, hex)
  }

  // ---------------------------------------------------------------- create order

  datatype CreateOrderResponse =
    | OrderCreated(bankToken: string)
    | CreateOrderRejected(status: int, error: string)

  /** `createOrder` */
  function CreateOrder(orders: Orders, ref: Option<string>, rawAmount: AmountParsing.RawAmount,
                       returnUrl: Option<string>, hex: string, now: int): (r: (CreateOrderResponse, Orders))
    ensures r.0.CreateOrderRejected? ==> r.1 == orders
    ensures r.0.OrderCreated? ==>
      && r.0.bankToken in r.1 && r.1[r.0.bankToken].status == OrderPending
      && r.1.Keys == orders.Keys + {r.0.bankToken}
  {
    var amount := AmountParsing.ParseAmount(rawAmount);
    if !Present(ref) || amount.None? || !Present(returnUrl) then
      (CreateOrderRejected(400, "Missing or invalid ref, amount or returnUrl"), orders)
    else
      var token := SessionToken(hex);
      var order := NewOrder(token, ref.value, amount.value, returnUrl.value, now);
      (OrderCreated(token), orders[order.token := order])
  }

  // ---------------------------------------------------------------- withdrawal

  datatype WithdrawalResponse =
    | WithdrawalAccepted(bankReference: string)
    | WithdrawalRejected(status: int, error: string)

  /** `registerWithdrawal`: validates and answers; the bank keeps no record of it. */
  function RegisterWithdrawal(ref: Option<string>, rawAmount: AmountParsing.RawAmount, hex: string): (r: WithdrawalResponse)
    ensures r.WithdrawalAccepted? ==> Present(ref) && AmountParsing.ParseAmount(rawAmount).Some? && |r.bankReference| > 0
    ensures r.WithdrawalRejected? ==> r.status == 400
  {
    if !Present(ref) || AmountParsing.ParseAmount(rawAmount).None? then
      WithdrawalRejected(400, "Missing or invalid ref/amount")
    else
      WithdrawalAccepted(WithdrawalReference(hex))
  }

  // ---------------------------------------------------------------- approval

  /** The `POST` to the ledger's webhook: the body's token and status, and the secret header when one is configured. */
  datatype WebhookCall = WebhookCall(token: string, status: BankOrderStatus, secretHeader: Option<string>)

  /** Whether the webhook `POST` resolved or threw (a refused connection, a timeout, or a non-2xx answer). */
  datatype Delivery = Delivered | DeliveryFailed

  datatype ApproveResponse =
    | Redirect(url: string)
    | ApproveRejected(status: int, message: string)

  /** The outcome an approval form's `action` asks for. */
  function ApprovalStatus(action: string): (r: BankOrderStatus)
    ensures r != OrderPending
  {
    if action == "approve" then OrderSuccess else OrderFailed
  }

  /** The request `approveOrder` sends; the header is set only for a non-empty configured secret. */
  function WebhookRequest(order: BankOrder, status: BankOrderStatus, secret: Option<string>): (r: WebhookCall)
    ensures r.token == order.token && r.status == status
    ensures r.secretHeader.Some? <==> Present(secret)
    ensures r.secretHeader.Some? ==> r.secretHeader == secret
  {
    WebhookCall(order.token, status, if Present(secret) then secret else None)
  }

  /**
   * `approveOrder`: the response, the new order map, and the webhook sent,
   * if any. `delivery` is the outcome of that webhook.
   */
  function ApproveOrder(orders: Orders, token: Option<string>, action: Option<string>, secret: Option<string>,
                        delivery: Delivery, now: int): (r: (ApproveResponse, Orders, Option<WebhookCall>))
    ensures r.1.Keys == orders.Keys
    ensures r.0.ApproveRejected? || r.2.None? ==> r.1 == orders
    ensures r.2.Some? ==> r.2.value.status != OrderPending
  {
    if !Present(token) || !Present(action) then (ApproveRejected(400, "Missing token or action"), orders, None)
    else if token.value !in orders then (ApproveRejected(404, "Bank session not found"), orders, None)
    else
      var order := orders[token.value];
      if order.status != OrderPending then (Redirect(order.returnUrl), orders, None)
      else
        var status := ApprovalStatus(action.value);
        var call := WebhookRequest(order, status, secret);
        if delivery == DeliveryFailed then (ApproveRejected(502, "Unable to settle transaction"), orders, Some(call))
        else (Redirect(order.returnUrl), StatusUpdated(orders, order.token, status, now), Some(call))
  }
}
