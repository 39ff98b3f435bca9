/**
 * The bank simulator's state-changing handlers, step by step over the order
 * store, proved to answer and to leave the store exactly as the matching
 * function of `BankSpec` says. `registerWithdrawal` writes nothing and is
 * `BankSpec.RegisterWithdrawal` itself.
 */
module BankController {
  import opened Wrappers
  import opened BankStore
  import opened BankSpec
  import AmountParsing

  /** `createOrder`; `hex` stands for the eight random bytes of the token. */
  method CreateOrder(store: OrderStore, ref: Option<string>, rawAmount: AmountParsing.RawAmount,
                     returnUrl: Option<string>, hex: string, now: int) returns (resp: CreateOrderResponse)
    modifies store
    ensures (resp, store.orders) == BankSpec.CreateOrder(old(store.orders), ref, rawAmount, returnUrl, hex, now)
    ensures old(KeyedByToken(store.orders)) ==> KeyedByToken(store.orders)
  {
    var amount := AmountParsing.ParseAmount(rawAmount);
    if !Present(ref) || amount.None? || !Present(returnUrl) {
      return CreateOrderRejected(400, "Missing or invalid ref, amount or returnUrl");
    }
    var token := SessionToken(hex);
    var order := store.CreateBankOrder(token, ref.value, amount.value, returnUrl.value, now);
    resp := OrderCreated(token);
  }

  /**
   * `approveOrder`: `call` is the webhook sent, if any, and `delivery` the
   * outcome of that `POST`.
   */
  method ApproveOrder(store: OrderStore, token: Option<string>, action: Option<string>, secret: Option<string>,
                      delivery: Delivery, now: int) returns (resp: ApproveResponse, call: Option<WebhookCall>)
    modifies store
    ensures (resp, store.orders, call) == BankSpec.ApproveOrder(old(store.orders), token, action, secret, delivery, now)
  {
    if !Present(token) || !Present(action) {
      return ApproveRejected(400, "Missing token or action"), None;
    }
    var found := store.GetBankOrder(token.value);
    if found.None? {
      return ApproveRejected(404, "Bank session not found"), None;
    }
    var order := found.value;
    if order.status != OrderPending {
      return Redirect(order.returnUrl), None;
    }
    var status := ApprovalStatus(action.value);
    call := Some(WebhookRequest(order, status, secret));
    if delivery == DeliveryFailed {
      return ApproveRejected(502, "Unable to settle transaction"), call;
    }
    var updated := store.UpdateBankOrderStatus(order.token, status, now);
    resp := Redirect(order.returnUrl);
  }
}
