/**
 * Properties of the bank simulator's handlers: exactly which requests they
 * accept, that every order stays filed under its own token, that an order
 * leaves PENDING only once the ledger has taken its webhook, and that a
 * settled order is final.
 */
module BankProperties {
  import opened Wrappers
  import opened BankStore
  import opened BankSpec
  import AmountParsing

  /**
   * A session is opened exactly for a present `ref`, a valid amount and a
   * present `returnUrl`; it adds one PENDING order for that amount under a
   * fresh-looking, non-empty token and touches no other order. Otherwise
   * nothing is stored.
   */
  lemma CreateOrderRule(orders: Orders, ref: Option<string>, rawAmount: AmountParsing.RawAmount,
                        returnUrl: Option<string>, hex: string, now: int)
    ensures var r := CreateOrder(orders, ref, rawAmount, returnUrl, hex, now);
      r.0.OrderCreated? <==> Present(ref) && AmountParsing.ParseAmount(rawAmount).Some? && Present(returnUrl)
    ensures var r := CreateOrder(orders, ref, rawAmount, returnUrl, hex, now);
      r.0.CreateOrderRejected? ==> r == (CreateOrderRejected(400, "Missing or invalid ref, amount or returnUrl"), orders)
    ensures var r := CreateOrder(orders, ref, rawAmount, returnUrl, hex, now);
      r.0.OrderCreated? ==>
        var t := r.0.bankToken;
        && t == SessionToken(hex) && t != ""
        && r.1.Keys == orders.Keys + {t}
        && r.1[t] == BankOrder(t, ref.value, AmountParsing.ParseAmount(rawAmount).value, returnUrl.value, OrderPending, now, now)
        && r.1[t].amount > 0
        && (forall k :: k in orders && k != t ==> r.1[k] == orders[k])
  {
  }

  /** Opening a session keeps every order filed under its own token. */
  lemma CreateOrderKeepsKeys(orders: Orders, ref: Option<string>, rawAmount: AmountParsing.RawAmount,
                             returnUrl: Option<string>, hex: string, now: int)
    requires KeyedByToken(orders)
    ensures KeyedByToken(CreateOrder(orders, ref, rawAmount, returnUrl, hex, now).1)
  {
    var r := CreateOrder(orders, ref, rawAmount, returnUrl, hex, now);
    if r.0.OrderCreated? {
      var o := NewOrder(SessionToken(hex), ref.value, AmountParsing.ParseAmount(rawAmount).value, returnUrl.value, now);
      StoreKeepsKeys(orders, o, o.token, OrderPending, now);
    }
  }

  /** A withdrawal is accepted exactly for a present `ref` and a valid amount. */
  lemma RegisterWithdrawalRule(ref: Option<string>, rawAmount: AmountParsing.RawAmount, hex: string)
    ensures RegisterWithdrawal(ref, rawAmount, hex).WithdrawalAccepted? <==>
      Present(ref) && AmountParsing.ParseAmount(rawAmount).Some?
    ensures RegisterWithdrawal(ref, rawAmount, hex).WithdrawalAccepted? ==>
      RegisterWithdrawal(ref, rawAmount, hex).bankReference == WithdrawalReference(hex)
    ensures RegisterWithdrawal(ref, rawAmount, hex).WithdrawalRejected? ==>
      RegisterWithdrawal(ref, rawAmount, hex) == WithdrawalRejected(400, "Missing or invalid ref/amount")
  {
  }

  /** Only the literal action "approve" approves; every other action fails the order, and none leaves it PENDING. */
  lemma ApprovalStatusRule(action: string)
    ensures ApprovalStatus(action) != OrderPending
    ensures ApprovalStatus(action) == OrderSuccess <==> action == "approve"
  {
  }

  /** Whether `approveOrder` sends a webhook: exactly for a known, still PENDING order named by a request with both fields. */
  predicate SendsWebhook(orders: Orders, token: Option<string>, action: Option<string>)
  {
    Present(token) && Present(action) && token.value in orders && orders[token.value].status == OrderPending
  }

  /**
   * The approval: a webhook, carrying the order's token, the requested
   * outcome and the configured secret, goes out exactly from a PENDING order;
   * the order takes the outcome only when the ledger took the webhook; every
   * other path leaves the orders as they were.
   */
  lemma {:induction false} ApproveOrderRule(orders: Orders, token: Option<string>, action: Option<string>,
                                            secret: Option<string>, delivery: Delivery, now: int)
    requires KeyedByToken(orders)
    ensures var r := ApproveOrder(orders, token, action, secret, delivery, now);
      r.2.Some? <==> SendsWebhook(orders, token, action)
    ensures var r := ApproveOrder(orders, token, action, secret, delivery, now);
      r.2.Some? ==> r.2.value == WebhookCall(token.value, ApprovalStatus(action.value), if Present(secret) then secret else None)
    ensures var r := ApproveOrder(orders, token, action, secret, delivery, now);
      r.1 == if SendsWebhook(orders, token, action) && delivery == Delivered
             then orders[token.value := WithStatus(orders[token.value], ApprovalStatus(action.value), now)]
             else orders
    ensures var r := ApproveOrder(orders, token, action, secret, delivery, now);
      r.0 == ApproveRejected(502, "Unable to settle transaction") <==> SendsWebhook(orders, token, action) && delivery == DeliveryFailed
  {
    if SendsWebhook(orders, token, action) {
      assert orders[token.value].token == token.value;
    }
  }

  /**
   * Which answer `approveOrder` gives: 400 without a token or an action, 404
   * for an unknown session, and otherwise a redirect to the order's return
   * URL, except for the 502 of a failed delivery.
   */
  lemma ApproveRejectionRule(orders: Orders, token: Option<string>, action: Option<string>,
                             secret: Option<string>, delivery: Delivery, now: int)
    ensures var r := ApproveOrder(orders, token, action, secret, delivery, now);
      && (r.0 == ApproveRejected(400, "Missing token or action") <==> !Present(token) || !Present(action))
      && (r.0 == ApproveRejected(404, "Bank session not found") <==>
            Present(token) && Present(action) && token.value !in orders)
      && (r.0.Redirect? <==>
            && Present(token) && Present(action) && token.value in orders
            && (orders[token.value].status != OrderPending || delivery == Delivered))
      && (r.0.Redirect? ==> r.0.url == orders[token.value].returnUrl)
  {
  }

  /** The approval keeps every order filed under its own token. */
  lemma ApproveKeepsKeys(orders: Orders, token: Option<string>, action: Option<string>,
                         secret: Option<string>, delivery: Delivery, now: int)
    requires KeyedByToken(orders)
    ensures KeyedByToken(ApproveOrder(orders, token, action, secret, delivery, now).1)
  {
    if SendsWebhook(orders, token, action) {
      StoreKeepsKeys(orders, orders[token.value], token.value, ApprovalStatus(action.value), now);
    }
  }

  /** An order that is no longer PENDING is final: no approval changes it, and approvals add or drop no order. */
  lemma SettledOrderFinal(orders: Orders, token: Option<string>, action: Option<string>,
                          secret: Option<string>, delivery: Delivery, now: int, t: string)
    requires KeyedByToken(orders) && t in orders && orders[t].status != OrderPending
    ensures var r := ApproveOrder(orders, token, action, secret, delivery, now);
      r.1.Keys == orders.Keys && r.1[t] == orders[t]
  {
    ApproveOrderRule(orders, token, action, secret, delivery, now);
  }

  /**
   * Once an approval's webhook has been delivered, approving the same session
   * again, with any action, only redirects: no second webhook and no change.
   */
  lemma {:induction false} ApproveAtMostOnce(orders: Orders, token: string, action: string, secret: Option<string>, now: int,
                                             action2: Option<string>, secret2: Option<string>, delivery2: Delivery, now2: int)
    requires KeyedByToken(orders) && token in orders && Present(Some(token)) && Present(Some(action))
    requires orders[token].status == OrderPending
    ensures var first := ApproveOrder(orders, Some(token), Some(action), secret, Delivered, now);
      first.2.Some? && ApproveOrder(first.1, Some(token), action2, secret2, delivery2, now2) ==
        (if Present(action2) then Redirect(orders[token].returnUrl) else ApproveRejected(400, "Missing token or action"), first.1, None)
  {
    ApproveOrderRule(orders, Some(token), Some(action), secret, Delivered, now);
    var first := ApproveOrder(orders, Some(token), Some(action), secret, Delivered, now);
    assert first.1[token].status == ApprovalStatus(action) != OrderPending;
  }
}
