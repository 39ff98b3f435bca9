/**
 * The ledger and the bank simulator together: what one service sends is
 * what the other accepts. The ledger's create-order and withdraw requests
 * pass the bank's validation with the same amount; the bank's webhook passes
 * the ledger's secret check and its status means the same outcome there; and
 * a deposit approved at the bank credits the ledger account exactly once.
 * Both services are assumed to be configured with the same webhook secret.
 */
module CrossService {
  import opened Wrappers
  import opened LedgerModel
  import opened TransactionSpec
  import TransactionProperties
  import BankStore
  import BankSpec
  import BankProperties
  import AmountParsing
  import Decimal

  /** The ledger status a bank order status stands for. */
  function LedgerStatus(s: BankStore.BankOrderStatus): TxStatus
  {
    match s
    case OrderPending => Pending
    case OrderSuccess => Success
    case OrderFailed => Failed
  }

  /** What the ledger's `axios.post` to `create-order` yields: non-2xx answers throw. */
  function ReplyOf(c: BankSpec.CreateOrderResponse): (r: OrderReply)
    ensures r.OrderReplied? <==> c.OrderCreated?
    ensures r.OrderReplied? ==> r.bankToken == Some(c.bankToken)
  {
    match c
    case OrderCreated(token) => OrderReplied(Some(token))
    case CreateOrderRejected(_, _) => OrderCallFailed
  }

  /**
   * What the ledger's `axios.post` to `withdraw` yields: an accepted
   * withdrawal answers 201 with `accepted: true`; a rejected one answers 400,
   * on which the call throws.
   */
  function WithdrawReplyOf(w: BankSpec.WithdrawalResponse): (r: WithdrawReply)
    ensures r == WithdrawReplied(true) <==> w.WithdrawalAccepted?
  {
    match w
    case WithdrawalAccepted(_) => WithdrawReplied(true)
    case WithdrawalRejected(_, _) => WithdrawCallFailed
  }

  /** What the bank's webhook `POST` yields: the ledger answers 4xx for a rejected webhook, 200 otherwise. */
  function DeliveryOf(w: WebhookResponse): (r: BankSpec.Delivery)
    ensures r == BankSpec.Delivered <==> !w.WebhookRejected?
  {
    if w.WebhookRejected? then BankSpec.DeliveryFailed else BankSpec.Delivered
  }

  /**
   * The status the bank writes into its webhook reads back in the ledger as
   * the same outcome; PENDING, which the bank never sends, would be refused.
   */
  lemma WebhookStatusUnderstood(s: BankStore.BankOrderStatus)
    ensures ParseWebhookStatus(Some(BankStore.StatusName(s))) ==
      if s == BankStore.OrderPending then None else Some(LedgerStatus(s))
  {
    var n := BankStore.StatusName(s);
    TransactionProperties.UpperIdentity(n);
    if s != BankStore.OrderPending {
      TransactionProperties.StatusNameAccepted(LedgerStatus(s));
    }
  }

  /** The header the bank attaches passes the ledger's check when both know the same secret. */
  lemma WebhookSecretAccepted(order: BankStore.BankOrder, status: BankStore.BankOrderStatus, secret: Option<string>)
    ensures var h := BankSpec.WebhookRequest(order, status, secret).secretHeader;
      !(Present(secret) && h != Some(secret.value))
  {
  }

  /** The ledger's create-order body (a `txn_…` reference, `amount.toString()`, its return URL) opens a bank session for that amount. */
  lemma DepositRequestAccepted(orders: BankSpec.Orders, reference: string, amount: nat, returnUrl: string, hex: string, now: int)
    requires amount > 0 && reference != "" && returnUrl != ""
    ensures var r := BankSpec.CreateOrder(orders, Some(reference), AmountParsing.StringValue(Decimal.Render(amount)),
                                          Some(returnUrl), hex, now);
      && r.0 == BankSpec.OrderCreated(BankSpec.SessionToken(hex))
      && r.1[r.0.bankToken] == BankStore.BankOrder(r.0.bankToken, reference, amount, returnUrl, BankStore.OrderPending, now, now)
    ensures var r := BankSpec.CreateOrder(orders, Some(reference), AmountParsing.StringValue(Decimal.Render(amount)),
                                          Some(returnUrl), hex, now);
      BankStore.KeyedByToken(orders) ==> BankStore.KeyedByToken(r.1)
  {
    var raw := AmountParsing.StringValue(Decimal.Render(amount));
    AmountParsing.RenderedAmountAccepted(amount);
    BankProperties.CreateOrderRule(orders, Some(reference), raw, Some(returnUrl), hex, now);
    if BankStore.KeyedByToken(orders) {
      BankProperties.CreateOrderKeepsKeys(orders, Some(reference), raw, Some(returnUrl), hex, now);
    }
  }

  /** The ledger's withdraw body (reference, `amount.toString()`) is accepted by the bank, so the withdrawal completes. */
  lemma WithdrawRequestAccepted(reference: string, amount: nat, hex: string)
    requires amount > 0 && reference != ""
    ensures BankSpec.RegisterWithdrawal(Some(reference), AmountParsing.StringValue(Decimal.Render(amount)), hex)
      == BankSpec.WithdrawalAccepted(BankSpec.WithdrawalReference(hex))
  {
    AmountParsing.RenderedAmountAccepted(amount);
  }

  /**
   * A withdrawal end to end: the bank accepts the ledger's request, so the
   * ledger debits exactly the amount and records a SUCCESS WITHDRAW row.
   */
  lemma WithdrawAgainstBank(st: LedgerState, userId: UserId, amount: nat, reference: string, hex: string)
    requires amount > 0 && reference != ""
    requires CanAfford(st, userId, amount) && !ReferenceTaken(st.transactions, reference)
    ensures var bank := BankSpec.RegisterWithdrawal(Some(reference), AmountParsing.StringValue(Decimal.Render(amount)), hex);
      var a := st.accountOfUser[userId];
      var r := WithdrawSaga(st, userId, amount, reference, WithdrawReplyOf(bank));
      && r.0 == WithdrawCompleted(reference, Decimal.RenderSigned(st.accounts[a].balance - amount))
      && r.1.accounts[a].balance == st.accounts[a].balance - amount
      && r.1.transactions == st.transactions + [Transaction(a, amount, Withdraw, Success, reference)]
  {
    WithdrawRequestAccepted(reference, amount, hex);
    TransactionProperties.WithdrawAccepted(st, userId, amount, reference);
  }

  /**
   * An approval at the bank settles the ledger's deposit. For a PENDING bank
   * session and the PENDING ledger row its token names, the bank's webhook
   * is admitted by the ledger, which sets the row to the chosen outcome and
   * credits the row's amount exactly when the action was "approve"; the
   * bank, told that the webhook went through, records the same outcome and
   * redirects back.
   */
  lemma {:induction false} ApprovalSettlesDeposit(st: LedgerState, orders: BankSpec.Orders, token: string,
                                                  secret: Option<string>, action: string, now1: int, now2: int)
    requires Valid(st) && BankStore.KeyedByToken(orders) && token != "" && action != ""
    requires token in orders && orders[token].status == BankStore.OrderPending
    requires token in st.processing && st.transactions[st.processing[token].transactionId].status == Pending
    ensures
      var call := BankSpec.WebhookRequest(orders[token], BankSpec.ApprovalStatus(action), secret);
      var w := BankWebhook(st, secret, call.secretHeader, Some(call.token), Some(BankStore.StatusName(call.status)), now2);
      var approved := BankSpec.ApproveOrder(orders, Some(token), Some(action), secret, DeliveryOf(w.0), now1);
      var id := st.processing[token].transactionId;
      var t := st.transactions[id];
      && w.0 == WebhookSettled(true)
      && id < |w.1.transactions| && w.1.transactions[id].status == LedgerStatus(BankSpec.ApprovalStatus(action))
      && t.accountId in st.accounts && t.accountId in w.1.accounts
      && w.1.accounts[t.accountId].balance == st.accounts[t.accountId].balance + (if action == "approve" then t.amount else 0)
      && approved.0 == BankSpec.Redirect(orders[token].returnUrl) && approved.2 == Some(call)
      && approved.1 == orders[token := BankStore.WithStatus(orders[token], BankSpec.ApprovalStatus(action), now1)]
  {
    var status := BankSpec.ApprovalStatus(action);
    var call := BankSpec.WebhookRequest(orders[token], status, secret);
    var outcome := LedgerStatus(status);
    assert call.token == token;
    assert BankStore.StatusName(status) == StatusName(outcome) && outcome != Pending && (outcome == Success <==> action == "approve") by {
      BankProperties.ApprovalStatusRule(action);
    }
    WebhookSecretAccepted(orders[token], status, secret);
    assert ParseWebhookStatus(Some(StatusName(outcome))) == Some(outcome) by {
      TransactionProperties.StatusNameAccepted(outcome);
    }
    TransactionProperties.WebhookSettlesPending(st, secret, call.secretHeader, token, outcome, Some(StatusName(outcome)), now2);
    BankProperties.ApproveOrderRule(orders, Some(token), Some(action), secret, BankSpec.Delivered, now1);
  }

  /**
   * A deposit end to end: `bank` is the bank's create-order outcome for the
   * ledger's request and `registered` the ledger's deposit outcome given that
   * reply; the user then approves or fails the session at the bank, the
   * bank's webhook settles the deposit in the ledger and the bank records the
   * same outcome. The account is credited by the deposited amount exactly
   * when the action was "approve".
   */
  lemma {:induction false} DepositEndToEnd(st: LedgerState, orders: BankSpec.Orders, userId: UserId,
                                           rawAmount: AmountParsing.RawAmount, reference: string, returnUrl: string,
                                           hex: string, now0: int, secret: Option<string>, action: string, now1: int, now2: int,
                                           bank: (BankSpec.CreateOrderResponse, BankSpec.Orders),
                                           registered: (DepositResponse, LedgerState))
    requires Valid(st) && BankStore.KeyedByToken(orders) && AmountParsing.ParseAmount(rawAmount).Some?
    requires userId != "" && userId in st.accountOfUser
    requires reference != "" && !ReferenceTaken(st.transactions, reference)
    requires returnUrl != "" && BankSpec.SessionToken(hex) !in st.processing && action != ""
    requires bank == BankSpec.CreateOrder(orders, Some(reference),
                        AmountParsing.StringValue(Decimal.Render(AmountParsing.ParseAmount(rawAmount).value)),
                        Some(returnUrl), hex, now0)
    requires registered == DepositTransaction(st, Some(userId), rawAmount, reference, ReplyOf(bank.0))
    ensures bank.0 == BankSpec.OrderCreated(BankSpec.SessionToken(hex)) && BankSpec.SessionToken(hex) in bank.1
    ensures registered.0 == DepositCreated(reference, BankSpec.SessionToken(hex)) && Valid(registered.1)
    ensures
      var token := BankSpec.SessionToken(hex);
      var status := BankSpec.ApprovalStatus(action);
      var call := BankSpec.WebhookRequest(bank.1[token], status, secret);
      var w := BankWebhook(registered.1, secret, call.secretHeader, Some(call.token), Some(BankStore.StatusName(call.status)), now2);
      var approved := BankSpec.ApproveOrder(bank.1, Some(token), Some(action), secret, DeliveryOf(w.0), now1);
      var a := st.accountOfUser[userId];
      && approved.0 == BankSpec.Redirect(returnUrl) && approved.2 == Some(call)
      && approved.1 == bank.1[token := BankStore.WithStatus(bank.1[token], status, now1)]
      && w.0 == WebhookSettled(true)
      && |st.transactions| < |w.1.transactions| && w.1.transactions[|st.transactions|].status == LedgerStatus(status)
      && a in st.accounts && a in w.1.accounts
      && w.1.accounts[a].balance == st.accounts[a].balance + (if action == "approve" then AmountParsing.ParseAmount(rawAmount).value else 0)
  {
    var amount := AmountParsing.ParseAmount(rawAmount).value;
    var token := BankSpec.SessionToken(hex);
    DepositRequestAccepted(orders, reference, amount, returnUrl, hex, now0);
    assert ReplyOf(bank.0) == OrderReplied(Some(token));
    TransactionProperties.DepositRecorded(st, userId, rawAmount, reference, token);
    assert registered.1.transactions[|st.transactions|].accountId == st.accountOfUser[userId];
    var status := BankSpec.ApprovalStatus(action);
    var call := BankSpec.WebhookRequest(bank.1[token], status, secret);
    var w := BankWebhook(registered.1, secret, call.secretHeader, Some(call.token), Some(BankStore.StatusName(call.status)), now2);
    var approved := BankSpec.ApproveOrder(bank.1, Some(token), Some(action), secret, DeliveryOf(w.0), now1);
    assert BankStore.KeyedByToken(bank.1) && bank.1[token].status == BankStore.OrderPending && bank.1[token].returnUrl == returnUrl;
    assert registered.1.processing[token].transactionId == |st.transactions|;
    assert registered.1.transactions[|st.transactions|].status == Pending;
    ApprovalSettlesDeposit(registered.1, bank.1, token, secret, action, now1, now2);
  }
}
