/**
 * The ledger's transaction handlers, step by step over the database object:
 * each request's reads, its atomic units (rolled back by restoring the
 * contents saved when the unit began) and its response. Each handler is
 * proved to answer and to leave the database exactly as the matching
 * function of `TransactionSpec` says, and to keep the store invariant.
 */
module TransactionController {
  import opened Wrappers
  import opened LedgerModel
  import opened TransactionSpec
  import opened LedgerDb
  import AmountParsing
  import Decimal
  import TransactionProperties

  // ---------------------------------------------------------------- deposit

  /** The `db.$transaction` of `depositTransaction`. */
  method DepositUnit(db: Db, accountId: AccountId, amount: int, reference: string, token: BankToken) returns (ok: bool)
    modifies db
    ensures var r := TransactionSpec.DepositUnit(old(db.Snapshot()), accountId, amount, reference, token);
      ok == r.Some? && db.Snapshot() == (if ok then r.value else old(db.Snapshot()))
  {
    var saved := db.Snapshot();
    var id := db.CreateTransaction(Transaction(accountId, amount, Deposit, Pending, reference));
    if id.None? {
      return false;
    }
    var created := db.CreateProcessing(token, id.value);
    if !created {
      db.Restore(saved);
      return false;
    }
    return true;
  }

  /** `depositTransaction`; `reply` is what the bank's create-order call gave back. */
  method DepositTransaction(db: Db, userId: Option<UserId>, rawAmount: AmountParsing.RawAmount,
                            reference: string, reply: OrderReply) returns (resp: DepositResponse)
    requires db.Valid()
    modifies db
    ensures (resp, db.Snapshot()) == TransactionSpec.DepositTransaction(old(db.Snapshot()), userId, rawAmount, reference, reply)
    ensures db.Valid()
  {
    TransactionProperties.DepositTransactionConsistent(db.Snapshot(), userId, rawAmount, reference, reply);
    var amount := AmountParsing.ParseAmount(rawAmount);
    if !Present(userId) {
      return DepositRejected(401, "Unauthorized");
    }
    if amount.None? {
      return DepositRejected(400, "Amount must be a positive integer.");
    }
    var account := db.FindAccountOfUser(userId.value);
    if account.None? {
      return DepositRejected(404, "Account not found");
    }
    if reply.OrderCallFailed? {
      return DepositRejected(502, "Unable to register deposit with bank API.");
    }
    var token := reply.bankToken;
    if !Present(token) {
      return DepositRejected(502, "Bank API did not return a bank token.");
    }
    var ok := DepositUnit(db, account.value, amount.value, reference, token.value);
    if !ok {
      return DepositRejected(502, "Unable to register deposit with bank API.");
    }
    resp := DepositCreated(reference, token.value);
  }

  // ---------------------------------------------------------------- webhook

  /** The `db.$transaction` of `bankWebhook`, given the processing row's transaction as read before it. */
  method SettleUnit(db: Db, token: BankToken, id: TxId, t: Transaction, status: TxStatus, now: int) returns (settled: bool)
    requires db.Valid() && token in db.processing && id == db.processing[token].transactionId
    requires id < |db.transactions| && t == db.transactions[id]
    modifies db
    ensures (settled, db.Snapshot()) == Settle(old(db.Snapshot()), token, status, now)
  {
    var count := db.UpdateStatusIfPending(id, status);
    if count == 0 {
      return false;
    }
    if status == Success {
      db.Increment(t.accountId, t.amount);
    }
    db.StampSettled(token, now);
    return true;
  }

  /** `bankWebhook`; `expectedSecret` is the configured secret, `headerSecret` the request's header. */
  method BankWebhook(db: Db, expectedSecret: Option<string>, headerSecret: Option<string>,
                     token: Option<string>, rawStatus: Option<string>, now: int) returns (resp: WebhookResponse)
    requires db.Valid()
    modifies db
    ensures (resp, db.Snapshot()) == TransactionSpec.BankWebhook(old(db.Snapshot()), expectedSecret, headerSecret, token, rawStatus, now)
    ensures db.Valid()
  {
    TransactionProperties.BankWebhookConsistent(db.Snapshot(), expectedSecret, headerSecret, token, rawStatus, now);
    if Present(expectedSecret) && headerSecret != Some(expectedSecret.value) {
      return WebhookRejected(401, "Invalid webhook signature");
    }
    var status := ParseWebhookStatus(rawStatus);
    if !Present(token) || status.None? {
      return WebhookRejected(400, "Invalid webhook payload");
    }
    var found := db.FindProcessing(token.value);
    if found.None? {
      return WebhookRejected(404, "Unknown bank token");
    }
    var (id, t) := found.value;
    if t.status != Pending {
      return WebhookAlreadySettled;
    }
    var settled := SettleUnit(db, token.value, id, t, status.value, now);
    resp := WebhookSettled(settled);
  }

  // ---------------------------------------------------------------- withdraw

  /** The first `db.$transaction` of `withdrawTransaction`, whose value becomes `pendingWithdraw`. */
  method WithdrawDebit(db: Db, userId: UserId, amount: int, reference: string) returns (debit: DebitOutcome)
    modifies db
    ensures (debit, db.Snapshot()) == TransactionSpec.WithdrawDebit(old(db.Snapshot()), userId, amount, reference)
  {
    var saved := db.Snapshot();
    var account := db.FindAccountOfUser(userId);
    if account.None? {
      return Aborted(HandlerError(404, "Account not found"));
    }
    var count := db.DecrementIfCovered(account.value, amount);
    if count == 0 {
      return Aborted(HandlerError(400, "Insufficient balance"));
    }
    var id := db.CreateTransaction(Transaction(account.value, amount, Withdraw, Pending, reference));
    if id.None? {
      db.Restore(saved);
      return Aborted(DbError(UniqueViolation));
    }
    var balance := db.FindBalance(account.value);
    debit := Opened(PendingWithdraw(id.value, account.value, balance));
  }

  /** The compensating `db.$transaction` of the catch block. */
  method ReverseWithdraw(db: Db, pending: PendingWithdraw, amount: int)
    requires pending.accountId in db.accounts
    modifies db
    ensures db.Snapshot() == TransactionSpec.ReverseWithdraw(old(db.Snapshot()), pending, amount)
  {
    var count := db.UpdateStatusIfPending(pending.transactionId, Failed);
    if count > 0 {
      db.Increment(pending.accountId, amount);
    }
  }

  /** `withdrawTransaction` past its validation: the debit, the bank call, then the completion or the reversal. */
  method WithdrawSaga(db: Db, userId: UserId, amount: int, reference: string, reply: WithdrawReply) returns (resp: WithdrawResponse)
    modifies db
    ensures (resp, db.Snapshot()) == TransactionSpec.WithdrawSaga(old(db.Snapshot()), userId, amount, reference, reply)
  {
    var debit := WithdrawDebit(db, userId, amount, reference);
    if debit.Aborted? {
      return AbortedResponse(debit.error);
    }
    var pending := debit.pending;
    match reply
    case WithdrawReplied(accepted) =>
      if accepted {
        db.UpdateStatus(pending.transactionId, Success);
        resp := WithdrawCompleted(reference, Decimal.RenderSigned(pending.balanceAfterDebit));
      } else {
        ReverseWithdraw(db, pending, amount);
        resp := WithdrawRejected(502, "Bank rejected withdrawal request.");
      }
    case WithdrawCallFailed =>
      ReverseWithdraw(db, pending, amount);
      resp := WithdrawRejected(502, "Unable to complete withdraw");
  }

  /** `withdrawTransaction`; `reply` is what the bank's withdraw call gave back. */
  method WithdrawTransaction(db: Db, userId: Option<UserId>, rawAmount: AmountParsing.RawAmount,
                             reference: string, reply: WithdrawReply) returns (resp: WithdrawResponse)
    requires db.Valid()
    modifies db
    ensures (resp, db.Snapshot()) == TransactionSpec.WithdrawTransaction(old(db.Snapshot()), userId, rawAmount, reference, reply)
    ensures db.Valid()
  {
    TransactionProperties.WithdrawTransactionConsistent(db.Snapshot(), userId, rawAmount, reference, reply);
    var amount := AmountParsing.ParseAmount(rawAmount);
    if !Present(userId) {
      return WithdrawRejected(401, "Unauthorized");
    }
    if amount.None? {
      return WithdrawRejected(400, "Amount must be a positive integer.");
    }
    resp := WithdrawSaga(db, userId.value, amount.value, reference, reply);
  }

  // ---------------------------------------------------------------- listing

  /** `getTransactions`: reads only. */
  method GetTransactions(db: Db, userId: Option<UserId>) returns (resp: TransactionsResponse)
    ensures resp == TransactionSpec.GetTransactions(db.Snapshot(), userId)
  {
    if !Present(userId) {
      return TransactionsRejected(401, "Unauthorized");
    }
    var account := db.FindAccountOfUser(userId.value);
    if account.None? {
      return TransactionsRejected(404, "Account not found");
    }
    resp := TransactionList(Recent(db.transactions, account.value, RecentLimit));
  }
}
