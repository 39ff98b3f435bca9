/**
 * Properties of the ledger's transaction handlers: every atomic unit keeps
 * the store invariant, moves balances exactly as its transaction rows say and
 * never rewrites a settled row; and the settlement, replay and compensation
 * behaviour the handlers promise.
 */
module TransactionProperties {
  import opened Wrappers
  import opened LedgerModel
  import opened TransactionSpec
  import AmountParsing
  import Decimal

  // ---------------------------------------------------------------- deposit

  /** Appending a PENDING deposit row together with its processing row keeps the invariant and every balance. */
  lemma PendingDepositConsistent(st: LedgerState, t: Transaction, token: BankToken, st': LedgerState)
    requires Valid(st) && t.accountId in st.accounts && t.amount > 0 && t.txType == Deposit && t.status == Pending
    requires !ReferenceTaken(st.transactions, t.reference) && token !in st.processing
    requires st' == st.(transactions := st.transactions + [t], processing := st.processing[token := Processing(|st.transactions|, None)])
    ensures Valid(st') && BalanceTracksLedger(st, st') && LedgerEvolves(st, st')
  {
    PendingDepositValid(st, t, token, st');
    PendingDepositTracks(st, t, token, st');
  }

  /** A PENDING deposit row moves no balance. */
  lemma PendingDepositTracks(st: LedgerState, t: Transaction, token: BankToken, st': LedgerState)
    requires t.txType == Deposit && t.status == Pending && token !in st.processing
    requires st' == st.(transactions := st.transactions + [t], processing := st.processing[token := Processing(|st.transactions|, None)])
    ensures BalanceTracksLedger(st, st') && LedgerEvolves(st, st')
  {
    forall a | a in st.accounts ensures NetEffect(st'.transactions, a) == NetEffect(st.transactions, a) {
      NetEffectAppend(st.transactions, t, a);
    }
  }

  /** The deposit row and its processing row together keep the store invariant. */
  lemma PendingDepositValid(st: LedgerState, t: Transaction, token: BankToken, st': LedgerState)
    requires Valid(st) && t.accountId in st.accounts && t.amount > 0 && t.txType == Deposit && t.status == Pending
    requires !ReferenceTaken(st.transactions, t.reference) && token !in st.processing
    requires st' == st.(transactions := st.transactions + [t], processing := st.processing[token := Processing(|st.transactions|, None)])
    ensures Valid(st')
  {
    var txs' := st.transactions + [t];
    AppendKeepsTransactions(st.accounts.Keys, st.transactions, t);
    AppendKeepsPurchases(st.accountOfUser, st.transactions, st.purchases, t);
    assert txs'[..|txs'| - 1] == st.transactions;
    AddProcessingKeepsProcessing(txs', st.processing, token);
  }

  lemma DepositUnitConsistent(st: LedgerState, accountId: AccountId, amount: int, reference: string, token: BankToken)
    requires Valid(st) && accountId in st.accounts && amount > 0
    ensures var r := DepositUnit(st, accountId, amount, reference, token);
      r.Some? ==> Valid(r.value) && BalanceTracksLedger(st, r.value) && LedgerEvolves(st, r.value)
  {
    var r := DepositUnit(st, accountId, amount, reference, token);
    if r.Some? {
      PendingDepositConsistent(st, Transaction(accountId, amount, Deposit, Pending, reference), token, r.value);
    }
  }

  lemma DepositTransactionConsistent(st: LedgerState, userId: Option<UserId>, rawAmount: AmountParsing.RawAmount,
                                     reference: string, reply: OrderReply)
    requires Valid(st)
    ensures var r := DepositTransaction(st, userId, rawAmount, reference, reply);
      Valid(r.1) && BalanceTracksLedger(st, r.1) && LedgerEvolves(st, r.1)
  {
    var r := DepositTransaction(st, userId, rawAmount, reference, reply);
    if r.0.DepositCreated? {
      var accountId := AccountOf(st, userId.value).value;
      var amount := AmountParsing.ParseAmount(rawAmount).value;
      DepositUnitConsistent(st, accountId, amount, reference, r.0.bankToken);
    }
  }

  /**
   * Which rejection `depositTransaction` answers: 401 without a caller, 400
   * for an invalid amount, 404 without an account, and 502 when the bank call
   * fails, returns no token, or the unit hits a taken reference or token.
   */
  lemma DepositRejectionRule(st: LedgerState, userId: Option<UserId>, rawAmount: AmountParsing.RawAmount,
                             reference: string, reply: OrderReply)
    ensures DepositTransaction(st, userId, rawAmount, reference, reply).0 == DepositRejected(401, "Unauthorized")
      <==> !Present(userId)
    ensures DepositTransaction(st, userId, rawAmount, reference, reply).0 == DepositRejected(400, "Amount must be a positive integer.")
      <==> Present(userId) && AmountParsing.ParseAmount(rawAmount).None?
    ensures DepositTransaction(st, userId, rawAmount, reference, reply).0 == DepositRejected(404, "Account not found")
      <==> Present(userId) && AmountParsing.ParseAmount(rawAmount).Some? && userId.value !in st.accountOfUser
    ensures var r := DepositTransaction(st, userId, rawAmount, reference, reply);
      (r.0.DepositRejected? && r.0.status == 502) <==>
        && Present(userId) && AmountParsing.ParseAmount(rawAmount).Some? && userId.value in st.accountOfUser
        && (|| reply == OrderCallFailed
            || (reply.OrderReplied? && !Present(reply.bankToken))
            || (reply.OrderReplied? && Present(reply.bankToken) &&
                (ReferenceTaken(st.transactions, reference) || reply.bankToken.value in st.processing)))
  {
  }

  /**
   * An authenticated user with an account, a valid amount, an unused
   * reference and a fresh session token from the bank: the deposit is
   * registered as one PENDING DEPOSIT row, tied to the token, and no balance
   * moves yet.
   */
  lemma DepositRecorded(st: LedgerState, userId: UserId, rawAmount: AmountParsing.RawAmount, reference: string, token: BankToken)
    requires Valid(st) && userId != "" && userId in st.accountOfUser && AmountParsing.ParseAmount(rawAmount).Some?
    requires !ReferenceTaken(st.transactions, reference) && token != "" && token !in st.processing
    ensures var d := DepositTransaction(st, Some(userId), rawAmount, reference, OrderReplied(Some(token)));
      && d.0 == DepositCreated(reference, token) && Valid(d.1)
      && token in d.1.processing && d.1.processing[token].transactionId == |st.transactions|
      && d.1.transactions == st.transactions +
           [Transaction(st.accountOfUser[userId], AmountParsing.ParseAmount(rawAmount).value, Deposit, Pending, reference)]
      && d.1.accounts == st.accounts
  {
    DepositTransactionConsistent(st, Some(userId), rawAmount, reference, OrderReplied(Some(token)));
  }

  // ---------------------------------------------------------------- settlement

  /** The store after a settlement whose conditional update matched. */
  ghost predicate SettledShape(st: LedgerState, token: BankToken, status: TxStatus, now: int, st': LedgerState)
    requires Valid(st) && token in st.processing
  {
    var id := st.processing[token].transactionId;
    var t := st.transactions[id];
    && t.status == Pending
    && st'.accountOfUser == st.accountOfUser && st'.purchases == st.purchases
    && st'.transactions == st.transactions[id := t.(status := status)]
    && st'.processing == st.processing[token := Processing(id, Some(now))]
    && st'.accounts == (if status == Success
      then st.accounts[t.accountId := st.accounts[t.accountId].(balance := st.accounts[t.accountId].balance + t.amount)]
      else st.accounts)
  }

  lemma SettleConsistent(st: LedgerState, token: BankToken, status: TxStatus, now: int)
    requires Valid(st) && token in st.processing && status != Pending
    ensures var r := Settle(st, token, status, now);
      Valid(r.1) && BalanceTracksLedger(st, r.1) && LedgerEvolves(st, r.1)
  {
    var r := Settle(st, token, status, now);
    if r.0 {
      assert SettledShape(st, token, status, now, r.1);
      SettledStateValid(st, token, status, now, r.1);
      SettledStateTracks(st, token, status, now, r.1);
    }
  }

  lemma SettledStateValid(st: LedgerState, token: BankToken, status: TxStatus, now: int, st': LedgerState)
    requires Valid(st) && token in st.processing && status != Pending
    requires SettledShape(st, token, status, now, st')
    ensures Valid(st')
  {
    var id := st.processing[token].transactionId;
    var t := st.transactions[id];
    if status == Success {
      BalanceChangeKeepsAccounts(st.accounts, st.accountOfUser, t.accountId, st.accounts[t.accountId].balance + t.amount);
    }
    StatusChangeKeepsTransactions(st.accounts.Keys, st.transactions, id, status);
    StatusChangeKeepsPurchases(st.accountOfUser, st.transactions, st.purchases, id, status);
    SettleKeepsProcessing(st.transactions, st.processing, token, status, now);
  }

  lemma SettledStateTracks(st: LedgerState, token: BankToken, status: TxStatus, now: int, st': LedgerState)
    requires Valid(st) && token in st.processing && status != Pending
    requires SettledShape(st, token, status, now, st')
    ensures BalanceTracksLedger(st, st') && LedgerEvolves(st, st')
  {
    var id := st.processing[token].transactionId;
    var t' := st.transactions[id].(status := status);
    forall a | a in st.accounts
      ensures st'.accounts[a].balance - st.accounts[a].balance ==
              NetEffect(st'.transactions, a) - NetEffect(st.transactions, a)
    {
      NetEffectUpdate(st.transactions, id, t', a);
    }
  }

  lemma BankWebhookConsistent(st: LedgerState, expectedSecret: Option<string>, headerSecret: Option<string>,
                              token: Option<string>, rawStatus: Option<string>, now: int)
    requires Valid(st)
    ensures var r := BankWebhook(st, expectedSecret, headerSecret, token, rawStatus, now);
      Valid(r.1) && BalanceTracksLedger(st, r.1) && LedgerEvolves(st, r.1)
  {
    var r := BankWebhook(st, expectedSecret, headerSecret, token, rawStatus, now);
    if r.0.WebhookSettled? {
      SettleConsistent(st, token.value, ParseWebhookStatus(rawStatus).value, now);
    }
  }

  /** The request headers and body under which the webhook gets past its checks for (token, status). */
  ghost predicate Admitted(st: LedgerState, expectedSecret: Option<string>, headerSecret: Option<string>,
                           token: BankToken, status: TxStatus, rawStatus: Option<string>)
  {
    && !(Present(expectedSecret) && headerSecret != Some(expectedSecret.value))
    && token != "" && token in st.processing
    && ParseWebhookStatus(rawStatus) == Some(status)
  }

  /**
   * Settling a PENDING deposit sets its status, stamps the processing row, and
   * credits the amount to its account exactly when the status is SUCCESS;
   * nothing else changes.
   */
  lemma WebhookSettlesPending(st: LedgerState, expectedSecret: Option<string>, headerSecret: Option<string>,
                              token: BankToken, status: TxStatus, rawStatus: Option<string>, now: int)
    requires Valid(st) && Admitted(st, expectedSecret, headerSecret, token, status, rawStatus)
    requires st.transactions[st.processing[token].transactionId].status == Pending
    ensures var r := BankWebhook(st, expectedSecret, headerSecret, Some(token), rawStatus, now);
      var id := st.processing[token].transactionId;
      var t := st.transactions[id];
      && r.0 == WebhookSettled(true)
      && r.1.transactions == st.transactions[id := t.(status := status)]
      && r.1.processing == st.processing[token := Processing(id, Some(now))]
      && r.1.accounts == (if status == Success
                          then st.accounts[t.accountId := st.accounts[t.accountId].(balance := st.accounts[t.accountId].balance + t.amount)]
                          else st.accounts)
      && r.1.purchases == st.purchases && r.1.accountOfUser == st.accountOfUser
  {
  }

  /**
   * Which answer `bankWebhook` gives past its secret check: 400 for a missing
   * token or a status that is not SUCCESS or FAILED once upper-cased, 404 for
   * an unknown token, "already settled" for a row that left PENDING, and a
   * settlement otherwise.
   */
  lemma WebhookRejectionRule(st: LedgerState, expectedSecret: Option<string>, headerSecret: Option<string>,
                             token: Option<string>, rawStatus: Option<string>, now: int)
    requires Valid(st)
    ensures var r := BankWebhook(st, expectedSecret, headerSecret, token, rawStatus, now);
      var passes := !(Present(expectedSecret) && headerSecret != Some(expectedSecret.value));
      && (r.0 == WebhookRejected(400, "Invalid webhook payload") <==>
            passes && (!Present(token) || ParseWebhookStatus(rawStatus).None?))
      && (r.0 == WebhookRejected(404, "Unknown bank token") <==>
            passes && Present(token) && ParseWebhookStatus(rawStatus).Some? && token.value !in st.processing)
      && (r.0 == WebhookAlreadySettled <==>
            && passes && Present(token) && ParseWebhookStatus(rawStatus).Some? && token.value in st.processing
            && st.transactions[st.processing[token.value].transactionId].status != Pending)
      && (r.0.WebhookSettled? <==>
            && passes && Present(token) && ParseWebhookStatus(rawStatus).Some? && token.value in st.processing
            && st.transactions[st.processing[token.value].transactionId].status == Pending)
  {
  }

  /** A webhook for a transaction that is no longer PENDING answers "already settled" and writes nothing. */
  lemma WebhookIdempotentAfterSettlement(st: LedgerState, expectedSecret: Option<string>, headerSecret: Option<string>,
                                         token: BankToken, status: TxStatus, rawStatus: Option<string>, now: int)
    requires Valid(st) && Admitted(st, expectedSecret, headerSecret, token, status, rawStatus)
    requires st.transactions[st.processing[token].transactionId].status != Pending
    ensures BankWebhook(st, expectedSecret, headerSecret, Some(token), rawStatus, now) == (WebhookAlreadySettled, st)
  {
  }

  /**
   * Delivering the same webhook twice: the second delivery is acknowledged as
   * already settled and changes nothing, so a SUCCESS credits the account
   * exactly once.
   */
  lemma {:induction false} WebhookReplayCreditsOnce(st: LedgerState, expectedSecret: Option<string>, headerSecret: Option<string>,
                                                    token: BankToken, status: TxStatus, rawStatus: Option<string>,
                                                    now1: int, now2: int)
    requires Valid(st) && Admitted(st, expectedSecret, headerSecret, token, status, rawStatus)
    requires st.transactions[st.processing[token].transactionId].status == Pending
    ensures var first := BankWebhook(st, expectedSecret, headerSecret, Some(token), rawStatus, now1);
      first.0 == WebhookSettled(true) && Valid(first.1)
    ensures var first := BankWebhook(st, expectedSecret, headerSecret, Some(token), rawStatus, now1);
      var second := BankWebhook(first.1, expectedSecret, headerSecret, Some(token), rawStatus, now2);
      var t := st.transactions[st.processing[token].transactionId];
      && second == (WebhookAlreadySettled, first.1)
      && second.1.accounts[t.accountId].balance ==
         st.accounts[t.accountId].balance + (if status == Success then t.amount else 0)
  {
    var first := BankWebhook(st, expectedSecret, headerSecret, Some(token), rawStatus, now1);
    var id := st.processing[token].transactionId;
    WebhookSettlesPending(st, expectedSecret, headerSecret, token, status, rawStatus, now1);
    BankWebhookConsistent(st, expectedSecret, headerSecret, Some(token), rawStatus, now1);
    var st1 := first.1;
    assert st1.processing[token].transactionId == id;
    assert st1.transactions[id].status == status;
    assert Admitted(st1, expectedSecret, headerSecret, token, status, rawStatus);
    WebhookIdempotentAfterSettlement(st1, expectedSecret, headerSecret, token, status, rawStatus, now2);
  }

  /**
   * Two settlements that both read the transaction as PENDING before either
   * ran its atomic unit: the second conditional update matches nothing, so it
   * reports `settled: false` and writes nothing.
   */
  lemma {:induction false} SettleAtMostOnce(st: LedgerState, token: BankToken, s1: TxStatus, s2: TxStatus, now1: int, now2: int)
    requires Valid(st) && token in st.processing && s1 != Pending && s2 != Pending
    requires st.transactions[st.processing[token].transactionId].status == Pending
    ensures var first := Settle(st, token, s1, now1);
      first.0 && token in first.1.processing && Valid(first.1) && Settle(first.1, token, s2, now2) == (false, first.1)
  {
    SettleConsistent(st, token, s1, now1);
  }

  // ---------------------------------------------------------------- withdrawal

  /** What phase one writes when it opens the withdrawal, and that an abort writes nothing. */
  lemma WithdrawDebitShape(st: LedgerState, userId: UserId, amount: int, reference: string)
    ensures var r := WithdrawDebit(st, userId, amount, reference);
      && (r.0.Aborted? ==> r.1 == st)
      && (r.0.Opened? <==> CanAfford(st, userId, amount) && !ReferenceTaken(st.transactions, reference))
      && (r.0.Opened? ==>
            var a := st.accountOfUser[userId];
            && r.0.pending == PendingWithdraw(|st.transactions|, a, st.accounts[a].balance - amount)
            && DebitedShape(st, Transaction(a, amount, Withdraw, Pending, reference), r.1))
  {
  }

  lemma WithdrawDebitConsistent(st: LedgerState, userId: UserId, amount: int, reference: string)
    requires Valid(st) && amount > 0
    ensures var r := WithdrawDebit(st, userId, amount, reference);
      Valid(r.1) && BalanceTracksLedger(st, r.1) && LedgerEvolves(st, r.1)
  {
    var r := WithdrawDebit(st, userId, amount, reference);
    WithdrawDebitShape(st, userId, amount, reference);
    if r.0.Opened? {
      var a := st.accountOfUser[userId];
      DebitAppendConsistent(st, Transaction(a, amount, Withdraw, Pending, reference), r.1);
    }
  }

  /** The phase-two update of an accepted withdrawal: PENDING -> SUCCESS on its WITHDRAW row. */
  lemma CompleteWithdrawConsistent(st: LedgerState, id: TxId)
    requires Valid(st) && id < |st.transactions|
    requires st.transactions[id].txType == Withdraw && st.transactions[id].status == Pending
    ensures var st' := UpdateStatus(st, id, Success);
      Valid(st') && BalanceTracksLedger(st, st') && LedgerEvolves(st, st')
  {
    assert WithdrawSettledShape(st, id, Success, UpdateStatus(st, id, Success));
    WithdrawSettledConsistent(st, id, Success, UpdateStatus(st, id, Success));
  }

  /** The compensating reversal of a WITHDRAW row, with the amount and account that row carries. */
  lemma ReverseWithdrawConsistent(st: LedgerState, p: PendingWithdraw, amount: int)
    requires Valid(st) && p.transactionId < |st.transactions|
    requires var t := st.transactions[p.transactionId];
      t.txType == Withdraw && t.accountId == p.accountId && t.amount == amount
    ensures var st' := ReverseWithdraw(st, p, amount);
      Valid(st') && BalanceTracksLedger(st, st') && LedgerEvolves(st, st')
  {
    var id := p.transactionId;
    var st' := ReverseWithdraw(st, p, amount);
    if st.transactions[id].status == Pending {
      assert WithdrawSettledShape(st, id, Failed, st');
      WithdrawSettledConsistent(st, id, Failed, st');
    }
  }

  /** Running the reversal again (a concurrent or repeated compensation) changes nothing: the refund happens once. */
  lemma ReverseWithdrawIdempotent(st: LedgerState, p: PendingWithdraw, amount: int)
    requires p.accountId in st.accounts
    ensures var once := ReverseWithdraw(st, p, amount);
      p.accountId in once.accounts && ReverseWithdraw(once, p, amount) == once
  {
  }

  /** The store after the bank's answer to an opened withdrawal: completed, or reversed. */
  function SettleWithdraw(st: LedgerState, p: PendingWithdraw, amount: int, reply: WithdrawReply): LedgerState
    requires p.transactionId < |st.transactions| && p.accountId in st.accounts
  {
    if reply == WithdrawReplied(true) then UpdateStatus(st, p.transactionId, Success) else ReverseWithdraw(st, p, amount)
  }

  lemma SettleWithdrawConsistent(st: LedgerState, p: PendingWithdraw, amount: int, reply: WithdrawReply)
    requires Valid(st) && p.transactionId < |st.transactions| && p.accountId in st.accounts
    requires var t := st.transactions[p.transactionId];
      t.txType == Withdraw && t.status == Pending && t.accountId == p.accountId && t.amount == amount
    ensures var st' := SettleWithdraw(st, p, amount, reply);
      Valid(st') && BalanceTracksLedger(st, st') && LedgerEvolves(st, st')
  {
    if reply == WithdrawReplied(true) {
      CompleteWithdrawConsistent(st, p.transactionId);
    } else {
      ReverseWithdrawConsistent(st, p, amount);
    }
  }

  lemma WithdrawSagaConsistent(st: LedgerState, userId: UserId, amount: int, reference: string, reply: WithdrawReply)
    requires Valid(st) && amount > 0
    ensures var r := WithdrawSaga(st, userId, amount, reference, reply);
      Valid(r.1) && BalanceTracksLedger(st, r.1) && LedgerEvolves(st, r.1)
  {
    var (debit, st1) := WithdrawDebit(st, userId, amount, reference);
    WithdrawDebitConsistent(st, userId, amount, reference);
    WithdrawDebitShape(st, userId, amount, reference);
    if debit.Opened? {
      var p := debit.pending;
      var st2 := SettleWithdraw(st1, p, amount, reply);
      assert WithdrawSaga(st, userId, amount, reference, reply).1 == st2;
      SettleWithdrawConsistent(st1, p, amount, reply);
      TracksTransitive(st, st1, st2);
      EvolvesTransitive(st, st1, st2);
    }
  }

  lemma WithdrawTransactionConsistent(st: LedgerState, userId: Option<UserId>, rawAmount: AmountParsing.RawAmount,
                                      reference: string, reply: WithdrawReply)
    requires Valid(st)
    ensures var r := WithdrawTransaction(st, userId, rawAmount, reference, reply);
      Valid(r.1) && BalanceTracksLedger(st, r.1) && LedgerEvolves(st, r.1)
  {
    var amount := AmountParsing.ParseAmount(rawAmount);
    if Present(userId) && amount.Some? {
      WithdrawSagaConsistent(st, userId.value, amount.value, reference, reply);
    }
  }

  /** Insufficient balance: 400 and the atomic unit leaves no transaction row and no debit behind. */
  lemma WithdrawInsufficientBalance(st: LedgerState, userId: UserId, amount: int, reference: string, reply: WithdrawReply)
    requires userId in st.accountOfUser && !CanAfford(st, userId, amount)
    ensures WithdrawSaga(st, userId, amount, reference, reply) == (WithdrawRejected(400, "Insufficient balance"), st)
  {
  }

  /**
   * The catch block before any reversal is due, in both directions: 404 with
   * nothing written exactly without an account, 400 "Insufficient balance"
   * with nothing written exactly when the account does not cover the amount,
   * and 502 "Unable to complete withdraw" with nothing written exactly when
   * the amount is covered but the reference is taken.
   */
  lemma WithdrawAbortRule(st: LedgerState, userId: UserId, amount: int, reference: string, reply: WithdrawReply)
    ensures WithdrawSaga(st, userId, amount, reference, reply) == (WithdrawRejected(404, "Account not found"), st)
      <==> userId !in st.accountOfUser
    ensures WithdrawSaga(st, userId, amount, reference, reply) == (WithdrawRejected(400, "Insufficient balance"), st)
      <==> userId in st.accountOfUser && !CanAfford(st, userId, amount)
    ensures WithdrawSaga(st, userId, amount, reference, reply) == (WithdrawRejected(502, "Unable to complete withdraw"), st)
      <==> CanAfford(st, userId, amount) && ReferenceTaken(st.transactions, reference)
  {
    var r := WithdrawSaga(st, userId, amount, reference, reply);
    var (debit, st1) := WithdrawDebit(st, userId, amount, reference);
    if debit.Opened? {
      var p := debit.pending;
      assert |st1.transactions| == |st.transactions| + 1;
      assert |r.1.transactions| == |st1.transactions|;
    }
  }

  /** A user without an account: 404 and nothing written. */
  lemma WithdrawNoAccount(st: LedgerState, userId: UserId, amount: int, reference: string, reply: WithdrawReply)
    requires userId !in st.accountOfUser
    ensures WithdrawSaga(st, userId, amount, reference, reply) == (WithdrawRejected(404, "Account not found"), st)
  {
  }

  /**
   * Accepted by the bank: the balance drops by exactly the amount, one
   * SUCCESS WITHDRAW row is added, and the reported balance is the new one.
   */
  lemma WithdrawAccepted(st: LedgerState, userId: UserId, amount: int, reference: string)
    requires CanAfford(st, userId, amount) && !ReferenceTaken(st.transactions, reference)
    ensures var a := st.accountOfUser[userId];
      var r := WithdrawSaga(st, userId, amount, reference, WithdrawReplied(true));
      && r.0 == WithdrawCompleted(reference, Decimal.RenderSigned(st.accounts[a].balance - amount))
      && r.1.accounts == st.accounts[a := st.accounts[a].(balance := st.accounts[a].balance - amount)]
      && r.1.transactions == st.transactions + [Transaction(a, amount, Withdraw, Success, reference)]
      && r.1.processing == st.processing && r.1.purchases == st.purchases
  {
    WithdrawDebitShape(st, userId, amount, reference);
    var a := st.accountOfUser[userId];
    var r := WithdrawSaga(st, userId, amount, reference, WithdrawReplied(true));
    assert r.1.transactions == (st.transactions + [Transaction(a, amount, Withdraw, Pending, reference)])[|st.transactions| := Transaction(a, amount, Withdraw, Success, reference)];
  }

  /**
   * Rejected by the bank, or the bank call failed, after the debit: the
   * compensating reversal leaves every balance as it was before the request
   * and the new WITHDRAW row FAILED.
   */
  lemma WithdrawFailureRestoresBalance(st: LedgerState, userId: UserId, amount: int, reference: string, reply: WithdrawReply)
    requires reply != WithdrawReplied(true) && CanAfford(st, userId, amount)
    requires !ReferenceTaken(st.transactions, reference)
    ensures var a := st.accountOfUser[userId];
      var r := WithdrawSaga(st, userId, amount, reference, reply);
      && r.0.WithdrawRejected? && r.0.status == 502
      && r.1.accounts == st.accounts
      && r.1.transactions == st.transactions + [Transaction(a, amount, Withdraw, Failed, reference)]
      && r.1.processing == st.processing && r.1.purchases == st.purchases
  {
    WithdrawDebitShape(st, userId, amount, reference);
    var a := st.accountOfUser[userId];
    var r := WithdrawSaga(st, userId, amount, reference, reply);
    assert r.1.transactions == (st.transactions + [Transaction(a, amount, Withdraw, Pending, reference)])[|st.transactions| := Transaction(a, amount, Withdraw, Failed, reference)];
    assert r.1.accounts[a] == st.accounts[a];
  }

  /** A reference already in use: the row's insert throws, the unit rolls back, and the handler answers 502. */
  lemma WithdrawDuplicateReference(st: LedgerState, userId: UserId, amount: int, reference: string, reply: WithdrawReply)
    requires CanAfford(st, userId, amount) && ReferenceTaken(st.transactions, reference)
    ensures WithdrawSaga(st, userId, amount, reference, reply) == (WithdrawRejected(502, "Unable to complete withdraw"), st)
  {
  }

  // ---------------------------------------------------------------- round trip

  /**
   * A deposit followed by a SUCCESS webhook for its token, with a header
   * that passes the secret check, credits the account by exactly the
   * deposited amount; a FAILED webhook leaves the balance as it was and the
   * transaction FAILED.
   */
  lemma {:induction false} DepositThenSettle(st: LedgerState, userId: UserId, rawAmount: AmountParsing.RawAmount,
                                             reference: string, reply: OrderReply, secret: Option<string>,
                                             headerSecret: Option<string>, status: TxStatus, now: int)
    requires Valid(st) && status != Pending
    requires !(Present(secret) && headerSecret != Some(secret.value))
    requires DepositTransaction(st, Some(userId), rawAmount, reference, reply).0.DepositCreated?
    ensures Valid(DepositTransaction(st, Some(userId), rawAmount, reference, reply).1)
    ensures var d := DepositTransaction(st, Some(userId), rawAmount, reference, reply);
      var a := st.accountOfUser[userId];
      var amount := AmountParsing.ParseAmount(rawAmount).value;
      var w := BankWebhook(d.1, secret, headerSecret, Some(d.0.bankToken), Some(StatusName(status)), now);
      && w.0 == WebhookSettled(true)
      && |st.transactions| < |w.1.transactions| && w.1.transactions[|st.transactions|].status == status
      && a in st.accounts && a in w.1.accounts
      && w.1.accounts[a].balance == st.accounts[a].balance + (if status == Success then amount else 0)
  {
    var d := DepositTransaction(st, Some(userId), rawAmount, reference, reply);
    DepositTransactionConsistent(st, Some(userId), rawAmount, reference, reply);
    StatusNameAccepted(status);
    WebhookSettlesPending(d.1, secret, headerSecret, d.0.bankToken, status, Some(StatusName(status)), now);
  }

  /** The status names the bank sends are the ones the webhook accepts, and they mean the same status. */
  lemma StatusNameAccepted(s: TxStatus)
    requires s != Pending
    ensures ParseWebhookStatus(Some(StatusName(s))) == Some(s)
  {
    var n := StatusName(s);
    assert ToUpper(n) == n by { UpperIdentity(n); }
  }

  /** Upper case letters are left alone by `toUpperCase`. */
  lemma {:induction false} UpperIdentity(s: string)
    requires forall i :: 0 <= i < |s| ==> 'A' <= s[i] <= 'Z'
    ensures ToUpper(s) == s
  {
    if |s| > 0 {
      var init, last := s[..|s| - 1], s[|s| - 1];
      UpperIdentity(init);
      UpperLetterKept(last);
      assert s == init + [last];
    }
  }

  /** An upper-case ASCII letter upper-cases to itself. */
  lemma UpperLetterKept(c: char)
    requires 'A' <= c <= 'Z'
    ensures UpperChar(c) == [c]
  {
  }

  /** No lower-case ASCII letter survives `toUpperCase`. */
  lemma {:induction false} UpperNoLowercase(s: string)
    ensures forall i :: 0 <= i < |ToUpper(s)| ==> !('a' <= ToUpper(s)[i] <= 'z')
  {
    if |s| > 0 {
      UpperNoLowercase(s[..|s| - 1]);
    }
  }

  // ---------------------------------------------------------------- listing

  /**
   * The listing a user with an account gets: at most twenty of the account's
   * own rows, newest first, each amount written in plain decimal digits that
   * read back as the row's amount.
   */
  lemma ListedAmountsReadBack(st: LedgerState, userId: UserId)
    requires Valid(st) && userId != "" && userId in st.accountOfUser
    ensures GetTransactions(st, Some(userId)).TransactionList?
    ensures var vs := GetTransactions(st, Some(userId)).views;
      && |vs| <= RecentLimit
      && forall k :: 0 <= k < |vs| ==>
           && vs[k].id < |st.transactions| && st.transactions[vs[k].id].accountId == st.accountOfUser[userId]
           && Decimal.Canonical(vs[k].amount) && Decimal.Value(vs[k].amount) == st.transactions[vs[k].id].amount
  {
    var txs := st.transactions;
    var vs := Recent(txs, st.accountOfUser[userId], RecentLimit);
    RecentSoundAndOrdered(txs, st.accountOfUser[userId], RecentLimit);
    forall k | 0 <= k < |vs|
      ensures Decimal.Canonical(vs[k].amount) && Decimal.Value(vs[k].amount) == txs[vs[k].id].amount
    {
      var amount := txs[vs[k].id].amount;
      assert amount > 0;
      Decimal.ValueOfRender(amount);
    }
  }
}
