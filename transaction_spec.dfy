/**
 * What the ledger's transaction handlers do, as functions from the store
 * before a request to the response and the store after it. Each
 * `db.$transaction` block is one function that either returns the store with
 * all of its writes or reports the error and leaves the store as it was.
 * The bank's replies, the random references and the clock are inputs.
 */
module TransactionSpec {
  import opened Wrappers
  import opened LedgerModel
  import AmountParsing
  import Decimal

  /** Rows read per page by `getTransactions`. */
  const RecentLimit: nat := 20

  // ---------------------------------------------------------------- webhook status

  /**
   * `String.prototype.toUpperCase` on one character: the ASCII letters, and
   * every other character whose upper case contains one of the letters of
   * SUCCESS or FAILED. Any other character is kept; its real upper case holds
   * no letter of either word, so keeping it cannot change whether a status
   * reads SUCCESS or FAILED.
   */
  function UpperChar(c: char): string
  {
    if 'a' <= c <= 'z' then [((c as int) - 32) as char]
    else if c == '\U{00DF}' then "SS"       // sharp s
    else if c == '\U{017F}' then "S"        // long s
    else if c == '\U{0131}' then "I"        // dotless i
    else if c == '\U{1E9A}' then "A\U{02BE}" // a with right half ring
    else if c == '\U{FB00}' then "FF"       // the Latin ligatures
    else if c == '\U{FB01}' then "FI"
    else if c == '\U{FB02}' then "FL"
    else if c == '\U{FB03}' then "FFI"
    else if c == '\U{FB04}' then "FFL"
    else if c == '\U{FB05}' || c == '\U{FB06}' then "ST"
    else [c]
  }

  /** `String.prototype.toUpperCase`: each character in turn; none is dropped. */
  function ToUpper(s: string): (r: string)
    ensures |r| >= |s|
  {
    if |s| == 0 then "" else ToUpper(s[..|s| - 1]) + UpperChar(s[|s| - 1])
  }

  /** `rawStatus?.toUpperCase()` checked against "SUCCESS" and "FAILED". */
  function ParseWebhookStatus(raw: Option<string>): (r: Option<TxStatus>)
    ensures r.Some? ==> r.value != Pending
  {
    if raw.None? then None
    else
      var upper := ToUpper(raw.value);
      if upper == "SUCCESS" then Some(Success)
      else if upper == "FAILED" then Some(Failed)
      else None
  }

  /** A status's name in the ledger's schema, the spelling the webhook compares its upper-cased status with. */
  function StatusName(s: TxStatus): string
  {
    match s
    case Pending => "PENDING"
    case Success => "SUCCESS"
    case Failed => "FAILED"
  }

  // ---------------------------------------------------------------- deposit

  /** The bank's answer to `POST /api/bank/create-order`: a body with an optional `bank_token`, or a thrown error. */
  datatype OrderReply = OrderReplied(bankToken: Option<string>) | OrderCallFailed

  datatype DepositResponse =
    | DepositCreated(reference: string, bankToken: string)
    | DepositRejected(status: int, error: string)

  /** The atomic unit of `depositTransaction`: a PENDING DEPOSIT row and the processing row tying the bank token to it. */
  function DepositUnit(st: LedgerState, accountId: AccountId, amount: int, reference: string, token: BankToken): (r: Option<LedgerState>)
    ensures r.Some? <==> !ReferenceTaken(st.transactions, reference) && token !in st.processing
    ensures r.Some? ==>
      && r.value.transactions == st.transactions + [Transaction(accountId, amount, Deposit, Pending, reference)]
      && r.value.processing == st.processing[token := Processing(|st.transactions|, None)]
      && r.value.accounts == st.accounts && r.value.accountOfUser == st.accountOfUser && r.value.purchases == st.purchases
  {
    match CreateTransaction(st, Transaction(accountId, amount, Deposit, Pending, reference))
    case None => None
    case Some(st1) => CreateProcessing(st1, token, |st.transactions|)
  }

  /** `depositTransaction` */
  function DepositTransaction(st: LedgerState, userId: Option<UserId>, rawAmount: AmountParsing.RawAmount,
                              reference: string, reply: OrderReply): (r: (DepositResponse, LedgerState))
    ensures r.0.DepositRejected? ==> r.1 == st
    ensures r.0.DepositCreated? ==>
      && Present(userId) && AmountParsing.ParseAmount(rawAmount).Some?
      && AccountOf(st, userId.value).Some?
      && reply == OrderReplied(Some(r.0.bankToken)) && r.0.bankToken != ""
      && r.0.reference == reference
      && r.1.transactions == st.transactions +
           [Transaction(AccountOf(st, userId.value).value, AmountParsing.ParseAmount(rawAmount).value, Deposit, Pending, reference)]
      && r.0.bankToken !in st.processing
      && r.1.processing == st.processing[r.0.bankToken := Processing(|st.transactions|, None)]
      && r.1.accounts == st.accounts && r.1.accountOfUser == st.accountOfUser && r.1.purchases == st.purchases
  {
    var amount := AmountParsing.ParseAmount(rawAmount);
    if !Present(userId) then (DepositRejected(401, "Unauthorized"), st)
    else if amount.None? then (DepositRejected(400, "Amount must be a positive integer."), st)
    else match AccountOf(st, userId.value)
      case None => (DepositRejected(404, "Account not found"), st)
      case Some(accountId) =>
        match reply
        case OrderCallFailed => (DepositRejected(502, "Unable to register deposit with bank API."), st)
        case OrderReplied(token) =>
          if !Present(token) then (DepositRejected(502, "Bank API did not return a bank token."), st)
          else match DepositUnit(st, accountId, amount.value, reference, token.value)
            case None => (DepositRejected(502, "Unable to register deposit with bank API."), st)
            case Some(st') => (DepositCreated(reference, token.value), st')
  }

  // ---------------------------------------------------------------- webhook

  datatype WebhookResponse =
    | WebhookRejected(status: int, error: string)
    | WebhookAlreadySettled
    | WebhookSettled(settled: bool)

  /**
   * The atomic unit of `bankWebhook`: the conditional PENDING -> status update,
   * the credit when the status is SUCCESS, and the settlement stamp; nothing
   * when the update matches no row.
   */
  function Settle(st: LedgerState, token: BankToken, status: TxStatus, now: int): (r: (bool, LedgerState))
    requires Valid(st) && token in st.processing
    ensures r.0 <==> st.transactions[st.processing[token].transactionId].status == Pending
    ensures !r.0 ==> r.1 == st
    ensures r.0 ==> |r.1.transactions| == |st.transactions| && r.1.transactions[st.processing[token].transactionId].status == status
  {
    var p := st.processing[token];
    var t := st.transactions[p.transactionId];
    var (count, st1) := UpdateStatusIfPending(st, p.transactionId, status);
    if count == 0 then (false, st)
    else
      var st2 := if status == Success then Increment(st1, t.accountId, t.amount) else st1;
      (true, StampSettled(st2, token, now))
  }

  /** `bankWebhook` */
  function BankWebhook(st: LedgerState, expectedSecret: Option<string>, headerSecret: Option<string>,
                   token: Option<string>, rawStatus: Option<string>, now: int): (r: (WebhookResponse, LedgerState))
    requires Valid(st)
    ensures !r.0.WebhookSettled? ==> r.1 == st
    ensures r.0 == WebhookRejected(401, "Invalid webhook signature") <==>
      Present(expectedSecret) && headerSecret != Some(expectedSecret.value)
  {
    if Present(expectedSecret) && headerSecret != Some(expectedSecret.value) then
      (WebhookRejected(401, "Invalid webhook signature"), st)
    else
      var status := ParseWebhookStatus(rawStatus);
      if !Present(token) || status.None? then (WebhookRejected(400, "Invalid webhook payload"), st)
      else if token.value !in st.processing then (WebhookRejected(404, "Unknown bank token"), st)
      else if st.transactions[st.processing[token.value].transactionId].status != Pending then
        (WebhookAlreadySettled, st)
      else
        var (settled, st') := Settle(st, token.value, status.value, now);
        (WebhookSettled(settled), st')
  }

  // ---------------------------------------------------------------- withdraw

  /** What the first atomic unit of `withdrawTransaction` hands to the rest of the handler (`pendingWithdraw`). */
  datatype PendingWithdraw = PendingWithdraw(transactionId: TxId, accountId: AccountId, balanceAfterDebit: int)

  /** An error thrown inside an atomic unit: the handler's own error with its status, or a database error value. */
  datatype UnitError = HandlerError(status: int, message: string) | DbError(thrown: ErrorValue)

  datatype DebitOutcome = Opened(pending: PendingWithdraw) | Aborted(error: UnitError)

  /** The bank's answer to `POST /api/bank/withdraw`: a body whose `accepted` is truthy or not, or a thrown error. */
  datatype WithdrawReply = WithdrawReplied(accepted: bool) | WithdrawCallFailed

  datatype WithdrawResponse =
    | WithdrawCompleted(reference: string, balance: string)
    | WithdrawRejected(status: int, error: string)

  /** Phase one of the withdrawal saga: the compare-and-decrement and the PENDING WITHDRAW row, in one atomic unit. */
  function WithdrawDebit(st: LedgerState, userId: UserId, amount: int, reference: string): (r: (DebitOutcome, LedgerState))
    ensures r.0.Aborted? ==> r.1 == st
    ensures r.0.Opened? ==>
      && AccountOf(st, userId) == Some(r.0.pending.accountId) && r.0.pending.accountId in st.accounts
      && r.0.pending.transactionId == |st.transactions|
      && r.1.transactions == st.transactions + [Transaction(r.0.pending.accountId, amount, Withdraw, Pending, reference)]
      && r.1.accounts == st.accounts[r.0.pending.accountId := st.accounts[r.0.pending.accountId].(balance := st.accounts[r.0.pending.accountId].balance - amount)]
  {
    match AccountOf(st, userId)
    case None => (Aborted(HandlerError(404, "Account not found")), st)
    case Some(accountId) =>
      var (count, st1) := DecrementIfCovered(st, accountId, amount);
      if count == 0 then (Aborted(HandlerError(400, "Insufficient balance")), st)
      else match CreateTransaction(st1, Transaction(accountId, amount, Withdraw, Pending, reference))
        case None => (Aborted(DbError(UniqueViolation)), st)
        case Some(st2) =>
          (Opened(PendingWithdraw(|st.transactions|, accountId, BalanceOf(st2, accountId))), st2)
  }

  /** The compensating reversal: PENDING -> FAILED, and the refund only if that update matched. */
  function ReverseWithdraw(st: LedgerState, pending: PendingWithdraw, amount: int): (r: LedgerState)
    requires pending.accountId in st.accounts
    ensures !(pending.transactionId < |st.transactions| && st.transactions[pending.transactionId].status == Pending) ==> r == st
    ensures pending.transactionId < |st.transactions| && st.transactions[pending.transactionId].status == Pending ==>
      && r.transactions == st.transactions[pending.transactionId := st.transactions[pending.transactionId].(status := Failed)]
      && r.accounts.Keys == st.accounts.Keys
      && r.accounts[pending.accountId].balance == st.accounts[pending.accountId].balance + amount
    ensures pending.transactionId < |st.transactions| && st.transactions[pending.transactionId].status == Pending ==>
      r == st.(transactions := st.transactions[pending.transactionId := st.transactions[pending.transactionId].(status := Failed)],
               accounts := st.accounts[pending.accountId := Account(st.accounts[pending.accountId].userId,
                                                                     st.accounts[pending.accountId].balance + amount)])
  {
    var (count, st1) := UpdateStatusIfPending(st, pending.transactionId, Failed);
    if count > 0 then Increment(st1, pending.accountId, amount) else st1
  }

  /** The response of the catch block for an error thrown before any reversal was due. */
  function AbortedResponse(e: UnitError): (r: WithdrawResponse)
    ensures e.HandlerError? ==> r == WithdrawRejected(e.status, e.message)
    ensures e.DbError? ==> r == WithdrawRejected(502, "Unable to complete withdraw")
  {
    match e
    case HandlerError(status, message) => WithdrawRejected(status, message)
    case DbError(_) => WithdrawRejected(502, "Unable to complete withdraw")
  }

  /**
   * `withdrawTransaction` once the caller and the amount are validated: the
   * debit, the bank call, then the completion or the compensating reversal.
   */
  function WithdrawSaga(st: LedgerState, userId: UserId, amount: int, reference: string,
                        reply: WithdrawReply): (r: (WithdrawResponse, LedgerState))
    ensures r.0.WithdrawCompleted? ==>
      && reply == WithdrawReplied(true) && r.0.reference == reference && userId in st.accountOfUser
      && r.1.transactions == st.transactions + [Transaction(st.accountOfUser[userId], amount, Withdraw, Success, reference)]
  {
    var (debit, st1) := WithdrawDebit(st, userId, amount, reference);
    match debit
    case Aborted(e) => (AbortedResponse(e), st1)
    case Opened(p) =>
      assert p.accountId in st1.accounts;
      match reply
      case WithdrawReplied(accepted) =>
        if accepted then
          (WithdrawCompleted(reference, Decimal.RenderSigned(p.balanceAfterDebit)), UpdateStatus(st1, p.transactionId, Success))
        else
          (WithdrawRejected(502, "Bank rejected withdrawal request."), ReverseWithdraw(st1, p, amount))
      case WithdrawCallFailed =>
        (WithdrawRejected(502, "Unable to complete withdraw"), ReverseWithdraw(st1, p, amount))
  }

  /** `withdrawTransaction` */
  function WithdrawTransaction(st: LedgerState, userId: Option<UserId>, rawAmount: AmountParsing.RawAmount,
                               reference: string, reply: WithdrawReply): (r: (WithdrawResponse, LedgerState))
    ensures !Present(userId) ==> r == (WithdrawRejected(401, "Unauthorized"), st)
    ensures Present(userId) && AmountParsing.ParseAmount(rawAmount).None? ==>
      r == (WithdrawRejected(400, "Amount must be a positive integer."), st)
    ensures r.0.WithdrawCompleted? ==>
      && Present(userId) && AmountParsing.ParseAmount(rawAmount).Some? && userId.value in st.accountOfUser
      && r.1.transactions == st.transactions +
           [Transaction(st.accountOfUser[userId.value], AmountParsing.ParseAmount(rawAmount).value, Withdraw, Success, reference)]
  {
    var amount := AmountParsing.ParseAmount(rawAmount);
    if !Present(userId) then (WithdrawRejected(401, "Unauthorized"), st)
    else if amount.None? then (WithdrawRejected(400, "Amount must be a positive integer."), st)
    else WithdrawSaga(st, userId.value, amount.value, reference, reply)
  }

  // ---------------------------------------------------------------- listing

  /** One listed row, with its amount rendered by `toString()`. */
  datatype TransactionView = TransactionView(id: TxId, txType: TxType, status: TxStatus, amount: string, reference: string)

  function ViewOf(txs: seq<Transaction>, i: TxId): TransactionView
    requires i < |txs|
  {
    TransactionView(i, txs[i].txType, txs[i].status, Decimal.RenderSigned(txs[i].amount), txs[i].reference)
  }

  /**
   * `transaction.findMany({ where: { accountId }, orderBy: { createdAt: "desc" }, take: limit })`.
   * Rows are created in id order, so newest first is descending id.
   */
  function Recent(txs: seq<Transaction>, accountId: AccountId, limit: nat): (r: seq<TransactionView>)
    ensures |r| <= limit
  {
    if limit == 0 || |txs| == 0 then []
    else
      var last := |txs| - 1;
      if txs[last].accountId == accountId then [ViewOf(txs, last)] + Recent(txs[..last], accountId, limit - 1)
      else Recent(txs[..last], accountId, limit)
  }

  /** Every listed row is one of the account's transactions, shown with its own fields, newest first. */
  lemma {:induction false} RecentSoundAndOrdered(txs: seq<Transaction>, accountId: AccountId, limit: nat)
    ensures forall k :: 0 <= k < |Recent(txs, accountId, limit)| ==>
      var v := Recent(txs, accountId, limit)[k];
      v.id < |txs| && txs[v.id].accountId == accountId && v == ViewOf(txs, v.id)
    ensures forall k, l :: 0 <= k < l < |Recent(txs, accountId, limit)| ==>
      Recent(txs, accountId, limit)[k].id > Recent(txs, accountId, limit)[l].id
  {
    if limit > 0 && |txs| > 0 {
      var last := |txs| - 1;
      var lim := if txs[last].accountId == accountId then limit - 1 else limit;
      RecentSoundAndOrdered(txs[..last], accountId, lim);
      var rest := Recent(txs[..last], accountId, lim);
      assert forall k :: 0 <= k < |rest| ==> rest[k].id < last && ViewOf(txs[..last], rest[k].id) == ViewOf(txs, rest[k].id);
    }
  }

  /**
   * Nothing newer is skipped: each of the account's transactions is listed
   * unless the page is full and that transaction is older than the last one shown.
   */
  lemma {:induction false} RecentComplete(txs: seq<Transaction>, accountId: AccountId, limit: nat, i: TxId)
    requires i < |txs| && txs[i].accountId == accountId
    requires var r := Recent(txs, accountId, limit); |r| < limit || (|r| > 0 && r[|r| - 1].id < i)
    ensures exists k :: 0 <= k < |Recent(txs, accountId, limit)| && Recent(txs, accountId, limit)[k].id == i
  {
    var r := Recent(txs, accountId, limit);
    var last := |txs| - 1;
    if txs[last].accountId == accountId {
      if i == last {
        assert r[0].id == i;
      } else {
        var rest := Recent(txs[..last], accountId, limit - 1);
        assert r == [ViewOf(txs, last)] + rest;
        RecentComplete(txs[..last], accountId, limit - 1, i);
        var k :| 0 <= k < |rest| && rest[k].id == i;
        assert r[k + 1].id == i;
      }
    } else {
      RecentComplete(txs[..last], accountId, limit, i);
    }
  }

  datatype TransactionsResponse =
    | TransactionList(views: seq<TransactionView>)
    | TransactionsRejected(status: int, error: string)

  /** `getTransactions` */
  function GetTransactions(st: LedgerState, userId: Option<UserId>): (r: TransactionsResponse)
    ensures r.TransactionList? <==> Present(userId) && userId.value in st.accountOfUser
    ensures r.TransactionList? ==> |r.views| <= RecentLimit
    ensures !Present(userId) ==> r == TransactionsRejected(401, "Unauthorized")
    ensures Present(userId) && userId.value !in st.accountOfUser ==> r == TransactionsRejected(404, "Account not found")
  {
    if !Present(userId) then TransactionsRejected(401, "Unauthorized")
    else match AccountOf(st, userId.value)
      case None => TransactionsRejected(404, "Account not found")
      case Some(accountId) => TransactionList(Recent(st.transactions, accountId, RecentLimit))
  }
}
