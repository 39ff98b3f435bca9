/**
 * The ledger database as a value: accounts (with the unique index on userId),
 * the append-only transaction table, the processing rows that tie a bank
 * token to a deposit, and the asset purchases. The primitive queries the
 * handlers issue (conditional `updateMany`, `update`, `create` under unique
 * constraints) are functions on this value; the invariant `Valid` holds
 * between atomic units.
 */
module LedgerModel {
  import opened Wrappers

  type AccountId = string
  type UserId = string
  type BankToken = string
  /** A transaction's id is its position in the append-only table. */
  type TxId = nat

  datatype TxType = Deposit | Withdraw | TransferOut
  datatype TxStatus = Pending | Success | Failed

  datatype Account = Account(userId: UserId, balance: int)
  datatype Transaction = Transaction(accountId: AccountId, amount: int, txType: TxType, status: TxStatus, reference: string)
  datatype Processing = Processing(transactionId: TxId, settledAt: Option<int>)
  datatype PurchaseKey = PurchaseKey(userId: UserId, assetId: string)
  datatype AssetPurchase = AssetPurchase(transactionId: TxId, assetName: string, price: int)

  datatype LedgerState = LedgerState(
    accounts: map<AccountId, Account>,
    accountOfUser: map<UserId, AccountId>,
    transactions: seq<Transaction>,
    processing: map<BankToken, Processing>,
    purchases: map<PurchaseKey, AssetPurchase>)

  /** What a query throws: a JavaScript value; Prisma's known errors are objects with a string `code`. */
  datatype CodeField = NoCode | StringCode(s: string) | OtherCode
  datatype ErrorValue = Falsy | NonObject | ErrorObject(code: CodeField)

  /** Prisma's error for a violated unique constraint. */
  const UniqueViolation: ErrorValue := ErrorObject(StringCode("P2002"))

  // ---------------------------------------------------------------- invariant

  ghost predicate BalancesNonNegative(accounts: map<AccountId, Account>)
  {
    forall a :: a in accounts ==> accounts[a].balance >= 0
  }

  /** `userId` is a unique column of Account: the index and the rows agree both ways. */
  ghost predicate UserIndexConsistent(accounts: map<AccountId, Account>, accountOfUser: map<UserId, AccountId>)
  {
    && (forall u :: u in accountOfUser ==> accountOfUser[u] in accounts && accounts[accountOfUser[u]].userId == u)
    && (forall a :: a in accounts ==> accounts[a].userId in accountOfUser && accountOfUser[accounts[a].userId] == a)
  }

  /** Rows belong to existing accounts, move positive amounts, and have pairwise distinct references. */
  ghost predicate TransactionsWellFormed(accountIds: set<AccountId>, txs: seq<Transaction>)
  {
    && (forall i :: 0 <= i < |txs| ==>
          && txs[i].accountId in accountIds
          && txs[i].amount > 0
          && (txs[i].txType == TransferOut ==> txs[i].status == Success))
    && (forall i, j :: 0 <= i < j < |txs| ==> txs[i].reference != txs[j].reference)
  }

  /**
   * Each processing row points at its own DEPOSIT transaction, and carries a
   * settlement stamp exactly when that transaction has left PENDING.
   */
  ghost predicate ProcessingWellFormed(txs: seq<Transaction>, processing: map<BankToken, Processing>)
  {
    && (forall t :: t in processing ==>
          && processing[t].transactionId < |txs|
          && txs[processing[t].transactionId].txType == Deposit
          && (processing[t].settledAt.Some? <==> txs[processing[t].transactionId].status != Pending))
    && (forall t, u :: t in processing && u in processing && t != u ==>
          processing[t].transactionId != processing[u].transactionId)
  }

  /** Each purchase is paid by its own TRANSFER_OUT of the buyer's account, of the price. */
  ghost predicate PurchasesWellFormed(accountOfUser: map<UserId, AccountId>, txs: seq<Transaction>,
                                      purchases: map<PurchaseKey, AssetPurchase>)
  {
    && (forall k :: k in purchases ==>
          && purchases[k].transactionId < |txs|
          && txs[purchases[k].transactionId].txType == TransferOut
          && txs[purchases[k].transactionId].amount == purchases[k].price
          && k.userId in accountOfUser
          && txs[purchases[k].transactionId].accountId == accountOfUser[k.userId])
    && (forall k, l :: k in purchases && l in purchases && k != l ==>
          purchases[k].transactionId != purchases[l].transactionId)
  }

  ghost predicate Valid(st: LedgerState)
  {
    && BalancesNonNegative(st.accounts)
    && UserIndexConsistent(st.accounts, st.accountOfUser)
    && TransactionsWellFormed(st.accounts.Keys, st.transactions)
    && ProcessingWellFormed(st.transactions, st.processing)
    && PurchasesWellFormed(st.accountOfUser, st.transactions, st.purchases)
  }

  // ---------------------------------------------------------------- frame lemmas for the invariant

  lemma BalanceChangeKeepsAccounts(accounts: map<AccountId, Account>, accountOfUser: map<UserId, AccountId>, a: AccountId, b: int)
    requires BalancesNonNegative(accounts) && UserIndexConsistent(accounts, accountOfUser)
    requires a in accounts && b >= 0
    ensures var accounts' := accounts[a := accounts[a].(balance := b)];
      BalancesNonNegative(accounts') && UserIndexConsistent(accounts', accountOfUser) && accounts'.Keys == accounts.Keys
  {
  }

  lemma AppendKeepsTransactions(accountIds: set<AccountId>, txs: seq<Transaction>, t: Transaction)
    requires TransactionsWellFormed(accountIds, txs)
    requires t.accountId in accountIds && t.amount > 0 && (t.txType == TransferOut ==> t.status == Success)
    requires !ReferenceTaken(txs, t.reference)
    ensures TransactionsWellFormed(accountIds, txs + [t])
  {
  }

  lemma AppendKeepsProcessing(txs: seq<Transaction>, processing: map<BankToken, Processing>, t: Transaction)
    requires ProcessingWellFormed(txs, processing)
    ensures ProcessingWellFormed(txs + [t], processing)
  {
  }

  lemma AppendKeepsPurchases(accountOfUser: map<UserId, AccountId>, txs: seq<Transaction>,
                             purchases: map<PurchaseKey, AssetPurchase>, t: Transaction)
    requires PurchasesWellFormed(accountOfUser, txs, purchases)
    ensures PurchasesWellFormed(accountOfUser, txs + [t], purchases)
  {
  }

  lemma StatusChangeKeepsTransactions(accountIds: set<AccountId>, txs: seq<Transaction>, id: TxId, s: TxStatus)
    requires TransactionsWellFormed(accountIds, txs) && id < |txs|
    requires txs[id].txType == TransferOut ==> s == Success
    ensures TransactionsWellFormed(accountIds, txs[id := txs[id].(status := s)])
  {
    var txs' := txs[id := txs[id].(status := s)];
    assert forall i :: 0 <= i < |txs| ==> SameRecord(txs[i], txs'[i]);
  }

  lemma StatusChangeKeepsPurchases(accountOfUser: map<UserId, AccountId>, txs: seq<Transaction>,
                                   purchases: map<PurchaseKey, AssetPurchase>, id: TxId, s: TxStatus)
    requires PurchasesWellFormed(accountOfUser, txs, purchases) && id < |txs|
    ensures PurchasesWellFormed(accountOfUser, txs[id := txs[id].(status := s)], purchases)
  {
    var txs' := txs[id := txs[id].(status := s)];
    assert forall i :: 0 <= i < |txs| ==> SameRecord(txs[i], txs'[i]);
  }

  /** Changing the status of a row that is not a deposit does not concern any processing row. */
  lemma StatusChangeKeepsProcessing(txs: seq<Transaction>, processing: map<BankToken, Processing>, id: TxId, s: TxStatus)
    requires ProcessingWellFormed(txs, processing) && id < |txs| && txs[id].txType != Deposit
    ensures ProcessingWellFormed(txs[id := txs[id].(status := s)], processing)
  {
  }

  /** Settling the deposit of one processing row, and stamping that row. */
  lemma SettleKeepsProcessing(txs: seq<Transaction>, processing: map<BankToken, Processing>,
                              token: BankToken, s: TxStatus, now: int)
    requires ProcessingWellFormed(txs, processing) && token in processing
    requires s != Pending && txs[processing[token].transactionId].status == Pending
    ensures var id := processing[token].transactionId;
      ProcessingWellFormed(txs[id := txs[id].(status := s)], processing[token := Processing(id, Some(now))])
  {
    var id := processing[token].transactionId;
    var txs' := txs[id := txs[id].(status := s)];
    var processing' := processing[token := Processing(id, Some(now))];
    forall u | u in processing'
      ensures processing'[u].transactionId < |txs'| && txs'[processing'[u].transactionId].txType == Deposit
      ensures processing'[u].settledAt.Some? <==> txs'[processing'[u].transactionId].status != Pending
    {
      if u != token {
        assert processing[u].transactionId != id;
      }
    }
  }

  /** A new processing row for the deposit row just appended at `id`. */
  lemma AddProcessingKeepsProcessing(txs: seq<Transaction>, processing: map<BankToken, Processing>, token: BankToken)
    requires |txs| > 0 && ProcessingWellFormed(txs[..|txs| - 1], processing) && token !in processing
    requires txs[|txs| - 1].txType == Deposit && txs[|txs| - 1].status == Pending
    ensures ProcessingWellFormed(txs, processing[token := Processing(|txs| - 1, None)])
  {
    var prefix := txs[..|txs| - 1];
    assert forall t :: t in processing ==> txs[processing[t].transactionId] == prefix[processing[t].transactionId];
  }

  /** A new purchase row paid by the TRANSFER_OUT row just appended. */
  lemma AddPurchaseKeepsPurchases(accountOfUser: map<UserId, AccountId>, txs: seq<Transaction>,
                                  purchases: map<PurchaseKey, AssetPurchase>, key: PurchaseKey, p: AssetPurchase)
    requires |txs| > 0 && PurchasesWellFormed(accountOfUser, txs[..|txs| - 1], purchases) && key !in purchases
    requires p.transactionId == |txs| - 1
    requires txs[|txs| - 1].txType == TransferOut && txs[|txs| - 1].amount == p.price
    requires key.userId in accountOfUser && txs[|txs| - 1].accountId == accountOfUser[key.userId]
    ensures PurchasesWellFormed(accountOfUser, txs, purchases[key := p])
  {
    var prefix := txs[..|txs| - 1];
    assert forall k :: k in purchases ==> txs[purchases[k].transactionId] == prefix[purchases[k].transactionId];
  }

  // ---------------------------------------------------------------- primitive queries

  /** `account.findUnique({ where: { userId } })` */
  function AccountOf(st: LedgerState, userId: UserId): Option<AccountId>
  {
    if userId in st.accountOfUser then Some(st.accountOfUser[userId]) else None
  }

  /** `account.findUnique({ where: { id } })?.balance ?? 0n` */
  function BalanceOf(st: LedgerState, id: AccountId): int
  {
    if id in st.accounts then st.accounts[id].balance else 0
  }

  /**
   * `account.updateMany({ where: { id, balance: { gte: amount } }, data: { balance: { decrement: amount } } })`:
   * one compare-and-decrement, returning the number of rows it matched.
   */
  function DecrementIfCovered(st: LedgerState, id: AccountId, amount: int): (r: (nat, LedgerState))
    ensures r.0 <= 1
    ensures r.0 == 1 <==> id in st.accounts && st.accounts[id].balance >= amount
    ensures r.0 == 0 ==> r.1 == st
    ensures r.0 == 1 ==> r.1 == st.(accounts := st.accounts[id := Account(st.accounts[id].userId, st.accounts[id].balance - amount)])
  {
    if id in st.accounts && st.accounts[id].balance >= amount then
      (1, st.(accounts := st.accounts[id := st.accounts[id].(balance := st.accounts[id].balance - amount)]))
    else
      (0, st)
  }

  /** `account.update({ where: { id }, data: { balance: { increment: amount } } })` */
  function Increment(st: LedgerState, id: AccountId, amount: int): (r: LedgerState)
    requires id in st.accounts
    ensures r == st.(accounts := st.accounts[id := Account(st.accounts[id].userId, st.accounts[id].balance + amount)])
  {
    st.(accounts := st.accounts[id := st.accounts[id].(balance := st.accounts[id].balance + amount)])
  }

  /** A user with an account whose balance covers `amount`: what a compare-and-decrement needs to match. */
  ghost predicate CanAfford(st: LedgerState, userId: UserId, amount: int)
  {
    userId in st.accountOfUser && st.accountOfUser[userId] in st.accounts &&
    st.accounts[st.accountOfUser[userId]].balance >= amount
  }

  predicate ReferenceTaken(txs: seq<Transaction>, reference: string)
  {
    exists i :: 0 <= i < |txs| && txs[i].reference == reference
  }

  /**
   * `transaction.create({ data })`: appends the row under the next id, or
   * throws a unique violation when its reference is already used.
   */
  function CreateTransaction(st: LedgerState, t: Transaction): (r: Option<LedgerState>)
    ensures r.None? <==> ReferenceTaken(st.transactions, t.reference)
    ensures r.Some? ==> r.value == st.(transactions := st.transactions + [t])
  {
    if ReferenceTaken(st.transactions, t.reference) then None
    else Some(st.(transactions := st.transactions + [t]))
  }

  /** `transaction.updateMany({ where: { id, status: "PENDING" }, data: { status } })` */
  function UpdateStatusIfPending(st: LedgerState, id: TxId, status: TxStatus): (r: (nat, LedgerState))
    ensures r.0 <= 1
    ensures r.0 == 1 <==> id < |st.transactions| && st.transactions[id].status == Pending
    ensures r.0 == 0 ==> r.1 == st
    ensures r.0 == 1 ==> r.1 == st.(transactions := st.transactions[id := st.transactions[id].(status := status)])
  {
    if id < |st.transactions| && st.transactions[id].status == Pending then
      (1, st.(transactions := st.transactions[id := st.transactions[id].(status := status)]))
    else
      (0, st)
  }

  /** `transaction.update({ where: { id }, data: { status } })` */
  function UpdateStatus(st: LedgerState, id: TxId, status: TxStatus): (r: LedgerState)
    requires id < |st.transactions|
    ensures r == st.(transactions := st.transactions[id := st.transactions[id].(status := status)])
  {
    st.(transactions := st.transactions[id := st.transactions[id].(status := status)])
  }

  /** `processing.create({ data: { bankToken, transactionId } })`, unique on bankToken. */
  function CreateProcessing(st: LedgerState, token: BankToken, id: TxId): (r: Option<LedgerState>)
    ensures r.None? <==> token in st.processing
    ensures r.Some? ==> r.value == st.(processing := st.processing[token := Processing(id, None)])
  {
    if token in st.processing then None
    else Some(st.(processing := st.processing[token := Processing(id, None)]))
  }

  /** `processing.update({ where: { id }, data: { settledAt: now } })` */
  function StampSettled(st: LedgerState, token: BankToken, now: int): (r: LedgerState)
    requires token in st.processing
    ensures r == st.(processing := st.processing[token := Processing(st.processing[token].transactionId, Some(now))])
  {
    st.(processing := st.processing[token := st.processing[token].(settledAt := Some(now))])
  }

  /** `assetPurchase.create({ data })`, unique on (userId, assetId). */
  function CreatePurchase(st: LedgerState, key: PurchaseKey, p: AssetPurchase): (r: Option<LedgerState>)
    ensures r.None? <==> key in st.purchases
    ensures r.Some? ==> r.value == st.(purchases := st.purchases[key := p])
  {
    if key in st.purchases then None
    else Some(st.(purchases := st.purchases[key := p]))
  }

  // ---------------------------------------------------------------- balance effects

  /**
   * The balance effect a transaction row stands for: a deposit credits once it
   * is SUCCESS; a withdrawal has debited unless it ended FAILED (it debits when
   * opened PENDING); a transfer out has debited once SUCCESS.
   */
  function Effect(t: Transaction): int
  {
    match t.txType
    case Deposit => if t.status == Success then t.amount else 0
    case Withdraw => if t.status == Failed then 0 else -t.amount
    case TransferOut => if t.status == Success then -t.amount else 0
  }

  function Contribution(t: Transaction, a: AccountId): int
  {
    if t.accountId == a then Effect(t) else 0
  }

  /** The sum of the balance effects of one account's transactions. */
  function NetEffect(txs: seq<Transaction>, a: AccountId): int
  {
    if |txs| == 0 then 0 else NetEffect(txs[..|txs| - 1], a) + Contribution(txs[|txs| - 1], a)
  }

  lemma NetEffectAppend(txs: seq<Transaction>, t: Transaction, a: AccountId)
    ensures NetEffect(txs + [t], a) == NetEffect(txs, a) + Contribution(t, a)
  {
    assert (txs + [t])[..|txs|] == txs;
  }

  lemma {:induction false} NetEffectUpdate(txs: seq<Transaction>, i: nat, t: Transaction, a: AccountId)
    requires i < |txs|
    ensures NetEffect(txs[i := t], a) == NetEffect(txs, a) - Contribution(txs[i], a) + Contribution(t, a)
  {
    var n := |txs|;
    if i < n - 1 {
      assert txs[i := t][..n - 1] == txs[..n - 1][i := t];
      NetEffectUpdate(txs[..n - 1], i, t, a);
    } else {
      assert txs[i := t][..n - 1] == txs[..n - 1];
    }
  }

  /**
   * Balances move exactly as the transaction rows say: for every account, the
   * change in its balance equals the change in the net effect of its
   * transactions. No account appears or disappears, none changes owner.
   */
  ghost predicate BalanceTracksLedger(st: LedgerState, st': LedgerState)
  {
    && st'.accounts.Keys == st.accounts.Keys
    && forall a :: a in st.accounts ==>
         && st'.accounts[a].userId == st.accounts[a].userId
         && st'.accounts[a].balance - st.accounts[a].balance ==
            NetEffect(st'.transactions, a) - NetEffect(st.transactions, a)
  }

  /** Two rows are the same record, whatever their status. */
  predicate SameRecord(t: Transaction, u: Transaction)
  {
    t.accountId == u.accountId && t.amount == u.amount && t.txType == u.txType && t.reference == u.reference
  }

  /**
   * The store only grows: transactions are appended and never rewritten except
   * for leaving PENDING (a settled status is final); processing rows keep their
   * transaction and, once stamped, stay as they are; purchases are never
   * removed or changed.
   */
  ghost predicate LedgerEvolves(st: LedgerState, st': LedgerState)
  {
    && st'.accountOfUser == st.accountOfUser
    && |st.transactions| <= |st'.transactions|
    && (forall i :: 0 <= i < |st.transactions| ==>
          && SameRecord(st.transactions[i], st'.transactions[i])
          && (st.transactions[i].status != Pending ==> st'.transactions[i] == st.transactions[i]))
    && (forall t :: t in st.processing ==>
          && t in st'.processing
          && st'.processing[t].transactionId == st.processing[t].transactionId
          && (st.processing[t].settledAt.Some? ==> st'.processing[t] == st.processing[t]))
    && (forall k :: k in st.purchases ==> k in st'.purchases && st'.purchases[k] == st.purchases[k])
  }

  lemma EvolvesTransitive(s0: LedgerState, s1: LedgerState, s2: LedgerState)
    requires LedgerEvolves(s0, s1) && LedgerEvolves(s1, s2)
    ensures LedgerEvolves(s0, s2)
  {
  }

  lemma TracksTransitive(s0: LedgerState, s1: LedgerState, s2: LedgerState)
    requires BalanceTracksLedger(s0, s1) && BalanceTracksLedger(s1, s2)
    ensures BalanceTracksLedger(s0, s2)
  {
  }

  /** The store after a covered debit of one account together with a new row that records it. */
  ghost predicate DebitedShape(st: LedgerState, t: Transaction, st': LedgerState)
  {
    && t.accountId in st.accounts
    && st'.accounts == st.accounts[t.accountId := st.accounts[t.accountId].(balance := st.accounts[t.accountId].balance - t.amount)]
    && st'.accountOfUser == st.accountOfUser
    && st'.transactions == st.transactions + [t]
    && st'.processing == st.processing
    && st'.purchases == st.purchases
  }

  /** A covered debit recorded by a row whose balance effect is that debit moves balances as the rows say. */
  lemma DebitAppendTracks(st: LedgerState, t: Transaction, st': LedgerState)
    requires DebitedShape(st, t, st') && Effect(t) == -t.amount
    ensures BalanceTracksLedger(st, st')
  {
    forall a | a in st.accounts
      ensures st'.accounts[a].balance - st.accounts[a].balance == NetEffect(st'.transactions, a) - NetEffect(st.transactions, a)
    {
      NetEffectAppend(st.transactions, t, a);
    }
  }

  /**
   * A compare-and-decrement that matched, followed by a row whose balance
   * effect is that debit (a PENDING withdrawal or a SUCCESS transfer out),
   * keeps the store consistent.
   */
  lemma DebitAppendConsistent(st: LedgerState, t: Transaction, st': LedgerState)
    requires Valid(st) && DebitedShape(st, t, st')
    requires t.amount > 0 && st.accounts[t.accountId].balance >= t.amount
    requires t.txType != Deposit && Effect(t) == -t.amount
    requires !ReferenceTaken(st.transactions, t.reference)
    ensures Valid(st') && BalanceTracksLedger(st, st') && LedgerEvolves(st, st')
  {
    DebitAppendTracks(st, t, st');
    BalanceChangeKeepsAccounts(st.accounts, st.accountOfUser, t.accountId, st.accounts[t.accountId].balance - t.amount);
    AppendKeepsTransactions(st.accounts.Keys, st.transactions, t);
    AppendKeepsProcessing(st.transactions, st.processing, t);
    AppendKeepsPurchases(st.accountOfUser, st.transactions, st.purchases, t);
  }

  /** The store after a PENDING withdrawal leaves PENDING: refunded when it fails. */
  ghost predicate WithdrawSettledShape(st: LedgerState, id: TxId, status: TxStatus, st': LedgerState)
    requires id < |st.transactions|
  {
    var t := st.transactions[id];
    && t.accountId in st.accounts
    && st'.accounts == (if status == Failed
      then st.accounts[t.accountId := st.accounts[t.accountId].(balance := st.accounts[t.accountId].balance + t.amount)]
      else st.accounts)
    && st'.accountOfUser == st.accountOfUser
    && st'.transactions == st.transactions[id := t.(status := status)]
    && st'.processing == st.processing
    && st'.purchases == st.purchases
  }

  /** Settling a PENDING withdrawal, with its refund when it fails, moves balances as the rows say. */
  lemma WithdrawSettledTracks(st: LedgerState, id: TxId, status: TxStatus, st': LedgerState)
    requires id < |st.transactions| && st.transactions[id].txType == Withdraw && st.transactions[id].status == Pending
    requires WithdrawSettledShape(st, id, status, st')
    ensures BalanceTracksLedger(st, st')
  {
    var t' := st.transactions[id].(status := status);
    forall a | a in st.accounts
      ensures st'.accounts[a].balance - st.accounts[a].balance == NetEffect(st'.transactions, a) - NetEffect(st.transactions, a)
    {
      NetEffectUpdate(st.transactions, id, t', a);
    }
  }

  /** Settling a PENDING withdrawal, with its refund when it fails, keeps the store invariant. */
  lemma WithdrawSettledValid(st: LedgerState, id: TxId, status: TxStatus, st': LedgerState)
    requires Valid(st) && id < |st.transactions|
    requires st.transactions[id].txType == Withdraw && st.transactions[id].status == Pending
    requires WithdrawSettledShape(st, id, status, st')
    ensures Valid(st')
  {
    var t := st.transactions[id];
    if status == Failed {
      BalanceChangeKeepsAccounts(st.accounts, st.accountOfUser, t.accountId, st.accounts[t.accountId].balance + t.amount);
    }
    StatusChangeKeepsTransactions(st.accounts.Keys, st.transactions, id, status);
    StatusChangeKeepsProcessing(st.transactions, st.processing, id, status);
    StatusChangeKeepsPurchases(st.accountOfUser, st.transactions, st.purchases, id, status);
  }

  lemma WithdrawSettledConsistent(st: LedgerState, id: TxId, status: TxStatus, st': LedgerState)
    requires Valid(st) && id < |st.transactions|
    requires st.transactions[id].txType == Withdraw && st.transactions[id].status == Pending
    requires WithdrawSettledShape(st, id, status, st')
    ensures Valid(st') && BalanceTracksLedger(st, st') && LedgerEvolves(st, st')
  {
    WithdrawSettledTracks(st, id, status, st');
    WithdrawSettledValid(st, id, status, st');
    assert forall i :: 0 <= i < |st.transactions| && i != id ==> st'.transactions[i] == st.transactions[i];
  }
}
