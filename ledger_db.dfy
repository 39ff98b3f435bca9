/**
 * The ledger database the handlers talk to, as an object whose five tables
 * are fields. Each method is one database call; its contract ties the new
 * contents to the matching operation of `LedgerModel` on the old contents,
 * so the handlers written against this class can be proved against the
 * functions of `TransactionSpec` and `AssetSpec`.
 */
module LedgerDb {
  import opened Wrappers
  import opened LedgerModel

  class Db {
    var accounts: map<AccountId, Account>
    var accountOfUser: map<UserId, AccountId>
    var transactions: seq<Transaction>
    var processing: map<BankToken, Processing>
    var purchases: map<PurchaseKey, AssetPurchase>

    /** The contents of every table, as one value. */
    function Snapshot(): LedgerState
      reads this
    {
      LedgerState(accounts, accountOfUser, transactions, processing, purchases)
    }

    ghost predicate Valid()
      reads this
    {
      LedgerModel.Valid(Snapshot())
    }

    constructor (init: LedgerState)
      requires LedgerModel.Valid(init)
      ensures Snapshot() == init && Valid()
    {
      accounts := init.accounts;
      accountOfUser := init.accountOfUser;
      transactions := init.transactions;
      processing := init.processing;
      purchases := init.purchases;
    }

    // ------------------------------------------------------------ reads

    /** `account.findUnique({ where: { userId }, select: { id: true } })` */
    method FindAccountOfUser(userId: UserId) returns (r: Option<AccountId>)
      ensures r.Some? <==> userId in accountOfUser
      ensures r.Some? ==> r.value == accountOfUser[userId]
      ensures r.Some? && Valid() ==> r.value in accounts && accounts[r.value].userId == userId
    {
      if userId in accountOfUser {
        r := Some(accountOfUser[userId]);
      } else {
        r := None;
      }
    }

    /** `account.findUnique({ where: { id }, select: { balance: true } })`, with `?.balance ?? 0n`. */
    method FindBalance(id: AccountId) returns (balance: int)
      ensures id in accounts ==> balance == accounts[id].balance
      ensures id !in accounts ==> balance == 0
    {
      if id in accounts {
        balance := accounts[id].balance;
      } else {
        balance := 0;
      }
    }

    /**
     * `processing.findUnique({ where: { bankToken }, include: { transaction } })`:
     * the id and the row of the transaction the token belongs to.
     */
    method FindProcessing(token: BankToken) returns (r: Option<(TxId, Transaction)>)
      requires Valid()
      ensures r.Some? <==> token in processing
      ensures r.Some? ==> r.value.0 == processing[token].transactionId && r.value.0 < |transactions|
                          && r.value.1 == transactions[r.value.0] && r.value.1.txType == Deposit
    {
      if token in processing {
        var id := processing[token].transactionId;
        r := Some((id, transactions[id]));
      } else {
        r := None;
      }
    }

    // ------------------------------------------------------------ writes

    /** `account.updateMany({ where: { id, balance: { gte: amount } }, data: { balance: { decrement: amount } } })` */
    method DecrementIfCovered(id: AccountId, amount: int) returns (count: nat)
      modifies this
      ensures (count, Snapshot()) == LedgerModel.DecrementIfCovered(old(Snapshot()), id, amount)
    {
      if id in accounts && accounts[id].balance >= amount {
        accounts := accounts[id := accounts[id].(balance := accounts[id].balance - amount)];
        count := 1;
      } else {
        count := 0;
      }
    }

    /** `account.update({ where: { id }, data: { balance: { increment: amount } } })` */
    method Increment(id: AccountId, amount: int)
      requires id in accounts
      modifies this
      ensures Snapshot() == LedgerModel.Increment(old(Snapshot()), id, amount)
    {
      accounts := accounts[id := accounts[id].(balance := accounts[id].balance + amount)];
    }

    /** `transaction.create({ data })`: the new row's id, or `None` when the reference is already used. */
    method CreateTransaction(t: Transaction) returns (id: Option<TxId>)
      modifies this
      ensures var r := LedgerModel.CreateTransaction(old(Snapshot()), t);
        && (r.None? ==> id.None? && Snapshot() == old(Snapshot()))
        && (r.Some? ==> id == Some(|old(transactions)|) && Snapshot() == r.value)
    {
      if exists i :: 0 <= i < |transactions| && transactions[i].reference == t.reference {
        id := None;
      } else {
        id := Some(|transactions|);
        transactions := transactions + [t];
      }
    }

    /** `transaction.updateMany({ where: { id, status: "PENDING" }, data: { status } })` */
    method UpdateStatusIfPending(id: TxId, status: TxStatus) returns (count: nat)
      modifies this
      ensures (count, Snapshot()) == LedgerModel.UpdateStatusIfPending(old(Snapshot()), id, status)
    {
      if id < |transactions| && transactions[id].status == Pending {
        transactions := transactions[id := transactions[id].(status := status)];
        count := 1;
      } else {
        count := 0;
      }
    }

    /** `transaction.update({ where: { id }, data: { status } })` */
    method UpdateStatus(id: TxId, status: TxStatus)
      requires id < |transactions|
      modifies this
      ensures Snapshot() == LedgerModel.UpdateStatus(old(Snapshot()), id, status)
    {
      transactions := transactions[id := transactions[id].(status := status)];
    }

    /** `processing.create({ data: { bankToken, transactionId } })`: false, writing nothing, when the token is taken. */
    method CreateProcessing(token: BankToken, id: TxId) returns (created: bool)
      modifies this
      ensures var r := LedgerModel.CreateProcessing(old(Snapshot()), token, id);
        && created == r.Some?
        && Snapshot() == (if created then r.value else old(Snapshot()))
    {
      if token in processing {
        created := false;
      } else {
        processing := processing[token := Processing(id, None)];
        created := true;
      }
    }

    /** `processing.update({ data: { settledAt: now } })` */
    method StampSettled(token: BankToken, now: int)
      requires token in processing
      modifies this
      ensures Snapshot() == LedgerModel.StampSettled(old(Snapshot()), token, now)
    {
      processing := processing[token := processing[token].(settledAt := Some(now))];
    }

    /** `assetPurchase.create({ data })`: false, writing nothing, when the user already owns the asset. */
    method CreatePurchase(key: PurchaseKey, p: AssetPurchase) returns (created: bool)
      modifies this
      ensures var r := LedgerModel.CreatePurchase(old(Snapshot()), key, p);
        && created == r.Some?
        && Snapshot() == (if created then r.value else old(Snapshot()))
    {
      if key in purchases {
        created := false;
      } else {
        purchases := purchases[key := p];
        created := true;
      }
    }

    /** The rollback of an interactive `$transaction`: every table back to the contents saved when it began. */
    method Restore(saved: LedgerState)
      modifies this
      ensures Snapshot() == saved
    {
      accounts := saved.accounts;
      accountOfUser := saved.accountOfUser;
      transactions := saved.transactions;
      processing := saved.processing;
      purchases := saved.purchases;
    }
  }
}
