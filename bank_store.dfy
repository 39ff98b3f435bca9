/**
 * The bank simulator's in-memory order store: one map from session token to
 * order, which `createBankOrder` writes (replacing any order under the same
 * token) and `updateBankOrderStatus` rewrites in place. Dates are the
 * clock's reading, passed in as `now`.
 */
module BankStore {
  import opened Wrappers

  datatype BankOrderStatus = OrderPending | OrderSuccess | OrderFailed

  datatype BankOrder = BankOrder(
    token: string, ref: string, amount: int, returnUrl: string,
    status: BankOrderStatus, createdAt: int, updatedAt: int)

  /** The wire name of a status, as the bank writes it into its webhook. */
  function StatusName(s: BankOrderStatus): string
  {
    match s
    case OrderPending => "PENDING"
    case OrderSuccess => "SUCCESS"
    case OrderFailed => "FAILED"
  }

  /** A fresh order as `createBankOrder` builds it: PENDING, both dates now. */
  function NewOrder(token: string, ref: string, amount: int, returnUrl: string, now: int): (o: BankOrder)
    ensures o.token == token && o.status == OrderPending && o.createdAt == o.updatedAt
  {
    BankOrder(token, ref, amount, returnUrl, OrderPending, now, now)
  }

  /** The order after `updateBankOrderStatus`: the new status and a new `updatedAt`, everything else kept. */
  function WithStatus(o: BankOrder, status: BankOrderStatus, now: int): (o': BankOrder)
    ensures o'.status == status && o'.updatedAt == now
    ensures o'.token == o.token && o'.ref == o.ref && o'.amount == o.amount
    ensures o'.returnUrl == o.returnUrl && o'.createdAt == o.createdAt
  {
    o.(status := status, updatedAt := now)
  }

  /** Every order is stored under its own token, as `createBankOrder` files it. */
  predicate KeyedByToken(orders: map<string, BankOrder>)
  {
    forall t :: t in orders ==> orders[t].token == t
  }

  /** The map after `updateBankOrderStatus(token, status)`: unchanged for an unknown token. */
  function StatusUpdated(orders: map<string, BankOrder>, token: string, status: BankOrderStatus, now: int): (r: map<string, BankOrder>)
    ensures r.Keys == orders.Keys
    ensures forall t :: t in orders && t != token ==> r[t] == orders[t]
    ensures token in orders ==> r[token] == orders[token].(status := status, updatedAt := now)
  {
    if token in orders then orders[token := WithStatus(orders[token], status, now)] else orders
  }

  /** Filing a new order under its own token, or restamping one, keeps every order under its own token. */
  lemma StoreKeepsKeys(orders: map<string, BankOrder>, o: BankOrder, token: string, status: BankOrderStatus, now: int)
    requires KeyedByToken(orders)
    ensures KeyedByToken(orders[o.token := o])
    ensures KeyedByToken(StatusUpdated(orders, token, status, now))
    ensures StatusUpdated(orders, token, status, now).Keys == orders.Keys
  {
  }

  class OrderStore {
    /** `bankOrders` */
    var orders: map<string, BankOrder>

    constructor ()
      ensures orders == map[]
    {
      orders := map[];
    }

    /** `getBankOrder` */
    function GetBankOrder(token: string): (r: Option<BankOrder>)
      reads this
      ensures r.None? <==> token !in orders
      ensures r.Some? ==> r.value == orders[token] && (KeyedByToken(orders) ==> r.value.token == token)
    {
      if token in orders then Some(orders[token]) else None
    }

    /** `createBankOrder`: stores a PENDING order under its token and returns it. */
    method CreateBankOrder(token: string, ref: string, amount: int, returnUrl: string, now: int) returns (order: BankOrder)
      modifies this
      ensures order == NewOrder(token, ref, amount, returnUrl, now)
      ensures orders == old(orders)[token := order]
      ensures GetBankOrder(token) == Some(order)
      ensures forall t :: t != token ==> GetBankOrder(t) == old(GetBankOrder(t))
    {
      order := NewOrder(token, ref, amount, returnUrl, now);
      orders := orders[token := order];
    }

    /** `updateBankOrderStatus`: `None`, and no change, for an unknown token. */
    method UpdateBankOrderStatus(token: string, status: BankOrderStatus, now: int) returns (r: Option<BankOrder>)
      modifies this
      ensures orders == StatusUpdated(old(orders), token, status, now)
      ensures r == if token in old(orders) then Some(WithStatus(old(orders)[token], status, now)) else None
      ensures forall t :: t != token ==> GetBankOrder(t) == old(GetBankOrder(t))
    {
      if token !in orders {
        return None;
      }
      var order := WithStatus(orders[token], status, now);
      orders := orders[token := order];
      r := Some(order);
    }
  }
}
