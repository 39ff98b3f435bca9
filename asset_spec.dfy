/**
 * What the asset handlers do, as functions: the catalog listing, the
 * classification of thrown errors, and `buyAsset`, whose atomic unit debits
 * the price, records a SUCCESS TRANSFER_OUT row and the purchase row, or
 * rolls everything back. The random reference is an input.
 */
module AssetSpec {
  import opened Wrappers
  import opened LedgerModel
  import opened Assets
  import Decimal
  import TransactionSpec

  // ---------------------------------------------------------------- errors

  /** `isPrismaUniqueViolation`: a truthy object whose `code` is the string "P2002". */
  function IsPrismaUniqueViolation(e: ErrorValue): (r: bool)
    ensures r <==> e == UniqueViolation
  {
    match e
    case Falsy => false
    case NonObject => false
    case ErrorObject(code) => code.StringCode? && code.s == "P2002"
  }

  // ---------------------------------------------------------------- catalog

  /** A catalog entry as listed, with its price rendered by `toString()`. */
  datatype AssetView = AssetView(id: string, name: string, description: string, price: string)

  function ViewOfItem(item: AssetCatalogItem): AssetView
  {
    AssetView(item.id, item.name, item.description, Decimal.RenderSigned(item.price))
  }

  function ViewsOf(items: seq<AssetCatalogItem>): (r: seq<AssetView>)
    ensures |r| == |items|
    ensures forall i :: 0 <= i < |items| ==> r[i] == ViewOfItem(items[i])
  {
    if |items| == 0 then [] else [ViewOfItem(items[0])] + ViewsOf(items[1..])
  }

  /** `listAssetCatalog` */
  function ListAssetCatalog(): (r: seq<AssetView>)
    ensures |r| == |AssetCatalog|
    ensures forall i :: 0 <= i < |r| ==>
      r[i].id == AssetCatalog[i].id && r[i].name == AssetCatalog[i].name && r[i].description == AssetCatalog[i].description
  {
    ViewsOf(AssetCatalog)
  }

  // ---------------------------------------------------------------- purchase

  datatype PurchaseOutcome =
    | Purchased(reference: string, balance: int)
    | PurchaseAborted(error: TransactionSpec.UnitError)

  datatype BuyResponse =
    | Bought(assetId: string, balance: string, reference: string)
    | BuyRejected(status: int, error: string)

  /** The `db.$transaction` of `buyAsset`. */
  function PurchaseUnit(st: LedgerState, userId: UserId, asset: AssetCatalogItem, reference: string): (r: (PurchaseOutcome, LedgerState))
    ensures r.0.PurchaseAborted? ==> r.1 == st
  {
    match AccountOf(st, userId)
    case None => (PurchaseAborted(TransactionSpec.HandlerError(404, "Account not found")), st)
    case Some(accountId) =>
      var (count, st1) := DecrementIfCovered(st, accountId, asset.price);
      if count == 0 then (PurchaseAborted(TransactionSpec.HandlerError(400, "Insufficient balance")), st)
      else match CreateTransaction(st1, Transaction(accountId, asset.price, TransferOut, Success, reference))
        case None => (PurchaseAborted(TransactionSpec.DbError(UniqueViolation)), st)
        case Some(st2) =>
          match CreatePurchase(st2, PurchaseKey(userId, asset.id), AssetPurchase(|st.transactions|, asset.name, asset.price))
          case None => (PurchaseAborted(TransactionSpec.DbError(UniqueViolation)), st)
          case Some(st3) => (Purchased(reference, BalanceOf(st3, accountId)), st3)
  }

  /** The catch block of `buyAsset`. */
  function AbortedBuyResponse(e: TransactionSpec.UnitError): (r: BuyResponse)
    ensures e.HandlerError? ==> r == BuyRejected(e.status, e.message)
    ensures e.DbError? ==> r.BuyRejected? && (r.status == 409 <==> e.thrown == UniqueViolation)
    ensures e.DbError? && e.thrown != UniqueViolation ==> r == BuyRejected(500, "Unable to complete purchase")
  {
    match e
    case HandlerError(status, message) => BuyRejected(status, message)
    case DbError(thrown) =>
      if IsPrismaUniqueViolation(thrown) then BuyRejected(409, "Asset already purchased")
      else BuyRejected(500, "Unable to complete purchase")
  }

  /**
   * `buyAsset`, against the catalog it looks the asset up in with
   * `getAssetById`; the service's catalog is `Assets.AssetCatalog`.
   */
  function BuyAsset(catalog: seq<AssetCatalogItem>, st: LedgerState, userId: Option<UserId>, assetId: Option<string>,
                    reference: string): (r: (BuyResponse, LedgerState))
    ensures r.0.BuyRejected? ==> r.1 == st
    ensures !Present(userId) ==> r == (BuyRejected(401, "Unauthorized"), st)
    ensures Present(userId) && !Present(assetId) ==> r == (BuyRejected(400, "assetId is required"), st)
    ensures r.0.Bought? ==> Present(userId) && Present(assetId) && r.0.assetId == assetId.value && r.0.reference == reference
  {
    if !Present(userId) then (BuyRejected(401, "Unauthorized"), st)
    else if !Present(assetId) then (BuyRejected(400, "assetId is required"), st)
    else match Find(catalog, assetId.value)
      case None => (BuyRejected(404, "Asset not found"), st)
      case Some(asset) =>
        var (outcome, st') := PurchaseUnit(st, userId.value, asset, reference);
        match outcome
        case PurchaseAborted(e) => (AbortedBuyResponse(e), st)
        case Purchased(ref, balance) => (Bought(asset.id, Decimal.RenderSigned(balance), ref), st')
  }
}
