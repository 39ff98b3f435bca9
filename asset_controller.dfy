/**
 * The asset purchase handler, step by step over the database object, proved
 * to answer and to leave the database exactly as `AssetSpec.BuyAsset` says
 * for the service's catalog, and to keep the store invariant.
 */
module AssetController {
  import opened Wrappers
  import opened LedgerModel
  import opened Assets
  import opened AssetSpec
  import opened LedgerDb
  import Decimal
  import TransactionSpec
  import AssetProperties

  /** The `db.$transaction` of `buyAsset`: every write is rolled back when a later step throws. */
  method PurchaseUnit(db: Db, userId: UserId, asset: AssetCatalogItem, reference: string) returns (outcome: PurchaseOutcome)
    modifies db
    ensures (outcome, db.Snapshot()) == AssetSpec.PurchaseUnit(old(db.Snapshot()), userId, asset, reference)
  {
    var saved := db.Snapshot();
    var account := db.FindAccountOfUser(userId);
    if account.None? {
      return PurchaseAborted(TransactionSpec.HandlerError(404, "Account not found"));
    }
    var count := db.DecrementIfCovered(account.value, asset.price);
    if count == 0 {
      return PurchaseAborted(TransactionSpec.HandlerError(400, "Insufficient balance"));
    }
    var id := db.CreateTransaction(Transaction(account.value, asset.price, TransferOut, Success, reference));
    if id.None? {
      db.Restore(saved);
      return PurchaseAborted(TransactionSpec.DbError(UniqueViolation));
    }
    var created := db.CreatePurchase(PurchaseKey(userId, asset.id), AssetPurchase(id.value, asset.name, asset.price));
    if !created {
      db.Restore(saved);
      return PurchaseAborted(TransactionSpec.DbError(UniqueViolation));
    }
    var balance := db.FindBalance(account.value);
    outcome := Purchased(reference, balance);
  }

  /** `buyAsset`; `reference` stands for the random `asset_…` reference drawn inside the unit. */
  method BuyAsset(db: Db, userId: Option<UserId>, assetId: Option<string>, reference: string) returns (resp: BuyResponse)
    requires db.Valid()
    modifies db
    ensures (resp, db.Snapshot()) == AssetSpec.BuyAsset(AssetCatalog, old(db.Snapshot()), userId, assetId, reference)
    ensures db.Valid()
  {
    ghost var st := db.Snapshot();
    if !Present(userId) {
      return BuyRejected(401, "Unauthorized");
    }
    if !Present(assetId) {
      return BuyRejected(400, "assetId is required");
    }
    var asset := GetAssetById(assetId.value);
    if asset.None? {
      return BuyRejected(404, "Asset not found");
    }
    CatalogPricesPositive();
    AssetProperties.PurchaseUnitConsistent(st, userId.value, asset.value, reference);
    assert userId.value != "" && assetId.value != "";
    AssetProperties.BuyAssetRunsUnit(AssetCatalog, st, userId.value, assetId.value, asset.value, reference);
    var outcome := PurchaseUnit(db, userId.value, asset.value, reference);
    match outcome
    case PurchaseAborted(e) =>
      resp := AbortedBuyResponse(e);
    case Purchased(ref, balance) =>
      resp := Bought(asset.value.id, Decimal.RenderSigned(balance), ref);
  }
}
