/**
 * Properties of the asset handlers: the listing reflects the catalog, a
 * purchase keeps the store invariant and charges exactly the price once, and
 * a user can own each asset at most once.
 */
module AssetProperties {
  import opened Wrappers
  import opened LedgerModel
  import opened Assets
  import opened AssetSpec
  import Decimal
  import TransactionSpec

  // ---------------------------------------------------------------- catalog

  /** The listing shows every catalog item in order, with its price written as the digits of that price. */
  lemma ListingMatchesCatalog()
    ensures |ListAssetCatalog()| == |AssetCatalog|
    ensures forall i :: 0 <= i < |AssetCatalog| ==>
      var v := ListAssetCatalog()[i];
      var item := AssetCatalog[i];
      && v.id == item.id && v.name == item.name && v.description == item.description
      && Decimal.Canonical(v.price) && Decimal.Value(v.price) == item.price
  {
    CatalogPricesPositive();
    forall i | 0 <= i < |AssetCatalog|
      ensures Decimal.Canonical(ListAssetCatalog()[i].price) && Decimal.Value(ListAssetCatalog()[i].price) == AssetCatalog[i].price
    {
      Decimal.ValueOfRender(AssetCatalog[i].price);
    }
  }

  // ---------------------------------------------------------------- errors

  /** Only the unique-constraint error is answered with 409; any other thrown database error is a 500. */
  lemma AbortedBuyResponseCases(e: ErrorValue)
    ensures AbortedBuyResponse(TransactionSpec.DbError(e)) ==
      (if e == UniqueViolation then BuyRejected(409, "Asset already purchased") else BuyRejected(500, "Unable to complete purchase"))
    ensures !IsPrismaUniqueViolation(Falsy) && !IsPrismaUniqueViolation(NonObject) && !IsPrismaUniqueViolation(ErrorObject(NoCode))
  {
  }

  // ---------------------------------------------------------------- purchase

  /** The store after a purchase unit that ran to its end. */
  ghost predicate PurchasedShape(st: LedgerState, userId: UserId, asset: AssetCatalogItem, reference: string, st': LedgerState)
  {
    && userId in st.accountOfUser
    && var a := st.accountOfUser[userId];
    && a in st.accounts
    && st'.accounts == st.accounts[a := st.accounts[a].(balance := st.accounts[a].balance - asset.price)]
    && st'.accountOfUser == st.accountOfUser
    && st'.transactions == st.transactions + [Transaction(a, asset.price, TransferOut, Success, reference)]
    && st'.processing == st.processing
    && st'.purchases == st.purchases[PurchaseKey(userId, asset.id) := AssetPurchase(|st.transactions|, asset.name, asset.price)]
  }

  /** The conditions under which the purchase unit runs to its end. */
  ghost predicate PurchaseGoesThrough(st: LedgerState, userId: UserId, asset: AssetCatalogItem, reference: string)
  {
    CanAfford(st, userId, asset.price) && !ReferenceTaken(st.transactions, reference)
    && PurchaseKey(userId, asset.id) !in st.purchases
  }

  /**
   * When the user has an account that covers the price, the reference is
   * unused and the user does not own the asset yet, the unit debits the
   * price, appends the SUCCESS TRANSFER_OUT row and the purchase row, and
   * reports the balance after the debit.
   */
  lemma PurchaseUnitGoesThrough(st: LedgerState, userId: UserId, asset: AssetCatalogItem, reference: string)
    requires PurchaseGoesThrough(st, userId, asset, reference)
    ensures var r := PurchaseUnit(st, userId, asset, reference);
      && r.0 == Purchased(reference, st.accounts[st.accountOfUser[userId]].balance - asset.price)
      && PurchasedShape(st, userId, asset, reference, r.1)
  {
  }

  /** Otherwise the unit aborts, and its writes are rolled back. */
  lemma PurchaseUnitAborts(st: LedgerState, userId: UserId, asset: AssetCatalogItem, reference: string)
    requires !PurchaseGoesThrough(st, userId, asset, reference)
    ensures var r := PurchaseUnit(st, userId, asset, reference);
      r.0.PurchaseAborted? && r.1 == st
  {
  }

  /** Adding the purchase row for the TRANSFER_OUT row just appended keeps the invariant. */
  lemma AddPurchaseConsistent(st: LedgerState, key: PurchaseKey, p: AssetPurchase, st': LedgerState)
    requires Valid(st) && |st.transactions| > 0 && key !in st.purchases
    requires PurchasesWellFormed(st.accountOfUser, st.transactions[..|st.transactions| - 1], st.purchases)
    requires p.transactionId == |st.transactions| - 1
    requires var t := st.transactions[|st.transactions| - 1];
      t.txType == TransferOut && t.amount == p.price && key.userId in st.accountOfUser && t.accountId == st.accountOfUser[key.userId]
    requires st' == st.(purchases := st.purchases[key := p])
    ensures Valid(st') && BalanceTracksLedger(st, st') && LedgerEvolves(st, st')
  {
    AddPurchaseKeepsPurchases(st.accountOfUser, st.transactions, st.purchases, key, p);
  }

  /** The state `PurchaseUnit` commits keeps the invariant and moves balances as its rows say. */
  lemma PurchasedConsistent(st: LedgerState, userId: UserId, asset: AssetCatalogItem, reference: string, st': LedgerState)
    requires Valid(st) && asset.price > 0 && PurchaseGoesThrough(st, userId, asset, reference)
    requires PurchasedShape(st, userId, asset, reference, st')
    ensures Valid(st') && BalanceTracksLedger(st, st') && LedgerEvolves(st, st')
  {
    var a := st.accountOfUser[userId];
    var t := Transaction(a, asset.price, TransferOut, Success, reference);
    var st2 := st'.(purchases := st.purchases);
    assert DebitedShape(st, t, st2);
    DebitAppendConsistent(st, t, st2);
    assert st2.transactions[..|st2.transactions| - 1] == st.transactions;
    AddPurchaseConsistent(st2, PurchaseKey(userId, asset.id), AssetPurchase(|st.transactions|, asset.name, asset.price), st');
    TracksTransitive(st, st2, st');
    EvolvesTransitive(st, st2, st');
  }

  lemma PurchaseUnitConsistent(st: LedgerState, userId: UserId, asset: AssetCatalogItem, reference: string)
    requires Valid(st) && asset.price > 0
    ensures var r := PurchaseUnit(st, userId, asset, reference);
      Valid(r.1) && BalanceTracksLedger(st, r.1) && LedgerEvolves(st, r.1)
  {
    if PurchaseGoesThrough(st, userId, asset, reference) {
      PurchaseUnitGoesThrough(st, userId, asset, reference);
      PurchasedConsistent(st, userId, asset, reference, PurchaseUnit(st, userId, asset, reference).1);
    } else {
      PurchaseUnitAborts(st, userId, asset, reference);
    }
  }

  lemma BuyAssetConsistent(catalog: seq<AssetCatalogItem>, st: LedgerState, userId: Option<UserId>, assetId: Option<string>, reference: string)
    requires Valid(st) && PricesPositive(catalog)
    ensures var r := BuyAsset(catalog, st, userId, assetId, reference);
      Valid(r.1) && BalanceTracksLedger(st, r.1) && LedgerEvolves(st, r.1)
  {
    if Present(userId) && Present(assetId) && Find(catalog, assetId.value).Some? {
      var asset := Find(catalog, assetId.value).value;
      PurchaseUnitConsistent(st, userId.value, asset, reference);
      BuyAssetRunsUnit(catalog, st, userId.value, assetId.value, asset, reference);
    }
  }

  /** Past its checks, `buyAsset` answers with what its atomic unit produced. */
  lemma BuyAssetRunsUnit(catalog: seq<AssetCatalogItem>, st: LedgerState, userId: UserId, assetId: string, asset: AssetCatalogItem, reference: string)
    requires userId != "" && assetId != "" && Find(catalog, assetId) == Some(asset)
    ensures var u := PurchaseUnit(st, userId, asset, reference);
      var r := BuyAsset(catalog, st, Some(userId), Some(assetId), reference);
      && (u.0.PurchaseAborted? ==> r.0 == AbortedBuyResponse(u.0.error) && r.1 == st)
      && (u.0.Purchased? ==> r.0 == Bought(assetId, Decimal.RenderSigned(u.0.balance), u.0.reference) && r.1 == u.1)
  {
  }

  /**
   * A purchase the user can afford, of a catalog asset they do not own, under
   * an unused reference: 201 with the new balance, the price debited once, one
   * SUCCESS TRANSFER_OUT row of the price and the purchase row pointing at it.
   */
  lemma BuySucceeds(catalog: seq<AssetCatalogItem>, st: LedgerState, userId: UserId, assetId: string, asset: AssetCatalogItem, reference: string)
    requires userId != "" && assetId != "" && Find(catalog, assetId) == Some(asset)
    requires CanAfford(st, userId, asset.price) && !ReferenceTaken(st.transactions, reference)
    requires PurchaseKey(userId, asset.id) !in st.purchases
    ensures var a := st.accountOfUser[userId];
      var r := BuyAsset(catalog, st, Some(userId), Some(assetId), reference);
      && r.0 == Bought(assetId, Decimal.RenderSigned(st.accounts[a].balance - asset.price), reference)
      && PurchasedShape(st, userId, asset, reference, r.1)
  {
    var a := st.accountOfUser[userId];
    var u := PurchaseUnit(st, userId, asset, reference);
    PurchaseUnitGoesThrough(st, userId, asset, reference);
    assert asset.id == assetId;
    assert u.0 == Purchased(reference, st.accounts[a].balance - asset.price);
    assert PurchasedShape(st, userId, asset, reference, u.1);
    BuyAssetRunsUnit(catalog, st, userId, assetId, asset, reference);
  }

  /** A balance below the price: 400 and nothing written. */
  lemma BuyInsufficientBalance(catalog: seq<AssetCatalogItem>, st: LedgerState, userId: UserId, assetId: string, asset: AssetCatalogItem, reference: string)
    requires userId != "" && assetId != "" && Find(catalog, assetId) == Some(asset)
    requires userId in st.accountOfUser && !CanAfford(st, userId, asset.price)
    ensures BuyAsset(catalog, st, Some(userId), Some(assetId), reference) == (BuyRejected(400, "Insufficient balance"), st)
  {
    assert PurchaseUnit(st, userId, asset, reference) == (PurchaseAborted(TransactionSpec.HandlerError(400, "Insufficient balance")), st);
    BuyAssetRunsUnit(catalog, st, userId, assetId, asset, reference);
  }

  /** Buying an asset the user already owns: the purchase row's unique key rejects it, 409, and the debit is rolled back. */
  lemma BuyAlreadyOwned(catalog: seq<AssetCatalogItem>, st: LedgerState, userId: UserId, assetId: string, asset: AssetCatalogItem, reference: string)
    requires userId != "" && assetId != "" && Find(catalog, assetId) == Some(asset)
    requires CanAfford(st, userId, asset.price) && !ReferenceTaken(st.transactions, reference)
    requires PurchaseKey(userId, asset.id) in st.purchases
    ensures BuyAsset(catalog, st, Some(userId), Some(assetId), reference) == (BuyRejected(409, "Asset already purchased"), st)
  {
    assert PurchaseUnit(st, userId, asset, reference) == (PurchaseAborted(TransactionSpec.DbError(UniqueViolation)), st);
    BuyAssetRunsUnit(catalog, st, userId, assetId, asset, reference);
  }

  /** An id that is not in the catalog: 404 and nothing written. */
  lemma BuyUnknownAsset(catalog: seq<AssetCatalogItem>, st: LedgerState, userId: UserId, assetId: string, reference: string)
    requires userId != "" && assetId != ""
    requires forall i :: 0 <= i < |catalog| ==> catalog[i].id != assetId
    ensures BuyAsset(catalog, st, Some(userId), Some(assetId), reference) == (BuyRejected(404, "Asset not found"), st)
  {
  }

  /**
   * Once a purchase succeeded, no later attempt to buy the same asset for the
   * same user, under any reference, succeeds or changes the store.
   */
  lemma {:induction false} BuyOnceOnly(catalog: seq<AssetCatalogItem>, st: LedgerState, userId: UserId, assetId: string, ref1: string, ref2: string)
    requires BuyAsset(catalog, st, Some(userId), Some(assetId), ref1).0.Bought?
    ensures var first := BuyAsset(catalog, st, Some(userId), Some(assetId), ref1);
      var second := BuyAsset(catalog, first.1, Some(userId), Some(assetId), ref2);
      second.0.BuyRejected? && second.1 == first.1
  {
    var asset := Find(catalog, assetId).value;
    BuyAssetRunsUnit(catalog, st, userId, assetId, asset, ref1);
    var u := PurchaseUnit(st, userId, asset, ref1);
    assert PurchaseGoesThrough(st, userId, asset, ref1) by {
      if !PurchaseGoesThrough(st, userId, asset, ref1) {
        PurchaseUnitAborts(st, userId, asset, ref1);
      }
    }
    PurchaseUnitGoesThrough(st, userId, asset, ref1);
    var first := BuyAsset(catalog, st, Some(userId), Some(assetId), ref1);
    assert first.1 == u.1;
    assert PurchaseKey(userId, asset.id) in first.1.purchases;
    PurchaseUnitAborts(first.1, userId, asset, ref2);
    BuyAssetRunsUnit(catalog, first.1, userId, assetId, asset, ref2);
  }
}
