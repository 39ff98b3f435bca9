/** The fixed catalog of purchasable assets and its lookup by id. */
module Assets {
  import opened Wrappers

  datatype AssetCatalogItem = AssetCatalogItem(id: string, name: string, description: string, price: int)

  const AssetCatalog: seq<AssetCatalogItem> := [
    AssetCatalogItem("starter-template-pack", "Starter Template Pack",
      "Production-ready boilerplates for auth and payments flows.", 120),
    AssetCatalogItem("api-observability-kit", "API Observability Kit",
      "Structured logs, traces, and dashboard presets for services.", 180),
    AssetCatalogItem("secure-ci-bundle", "Secure CI Bundle",
      "CI templates with SAST, dependency checks, and release gates.", 250),
    AssetCatalogItem("growth-analytics-pack", "Growth Analytics Pack",
      "Event taxonomy and growth dashboard starter assets.", 90)
  ]

  /** `Array.prototype.find` with the predicate `asset.id === id`: the first item with that id. */
  function Find(items: seq<AssetCatalogItem>, id: string): (r: Option<AssetCatalogItem>)
    ensures r.Some? ==> r.value in items && r.value.id == id
    ensures r.None? <==> forall i :: 0 <= i < |items| ==> items[i].id != id
    ensures r.Some? ==> exists k :: 0 <= k < |items| && items[k] == r.value &&
                                   forall j :: 0 <= j < k ==> items[j].id != id
  {
    if |items| == 0 then None
    else if items[0].id == id then Some(items[0])
    else
      var rest := Find(items[1..], id);
      assert rest.Some? ==> exists k :: 0 <= k < |items| && items[k] == rest.value &&
                                       forall j :: 0 <= j < k ==> items[j].id != id by {
        if rest.Some? {
          var k :| 0 <= k < |items[1..]| && items[1..][k] == rest.value &&
                   forall j :: 0 <= j < k ==> items[1..][j].id != id;
          assert items[k + 1] == rest.value;
          assert forall j :: 0 <= j < k + 1 ==> items[j].id != id by {
            forall j | 0 <= j < k + 1 ensures items[j].id != id {
              if j > 0 { assert items[j] == items[1..][j - 1]; }
            }
          }
        }
      }
      assert rest.None? ==> forall i :: 0 <= i < |items| ==> items[i].id != id by {
        if rest.None? {
          forall i | 0 <= i < |items| ensures items[i].id != id {
            if i > 0 { assert items[i] == items[1..][i - 1]; }
          }
        }
      }
      rest
  }

  /** `getAssetById` */
  function GetAssetById(id: string): (r: Option<AssetCatalogItem>)
    ensures r.Some? ==> r.value in AssetCatalog && r.value.id == id
    ensures r.None? <==> forall i :: 0 <= i < |AssetCatalog| ==> AssetCatalog[i].id != id
  {
    Find(AssetCatalog, id)
  }

  /** The catalog has four items and no two share an id. */
  lemma CatalogIdsDistinct()
    ensures |AssetCatalog| == 4
    ensures forall i, j :: 0 <= i < j < |AssetCatalog| ==> AssetCatalog[i].id != AssetCatalog[j].id
  {
    assert AssetCatalog[0].id[0] == 's' && AssetCatalog[1].id[0] == 'a';
    assert AssetCatalog[2].id[0] == 's' && AssetCatalog[3].id[0] == 'g';
    assert AssetCatalog[0].id[1] == 't' && AssetCatalog[2].id[1] == 'e';
  }

  predicate PricesPositive(items: seq<AssetCatalogItem>)
  {
    forall i :: 0 <= i < |items| ==> items[i].price > 0
  }

  /** Every catalog price is positive, so a purchase always debits a positive amount. */
  lemma CatalogPricesPositive()
    ensures PricesPositive(AssetCatalog)
  {
  }

  /** Because ids are distinct, the lookup returns the one catalog item with that id. */
  lemma GetAssetByIdUnique(k: nat)
    requires k < |AssetCatalog|
    ensures GetAssetById(AssetCatalog[k].id) == Some(AssetCatalog[k])
  {
    CatalogIdsDistinct();
    var r := GetAssetById(AssetCatalog[k].id);
    var m :| 0 <= m < |AssetCatalog| && AssetCatalog[m] == r.value &&
             forall j :: 0 <= j < m ==> AssetCatalog[j].id != AssetCatalog[k].id;
  }
}
