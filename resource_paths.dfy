/**
 * The fixed table from sub-object key to storage path (ResourcePathResolver).
 * Both tables are `const`: they are built once and no operation changes them.
 */
module ResourcePathResolver {
  import opened Wrappers

  const PoLines := "poLines"
  const PoNumber := "poNumber"
  const PoLineNumber := "poLineNumber"
  const Adjustment := "adjustment"
  const Alerts := "alerts"
  const Claims := "claims"
  const Cost := "cost"
  const Details := "details"
  const EResource := "eresource"
  const FundDistribution := "fundDistribution"
  const Locations := "locations"
  const Physical := "physical"
  const ReportingCodes := "reportingCodes"
  const Source := "source"
  const VendorDetail := "vendorDetail"
  const PurchaseOrder := "purchaseOrder"
  const Pieces := "pieces"
  const ReceivingHistory := "receiving-history"

  const StoragePrefix := "/orders-storage/"

  /** The part of each collection path after the storage prefix, key by key. */
  const CollectionNames: map<string, string> := map[
    Adjustment := "adjustments",
    Alerts := "alerts",
    Claims := "claims",
    Cost := "costs",
    Details := "details",
    EResource := "eresources",
    FundDistribution := "fundDistributions",
    Locations := "locations",
    Physical := "physicals",
    ReportingCodes := "reportingCodes",
    Source := "sources",
    VendorDetail := "vendorDetails",
    PoLines := "poLines",
    PoNumber := "poNumber",
    PurchaseOrder := "purchaseOrders",
    Pieces := "pieces",
    ReceivingHistory := "receiving-history",
    PoLineNumber := "po-line-number"
  ]

  /** SUB_OBJECT_COLLECTION_APIS: key to collection path. */
  const CollectionApis: map<string, string> := map k | k in CollectionNames :: StoragePrefix + CollectionNames[k]

  /** SUB_OBJECT_ITEM_APIS: each collection path followed by "/". */
  const ItemApis: map<string, string> := map k | k in CollectionApis :: CollectionApis[k] + "/"

  const RegisteredKeys: set<string> := {
    PoLines, PoNumber, PoLineNumber, Adjustment, Alerts, Claims, Cost, Details, EResource,
    FundDistribution, Locations, Physical, ReportingCodes, Source, VendorDetail, PurchaseOrder,
    Pieces, ReceivingHistory
  }

  predicate StartsWith(s: string, prefix: string) {
    |prefix| <= |s| && s[..|prefix|] == prefix
  }

  /** `resourcesPath(field)`: the collection path of a registered key, null for any other key. */
  function ResourcesPath(field: string): (r: Option<string>)
    ensures r.Some? <==> field in RegisteredKeys
    ensures r.Some? ==> StartsWith(r.value, StoragePrefix) && |r.value| > |StoragePrefix|
  {
    if field in CollectionApis then
      var path := CollectionApis[field];
      assert path[..|StoragePrefix|] == StoragePrefix;
      assert CollectionNames[field] != "";
      Some(path)
    else None
  }

  /** `resourceByIdPath(field)`: the collection path followed by "/", null for an unregistered key. */
  function ResourceByIdPath(field: string): (r: Option<string>)
    ensures ResourcesPath(field).Some? ==> r == Some(ResourcesPath(field).value + "/")
    ensures ResourcesPath(field).None? ==> r.None?
  {
    if field in ItemApis then Some(ItemApis[field]) else None
  }

  /** `resourceByIdPath(field, id)`: Java string concatenation renders a null path as "null". */
  function ResourceByIdPathWithId(field: string, id: string): (r: string)
    ensures ResourceByIdPath(field).Some? ==> r == ResourceByIdPath(field).value + id
    ensures field in RegisteredKeys ==> r == ResourcesPath(field).value + "/" + id
    ensures field !in RegisteredKeys ==> r == "null" + id
  {
    if field in ItemApis then ItemApis[field] + id else "null" + id
  }

  /** The registered paths of the order, line-number, piece and receiving-history resources. */
  lemma OrderResourcePaths()
    ensures ResourcesPath(PoLines) == Some(StoragePrefix + "poLines")
    ensures ResourcesPath(PoNumber) == Some(StoragePrefix + "poNumber")
    ensures ResourcesPath(PoLineNumber) == Some(StoragePrefix + "po-line-number")
    ensures ResourcesPath(PurchaseOrder) == Some(StoragePrefix + "purchaseOrders")
    ensures ResourcesPath(Pieces) == Some(StoragePrefix + "pieces")
    ensures ResourcesPath(ReceivingHistory) == Some(StoragePrefix + "receiving-history")
  {
  }

  /** The registered paths of the PO line sub-objects, first half. */
  lemma LineSubObjectPaths()
    ensures ResourcesPath(Adjustment) == Some(StoragePrefix + "adjustments")
    ensures ResourcesPath(Alerts) == Some(StoragePrefix + "alerts")
    ensures ResourcesPath(Claims) == Some(StoragePrefix + "claims")
    ensures ResourcesPath(Cost) == Some(StoragePrefix + "costs")
    ensures ResourcesPath(Details) == Some(StoragePrefix + "details")
    ensures ResourcesPath(EResource) == Some(StoragePrefix + "eresources")
  {
  }

  /** The registered paths of the PO line sub-objects, second half. */
  lemma MoreLineSubObjectPaths()
    ensures ResourcesPath(FundDistribution) == Some(StoragePrefix + "fundDistributions")
    ensures ResourcesPath(Locations) == Some(StoragePrefix + "locations")
    ensures ResourcesPath(Physical) == Some(StoragePrefix + "physicals")
    ensures ResourcesPath(ReportingCodes) == Some(StoragePrefix + "reportingCodes")
    ensures ResourcesPath(Source) == Some(StoragePrefix + "sources")
    ensures ResourcesPath(VendorDetail) == Some(StoragePrefix + "vendorDetails")
  {
  }

  /** The two tables are keyed by exactly the registered keys. */
  lemma TablesShareKeys()
    ensures CollectionApis.Keys == RegisteredKeys == ItemApis.Keys
  {
  }
}
