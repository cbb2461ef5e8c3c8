/**
 * The catalog side of receiving (InventoryHelper): the "On order" signal,
 * item status and barcode updates, holding get-or-create, and finding or
 * creating the items of a PO line.
 *
 * Remote calls go through `InventoryHelper.Get`, `Post` and `Put`. Each call
 * is appended to the request log `requests`, and its answer is given by an
 * oracle function of the call's position in the log and of the request, so
 * that "the k-th create failed" is an input of the model.
 */
module InventoryHelper {
  import opened Wrappers
  import opened Errors
  import opened Json
  import opened Text
  import opened Collections
  import opened Model

  const ItemStatusOnOrder := "On order"
  const DefaultLoanTypeName := "Can circulate"

  const Id := "id"
  const ItemStatus := "status"
  const ItemStatusName := "name"
  const ItemBarcode := "barcode"
  const ItemMaterialTypeId := "materialTypeId"
  const ItemHoldingsRecordId := "holdingsRecordId"
  const ItemPermanentLoanTypeId := "permanentLoanTypeId"
  const ItemPurchaseOrderLineIdentifier := "purchaseOrderLineIdentifier"
  const HoldingInstanceId := "instanceId"
  const HoldingPermanentLocationId := "permanentLocationId"
  const HoldingsRecords := "holdingsRecords"
  const IdentifierTypes := "identifierTypes"
  const LoanTypes := "loantypes"
  const IdentifierTypeName := "name"

  datatype ProductId = ProductId(productId: string, productIdType: string)

  datatype Details = Details(materialTypes: seq<string>, productIds: seq<ProductId>)

  /** The parts of a composite PO line the inventory flow reads. */
  datatype CompositePoLine = CompositePoLine(id: string, instanceId: Option<string>, details: Option<Details>)

  /** A piece built for an item found or created in inventory. */
  datatype NewPiece = NewPiece(format: Format, itemId: Option<string>, poLineId: string, locationId: Option<string>)

  /** The GET requests this helper issues. */
  datatype Query =
    | HoldingsLookup(instanceId: Option<string>, locationId: Option<string>)
    | ItemsLookup(poLineId: string, holdingId: Option<string>, limit: nat)
    | IdentifierTypesLookup(productTypes: set<string>)
    | LoanTypeLookup(name: string)
    | CodeLookup(endpoint: string)

  datatype Endpoint = HoldingsCreate | ItemCreate

  datatype Request = GetRequest(query: Query) | PostRequest(endpoint: Endpoint, body: JsonObject) | PutRequest(record: JsonObject)

  // ---------------------------------------------------------------------
  // The "On order" signal

  /** `ITEM_STATUS_ON_ORDER.equalsIgnoreCase(status)`: false for null. */
  function IsOnOrderStatus(status: Option<string>): (b: bool)
    ensures b <==> status.Some? && LowerString(status.value) == "on order"
    ensures status == Some(ItemStatusOnOrder) ==> b
  {
    EqualsIgnoreCaseIffSameLowerForm(ItemStatusOnOrder, if status.Some? then status.value else "");
    assert LowerString(ItemStatusOnOrder) == "on order";
    status.Some? && EqualsIgnoreCase(ItemStatusOnOrder, status.value)
  }

  /** `isOnOrderItemStatus`: the received item declares the status "On order", in any case. */
  function IsOnOrderItemStatus(receivedItem: ReceivedItem): (b: bool)
    ensures b <==> receivedItem.itemStatus.Some? && LowerString(receivedItem.itemStatus.value) == "on order"
  {
    IsOnOrderStatus(receivedItem.itemStatus)
  }

  /**
   * `isOnOrderPieceStatus`: the same test for a checked-in piece. The
   * repository keeps two separate methods for receiving and check-in, so the
   * model keeps both; each is `IsOnOrderStatus` on its own record type.
   */
  function IsOnOrderPieceStatus(checkinPiece: CheckInPiece): (b: bool)
    ensures b <==> checkinPiece.itemStatus.Some? && LowerString(checkinPiece.itemStatus.value) == "on order"
  {
    IsOnOrderStatus(checkinPiece.itemStatus)
  }

  // ---------------------------------------------------------------------
  // Item status and barcode

  /**
   * The item record after `receiveItem` or `checkinItem`: its status name is
   * the declared status, its barcode is replaced only by a non-empty one, and
   * no other field changes.
   */
  function WithStatusAndBarcode(item: JsonObject, status: Option<string>, barcode: Option<string>): (r: JsonObject)
    ensures ItemStatus in r && r[ItemStatus] == JObject(map[ItemStatusName := OfNullable(status)])
    ensures !IsEmpty(barcode) ==> ItemBarcode in r && r[ItemBarcode] == JString(barcode.value)
    ensures IsEmpty(barcode) ==> (ItemBarcode in r <==> ItemBarcode in item)
    ensures IsEmpty(barcode) && ItemBarcode in item ==> r[ItemBarcode] == item[ItemBarcode]
    ensures forall k :: k != ItemStatus && k != ItemBarcode ==> (k in r <==> k in item)
    ensures forall k :: k in item && k != ItemStatus && k != ItemBarcode ==> r[k] == item[k]
  {
    var withStatus := item[ItemStatus := JObject(map[ItemStatusName := OfNullable(status)])];
    if IsEmpty(barcode) then withStatus else withStatus[ItemBarcode := JString(barcode.value)]
  }

  /** An inventory item record, updated in place. */
  class ItemRecord {
    var fields: JsonObject

    constructor (fields: JsonObject)
      ensures this.fields == fields
    {
      this.fields := fields;
    }
  }

  // ---------------------------------------------------------------------
  // Material types and existing items

  /** `getElectronicMaterialTypeId`: the first material type of the line's details. */
  function ElectronicMaterialTypeId(compPOL: CompositePoLine): (r: Result<string, Failure>)
    ensures r.Ok? <==> compPOL.details.Some? && |compPOL.details.value.materialTypes| > 0
    ensures r.Ok? ==> r.value == compPOL.details.value.materialTypes[0]
    ensures r.Err? ==> r.error == HttpCoded(422, MissingMaterialType)
  {
    if compPOL.details.Some? && |compPOL.details.value.materialTypes| > 0
    then Ok(compPOL.details.value.materialTypes[0])
    else Err(HttpCoded(422, MissingMaterialType))
  }

  /** `getPhysicalMaterialTypeId`: the same value as the electronic one. */
  function PhysicalMaterialTypeId(compPOL: CompositePoLine): (r: Result<string, Failure>)
    ensures r == ElectronicMaterialTypeId(compPOL)
    ensures r.Ok? <==> compPOL.details.Some? && |compPOL.details.value.materialTypes| > 0
  {
    ElectronicMaterialTypeId(compPOL)
  }

  function MaterialTypeIdFor(format: Format, compPOL: CompositePoLine): Result<string, Failure> {
    if format == Electronic then ElectronicMaterialTypeId(compPOL) else PhysicalMaterialTypeId(compPOL)
  }

  predicate HasMaterialType(item: JsonObject, materialTypeId: string) {
    GetString(item, ItemMaterialTypeId) == Some(materialTypeId)
  }

  /** `getItemsByMaterialType`: the ids of the items of the given material type, in order. */
  function ItemsByMaterialType(existingItems: seq<JsonObject>, materialTypeId: string): (r: seq<Option<string>>)
    ensures |r| <= |existingItems|
  {
    if existingItems == [] then []
    else
      var rest := ItemsByMaterialType(existingItems[1..], materialTypeId);
      if HasMaterialType(existingItems[0], materialTypeId)
      then [GetString(existingItems[0], Id)] + rest
      else rest
  }

  /** The id of every item of the material type is kept, and every kept id comes from such an item. */
  lemma {:induction false} ItemsByMaterialTypeMembers(existingItems: seq<JsonObject>, materialTypeId: string)
    ensures var r := ItemsByMaterialType(existingItems, materialTypeId);
      && (forall i :: 0 <= i < |existingItems| && HasMaterialType(existingItems[i], materialTypeId) ==>
            GetString(existingItems[i], Id) in r)
      && (forall x :: x in r ==>
            exists i :: 0 <= i < |existingItems| && HasMaterialType(existingItems[i], materialTypeId) && x == GetString(existingItems[i], Id))
  {
    if existingItems != [] {
      ItemsByMaterialTypeMembers(existingItems[1..], materialTypeId);
      assert forall i :: 1 <= i < |existingItems| ==> existingItems[i] == existingItems[1..][i - 1];
    }
  }

  /** Filtering a concatenation filters each part, keeping their order. */
  lemma {:induction false} ItemsByMaterialTypeAppend(a: seq<JsonObject>, b: seq<JsonObject>, materialTypeId: string)
    ensures ItemsByMaterialType(a + b, materialTypeId) == ItemsByMaterialType(a, materialTypeId) + ItemsByMaterialType(b, materialTypeId)
  {
    if a == [] {
      assert a + b == b;
    } else {
      assert (a + b)[1..] == a[1..] + b;
      ItemsByMaterialTypeAppend(a[1..], b, materialTypeId);
    }
  }

  /** Items of another material type are dropped; matching items keep their ids. */
  lemma {:induction false} ItemsByMaterialTypeAllOrNone(existingItems: seq<JsonObject>, materialTypeId: string)
    ensures (forall i :: 0 <= i < |existingItems| ==> !HasMaterialType(existingItems[i], materialTypeId)) ==>
      ItemsByMaterialType(existingItems, materialTypeId) == []
    ensures (forall i :: 0 <= i < |existingItems| ==> HasMaterialType(existingItems[i], materialTypeId)) ==>
      ItemsByMaterialType(existingItems, materialTypeId) == seq(|existingItems|, i requires 0 <= i < |existingItems| => GetString(existingItems[i], Id))
  {
    if existingItems != [] {
      ItemsByMaterialTypeAllOrNone(existingItems[1..], materialTypeId);
    }
  }

  // ---------------------------------------------------------------------
  // Quantities and piece building

  /** How many items of one format must be created: what is expected beyond what exists. */
  function CreatesNeeded(expected: int, existing: nat): (n: nat)
    ensures expected <= existing ==> n == 0
    ensures expected > existing ==> existing + n == expected
  {
    if expected > existing then expected - existing else 0
  }

  /** The sum of the expected quantities of the first `n` formats. */
  function QuantityUpTo(quantities: seq<(Format, nat)>, n: nat): nat
    requires n <= |quantities|
  {
    if n == 0 then 0 else QuantityUpTo(quantities, n - 1) + quantities[n - 1].1
  }

  /** The sum of the expected quantities. */
  function TotalQuantity(quantities: seq<(Format, nat)>): nat {
    QuantityUpTo(quantities, |quantities|)
  }

  lemma {:induction false} QuantityUpToZero(quantities: seq<(Format, nat)>, n: nat)
    requires n <= |quantities|
    ensures QuantityUpTo(quantities, n) == 0 <==> forall i :: 0 <= i < n ==> quantities[i].1 == 0
  {
    if n > 0 {
      QuantityUpToZero(quantities, n - 1);
    }
  }

  lemma TotalQuantityZero(quantities: seq<(Format, nat)>)
    ensures TotalQuantity(quantities) == 0 <==> forall i :: 0 <= i < |quantities| ==> quantities[i].1 == 0
  {
    QuantityUpToZero(quantities, |quantities|);
  }

  /** Creates issued over the first `n` formats, given the number of existing items of the line's material type. */
  function CreatesUpTo(quantities: seq<(Format, nat)>, n: nat, existing: nat): nat
    requires n <= |quantities|
  {
    if n == 0 then 0 else CreatesUpTo(quantities, n - 1, existing) + CreatesNeeded(quantities[n - 1].1, existing)
  }

  /** Creates issued over all formats. */
  function TotalCreates(quantities: seq<(Format, nat)>, existing: nat): nat {
    CreatesUpTo(quantities, |quantities|, existing)
  }

  /**
   * Pieces built plus creates that failed for one format: none for a zero
   * quantity, otherwise one per expected item or per existing item, whichever
   * is more.
   */
  function PiecesForFormat(expected: nat, existing: nat): (n: nat)
    ensures expected > 0 ==> n >= expected && n >= existing && (n == expected || n == existing)
    ensures expected == 0 ==> n == 0
  {
    if expected == 0 then 0 else if expected > existing then expected else existing
  }

  /** Pieces built plus creates that failed over the first `n` formats. */
  function PiecesUpTo(quantities: seq<(Format, nat)>, n: nat, existing: nat): nat
    requires n <= |quantities|
  {
    if n == 0 then 0 else PiecesUpTo(quantities, n - 1, existing) + PiecesForFormat(quantities[n - 1].1, existing)
  }

  /** Pieces built plus creates that failed, over all formats. */
  function PiecesPlanned(quantities: seq<(Format, nat)>, existing: nat): nat {
    PiecesUpTo(quantities, |quantities|, existing)
  }

  /** One piece per item id, created ids first, each with the format, the PO line and the location. */
  function BuildPieces(format: Format, created: seq<string>, existing: seq<Option<string>>, poLineId: string, locationId: Option<string>): (r: seq<NewPiece>)
    ensures |r| == |created| + |existing|
    ensures forall i :: 0 <= i < |created| ==> r[i] == NewPiece(format, Some(created[i]), poLineId, locationId)
    ensures forall i :: 0 <= i < |existing| ==> r[|created| + i] == NewPiece(format, existing[i], poLineId, locationId)
    ensures forall p :: p in r ==> p.format == format && p.poLineId == poLineId && p.locationId == locationId
  {
    if created != [] then
      var rest := BuildPieces(format, created[1..], existing, poLineId, locationId);
      [NewPiece(format, Some(created[0]), poLineId, locationId)] + rest
    else if existing != [] then
      var rest := BuildPieces(format, [], existing[1..], poLineId, locationId);
      [NewPiece(format, existing[0], poLineId, locationId)] + rest
    else []
  }

  /** `buildBaseItemRecordJsonObject` with its material type, put field by field. */
  function ItemBody(holdingId: Option<string>, loanTypeId: Option<string>, poLineId: string, materialTypeId: string): JsonObject {
    PutAll(ItemEntries(holdingId, loanTypeId, poLineId, materialTypeId), 5)
  }

  function ItemEntries(holdingId: Option<string>, loanTypeId: Option<string>, poLineId: string, materialTypeId: string): seq<(string, Json)> {
    [ (ItemHoldingsRecordId, OfNullable(holdingId)),
      (ItemStatus, JObject(map[ItemStatusName := JString(ItemStatusOnOrder)])),
      (ItemPermanentLoanTypeId, OfNullable(loanTypeId)),
      (ItemPurchaseOrderLineIdentifier, JString(poLineId)),
      (ItemMaterialTypeId, JString(materialTypeId)) ]
  }

  /** A new item is "On order" in the given holding, with the loan type, the PO line and the material type, and nothing else. */
  lemma ItemBodyFields(holdingId: Option<string>, loanTypeId: Option<string>, poLineId: string, materialTypeId: string)
    ensures var r := ItemBody(holdingId, loanTypeId, poLineId, materialTypeId);
      && r.Keys == {ItemHoldingsRecordId, ItemStatus, ItemPermanentLoanTypeId, ItemPurchaseOrderLineIdentifier, ItemMaterialTypeId}
      && r[ItemStatus].JObject? && IsOnOrderStatus(GetString(r[ItemStatus].fields, ItemStatusName))
      && GetString(r, ItemPurchaseOrderLineIdentifier) == Some(poLineId)
      && HasMaterialType(r, materialTypeId)
      && r[ItemHoldingsRecordId] == OfNullable(holdingId)
      && r[ItemPermanentLoanTypeId] == OfNullable(loanTypeId)
  {
    var entries := ItemEntries(holdingId, loanTypeId, poLineId, materialTypeId);
    assert IsOnOrderStatus(Some(ItemStatusOnOrder));
    assert PutAll(entries, 1) == map[ItemHoldingsRecordId := entries[0].1];
    assert PutAll(entries, 2) == PutAll(entries, 1)[ItemStatus := entries[1].1];
    assert PutAll(entries, 3) == PutAll(entries, 2)[ItemPermanentLoanTypeId := entries[2].1];
    assert PutAll(entries, 4) == PutAll(entries, 3)[ItemPurchaseOrderLineIdentifier := entries[3].1];
    assert PutAll(entries, 5) == PutAll(entries, 4)[ItemMaterialTypeId := entries[4].1];
  }

  /** `createHoldingsRecord`'s body, put field by field. */
  function HoldingBody(instanceId: Option<string>, locationId: Option<string>): JsonObject {
    PutAll([(HoldingInstanceId, OfNullable(instanceId)), (HoldingPermanentLocationId, OfNullable(locationId))], 2)
  }

  /** A new holding has exactly the instance id and the location id. */
  lemma HoldingBodyFields(instanceId: Option<string>, locationId: Option<string>)
    ensures var r := HoldingBody(instanceId, locationId);
      && r.Keys == {HoldingInstanceId, HoldingPermanentLocationId}
      && r[HoldingInstanceId] == OfNullable(instanceId)
      && r[HoldingPermanentLocationId] == OfNullable(locationId)
  {
    var entries := [(HoldingInstanceId, OfNullable(instanceId)), (HoldingPermanentLocationId, OfNullable(locationId))];
    assert PutAll(entries, 1) == map[HoldingInstanceId := entries[0].1];
    assert PutAll(entries, 2) == PutAll(entries, 1)[HoldingPermanentLocationId := entries[1].1];
  }

  // ---------------------------------------------------------------------
  // Product types

  /** The identifier type records, checked: each is an object with an id. */
  predicate WellFormedTypes(records: seq<Json>) {
    forall i :: 0 <= i < |records| ==> records[i].JObject? && GetString(records[i].fields, Id).Some?
  }

  function TypeName(record: Json): Option<string> {
    if record.JObject? then GetString(record.fields, IdentifierTypeName) else None
  }

  function TypeId(record: Json): string {
    if record.JObject? && GetString(record.fields, Id).Some? then GetString(record.fields, Id).value else ""
  }

  /**
   * What collecting one identifier-type record into the map throws: reading a
   * field of a null element or storing a null id is a null reference, casting
   * any other non-object is a failed cast.
   */
  function RecordFailure(record: Json): (r: Option<Failure>)
    ensures r.None? <==> record.JObject? && GetString(record.fields, Id).Some?
  {
    if record.JNull? then Some(NullReference)
    else if !record.JObject? then Some(ClassCast)
    else if GetString(record.fields, Id).None? then Some(NullReference)
    else None
  }

  /** The index of the first record from `i` on that cannot be collected, or `|records|`. */
  function FirstBadRecord(records: seq<Json>, i: nat): (k: nat)
    requires i <= |records|
    ensures i <= k <= |records|
    ensures forall j :: i <= j < k ==> RecordFailure(records[j]).None?
    ensures k < |records| ==> RecordFailure(records[k]).Some?
    decreases |records| - i
  {
    if i == |records| then i
    else if RecordFailure(records[i]).Some? then i
    else FirstBadRecord(records, i + 1)
  }

  /** Every record can be collected exactly when no first bad record exists. */
  lemma FirstBadRecordNoneIffWellFormed(records: seq<Json>)
    ensures FirstBadRecord(records, 0) == |records| <==> WellFormedTypes(records)
  {
  }

  /**
   * The product-type map built from the identifier-types response: the
   * response must hold exactly one record per distinct product type; the
   * records are collected in order, so the first one that cannot be collected
   * decides the failure; a name that occurs twice keeps the id of its first record.
   */
  function ProductTypesFromResponse(response: JsonObject, productTypesQty: nat, poLineId: string): (r: Result<map<Option<string>, string>, Failure>)
    ensures GetArray(response, IdentifierTypes).None? ==> r == Err(NullReference)
    ensures GetArray(response, IdentifierTypes).Some? && |GetArray(response, IdentifierTypes).value| != productTypesQty ==>
      r == Err(HttpMessage(422, "Invalid product type(s) is specified for the PO line with id " + poLineId))
    ensures var records := GetArray(response, IdentifierTypes);
      records.Some? && |records.value| == productTypesQty && FirstBadRecord(records.value, 0) < |records.value| ==>
      r == Err(RecordFailure(records.value[FirstBadRecord(records.value, 0)]).value)
    ensures var records := GetArray(response, IdentifierTypes);
      records.Some? && |records.value| == productTypesQty && WellFormedTypes(records.value) ==> r.Ok?
    ensures r.Ok? ==> var records := GetArray(response, IdentifierTypes).value;
      && |records| == productTypesQty
      && WellFormedTypes(records)
      && r.value.Keys == (set i | 0 <= i < |records| :: TypeName(records[i]))
      && forall i :: 0 <= i < |records| && FirstWithKey(records, TypeName, i) ==>
           r.value[TypeName(records[i])] == GetString(records[i].fields, Id).value
  {
    match GetArray(response, IdentifierTypes)
    case None => Err(NullReference)
    case Some(records) =>
      FirstBadRecordNoneIffWellFormed(records);
      var bad := FirstBadRecord(records, 0);
      if |records| != productTypesQty then
        Err(HttpMessage(422, "Invalid product type(s) is specified for the PO line with id " + poLineId))
      else if bad < |records| then Err(RecordFailure(records[bad]).value)
      else Ok(ToMapKeepFirst(records, TypeName, TypeId))
  }

  // ---------------------------------------------------------------------
  // The request log

  /** The bodies posted to one endpoint by the first `n` requests, in order. */
  function PostsUpTo(requests: seq<Request>, n: nat, endpoint: Endpoint): seq<JsonObject>
    requires n <= |requests|
  {
    if n == 0 then []
    else
      var last := requests[n - 1];
      PostsUpTo(requests, n - 1, endpoint) + (if last.PostRequest? && last.endpoint == endpoint then [last.body] else [])
  }

  /** The bodies posted to one endpoint, in order. */
  function Posts(requests: seq<Request>, endpoint: Endpoint): seq<JsonObject> {
    PostsUpTo(requests, |requests|, endpoint)
  }

  /** The posts of the first `n` requests depend only on those requests. */
  lemma {:induction false} PostsUpToPrefix(a: seq<Request>, b: seq<Request>, n: nat, endpoint: Endpoint)
    requires n <= |a| && n <= |b| && a[..n] == b[..n]
    ensures PostsUpTo(a, n, endpoint) == PostsUpTo(b, n, endpoint)
  {
    if n > 0 {
      assert a[n - 1] == a[..n][n - 1] == b[..n][n - 1] == b[n - 1];
      assert a[..n - 1] == a[..n][..n - 1] == b[..n][..n - 1] == b[..n - 1];
      PostsUpToPrefix(a, b, n - 1, endpoint);
    }
  }

  lemma {:induction false} PostsUpToAppend(a: seq<Request>, b: seq<Request>, n: nat, endpoint: Endpoint)
    requires n <= |b|
    ensures PostsUpTo(a + b, |a| + n, endpoint) == Posts(a, endpoint) + PostsUpTo(b, n, endpoint)
  {
    if n == 0 {
      assert (a + b)[..|a|] == a[..|a|];
      PostsUpToPrefix(a + b, a, |a|, endpoint);
    } else {
      assert (a + b)[|a| + n - 1] == b[n - 1];
      PostsUpToAppend(a, b, n - 1, endpoint);
    }
  }

  lemma PostsAppend(a: seq<Request>, b: seq<Request>, endpoint: Endpoint)
    ensures Posts(a + b, endpoint) == Posts(a, endpoint) + Posts(b, endpoint)
  {
    PostsUpToAppend(a, b, |b|, endpoint);
  }

  lemma PostsSplit(requests: seq<Request>, start: nat, mid: nat, endpoint: Endpoint)
    requires start <= mid <= |requests|
    ensures Posts(requests[start..], endpoint) == Posts(requests[start..mid], endpoint) + Posts(requests[mid..], endpoint)
  {
    assert requests[start..] == requests[start..mid] + requests[mid..];
    PostsAppend(requests[start..mid], requests[mid..], endpoint);
  }

  /** Requests issued after `before` add their posts after the posts already issued since `start`. */
  lemma PostsExtend(before: seq<Request>, after: seq<Request>, start: nat, endpoint: Endpoint)
    requires start <= |before| <= |after| && after[..|before|] == before
    ensures Posts(after[start..], endpoint) == Posts(before[start..], endpoint) + Posts(after[|before|..], endpoint)
  {
    PostsSplit(after, start, |before|, endpoint);
    assert after[start..|before|] == before[start..];
  }

  /** The count of posts since `start` grows by the count issued after `before`. */
  lemma PostsCountExtend(before: seq<Request>, after: seq<Request>, start: nat, endpoint: Endpoint, issued: nat, added: nat)
    requires start <= |before| <= |after| && after[..|before|] == before
    requires |Posts(before[start..], endpoint)| == issued && |Posts(after[|before|..], endpoint)| == added
    ensures |Posts(after[start..], endpoint)| == issued + added
  {
    PostsExtend(before, after, start, endpoint);
  }

  lemma PostsOfGet(q: Query, endpoint: Endpoint)
    ensures Posts([GetRequest(q)], endpoint) == []
  {
    assert PostsUpTo([GetRequest(q)], 0, endpoint) == [];
  }

  lemma PostsOfPost(e: Endpoint, body: JsonObject, endpoint: Endpoint)
    ensures Posts([PostRequest(e, body)], endpoint) == if e == endpoint then [body] else []
  {
    assert PostsUpTo([PostRequest(e, body)], 0, endpoint) == [];
  }

  /** A lookup followed by a holding create posts exactly that holding. */
  lemma PostsOfLookupThenCreate(q: Query, body: JsonObject)
    ensures Posts([GetRequest(q), PostRequest(HoldingsCreate, body)], ItemCreate) == []
    ensures Posts([GetRequest(q), PostRequest(HoldingsCreate, body)], HoldingsCreate) == [body]
  {
    var requests := [GetRequest(q), PostRequest(HoldingsCreate, body)];
    assert PostsUpTo(requests, 1, ItemCreate) == [] && PostsUpTo(requests, 1, HoldingsCreate) == [];
  }

  function Repeat<T>(x: T, n: nat): (r: seq<T>)
    ensures |r| == n && forall i :: 0 <= i < n ==> r[i] == x
  {
    seq(n, _ => x)
  }

  lemma {:induction false} PostsOfRepeat(body: JsonObject, n: nat)
    ensures Posts(Repeat(PostRequest(ItemCreate, body), n), ItemCreate) == Repeat(body, n)
    ensures Posts(Repeat(PostRequest(ItemCreate, body), n), HoldingsCreate) == []
  {
    if n > 0 {
      var requests := Repeat(PostRequest(ItemCreate, body), n);
      assert requests == Repeat(PostRequest(ItemCreate, body), n - 1) + [PostRequest(ItemCreate, body)];
      PostsOfRepeat(body, n - 1);
      PostsAppend(Repeat(PostRequest(ItemCreate, body), n - 1), [PostRequest(ItemCreate, body)], ItemCreate);
      PostsAppend(Repeat(PostRequest(ItemCreate, body), n - 1), [PostRequest(ItemCreate, body)], HoldingsCreate);
      PostsOfPost(ItemCreate, body, ItemCreate);
      PostsOfPost(ItemCreate, body, HoldingsCreate);
      assert Repeat(body, n) == Repeat(body, n - 1) + [body];
    }
  }

  /** The ids returned by `n` item creates posted from log position `start`, failed creates left out. */
  function CreatedIds(post: (nat, JsonObject) -> Option<string>, start: nat, body: JsonObject, n: nat): (r: seq<string>)
    ensures |r| <= n
  {
    if n == 0 then []
    else
      var id := post(start + n - 1, body);
      CreatedIds(post, start, body, n - 1) + (if id.Some? then [id.value] else [])
  }

  /** All creates succeed exactly when every one of them returns an id. */
  lemma {:induction false} CreatedIdsAllSucceed(post: (nat, JsonObject) -> Option<string>, start: nat, body: JsonObject, n: nat)
    ensures |CreatedIds(post, start, body, n)| == n <==> forall k :: start <= k < start + n ==> post(k, body).Some?
  {
    if n > 0 {
      CreatedIdsAllSucceed(post, start, body, n - 1);
    }
  }

  /** A holding created for the group at index `i` repeats no holding created for an earlier group. */
  lemma NewHoldingIsDistinct(earlier: seq<JsonObject>, created: seq<JsonObject>, instanceId: Option<string>,
                             groups: seq<(string, seq<Location>)>, i: nat)
    requires i < |groups|
    requires forall a, b :: 0 <= a < b < |groups| ==> groups[a].0 != groups[b].0
    requires NoDuplicates(earlier)
    requires forall b :: b in earlier ==> exists j :: 0 <= j < i && b == HoldingBody(instanceId, Some(groups[j].0))
    requires created == [] || created == [HoldingBody(instanceId, Some(groups[i].0))]
    ensures NoDuplicates(earlier + created)
    ensures forall b :: b in earlier + created ==> exists j :: 0 <= j < i + 1 && b == HoldingBody(instanceId, Some(groups[j].0))
  {
    if created != [] {
      var body := HoldingBody(instanceId, Some(groups[i].0));
      forall b | b in earlier ensures b != body {
        var j :| 0 <= j < i && b == HoldingBody(instanceId, Some(groups[j].0));
        HoldingBodyFields(instanceId, Some(groups[j].0));
        HoldingBodyFields(instanceId, Some(groups[i].0));
        assert b[HoldingPermanentLocationId] == JString(groups[j].0);
      }
      var all := earlier + [body];
      forall a, c | 0 <= a < c < |all| ensures all[a] != all[c] {
        assert all[a] == earlier[a];
        if c < |earlier| {
          assert all[c] == earlier[c];
        } else {
          assert all[c] == body && earlier[a] in earlier;
        }
      }
    }
  }

  /** The catalog helper, its request log, its processing errors and its request-scoped cache. */
  class InventoryHelper {
    /** The answer to a GET at a log position, null when the call failed. */
    const get: (nat, Query) -> Option<JsonObject>
    /** The id of the record created by a POST at a log position, null when the call failed. */
    const post: (nat, JsonObject) -> Option<string>
    /** Whether a PUT at a log position succeeded. */
    const put: (nat, JsonObject) -> bool

    var requests: seq<Request>
    var processingErrors: seq<ErrorCode>
    /** The entries `cacheAndGet` keeps in the Vert.x context. */
    var cache: map<string, JsonObject>

    constructor (get: (nat, Query) -> Option<JsonObject>, post: (nat, JsonObject) -> Option<string>, put: (nat, JsonObject) -> bool)
      ensures this.get == get && this.post == post && this.put == put
      ensures requests == [] && processingErrors == [] && cache == map[]
    {
      this.get := get;
      this.post := post;
      this.put := put;
      requests := [];
      processingErrors := [];
      cache := map[];
    }

    // The outcomes of the item-creation steps, as functions of the log
    // position where a step starts: each gives the step's result and the log
    // position after its last request.

    /** The id of the default loan type, from the lookup at `pos`. */
    function LoanTypeIdAt(pos: nat): Result<Option<string>, Failure> {
      match get(pos, LoanTypeLookup(DefaultLoanTypeName))
      case None => Err(RemoteFailure)
      case Some(response) =>
        match FirstObject(response, LoanTypes)
        case Err(e) => Err(e)
        case Ok(first) => Ok(GetString(first, Id))
    }

    /** `createMissingElectronicItems` / `createMissingPhysicalItems` started at `pos`. */
    function MissingItemsAt(pos: nat, holdingId: Option<string>, poLineId: string, materialTypeId: string, quantity: int)
      : (r: (Result<seq<string>, Failure>, nat))
      ensures pos <= r.1
      ensures r.0.Ok? ==> |r.0.value| <= CreatesNeeded(quantity, 0)
    {
      if quantity <= 0 then (Ok([]), pos)
      else
        match LoanTypeIdAt(pos)
        case Err(e) => (Err(e), pos + 1)
        case Ok(loanTypeId) =>
          (Ok(CreatedIds(post, pos + 1, ItemBody(holdingId, loanTypeId, poLineId, materialTypeId), quantity)), pos + 1 + quantity)
    }

    /** One format of `handleItemRecords` started at `pos`. */
    function FormatAt(pos: nat, compPOL: CompositePoLine, holdingId: Option<string>, items: seq<JsonObject>,
                      locationId: Option<string>, format: Format, expected: nat): (r: (Result<seq<NewPiece>, Failure>, nat))
      ensures pos <= r.1
    {
      if expected == 0 then (Ok([]), pos)
      else
        match MaterialTypeIdFor(format, compPOL)
        case Err(e) => (Err(e), pos)
        case Ok(typeId) =>
          var itemIds := ItemsByMaterialType(items, typeId);
          var (created, end) := MissingItemsAt(pos, holdingId, compPOL.id, typeId, expected - |itemIds|);
          match created
          case Err(e) => (Err(e), end)
          case Ok(ids) => (Ok(BuildPieces(format, ids, itemIds, compPOL.id, locationId)), end)
    }

    /** The per-format part of `handleItemRecords` over the first `n` formats, started at `pos`. */
    function FormatsUpTo(pos: nat, compPOL: CompositePoLine, holdingId: Option<string>, items: seq<JsonObject>,
                         locationId: Option<string>, quantities: seq<(Format, nat)>, n: nat): (r: (Result<seq<NewPiece>, Failure>, nat))
      requires n <= |quantities|
      ensures pos <= r.1
    {
      if n == 0 then (Ok([]), pos)
      else
        var prev := FormatsUpTo(pos, compPOL, holdingId, items, locationId, quantities, n - 1);
        var step := FormatAt(prev.1, compPOL, holdingId, items, locationId, quantities[n - 1].0, quantities[n - 1].1);
        (if prev.0.Err? then prev.0 else if step.0.Err? then Err(step.0.error) else Ok(prev.0.value + step.0.value), step.1)
    }

    /** The first `i + 1` formats: the first `i`, then format `i` from where they end. */
    lemma FormatsUpToNext(pos: nat, compPOL: CompositePoLine, holdingId: Option<string>, items: seq<JsonObject>,
                          locationId: Option<string>, quantities: seq<(Format, nat)>, i: nat)
      requires i < |quantities|
      ensures var prev := FormatsUpTo(pos, compPOL, holdingId, items, locationId, quantities, i);
        var step := FormatAt(prev.1, compPOL, holdingId, items, locationId, quantities[i].0, quantities[i].1);
        FormatsUpTo(pos, compPOL, holdingId, items, locationId, quantities, i + 1) ==
          (if prev.0.Err? then prev.0 else if step.0.Err? then Err(step.0.error) else Ok(prev.0.value + step.0.value), step.1)
    {
    }

    /** Once a missing material type has failed a format, the later formats make no request and change nothing. */
    lemma {:induction false} FormatsUpToAfterAbort(pos: nat, compPOL: CompositePoLine, holdingId: Option<string>, items: seq<JsonObject>,
                                                   locationId: Option<string>, quantities: seq<(Format, nat)>, k: nat, n: nat)
      requires k <= n <= |quantities|
      requires ElectronicMaterialTypeId(compPOL).Err?
      requires FormatsUpTo(pos, compPOL, holdingId, items, locationId, quantities, k).0.Err?
      ensures FormatsUpTo(pos, compPOL, holdingId, items, locationId, quantities, n)
           == FormatsUpTo(pos, compPOL, holdingId, items, locationId, quantities, k)
      decreases n
    {
      if n > k {
        FormatsUpToAfterAbort(pos, compPOL, holdingId, items, locationId, quantities, k, n - 1);
      }
    }

    /** `handleItemRecords` started at `pos`: the lookup of the existing items, then every format. */
    function ItemRecordsAt(pos: nat, compPOL: CompositePoLine, holdingId: Option<string>, locations: seq<Location>,
                           quantities: seq<(Format, nat)>): (r: (Result<seq<NewPiece>, Failure>, nat))
      requires |locations| > 0
      ensures pos <= r.1
    {
      var total := TotalQuantity(quantities);
      if total == 0 then (Ok([]), pos)
      else
        match get(pos, ItemsLookup(compPOL.id, holdingId, total))
        case None => (Err(RemoteFailure), pos + 1)
        case Some(response) =>
          match ExtractItems(response)
          case Err(e) => (Err(e), pos + 1)
          case Ok(items) => FormatsUpTo(pos + 1, compPOL, holdingId, items, locations[0].locationId, quantities, |quantities|)
    }

    /** `getOrCreateHoldingsRecord` started at `pos`. */
    function HoldingAt(pos: nat, instanceId: Option<string>, locationId: Option<string>): (r: (Result<Option<string>, Failure>, nat))
      ensures pos < r.1
    {
      match get(pos, HoldingsLookup(instanceId, locationId))
      case None => (Err(RemoteFailure), pos + 1)
      case Some(response) =>
        match GetArray(response, HoldingsRecords)
        case None => (Err(NullReference), pos + 1)
        case Some(holdings) =>
          if holdings != [] then
            match FirstObject(response, HoldingsRecords)
            case Ok(first) => (Ok(GetString(first, Id)), pos + 1)
            case Err(e) => (Err(e), pos + 1)
          else
            var id := post(pos + 1, HoldingBody(instanceId, locationId));
            (if id.Some? then Ok(id) else Err(RemoteFailure), pos + 2)
    }

    /** One location-id group started at `pos`: its holding, then its items in that holding. */
    function GroupAt(pos: nat, compPOL: CompositePoLine, itemsUpdateRequired: bool, locationId: string,
                     locations: seq<Location>, quantities: seq<(Format, nat)>): (r: (Result<seq<NewPiece>, Failure>, nat))
      requires |locations| > 0
      ensures pos < r.1
    {
      var holding := HoldingAt(pos, compPOL.instanceId, Some(locationId));
      if holding.0.Err? then (Err(holding.0.error), holding.1)
      else if !itemsUpdateRequired then (Ok([]), holding.1)
      else ItemRecordsAt(holding.1, compPOL, holding.0.value, locations, quantities)
    }

    /** The first `n` location-id groups of `handleHoldingsAndItemsRecords`, started at `pos`. */
    function GroupsUpTo(pos: nat, compPOL: CompositePoLine, itemsUpdateRequired: bool, groups: seq<(string, seq<Location>)>,
                        quantities: seq<Location> -> seq<(Format, nat)>, n: nat): (r: (Result<seq<NewPiece>, Failure>, nat))
      requires n <= |groups|
      requires forall i :: 0 <= i < |groups| ==> |groups[i].1| > 0
      ensures pos <= r.1
    {
      if n == 0 then (Ok([]), pos)
      else
        var prev := GroupsUpTo(pos, compPOL, itemsUpdateRequired, groups, quantities, n - 1);
        var step := GroupAt(prev.1, compPOL, itemsUpdateRequired, groups[n - 1].0, groups[n - 1].1, quantities(groups[n - 1].1));
        (if prev.0.Err? then prev.0 else if step.0.Err? then Err(step.0.error) else Ok(prev.0.value + step.0.value), step.1)
    }

    /** One more group: the fold after `i + 1` groups in terms of the fold after `i` and the next group. */
    lemma GroupsUpToNext(pos: nat, compPOL: CompositePoLine, itemsUpdateRequired: bool, groups: seq<(string, seq<Location>)>,
                         quantities: seq<Location> -> seq<(Format, nat)>, i: nat)
      requires i < |groups|
      requires forall i :: 0 <= i < |groups| ==> |groups[i].1| > 0
      ensures var prev := GroupsUpTo(pos, compPOL, itemsUpdateRequired, groups, quantities, i);
        var step := GroupAt(prev.1, compPOL, itemsUpdateRequired, groups[i].0, groups[i].1, quantities(groups[i].1));
        GroupsUpTo(pos, compPOL, itemsUpdateRequired, groups, quantities, i + 1) ==
          (if prev.0.Err? then prev.0 else if step.0.Err? then Err(step.0.error) else Ok(prev.0.value + step.0.value), step.1)
    {
    }

    method Get(q: Query) returns (response: Option<JsonObject>)
      modifies this
      ensures requests == old(requests) + [GetRequest(q)]
      ensures response == get(|old(requests)|, q)
      ensures processingErrors == old(processingErrors) && cache == old(cache)
    {
      response := get(|requests|, q);
      requests := requests + [GetRequest(q)];
    }

    method Post(endpoint: Endpoint, body: JsonObject) returns (id: Option<string>)
      modifies this
      ensures requests == old(requests) + [PostRequest(endpoint, body)]
      ensures id == post(|old(requests)|, body)
      ensures processingErrors == old(processingErrors) && cache == old(cache)
    {
      id := post(|requests|, body);
      requests := requests + [PostRequest(endpoint, body)];
    }

    method Put(record: JsonObject) returns (ok: bool)
      modifies this
      ensures requests == old(requests) + [PutRequest(record)]
      ensures ok == put(|old(requests)|, record)
      ensures processingErrors == old(processingErrors) && cache == old(cache)
    {
      ok := put(|requests|, record);
      requests := requests + [PutRequest(record)];
    }

    /** `receiveItem`: set the item's status and barcode, then send the whole record. */
    method ReceiveItem(item: ItemRecord, receivedItem: ReceivedItem) returns (ok: bool)
      modifies this, item
      ensures item.fields == WithStatusAndBarcode(old(item.fields), receivedItem.itemStatus, receivedItem.barcode)
      ensures requests == old(requests) + [PutRequest(item.fields)]
      ensures ok == put(|old(requests)|, item.fields)
      ensures processingErrors == old(processingErrors) && cache == old(cache)
    {
      item.fields := item.fields[ItemStatus := JObject(map[ItemStatusName := OfNullable(receivedItem.itemStatus)])];
      if !IsEmpty(receivedItem.barcode) {
        item.fields := item.fields[ItemBarcode := JString(receivedItem.barcode.value)];
      }
      ok := Put(item.fields);
    }

    /** `checkinItem`: the same update with the checked-in piece's status and barcode. */
    method CheckinItem(item: ItemRecord, checkinPiece: CheckInPiece) returns (ok: bool)
      modifies this, item
      ensures item.fields == WithStatusAndBarcode(old(item.fields), checkinPiece.itemStatus, checkinPiece.barcode)
      ensures requests == old(requests) + [PutRequest(item.fields)]
      ensures ok == put(|old(requests)|, item.fields)
      ensures processingErrors == old(processingErrors) && cache == old(cache)
    {
      item.fields := item.fields[ItemStatus := JObject(map[ItemStatusName := OfNullable(checkinPiece.itemStatus)])];
      if !IsEmpty(checkinPiece.barcode) {
        item.fields := item.fields[ItemBarcode := JString(checkinPiece.barcode.value)];
      }
      ok := Put(item.fields);
    }

    /**
     * `cacheAndGet`: a cached value is returned without a request; otherwise
     * the value is fetched, transformed, cached and returned, so the next call
     * with the same key makes no request.
     */
    method CacheAndGet(key: string, endpoint: string -> string, transform: JsonObject -> Result<JsonObject, Failure>)
      returns (r: Result<JsonObject, Failure>)
      modifies this
      ensures key in old(cache) ==> r == Ok(old(cache)[key]) && requests == old(requests) && cache == old(cache)
      ensures key !in old(cache) ==> requests == old(requests) + [GetRequest(CodeLookup(endpoint(key)))]
      ensures key !in old(cache) ==> var response := get(|old(requests)|, CodeLookup(endpoint(key)));
        && (response.None? ==> r == Err(RemoteFailure))
        && (response.Some? ==> r == transform(response.value))
      ensures r.Ok? ==> key in cache && cache[key] == r.value
      ensures cache == if key !in old(cache) && r.Ok? then old(cache)[key := r.value] else old(cache)
      ensures processingErrors == old(processingErrors)
    {
      if key in cache {
        r := Ok(cache[key]);
      } else {
        var response := Get(CodeLookup(endpoint(key)));
        if response.None? {
          r := Err(RemoteFailure);
        } else {
          r := transform(response.value);
          if r.Ok? {
            cache := cache[key := r.value];
          }
        }
      }
    }

    /**
     * `getProductTypesMap`: no product ids means the empty map without a
     * request; otherwise one lookup of the distinct product types.
     */
    method GetProductTypesMap(compPOL: CompositePoLine) returns (r: Result<map<Option<string>, string>, Failure>)
      modifies this
      ensures compPOL.details.None? || compPOL.details.value.productIds == [] ==>
        r == Ok(map[]) && requests == old(requests)
      ensures compPOL.details.Some? && compPOL.details.value.productIds != [] ==>
        var types := set p | p in compPOL.details.value.productIds :: p.productIdType;
        && requests == old(requests) + [GetRequest(IdentifierTypesLookup(types))]
        && var response := get(|old(requests)|, IdentifierTypesLookup(types));
           (response.None? ==> r == Err(RemoteFailure))
           && (response.Some? ==> r == ProductTypesFromResponse(response.value, |types|, compPOL.id))
      ensures processingErrors == old(processingErrors) && cache == old(cache)
    {
      if compPOL.details.None? || compPOL.details.value.productIds == [] {
        return Ok(map[]);
      }
      var types := set p | p in compPOL.details.value.productIds :: p.productIdType;
      var response := Get(IdentifierTypesLookup(types));
      if response.None? {
        return Err(RemoteFailure);
      }
      r := ProductTypesFromResponse(response.value, |types|, compPOL.id);
    }

    /**
     * `getOrCreateHoldingsRecord`: the id of the first holding found for the
     * (instance, location) pair; only when none is found, a holding with
     * exactly those two fields is created.
     */
    method GetOrCreateHoldingsRecord(compPOL: CompositePoLine, locationId: Option<string>) returns (r: Result<Option<string>, Failure>)
      modifies this
      ensures var q := HoldingsLookup(compPOL.instanceId, locationId);
        var response := get(|old(requests)|, q);
        && |requests| >= |old(requests)| + 1
        && requests[..|old(requests)| + 1] == old(requests) + [GetRequest(q)]
        && (response.None? ==> r == Err(RemoteFailure) && requests == old(requests) + [GetRequest(q)])
        && (response.Some? && GetArray(response.value, HoldingsRecords).None? ==>
              r == Err(NullReference) && requests == old(requests) + [GetRequest(q)])
        && (response.Some? && GetArray(response.value, HoldingsRecords).Some? && GetArray(response.value, HoldingsRecords).value != [] ==>
              requests == old(requests) + [GetRequest(q)]
              && r == (match FirstObject(response.value, HoldingsRecords)
                       case Ok(first) => Ok(GetString(first, Id))
                       case Err(e) => Err(e)))
        && (response.Some? && GetArray(response.value, HoldingsRecords) == Some([]) ==>
              var body := HoldingBody(compPOL.instanceId, locationId);
              && requests == old(requests) + [GetRequest(q), PostRequest(HoldingsCreate, body)]
              && var id := post(|old(requests)| + 1, body);
                 r == if id.Some? then Ok(id) else Err(RemoteFailure))
      ensures r == HoldingAt(|old(requests)|, compPOL.instanceId, locationId).0
      ensures |requests| == HoldingAt(|old(requests)|, compPOL.instanceId, locationId).1
      ensures Posts(requests[|old(requests)|..], ItemCreate) == []
      ensures var created := Posts(requests[|old(requests)|..], HoldingsCreate);
        created == [] || created == [HoldingBody(compPOL.instanceId, locationId)]
      ensures processingErrors == old(processingErrors) && cache == old(cache)
    {
      var q := HoldingsLookup(compPOL.instanceId, locationId);
      PostsOfGet(q, ItemCreate);
      PostsOfGet(q, HoldingsCreate);
      var response := Get(q);
      assert requests[|old(requests)|..] == [GetRequest(q)];
      if response.None? {
        return Err(RemoteFailure);
      }
      var holdings := GetArray(response.value, HoldingsRecords);
      if holdings.None? {
        return Err(NullReference);
      }
      if holdings.value != [] {
        match FirstObject(response.value, HoldingsRecords)
        case Ok(first) => return Ok(GetString(first, Id));
        case Err(e) => return Err(e);
      }
      var body := HoldingBody(compPOL.instanceId, locationId);
      var id := Post(HoldingsCreate, body);
      assert requests[|old(requests)|..] == [GetRequest(q), PostRequest(HoldingsCreate, body)];
      PostsOfLookupThenCreate(q, body);
      if id.Some? {
        r := Ok(id);
      } else {
        r := Err(RemoteFailure);
      }
    }

    /**
     * `createItemRecords`: `count` creates of the same item; a failed create
     * records ITEM_CREATION_FAILED and adds no id, and never stops the others.
     */
    method CreateItemRecords(body: JsonObject, count: nat) returns (ids: seq<string>)
      modifies this
      ensures requests == old(requests) + Repeat(PostRequest(ItemCreate, body), count)
      ensures ids == CreatedIds(post, |old(requests)|, body, count)
      ensures processingErrors == old(processingErrors) + Repeat(ItemCreationFailed, count - |ids|)
      ensures cache == old(cache)
    {
      ids := [];
      var i := 0;
      while i < count
        invariant 0 <= i <= count
        invariant requests == old(requests) + Repeat(PostRequest(ItemCreate, body), i)
        invariant ids == CreatedIds(post, |old(requests)|, body, i)
        invariant processingErrors == old(processingErrors) + Repeat(ItemCreationFailed, i - |ids|)
        invariant cache == old(cache)
      {
        var id := Post(ItemCreate, body);
        if id.Some? {
          ids := ids + [id.value];
        } else {
          processingErrors := processingErrors + [ItemCreationFailed];
        }
        i := i + 1;
      }
    }

    /**
     * `createMissingElectronicItems` / `createMissingPhysicalItems`: nothing
     * when the quantity is not positive; otherwise the loan type is looked up
     * and `quantity` items are created.
     */
    method CreateMissingItems(compPOL: CompositePoLine, holdingId: Option<string>, quantity: int, materialTypeId: string)
      returns (r: Result<seq<string>, Failure>)
      modifies this
      ensures quantity <= 0 ==> r == Ok([]) && requests == old(requests) && processingErrors == old(processingErrors)
      ensures |requests| >= |old(requests)| && requests[..|old(requests)|] == old(requests)
      ensures Posts(requests[|old(requests)|..], HoldingsCreate) == []
      ensures r.Ok? ==> |Posts(requests[|old(requests)|..], ItemCreate)| == CreatesNeeded(quantity, 0)
      ensures r.Ok? ==> |r.value| + (|processingErrors| - |old(processingErrors)|) == CreatesNeeded(quantity, 0)
      ensures r == MissingItemsAt(|old(requests)|, holdingId, compPOL.id, materialTypeId, quantity).0
      ensures |requests| == MissingItemsAt(|old(requests)|, holdingId, compPOL.id, materialTypeId, quantity).1
      ensures r.Ok? && quantity > 0 ==>
        Posts(requests[|old(requests)|..], ItemCreate) == Repeat(ItemBody(holdingId, LoanTypeIdAt(|old(requests)|).value, compPOL.id, materialTypeId), quantity)
      ensures |processingErrors| >= |old(processingErrors)|
      ensures cache == old(cache)
    {
      if quantity <= 0 {
        return Ok([]);
      }
      var start := |requests|;
      var loanType := Get(LoanTypeLookup(DefaultLoanTypeName));
      PostsOfGet(LoanTypeLookup(DefaultLoanTypeName), HoldingsCreate);
      assert requests[start..] == [GetRequest(LoanTypeLookup(DefaultLoanTypeName))];
      if loanType.None? {
        return Err(RemoteFailure);
      }
      var first := FirstObject(loanType.value, LoanTypes);
      if first.Err? {
        return Err(first.error);
      }
      var body := ItemBody(holdingId, GetString(first.value, Id), compPOL.id, materialTypeId);
      var mid := requests;
      var ids := CreateItemRecords(body, quantity);
      assert requests[start..] == [GetRequest(LoanTypeLookup(DefaultLoanTypeName))] + Repeat(PostRequest(ItemCreate, body), quantity);
      PostsAppend([GetRequest(LoanTypeLookup(DefaultLoanTypeName))], Repeat(PostRequest(ItemCreate, body), quantity), ItemCreate);
      PostsAppend([GetRequest(LoanTypeLookup(DefaultLoanTypeName))], Repeat(PostRequest(ItemCreate, body), quantity), HoldingsCreate);
      PostsOfGet(LoanTypeLookup(DefaultLoanTypeName), ItemCreate);
      PostsOfRepeat(body, quantity);
      r := Ok(ids);
    }
    /**
     * One format of `handleItemRecords`: nothing for a zero quantity; a
     * missing material type aborts; otherwise the items of the material type
     * already in the holding are reused, the rest are created, and one piece
     * is built per created or reused item.
     */
    method CreateItemsForFormat(compPOL: CompositePoLine, holdingId: Option<string>, items: seq<JsonObject>, existing: nat,
                                locationId: Option<string>, format: Format, expected: nat)
      returns (r: Result<seq<NewPiece>, Failure>, aborted: bool)
      requires ElectronicMaterialTypeId(compPOL).Ok? ==> existing == |ItemsByMaterialType(items, ElectronicMaterialTypeId(compPOL).value)|
      modifies this
      ensures |requests| >= |old(requests)| && requests[..|old(requests)|] == old(requests)
      ensures Posts(requests[|old(requests)|..], HoldingsCreate) == []
      ensures aborted <==> expected > 0 && ElectronicMaterialTypeId(compPOL).Err?
      ensures aborted ==> r == Err(ElectronicMaterialTypeId(compPOL).error) && requests == old(requests)
      ensures expected == 0 ==> r == Ok([]) && requests == old(requests) && processingErrors == old(processingErrors)
      ensures r.Ok? ==> |Posts(requests[|old(requests)|..], ItemCreate)| == CreatesNeeded(expected, existing)
      ensures r.Ok? ==> |r.value| + (|processingErrors| - |old(processingErrors)|) == PiecesForFormat(expected, existing)
      ensures r.Ok? ==> forall p :: p in r.value ==> p.format == format && p.poLineId == compPOL.id && p.locationId == locationId
      ensures r == FormatAt(|old(requests)|, compPOL, holdingId, items, locationId, format, expected).0
      ensures |requests| == FormatAt(|old(requests)|, compPOL, holdingId, items, locationId, format, expected).1
      ensures |processingErrors| >= |old(processingErrors)|
      ensures cache == old(cache)
    {
      aborted := false;
      var start := |requests|;
      if expected == 0 {
        return Ok([]), false;
      }
      var typeId := MaterialTypeIdFor(format, compPOL);
      if typeId.Err? {
        assert FormatAt(start, compPOL, holdingId, items, locationId, format, expected) == (Err(typeId.error), start);
        return Err(typeId.error), true;
      }
      var itemIds := ItemsByMaterialType(items, typeId.value);
      var created := CreateMissingItems(compPOL, holdingId, expected - |itemIds|, typeId.value);
      ghost var step := MissingItemsAt(start, holdingId, compPOL.id, typeId.value, expected - |itemIds|);
      assert created == step.0 && |requests| == step.1;
      assert |itemIds| == existing && CreatesNeeded(expected - |itemIds|, 0) == CreatesNeeded(expected, existing);
      if created.Err? {
        assert FormatAt(start, compPOL, holdingId, items, locationId, format, expected) == (Err(created.error), |requests|);
        return Err(created.error), false;
      }
      assert |Posts(requests[start..], ItemCreate)| == CreatesNeeded(expected, existing);
      var built := BuildPieces(format, created.value, itemIds, compPOL.id, locationId);
      assert FormatAt(start, compPOL, holdingId, items, locationId, format, expected) == (Ok(built), |requests|);
      r := Ok(built);
    }

    /**
     * `handleItemRecords`: one lookup of the line's existing items in the
     * holding, then, per format with a positive quantity, the creates still
     * needed and one piece per created or existing item. A missing material
     * type aborts before any create; other failures fail the result after
     * every format has been tried.
     */
    method HandleItemRecords(compPOL: CompositePoLine, holdingId: Option<string>, locations: seq<Location>, quantities: seq<(Format, nat)>)
      returns (r: Result<seq<NewPiece>, Failure>, existing: nat)
      requires |locations| > 0
      modifies this
      ensures TotalQuantity(quantities) == 0 ==>
        r == Ok([]) && requests == old(requests) && processingErrors == old(processingErrors)
      ensures |requests| >= |old(requests)| && requests[..|old(requests)|] == old(requests)
      ensures TotalQuantity(quantities) > 0 ==>
        |requests| > |old(requests)| && requests[|old(requests)|] == GetRequest(ItemsLookup(compPOL.id, holdingId, TotalQuantity(quantities)))
      ensures Posts(requests[|old(requests)|..], HoldingsCreate) == []
      ensures r.Ok? && TotalQuantity(quantities) > 0 ==>
        var response := get(|old(requests)|, ItemsLookup(compPOL.id, holdingId, TotalQuantity(quantities)));
        && response.Some? && ExtractItems(response.value).Ok? && ElectronicMaterialTypeId(compPOL).Ok?
        && existing == |ItemsByMaterialType(ExtractItems(response.value).value, ElectronicMaterialTypeId(compPOL).value)|
        && |Posts(requests[|old(requests)|..], ItemCreate)| == TotalCreates(quantities, existing)
        && |r.value| + (|processingErrors| - |old(processingErrors)|) == PiecesPlanned(quantities, existing)
      ensures r.Ok? ==> forall p :: p in r.value ==> p.poLineId == compPOL.id && p.locationId == locations[0].locationId
      ensures ElectronicMaterialTypeId(compPOL).Err? && TotalQuantity(quantities) > 0 ==> r.Err?
      ensures r == ItemRecordsAt(|old(requests)|, compPOL, holdingId, locations, quantities).0
      ensures |requests| == ItemRecordsAt(|old(requests)|, compPOL, holdingId, locations, quantities).1
      ensures |processingErrors| >= |old(processingErrors)|
      ensures cache == old(cache)
    {
      existing := 0;
      var total := TotalQuantity(quantities);
      if total == 0 {
        return Ok([]), 0;
      }
      var start := |requests|;
      var lookup := ItemsLookup(compPOL.id, holdingId, total);
      PostsOfGet(lookup, HoldingsCreate);
      PostsOfGet(lookup, ItemCreate);
      var response := Get(lookup);
      assert requests[start..] == [GetRequest(lookup)];
      if response.None? {
        assert ItemRecordsAt(start, compPOL, holdingId, locations, quantities) == (Err(RemoteFailure), start + 1);
        return Err(RemoteFailure), 0;
      }
      var items := ExtractItems(response.value);
      if items.Err? {
        assert ItemRecordsAt(start, compPOL, holdingId, locations, quantities) == (Err(items.error), start + 1);
        return Err(items.error), 0;
      }
      var materialType := ElectronicMaterialTypeId(compPOL);
      existing := if materialType.Ok? then |ItemsByMaterialType(items.value, materialType.value)| else 0;
      var afterLookup := requests;
      r := CreateItemsForFormats(compPOL, holdingId, items.value, existing, locations[0].locationId, quantities);
      ghost var formats := FormatsUpTo(start + 1, compPOL, holdingId, items.value, locations[0].locationId, quantities, |quantities|);
      assert r == formats.0 && |requests| == formats.1;
      assert ItemRecordsAt(start, compPOL, holdingId, locations, quantities) == formats;
      PostsSplit(requests, start, |afterLookup|, HoldingsCreate);
      PostsSplit(requests, start, |afterLookup|, ItemCreate);
      assert requests[start..|afterLookup|] == [GetRequest(lookup)];
    }

    /**
     * The per-format part of `handleItemRecords`, given the existing items:
     * formats with a zero quantity are skipped; a missing material type aborts
     * before any create; a failed format fails the result after every format
     * has been tried.
     */
    method CreateItemsForFormats(compPOL: CompositePoLine, holdingId: Option<string>, items: seq<JsonObject>, existing: nat,
                                 locationId: Option<string>, quantities: seq<(Format, nat)>)
      returns (r: Result<seq<NewPiece>, Failure>)
      requires ElectronicMaterialTypeId(compPOL).Ok? ==> existing == |ItemsByMaterialType(items, ElectronicMaterialTypeId(compPOL).value)|
      modifies this
      ensures |requests| >= |old(requests)| && requests[..|old(requests)|] == old(requests)
      ensures Posts(requests[|old(requests)|..], HoldingsCreate) == []
      ensures r.Ok? ==> |Posts(requests[|old(requests)|..], ItemCreate)| == TotalCreates(quantities, existing)
      ensures r.Ok? ==> |r.value| + (|processingErrors| - |old(processingErrors)|) == PiecesPlanned(quantities, existing)
      ensures r.Ok? ==> forall p :: p in r.value ==> p.poLineId == compPOL.id && p.locationId == locationId
      ensures ElectronicMaterialTypeId(compPOL).Err? && TotalQuantity(quantities) > 0 ==> r.Err?
      ensures r == FormatsUpTo(|old(requests)|, compPOL, holdingId, items, locationId, quantities, |quantities|).0
      ensures |requests| == FormatsUpTo(|old(requests)|, compPOL, holdingId, items, locationId, quantities, |quantities|).1
      ensures |processingErrors| >= |old(processingErrors)|
      ensures cache == old(cache)
    {
      var start := |requests|;
      // The pieces built so far, or the first failure.
      r := Ok([]);
      var i := 0;
      while i < |quantities|
        invariant 0 <= i <= |quantities|
        invariant |requests| >= start && requests[..start] == old(requests)
        invariant Posts(requests[start..], HoldingsCreate) == []
        invariant QuantityUpTo(quantities, i) > 0 ==> ElectronicMaterialTypeId(compPOL).Ok?
        invariant r.Ok? ==> |Posts(requests[start..], ItemCreate)| == CreatesUpTo(quantities, i, existing)
        invariant r.Ok? ==> |r.value| + (|processingErrors| - |old(processingErrors)|) == PiecesUpTo(quantities, i, existing)
        invariant r.Ok? ==> forall p :: p in r.value ==> p.poLineId == compPOL.id && p.locationId == locationId
        invariant r.Err? ==> ElectronicMaterialTypeId(compPOL).Ok?
        invariant |processingErrors| >= |old(processingErrors)|
        invariant (r, |requests|) == FormatsUpTo(start, compPOL, holdingId, items, locationId, quantities, i)
        invariant cache == old(cache)
      {
        var (format, expected) := quantities[i];
        var before := requests;
        var built, aborted := CreateItemsForFormat(compPOL, holdingId, items, existing, locationId, format, expected);
        FormatsUpToNext(start, compPOL, holdingId, items, locationId, quantities, i);
        PostsExtend(before, requests, start, HoldingsCreate);
        if aborted {
          FormatsUpToAfterAbort(start, compPOL, holdingId, items, locationId, quantities, i + 1, |quantities|);
          return built;
        }
        if r.Ok? {
          match built {
            case Err(e) =>
              r := Err(e);
            case Ok(b) =>
              assert CreatesUpTo(quantities, i + 1, existing) == CreatesUpTo(quantities, i, existing) + CreatesNeeded(expected, existing);
              PostsCountExtend(before, requests, start, ItemCreate, CreatesUpTo(quantities, i, existing), CreatesNeeded(expected, existing));
              r := Ok(r.value + b);
          }
        }
        i := i + 1;
      }
    }

    /**
     * One location-id group of `handleHoldingsAndItemsRecords`: its holding is
     * found or created, then, when items are to be updated, its items are
     * handled in that holding.
     */
    method HandleLocationGroup(compPOL: CompositePoLine, itemsUpdateRequired: bool, locationId: string,
                               locations: seq<Location>, quantities: seq<(Format, nat)>)
      returns (r: Result<seq<NewPiece>, Failure>)
      requires |locations| > 0
      modifies this
      ensures |requests| >= |old(requests)| && requests[..|old(requests)|] == old(requests)
      ensures var created := Posts(requests[|old(requests)|..], HoldingsCreate);
        created == [] || created == [HoldingBody(compPOL.instanceId, Some(locationId))]
      ensures !itemsUpdateRequired ==> Posts(requests[|old(requests)|..], ItemCreate) == [] && (r.Ok? ==> r.value == [])
      ensures r.Ok? ==> forall p :: p in r.value ==> p.poLineId == compPOL.id
      ensures r == GroupAt(|old(requests)|, compPOL, itemsUpdateRequired, locationId, locations, quantities).0
      ensures |requests| == GroupAt(|old(requests)|, compPOL, itemsUpdateRequired, locationId, locations, quantities).1
      ensures cache == old(cache)
    {
      var start := |requests|;
      var holdingId := GetOrCreateHoldingsRecord(compPOL, Some(locationId));
      ghost var holding := HoldingAt(start, compPOL.instanceId, Some(locationId));
      assert holdingId == holding.0 && |requests| == holding.1;
      if holdingId.Err? {
        return Err(holdingId.error);
      }
      if !itemsUpdateRequired {
        return Ok([]);
      }
      var afterHolding := requests;
      var result, _ := HandleItemRecords(compPOL, holdingId.value, locations, quantities);
      PostsExtend(afterHolding, requests, start, HoldingsCreate);
      r := result;
    }

    /**
     * `handleHoldingsAndItemsRecords`: per location-id group, the holding is
     * found or created, then its items are handled when items are to be
     * updated. Holdings are created only for distinct location ids.
     */
    method HandleHoldingsAndItemsRecords(compPOL: CompositePoLine, holdingsUpdateRequired: bool, itemsUpdateRequired: bool,
                                         groups: seq<(string, seq<Location>)>, quantities: seq<Location> -> seq<(Format, nat)>)
      returns (r: Result<seq<NewPiece>, Failure>)
      requires forall i, j :: 0 <= i < j < |groups| ==> groups[i].0 != groups[j].0
      requires forall i :: 0 <= i < |groups| ==> |groups[i].1| > 0
      modifies this
      ensures !holdingsUpdateRequired ==>
        r == Ok([]) && requests == old(requests) && processingErrors == old(processingErrors)
      ensures |requests| >= |old(requests)| && requests[..|old(requests)|] == old(requests)
      ensures NoDuplicates(Posts(requests[|old(requests)|..], HoldingsCreate))
      ensures forall b :: b in Posts(requests[|old(requests)|..], HoldingsCreate) ==>
        exists i :: 0 <= i < |groups| && b == HoldingBody(compPOL.instanceId, Some(groups[i].0))
      ensures !itemsUpdateRequired ==> Posts(requests[|old(requests)|..], ItemCreate) == [] && (r.Ok? ==> r.value == [])
      ensures r.Ok? ==> forall p :: p in r.value ==> p.poLineId == compPOL.id
      ensures holdingsUpdateRequired ==>
        && r == GroupsUpTo(|old(requests)|, compPOL, itemsUpdateRequired, groups, quantities, |groups|).0
        && |requests| == GroupsUpTo(|old(requests)|, compPOL, itemsUpdateRequired, groups, quantities, |groups|).1
      ensures cache == old(cache)
    {
      var start := |requests|;
      if !holdingsUpdateRequired {
        return Ok([]);
      }
      // The pieces built so far, or the first failure.
      r := Ok([]);
      var i := 0;
      while i < |groups|
        invariant 0 <= i <= |groups|
        invariant |requests| >= start && requests[..start] == old(requests)
        invariant NoDuplicates(Posts(requests[start..], HoldingsCreate))
        invariant forall b :: b in Posts(requests[start..], HoldingsCreate) ==>
          exists j :: 0 <= j < i && b == HoldingBody(compPOL.instanceId, Some(groups[j].0))
        invariant !itemsUpdateRequired ==> Posts(requests[start..], ItemCreate) == [] && (r.Ok? ==> r.value == [])
        invariant r.Ok? ==> forall p :: p in r.value ==> p.poLineId == compPOL.id
        invariant (r, |requests|) == GroupsUpTo(start, compPOL, itemsUpdateRequired, groups, quantities, i)
        invariant cache == old(cache)
      {
        var (locationId, locations) := groups[i];
        var before := requests;
        var result := HandleLocationGroup(compPOL, itemsUpdateRequired, locationId, locations, quantities(locations));
        ghost var step := GroupAt(|before|, compPOL, itemsUpdateRequired, locationId, locations, quantities(locations));
        assert result == step.0 && |requests| == step.1;
        GroupsUpToNext(start, compPOL, itemsUpdateRequired, groups, quantities, i);
        PostsExtend(before, requests, start, HoldingsCreate);
        PostsExtend(before, requests, start, ItemCreate);
        NewHoldingIsDistinct(Posts(before[start..], HoldingsCreate), Posts(requests[|before|..], HoldingsCreate), compPOL.instanceId, groups, i);
        if r.Ok? {
          match result {
            case Err(e) =>
              r := Err(e);
            case Ok(built) =>
              r := Ok(r.value + built);
          }
        }
        i := i + 1;
      }
    }
  }
}
