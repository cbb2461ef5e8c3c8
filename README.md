# Receiving and inventory reconciliation of FOLIO mod-orders, in Dafny

This project models the rules at the heart of the mod-orders receiving flow and the checks beside it.

- **`ReceivingHelper`**
  - groups a receive request into PO line → piece id maps;
  - applies the receiving details to piece records in place;
  - isolates item-update failures as per-piece errors;
  - rolls PO-line receipt status up while skipping ONGOING lines;
  - sends one order-status event naming the distinct purchase orders;
  - builds the per-line response.
- **`InventoryHelper`**
  - the case-insensitive "On order" test;
  - the in-place item status and barcode update;
  - matching existing items by material type;
  - the item-create arithmetic and how pieces are built from created and existing ids;
  - isolation of failed creates;
  - product-type count validation;
  - holding get-or-create;
  - the request-scoped `cacheAndGet` memo.
- **`OrdersImpl`**: the admission decisions of the order endpoints. These are the PO-line limit (`<=` for whole orders, `<` for adding a line) and the defaulting and matching of path and body ids.
- **`ResourcePathResolver`**: the fixed table from sub-object key to storage path. Each path is written as the common prefix "/orders-storage/" followed by the collection name; the concatenation is the same string as the literal path in the source.

Modules and files:

- `wrappers.dfy` holds `Option` (a Java reference that may be null) and `Result` (a call that may throw).
- `errors.dfy` holds the error codes and exceptions.
- `json.dfy` holds the part of Vert.x `JsonObject` the core uses.
- `text.dfy` holds `StringUtils.isEmpty`, `equalsIgnoreCase`, `Integer.parseInt` and decimal rendering.
- `collections.dfy` holds the stream collectors (`distinct`, StreamEx `toMap`, `Collectors.toMap` keeping the first value).
- `model.dfy` holds the records. A `Piece` is a class because the flow updates it with setters. A PO line body is a class because the line endpoints fill in its ids. `PieceData` and `PoLineData` are their field values.
- The other four files follow the four source classes.

Remote calls are oracles, and every call is recorded:

- `InventoryHelper.InventoryHelper` holds three constant functions. They answer a GET, a POST and a PUT by the call's position in the request log `requests` and by the request itself.
- "The third item create failed" is therefore an input.
- "No lookup is made" and "exactly n creates are issued" are statements about the log.
- Each item and holding step is also specified by a function of the log position where it starts: `LoanTypeIdAt`, `MissingItemsAt`, `FormatAt`, `FormatsUpTo`, `ItemRecordsAt`, `HoldingAt`, `GroupAt` and `GroupsUpTo`. Each returns the step's result and the log position where it ends, reading the oracles at the positions its requests take. The methods ensure that their result and the new log length are exactly these.

`ReceivingHelper.ReceivingHelper` works the same way:

- it takes the PO-line lookup, the receipt-status update and `calculateProcessingErrors` as functions;
- it records errors, lookups, receipt-status updates and order-status events in sequences.

The clock is the parameter `now`.

## Model

| member | source | states |
|---|---|---|
| Text.ParseInt | src/main/java/org/folio/rest/impl/OrdersImpl.java:218-224 | `Integer.parseInt`: a result iff the text is an optional sign followed by at least one digit and its signed decimal value lies in the 32-bit range; the result is that value |
| Text.IntToString | src/main/java/org/folio/rest/impl/OrdersImpl.java:35 | the rendering of the limit in the over-limit message is non-empty and starts with '-' exactly for negative numbers |
| Text.ParseIntToString | src/main/java/org/folio/rest/impl/OrdersImpl.java:218-224 | parsing the rendering of any 32-bit integer gives it back |
| Text.EqualsIgnoreCaseIffSameLowerForm | src/main/java/org/folio/rest/impl/InventoryHelper.java:185-187 | two strings are equal ignoring case iff their lower-case forms are equal |
| Collections.Distinct | src/main/java/org/folio/helper/ReceivingHelper.java:147-152 | `distinct()`: no duplicates, exactly the input's elements, never longer than the input |
| Collections.DistinctKeepsFirstOccurrenceOrder | src/main/java/org/folio/helper/ReceivingHelper.java:147-152 | the kept elements appear in the order of their first occurrence in the input |
| Collections.ToMap | src/main/java/org/folio/helper/ReceivingHelper.java:241-243 | StreamEx `toMap`: succeeds iff no key repeats; then its keys are exactly the elements' keys and each key maps to its element's value |
| Collections.ToMapKeepFirst | src/main/java/org/folio/rest/impl/InventoryHelper.java:339-342 | `toMap` with the merge `(k1, k2) -> k1`: keys are the elements' keys; each key maps to the value of its first element |
| Json.CastObjects | src/main/java/org/folio/rest/impl/InventoryHelper.java:488-490 | the cast of each element to an object succeeds iff every element is an object; then it keeps length and order |
| Json.ExtractItems | src/main/java/org/folio/rest/impl/InventoryHelper.java:486-492 | `extractItems`: an absent "items" array gives the empty list; otherwise the elements cast to objects, in order |
| Json.FirstObject | src/main/java/org/folio/rest/impl/InventoryHelper.java:643-648 | `getFirstObjectFromResponse`: the first element when it is an object; an absent or empty array fails with "no records of the property" |
| ResourcePathResolver.ResourcesPath | src/main/java/org/folio/orders/utils/ResourcePathResolver.java:66-68 | a path exactly for the 18 registered keys, null otherwise; every path starts with "/orders-storage/" and goes beyond it |
| ResourcePathResolver.ResourceByIdPath | src/main/java/org/folio/orders/utils/ResourcePathResolver.java:59-72 | the by-id path is the collection path followed by "/"; null for an unregistered key |
| ResourcePathResolver.ResourceByIdPathWithId | src/main/java/org/folio/orders/utils/ResourcePathResolver.java:74-76 | the by-id path followed by the id; for an unregistered key, "null" followed by the id |
| ResourcePathResolver.OrderResourcePaths | src/main/java/org/folio/orders/utils/ResourcePathResolver.java:51-56 | the registered paths of poLines, poNumber, po-line-number, purchaseOrder, pieces and receiving-history |
| ResourcePathResolver.LineSubObjectPaths | src/main/java/org/folio/orders/utils/ResourcePathResolver.java:39-44 | the registered paths of adjustment, alerts, claims, cost, details and eresource |
| ResourcePathResolver.MoreLineSubObjectPaths | src/main/java/org/folio/orders/utils/ResourcePathResolver.java:45-50 | the registered paths of fundDistribution, locations, physical, reportingCodes, source and vendorDetail |
| ResourcePathResolver.TablesShareKeys | src/main/java/org/folio/orders/utils/ResourcePathResolver.java:58-63 | the collection table and the by-id table are keyed by exactly the registered keys |
| OrdersImpl.GetPoLineLimit | src/main/java/org/folio/rest/impl/OrdersImpl.java:218-224 | the configured value, or the default when none is configured, is parsed: the limit is read iff that text parses, and is the parsed number; otherwise the failure is "Invalid limit value in configuration." |
| OrdersImpl.UnconfiguredLimitIsDefault | src/main/java/org/folio/rest/impl/OrdersImpl.java:220 | with no configured value the default is read exactly as a configured value would be |
| OrdersImpl.ConfiguredLimitIsRead | src/main/java/org/folio/rest/impl/OrdersImpl.java:218-224 | a configured limit is read back as the number it renders |
| OrdersImpl.CheckOrderLines | src/main/java/org/folio/rest/impl/OrdersImpl.java:81-83 | passes iff the limit parses and the line count is at most the limit; a count over it fails with the over-limit message and "lines_limit" |
| OrdersImpl.PostOrders | src/main/java/org/folio/rest/impl/OrdersImpl.java:76-112 | an order is created iff the limit check passes; otherwise the check's error |
| OrdersImpl.PutOrdersById | src/main/java/org/folio/rest/impl/OrdersImpl.java:116-129 | the order in the path is updated iff the same limit check passes; otherwise the check's error |
| OrdersImpl.DefaultIfNull | src/main/java/org/folio/rest/impl/OrdersImpl.java:140-143 | a null id becomes the path id; any other value, the empty string included, is kept |
| OrdersImpl.DefaultIfEmpty | src/main/java/org/folio/rest/impl/OrdersImpl.java:205-210 | a null or empty id becomes the path id; any other value is kept |
| OrdersImpl.AddLineDecision | src/main/java/org/folio/rest/impl/OrdersImpl.java:144-165 | a body order id other than the path's is "id_mismatch"; otherwise a limit that does not parse passes its error through, a count at or above the limit fails with the over-limit error for that limit, and the line is added iff the count is strictly below the limit |
| OrdersImpl.UpdateLineDecision | src/main/java/org/folio/rest/impl/OrdersImpl.java:211-215 | the line is updated iff both body ids equal the path ids; otherwise "id_mismatch" |
| OrdersImpl.PostOrdersLinesById | src/main/java/org/folio/rest/impl/OrdersImpl.java:133-168 | the body's null order id is set to the path id in place, its other fields are unchanged, and the add decision is taken on the updated body |
| OrdersImpl.PutOrdersLinesByIdAndLineId | src/main/java/org/folio/rest/impl/OrdersImpl.java:200-216 | empty body ids are set to the path ids in place, and the update decision is taken on the updated body |
| OrdersImpl.AddLineAcceptedIff | src/main/java/org/folio/rest/impl/OrdersImpl.java:140-165 | a line is added iff the body order id is null or the path's, and the order holds fewer lines than the limit |
| OrdersImpl.EmptyBodyOrderIdMismatches | src/main/java/org/folio/rest/impl/OrdersImpl.java:140-145 | an empty (not null) body order id is not defaulted and is refused as a mismatch |
| OrdersImpl.UpdateLineAcceptedIff | src/main/java/org/folio/rest/impl/OrdersImpl.java:205-215 | a line update is admitted iff each body id is empty or equal to the path's |
| OrdersImpl.LimitBoundary | src/main/java/org/folio/rest/impl/OrdersImpl.java:119-161 | an order of exactly `limit` lines may be created or updated, one of `limit + 1` may not; a line may not be added to an order already holding `limit` lines, but may be added to one holding `limit - 1` |
| OrdersImpl.AddedLineStaysWithinLimit | src/main/java/org/folio/rest/impl/OrdersImpl.java:149-150 | after an admitted add the order holds at most `limit` lines |
| InventoryHelper.IsOnOrderStatus | src/main/java/org/folio/rest/impl/InventoryHelper.java:185-196 | true iff the status is non-null and equals "on order" ignoring case; the constant "On order" itself qualifies |
| InventoryHelper.IsOnOrderItemStatus | src/main/java/org/folio/rest/impl/InventoryHelper.java:185-187 | the received item's status is "On order" ignoring case; false for null |
| InventoryHelper.IsOnOrderPieceStatus | src/main/java/org/folio/rest/impl/InventoryHelper.java:194-196 | the same test for the checked-in piece's status |
| InventoryHelper.WithStatusAndBarcode | src/main/java/org/folio/rest/impl/InventoryHelper.java:156-178 | the status object holds exactly the declared status name; the barcode is replaced only by a non-empty one; every other field is unchanged |
| InventoryHelper.ElectronicMaterialTypeId | src/main/java/org/folio/rest/impl/InventoryHelper.java:612-619 | the first material type of the details; 422 MISSING_MATERIAL_TYPE when details or material types are absent |
| InventoryHelper.PhysicalMaterialTypeId | src/main/java/org/folio/rest/impl/InventoryHelper.java:607-610 | the same value as the electronic material type id |
| InventoryHelper.ItemsByMaterialTypeMembers | src/main/java/org/folio/rest/impl/InventoryHelper.java:294-300 | the id of every item of the material type is kept; every kept id comes from such an item |
| InventoryHelper.ItemsByMaterialTypeAppend | src/main/java/org/folio/rest/impl/InventoryHelper.java:294-300 | filtering commutes with concatenation, so the order of the items is kept |
| InventoryHelper.ItemsByMaterialTypeAllOrNone | src/main/java/org/folio/rest/impl/InventoryHelper.java:294-300 | no matching item gives no id; all items matching gives every item's id in order |
| InventoryHelper.CreatesNeeded | src/main/java/org/folio/rest/impl/InventoryHelper.java:255-258 | the creates for a format are `max(0, expected - existing)` |
| InventoryHelper.TotalQuantityZero | src/main/java/org/folio/rest/impl/InventoryHelper.java:231-238 | the total is zero iff every format's quantity is zero |
| InventoryHelper.BuildPieces | src/main/java/org/folio/rest/impl/InventoryHelper.java:262-270 | one piece per created then existing id, each with the format, the PO line id and the location id |
| InventoryHelper.ItemBodyFields | src/main/java/org/folio/rest/impl/InventoryHelper.java:571-605 | a new item has exactly the holding, status, loan type, PO line and material type fields; it is "On order"; its holding, loan type, PO line and material type are the given ones (null ids stored as JSON null) |
| InventoryHelper.HoldingBodyFields | src/main/java/org/folio/rest/impl/InventoryHelper.java:212-218 | a new holding has exactly the instance id and location id fields, holding the given instance id and location id |
| InventoryHelper.RecordFailure | src/main/java/org/folio/rest/impl/InventoryHelper.java:339-342 | a record can be collected iff it is an object with a string id; a null record or a null id is a null reference, any other non-object a failed cast |
| InventoryHelper.FirstBadRecord | src/main/java/org/folio/rest/impl/InventoryHelper.java:339-342 | the records before the returned index can be collected, and the one at it (if any) cannot: the first record the collector fails on |
| InventoryHelper.FirstBadRecordNoneIffWellFormed | src/main/java/org/folio/rest/impl/InventoryHelper.java:339-342 | there is no record the collector fails on iff every record can be collected |
| InventoryHelper.ProductTypesFromResponse | src/main/java/org/folio/rest/impl/InventoryHelper.java:332-342 | a missing array is a null reference; a count other than the number of distinct product types fails with 422; otherwise the first record that cannot be collected decides the failure; when all can be, the result is the map in which each name maps to the id of its first record |
| InventoryHelper.CreatedIdsAllSucceed | src/main/java/org/folio/rest/impl/InventoryHelper.java:540-561 | all `n` creates yield an id iff every create returns one |
| InventoryHelper.NewHoldingIsDistinct | src/main/java/org/folio/rest/impl/InventoryHelper.java:113-118 | with distinct location ids, a holding created for one group repeats no holding created for an earlier group |
| InventoryHelper.InventoryHelper.ReceiveItem | src/main/java/org/folio/rest/impl/InventoryHelper.java:156-166 | the item record is updated in place to the status-and-barcode form and sent in one PUT; the result is that PUT's outcome |
| InventoryHelper.InventoryHelper.CheckinItem | src/main/java/org/folio/rest/impl/InventoryHelper.java:168-178 | the same update with the checked-in piece's status and barcode |
| InventoryHelper.InventoryHelper.CacheAndGet | src/main/java/org/folio/rest/impl/InventoryHelper.java:676-687 | a hit returns the cached value with no request; a miss makes one GET and caches the transformed answer, so the next call with the key makes none |
| InventoryHelper.InventoryHelper.GetProductTypesMap | src/main/java/org/folio/rest/impl/InventoryHelper.java:309-343 | no details or no product ids give the empty map with no request; otherwise one lookup of the distinct product types, validated as above |
| InventoryHelper.InventoryHelper.GetOrCreateHoldingsRecord | src/main/java/org/folio/rest/impl/InventoryHelper.java:198-218 | one lookup for the (instance, location) pair; the first holding's id when found; only an empty result creates a holding, at most one, with exactly those two fields; no item is created; the result and the requests issued are those of `HoldingAt` |
| InventoryHelper.InventoryHelper.CreateItemRecords | src/main/java/org/folio/rest/impl/InventoryHelper.java:540-561 | exactly `count` creates of the item; each failure records ITEM_CREATION_FAILED and adds no id; the others go on |
| InventoryHelper.InventoryHelper.CreateMissingItems | src/main/java/org/folio/rest/impl/InventoryHelper.java:502-532 | nothing for a quantity that is not positive; otherwise one loan-type lookup, then exactly `quantity` item creates, each posting the item body with the holding, the looked-up loan type, the PO line and the material type, and each giving an id or a recorded error; the ids are those the creates returned, in order (`MissingItemsAt`); no holding is created |
| InventoryHelper.InventoryHelper.HandleItemRecords | src/main/java/org/folio/rest/impl/InventoryHelper.java:230-284 | no request for a zero total; otherwise a lookup first, then `max(0, expected - existing)` creates per format; pieces plus recorded create failures account for every planned piece; all pieces carry the PO line and the first location; a missing material type fails; the pieces are the concatenation of the per-format pieces, and the result and requests are those of `ItemRecordsAt` |
| InventoryHelper.PiecesForFormat | src/main/java/org/folio/rest/impl/InventoryHelper.java:248-270 | a format with a zero quantity plans nothing; otherwise one piece per expected or per existing item, whichever is more |
| InventoryHelper.InventoryHelper.CreateItemsForFormat | src/main/java/org/folio/rest/impl/InventoryHelper.java:246-271 | nothing for a zero quantity; a missing material type aborts with no request; otherwise `max(0, expected - existing)` creates and pieces plus recorded failures equal to the larger of expected and existing, each piece with the format, the PO line and the location; no holding is created; the pieces are `BuildPieces` of the created ids followed by the existing ids of the material type (`FormatAt`) |
| InventoryHelper.InventoryHelper.CreateItemsForFormats | src/main/java/org/folio/rest/impl/InventoryHelper.java:243-281 | over all formats: the creates are the sum of the per-format creates and the pieces plus recorded failures the sum of the per-format plans; a missing material type with a positive total fails; no holding is created; the result is the concatenation of the per-format results, or the first failure (`FormatsUpTo`) |
| InventoryHelper.InventoryHelper.FormatsUpToAfterAbort | src/main/java/org/folio/rest/impl/InventoryHelper.java:250-262 | once a missing material type has failed a format, the later formats issue no request and leave the result unchanged |
| InventoryHelper.InventoryHelper.HandleLocationGroup | src/main/java/org/folio/rest/impl/InventoryHelper.java:116-127 | at most one holding created, the one of this location id; no items and no pieces when items need no update; otherwise the pieces are those `HandleItemRecords` gives for the group's holding (`GroupAt`) |
| InventoryHelper.InventoryHelper.HandleHoldingsAndItemsRecords | src/main/java/org/folio/rest/impl/InventoryHelper.java:109-134 | nothing when holdings need no update; no two created holdings are the same, and each is the holding of one location group; no items are created when items need no update; the pieces are the concatenation over the groups of each group's pieces, or the first failure (`GroupsUpTo`) |
| ReceivingHelper.ItemsForLine | src/main/java/org/folio/helper/ReceivingHelper.java:238-242 | the merged items of a PO line are exactly the items of the entries for that line |
| ReceivingHelper.LineMap | src/main/java/org/folio/helper/ReceivingHelper.java:241-243 | the piece-id map of one line: its keys are the line's piece ids, and each maps to its item's value |
| ReceivingHelper.GroupByPoLine | src/main/java/org/folio/helper/ReceivingHelper.java:236-243 | succeeds iff no piece id repeats within a line (DuplicateKey otherwise); one key per PO line id; every submitted item is found under its line and piece id |
| ReceivingHelper.GroupReceivedItemsByPoLineId | src/main/java/org/folio/helper/ReceivingHelper.java:235-244 | PO line → piece id → the received item; fails on a repeated piece id within a line |
| ReceivingHelper.GroupLocationsByPoLineIdOnReceiving | src/main/java/org/folio/helper/ReceivingHelper.java:163-174 | PO line → piece id → exactly the item's location id and holding id; fails on a repeated piece id within a line |
| ReceivingHelper.GroupingsAgree | src/main/java/org/folio/helper/ReceivingHelper.java:163-174 | the two groupings fail together, have the same keys, and each location is the one of the grouped item |
| ReceivingHelper.WithReceivingInfo | src/main/java/org/folio/helper/ReceivingHelper.java:292-317 | caption, comment, location and holding are replaced only by non-empty values; "On order" gives EXPECTED with no date, anything else RECEIVED at `now`; the item id is kept; the date is set iff the piece is received |
| ReceivingHelper.WithReceivingInfoIdempotent | src/main/java/org/folio/helper/ReceivingHelper.java:297-316 | applying the same details twice at the same time is applying them once |
| ReceivingHelper.WithReceivingInfoOnlyDateDependsOnTime | src/main/java/org/folio/helper/ReceivingHelper.java:309-316 | two applications at different times differ at most in the received date |
| ReceivingHelper.PieceIds | src/main/java/org/folio/helper/ReceivingHelper.java:208-210 | the ids of the pieces, position by position |
| ReceivingHelper.PurchaseOrderIds | src/main/java/org/folio/helper/ReceivingHelper.java:147-149 | the purchase-order id of each line, position by position |
| ReceivingHelper.OrderIdsPayload | src/main/java/org/folio/helper/ReceivingHelper.java:147-152 | each purchase-order id of the lines once and nothing else; empty iff there are no lines |
| ReceivingHelper.OrderIdsPayloadKeepsFirstOccurrenceOrder | src/main/java/org/folio/helper/ReceivingHelper.java:147-152 | the payload lists the ids in the order of their first occurrence |
| ReceivingHelper.NonOngoingIdsSkipOngoing | src/main/java/org/folio/helper/ReceivingHelper.java:120-126 | every line that is not ONGOING gets a receipt-status update, and each update belongs to such a line; all-ONGOING lines give none |
| ReceivingHelper.LinesWithIdInKeepsUpdated | src/main/java/org/folio/helper/ReceivingHelper.java:132-135 | exactly the lines whose id was reported as updated are kept |
| ReceivingHelper.ReceivingHelper.constructor | src/main/java/org/folio/helper/ReceivingHelper.java:57-60 | the helper holds the grouped request and starts with no errors, lookups, updates or events |
| ReceivingHelper.ReceivingHelper.UpdatePieceWithReceivingInfo | src/main/java/org/folio/helper/ReceivingHelper.java:292-317 | the piece's fields become `WithReceivingInfo` of their old values and its received item |
| ReceivingHelper.ReceivingHelper.RevertClearsReceipt | src/main/java/org/folio/helper/ReceivingHelper.java:247-251 | a received piece declared "On order" again becomes EXPECTED with no received date |
| ReceivingHelper.ReceivingHelper.ReceiveInventoryItemAndUpdatePiece | src/main/java/org/folio/helper/ReceivingHelper.java:254-274 | the item is updated and sent; on success the piece takes the receiving details; on failure ITEM_UPDATE_FAILED is recorded for (PO line, piece) and the piece is unchanged |
| ReceivingHelper.ReceivingHelper.UpdatePieceRecordsWithoutItems | src/main/java/org/folio/helper/ReceivingHelper.java:276-284 | exactly the pieces with an empty item id take their receiving details; the others are unchanged; the same map is returned |
| ReceivingHelper.ReceivingHelper.UpdateOrderStatus | src/main/java/org/folio/helper/ReceivingHelper.java:142-161 | no event for no lines; otherwise exactly one event with the distinct purchase-order ids |
| ReceivingHelper.ReceivingHelper.UpdatedIdsComeFromNonOngoingLines | src/main/java/org/folio/helper/ReceivingHelper.java:119-128 | every id counted as updated was reported by the update of a line that is not ONGOING |
| ReceivingHelper.ReceivingHelper.RequestReceiptUpdates | src/main/java/org/folio/helper/ReceivingHelper.java:119-128 | one receipt-status update per line that is not ONGOING, in order; the updated ids and the first failure are collected |
| ReceivingHelper.ReceivingHelper.UpdateFetchedLines | src/main/java/org/folio/helper/ReceivingHelper.java:116-136 | the updates, then an event only if all of them succeed, naming the orders of the lines actually updated |
| ReceivingHelper.ReceivingHelper.UpdatePoLinesStatus | src/main/java/org/folio/helper/ReceivingHelper.java:109-140 | an empty map is returned with no lookup; otherwise one lookup, ONGOING lines skipped, at most one event, and the map returned unchanged on success |
| ReceivingHelper.ReceivingHelper.PrepareResponseBody | src/main/java/org/folio/helper/ReceivingHelper.java:199-227 | fails iff a line's processed pieces repeat an id; otherwise one result per entry in order, with its PO line id, counters tallied from zero, and the total copied |

## Left out

- HTTP, futures and Vert.x are not modelled; each remote answer is an oracle function of the call's position and request. Parallel fan-outs (the creates of one format, the holdings of one PO line, the receipt-status updates) are issued in list order.
- The PO-line lookup (`getPoLines`), `calculatePoLineReceiptStatus` with `updatePoLineReceiptStatus`, and `calculateProcessingErrors` belong to the parent class `CheckinReceivePiecesHelper` or to `HelperUtils`, which are not part of this model. They are functions given to the helper. A fetched PO line is read as the value of its id, purchase-order id and payment status.
- `collectResultsOnSuccess` is read as "the first failure fails the whole result, otherwise all results in order". Null results of failed item creates are dropped.
- `getPoLineIdsForUpdatedPieces`, `calculatePiecesQuantity`, `groupLocationsById`, `isItemsUpdateRequired` and `isHoldingsUpdateRequired` (in `HelperUtils`, not part of this model) are inputs. The location groups are required to have distinct location ids and non-empty location lists, as grouping by location id gives.
- `loadConfiguration`, the property key and `DEFAULT_POLINE_LIMIT` live in `HelperUtils`. The configured value and the default are parameters.
- `total_records` in the response of the existing-lines lookup is an input of `AddLineDecision`. A missing value (a NullPointerException in the source) is not modelled.
- Instance handling is not modelled: `handleInstanceRecord`, `getInstanceRecord`, `createInstanceRecord`, `getInstanceType`, `getStatus`, `buildProductIdQuery`, `buildInstanceRecordJsonObject`, `getContributorNameTypeId`. It builds CQL and JSON layouts and is outside the receiving rules.
- `getItemRecordsByIds`, `searchForExistingItems`' CQL and endpoint strings, `extractId` and `getLoanTypeId` are folded into the lookups. Query strings and URL encoding are not modelled.
- `receiveItems`, `processReceiveItems`, `getReceivingHistory`, `getLocationId` and `getHoldingId`: the orchestration, the history query and two plain field reads.
- The order-status event is recorded as its list of purchase-order ids; the Okapi headers in the message are not modelled.
- Logging is not modelled. `new Date()` is the parameter `now`, one value per call.
- JSON: a value of the wrong type under a key is read as absent by `GetString` and `GetArray`, where Vert.x would throw a ClassCastException.
- Text.LowerString folds only ASCII letters. This is exact for the constant "On order", but `equalsIgnoreCase` folds more of Unicode.
- Text.ParseInt accepts only ASCII digits, while `Integer.parseInt` also accepts other Unicode decimal digits.
- Java `HashMap` iteration order (the per-format quantities, the grouped maps) is replaced by the order of the input sequence.
- ReceivingHelper.ReceivingHelper.constructor requires the grouping to succeed. In the source the constructor throws, so no helper exists in that case.
- ReceivingHelper.ReceivingHelper.UpdatePieceRecordsWithoutItems requires the request to name every piece without an item. In the source a piece it does not name throws a NullPointerException.
- ReceivingHelper.ReceivingHelper.PrepareResponseBody: `calculateProcessingErrors` is an oracle of the PO line id, the processed piece ids, the counters and the piece id. It cannot see the ITEM_UPDATE_FAILED errors that ReceiveInventoryItemAndUpdatePiece records (ReceivingHelper.java line 271), so the model does not relate a failed item update to the failure counter, and the per-piece error entries it adds to the result are not modelled.

A repeated piece id within one PO line makes StreamEx `toMap`, used without a merge function (ReceivingHelper.java lines 171 and 243), throw `IllegalStateException`. The model returns `DuplicateKey` there.
