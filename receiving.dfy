/**
 * The receiving flow (ReceivingHelper): grouping the submitted items by PO
 * line and piece id, applying receiving details to piece records in place,
 * isolating item-update failures, the PO-line status roll-up with its
 * order-status event, and the per-line response.
 */
module ReceivingHelper {
  import opened Wrappers
  import opened Errors
  import opened Text
  import opened Collections
  import opened Model
  import InventoryHelper

  // ---------------------------------------------------------------------
  // Grouping the request by PO line and piece id

  /** The PO line ids the request names. */
  function LineIds(entries: seq<ToBeReceived>): set<string> {
    set i | 0 <= i < |entries| :: entries[i].poLineId
  }

  /** The received items of every entry for the PO line, entry after entry. */
  function ItemsForLine(entries: seq<ToBeReceived>, poLineId: string): (r: seq<ReceivedItem>)
    ensures forall i, j :: 0 <= i < |entries| && entries[i].poLineId == poLineId && 0 <= j < |entries[i].receivedItems| ==>
      entries[i].receivedItems[j] in r
    ensures forall x :: x in r ==>
      (exists i :: 0 <= i < |entries| && entries[i].poLineId == poLineId && x in entries[i].receivedItems)
  {
    if entries == [] then []
    else
      var n := |entries| - 1;
      var rest := ItemsForLine(entries[..n], poLineId);
      assert forall i :: 0 <= i < n ==> entries[..n][i] == entries[i];
      if entries[n].poLineId == poLineId then rest + entries[n].receivedItems else rest
  }

  function PieceId(item: ReceivedItem): string {
    item.pieceId
  }

  /** No piece id occurs twice among the items of one PO line. */
  predicate PieceIdsDistinctPerLine(entries: seq<ToBeReceived>) {
    forall l :: l in LineIds(entries) ==> KeysDistinct(ItemsForLine(entries, l), PieceId)
  }

  /** The piece-id map of one PO line: StreamEx `toMap(pieceId, value)` over the line's merged items. */
  function LineMap<V>(entries: seq<ToBeReceived>, poLineId: string, value: ReceivedItem -> V): (r: map<string, V>)
    requires KeysDistinct(ItemsForLine(entries, poLineId), PieceId)
    ensures r.Keys == set x | x in ItemsForLine(entries, poLineId) :: x.pieceId
    ensures forall x :: x in ItemsForLine(entries, poLineId) ==> r[x.pieceId] == value(x)
  {
    var xs := ItemsForLine(entries, poLineId);
    var m := ToMap(xs, PieceId, value).value;
    assert forall x :: x in xs ==> m[x.pieceId] == value(x) by {
      forall x | x in xs ensures m[x.pieceId] == value(x) {
        var i :| 0 <= i < |xs| && xs[i] == x;
      }
    }
    assert m.Keys == set x | x in xs :: x.pieceId by {
      forall x | x in xs ensures x.pieceId in m.Keys {
        var i :| 0 <= i < |xs| && xs[i] == x;
      }
    }
    m
  }

  /**
   * The collector both groupings share: `groupingBy(poLineId)` over the
   * entries, then StreamEx `toMap(pieceId, value)` over the merged items of
   * each line, which throws on a repeated piece id.
   */
  function GroupByPoLine<V>(entries: seq<ToBeReceived>, value: ReceivedItem -> V): (r: Result<map<string, map<string, V>>, Failure>)
    ensures r.Ok? <==> PieceIdsDistinctPerLine(entries)
    ensures r.Err? ==> r.error == DuplicateKey
    ensures r.Ok? ==> r.value.Keys == LineIds(entries)
    ensures r.Ok? ==> forall l :: l in r.value ==> r.value[l].Keys == set x | x in ItemsForLine(entries, l) :: x.pieceId
    ensures r.Ok? ==> forall i, j :: 0 <= i < |entries| && 0 <= j < |entries[i].receivedItems| ==>
      var item := entries[i].receivedItems[j];
      item.pieceId in r.value[entries[i].poLineId] && r.value[entries[i].poLineId][item.pieceId] == value(item)
  {
    if PieceIdsDistinctPerLine(entries) then
      var m := map l | l in LineIds(entries) :: LineMap(entries, l, value);
      assert forall i :: 0 <= i < |entries| ==> entries[i].poLineId in LineIds(entries);
      Ok(m)
    else
      Err(DuplicateKey)
  }

  function Identity(item: ReceivedItem): ReceivedItem {
    item
  }

  function LocationOf(item: ReceivedItem): Location {
    Location(item.locationId, item.holdingId)
  }

  /**
   * `groupReceivedItemsByPoLineId`: one entry per PO line id, holding every
   * received item of the entries for that line under its piece id.
   */
  function GroupReceivedItemsByPoLineId(c: ReceivingCollection): (r: Result<map<string, map<string, ReceivedItem>>, Failure>)
    ensures r.Ok? <==> PieceIdsDistinctPerLine(c.toBeReceived)
    ensures r.Err? ==> r.error == DuplicateKey
    ensures r.Ok? ==> r.value.Keys == LineIds(c.toBeReceived)
    ensures r.Ok? ==> forall l :: l in r.value ==> r.value[l].Keys == set x | x in ItemsForLine(c.toBeReceived, l) :: x.pieceId
    ensures r.Ok? ==> forall i, j :: 0 <= i < |c.toBeReceived| && 0 <= j < |c.toBeReceived[i].receivedItems| ==>
      var item := c.toBeReceived[i].receivedItems[j];
      r.value[c.toBeReceived[i].poLineId][item.pieceId] == item
  {
    GroupByPoLine(c.toBeReceived, Identity)
  }

  /**
   * `groupLocationsByPoLineIdOnReceiving`: the same grouping, each piece id
   * mapped to exactly the item's location id and holding id.
   */
  function GroupLocationsByPoLineIdOnReceiving(c: ReceivingCollection): (r: Result<map<string, map<string, Location>>, Failure>)
    ensures r.Ok? <==> PieceIdsDistinctPerLine(c.toBeReceived)
    ensures r.Err? ==> r.error == DuplicateKey
    ensures r.Ok? ==> r.value.Keys == LineIds(c.toBeReceived)
    ensures r.Ok? ==> forall l :: l in r.value ==> r.value[l].Keys == set x | x in ItemsForLine(c.toBeReceived, l) :: x.pieceId
    ensures r.Ok? ==> forall i, j :: 0 <= i < |c.toBeReceived| && 0 <= j < |c.toBeReceived[i].receivedItems| ==>
      var item := c.toBeReceived[i].receivedItems[j];
      r.value[c.toBeReceived[i].poLineId][item.pieceId] == Location(item.locationId, item.holdingId)
  {
    GroupByPoLine(c.toBeReceived, LocationOf)
  }

  /**
   * The two groupings fail together and agree: the location grouped for a
   * piece is the location of the item grouped for it.
   */
  lemma GroupingsAgree(c: ReceivingCollection)
    ensures GroupReceivedItemsByPoLineId(c).Ok? <==> GroupLocationsByPoLineIdOnReceiving(c).Ok?
    ensures GroupReceivedItemsByPoLineId(c).Ok? ==>
      var items := GroupReceivedItemsByPoLineId(c).value;
      var locations := GroupLocationsByPoLineIdOnReceiving(c).value;
      && items.Keys == locations.Keys
      && (forall l :: l in items ==> items[l].Keys == locations[l].Keys)
      && (forall l, p :: l in items && p in items[l] ==>
            locations[l][p] == Location(items[l][p].locationId, items[l][p].holdingId))
  {
    if GroupReceivedItemsByPoLineId(c).Ok? {
      var items: map<string, map<string, ReceivedItem>> := GroupReceivedItemsByPoLineId(c).value;
      var locations: map<string, map<string, Location>> := GroupLocationsByPoLineIdOnReceiving(c).value;
      forall l: string, p: string | l in items && p in items[l]
        ensures locations[l][p] == Location(items[l][p].locationId, items[l][p].holdingId)
      {
        var x :| x in ItemsForLine(c.toBeReceived, l) && x.pieceId == p;
        var i :| 0 <= i < |c.toBeReceived| && c.toBeReceived[i].poLineId == l && x in c.toBeReceived[i].receivedItems;
        var j :| 0 <= j < |c.toBeReceived[i].receivedItems| && c.toBeReceived[i].receivedItems[j] == x;
      }
    }
  }

  // ---------------------------------------------------------------------
  // Receiving details on a piece

  /** The received date is set exactly when the piece is received. */
  predicate DateMatchesStatus(data: PieceData) {
    data.receivingStatus == Received <==> data.receivedDate.Some?
  }

  /**
   * The piece after `updatePieceWithReceivingInfo` at time `now`: caption,
   * comment, location and holding are replaced only by non-empty received
   * values; "On order" makes the piece expected with no received date, any
   * other status makes it received at `now`; the item id never changes.
   */
  function WithReceivingInfo(data: PieceData, item: ReceivedItem, now: int): (r: PieceData)
    ensures r.itemId == data.itemId
    ensures !IsEmpty(item.caption) ==> r.caption == item.caption
    ensures IsEmpty(item.caption) ==> r.caption == data.caption
    ensures !IsEmpty(item.comment) ==> r.comment == item.comment
    ensures IsEmpty(item.comment) ==> r.comment == data.comment
    ensures !IsEmpty(item.locationId) ==> r.locationId == item.locationId
    ensures IsEmpty(item.locationId) ==> r.locationId == data.locationId
    ensures !IsEmpty(item.holdingId) ==> r.holdingId == item.holdingId
    ensures IsEmpty(item.holdingId) ==> r.holdingId == data.holdingId
    ensures InventoryHelper.IsOnOrderItemStatus(item) ==> r.receivingStatus == Expected && r.receivedDate == None
    ensures !InventoryHelper.IsOnOrderItemStatus(item) ==> r.receivingStatus == Received && r.receivedDate == Some(now)
    ensures DateMatchesStatus(r)
  {
    var onOrder := InventoryHelper.IsOnOrderItemStatus(item);
    PieceData(
      data.itemId,
      if IsEmpty(item.caption) then data.caption else item.caption,
      if IsEmpty(item.comment) then data.comment else item.comment,
      if IsEmpty(item.locationId) then data.locationId else item.locationId,
      if IsEmpty(item.holdingId) then data.holdingId else item.holdingId,
      if onOrder then None else Some(now),
      if onOrder then Expected else Received)
  }

  /** Applying the same receiving details twice at the same time is applying them once. */
  lemma WithReceivingInfoIdempotent(data: PieceData, item: ReceivedItem, now: int)
    ensures WithReceivingInfo(WithReceivingInfo(data, item, now), item, now) == WithReceivingInfo(data, item, now)
  {
  }

  /** Two applications at different times differ at most in the received date. */
  lemma WithReceivingInfoOnlyDateDependsOnTime(data: PieceData, item: ReceivedItem, t1: int, t2: int)
    ensures WithReceivingInfo(data, item, t1).(receivedDate := None) == WithReceivingInfo(data, item, t2).(receivedDate := None)
  {
  }

  /** A record of ITEM_UPDATE_FAILED and the like, against one piece of one PO line. */
  datatype PieceError = PieceError(poLineId: string, pieceId: string, code: ErrorCode)

  /** One line of the response: the PO line and its counters. */
  datatype ReceivingResult = ReceivingResult(poLineId: string, processedSuccessfully: int, processedWithError: int)

  datatype ReceivingResults = ReceivingResults(totalRecords: int, receivingResults: seq<ReceivingResult>)

  /** The SUCCESS and FAILURE counters of one response line. */
  datatype Counts = Counts(success: int, failure: int)

  /** The ids of some pieces, in order. */
  function PieceIds(pieces: seq<Piece>): (r: seq<string>)
    ensures |r| == |pieces| && forall i :: 0 <= i < |pieces| ==> r[i] == pieces[i].id
  {
    seq(|pieces|, i requires 0 <= i < |pieces| => pieces[i].id)
  }

  /** `getOrDefault(poLineId, emptyList())`. */
  function PiecesOf(piecesGroupedByPoLine: map<string, seq<Piece>>, poLineId: string): seq<Piece> {
    if poLineId in piecesGroupedByPoLine then piecesGroupedByPoLine[poLineId] else []
  }

  /** The ids of the pieces in a list of PO lines, in order. */
  function PurchaseOrderIds(lines: seq<PoLineData>): (r: seq<Option<string>>)
    ensures |r| == |lines| && forall i :: 0 <= i < |lines| ==> r[i] == lines[i].purchaseOrderId
  {
    if lines == [] then [] else PurchaseOrderIds(lines[..|lines| - 1]) + [lines[|lines| - 1].purchaseOrderId]
  }

  /**
   * The payload of the order-status event: each purchase-order id of the
   * lines once, in the order of its first occurrence.
   */
  function OrderIdsPayload(lines: seq<PoLineData>): (r: seq<Option<string>>)
    ensures NoDuplicates(r)
    ensures forall x :: x in r <==> x in PurchaseOrderIds(lines)
    ensures |r| > 0 <==> |lines| > 0
  {
    var ids := PurchaseOrderIds(lines);
    assert |lines| > 0 ==> ids[0] in Distinct(ids);
    Distinct(ids)
  }

  /** The payload lists the purchase-order ids in the order they first occur among the lines. */
  lemma OrderIdsPayloadKeepsFirstOccurrenceOrder(lines: seq<PoLineData>)
    ensures var ids := PurchaseOrderIds(lines);
      var r := OrderIdsPayload(lines);
      forall i, j :: 0 <= i < j < |r| ==> r[i] in ids && r[j] in ids && FirstIndex(ids, r[i]) < FirstIndex(ids, r[j])
  {
    DistinctKeepsFirstOccurrenceOrder(PurchaseOrderIds(lines));
  }

  /** The ids of the lines that are not ONGOING, in order: the lines whose receipt status is updated. */
  function NonOngoingIds(lines: seq<PoLineData>): seq<Option<string>>
  {
    if lines == [] then []
    else
      var n := |lines| - 1;
      NonOngoingIds(lines[..n]) + (if lines[n].paymentStatus != Ongoing then [lines[n].id] else [])
  }

  /** Every line that is not ONGOING is updated, and nothing else is: an ONGOING line never is, unless another line shares its id. */
  lemma {:induction false} NonOngoingIdsSkipOngoing(lines: seq<PoLineData>)
    ensures forall i :: 0 <= i < |lines| && lines[i].paymentStatus != Ongoing ==> lines[i].id in NonOngoingIds(lines)
    ensures forall x :: x in NonOngoingIds(lines) ==>
      (exists i :: 0 <= i < |lines| && lines[i].paymentStatus != Ongoing && lines[i].id == x)
    ensures (forall i :: 0 <= i < |lines| ==> lines[i].paymentStatus == Ongoing) ==> NonOngoingIds(lines) == []
  {
    if lines != [] {
      var n := |lines| - 1;
      NonOngoingIdsSkipOngoing(lines[..n]);
      assert forall i :: 0 <= i < n ==> lines[..n][i] == lines[i];
    }
  }

  /** The lines whose id is one of `ids`, in order: `updatedPoLines.contains(line.getId())`. */
  function LinesWithIdIn(lines: seq<PoLineData>, ids: seq<string>): seq<PoLineData>
  {
    if lines == [] then []
    else
      var n := |lines| - 1;
      var last := lines[n];
      LinesWithIdIn(lines[..n], ids) + (if last.id.Some? && last.id.value in ids then [last] else [])
  }

  /** The filter keeps exactly the lines whose id was reported as updated. */
  lemma {:induction false} LinesWithIdInKeepsUpdated(lines: seq<PoLineData>, ids: seq<string>)
    ensures forall i :: 0 <= i < |lines| && lines[i].id.Some? && lines[i].id.value in ids ==> lines[i] in LinesWithIdIn(lines, ids)
    ensures forall l :: l in LinesWithIdIn(lines, ids) ==> l in lines && l.id.Some? && l.id.value in ids
    ensures ids == [] ==> LinesWithIdIn(lines, ids) == []
  {
    if lines != [] {
      var n := |lines| - 1;
      LinesWithIdInKeepsUpdated(lines[..n], ids);
      assert forall i :: 0 <= i < n ==> lines[..n][i] == lines[i];
      assert lines == lines[..n] + [lines[n]];
    }
  }

  /** The receiving flow's state: the grouped request, the recorded errors, and what it sent out. */
  class ReceivingHelper {
    /** PO line id -> piece id -> received item; the same map the parent class keeps as `piecesByLineId`. */
    const receivingItems: map<string, map<string, ReceivedItem>>
    const inventory: InventoryHelper.InventoryHelper
    /** `getPoLines`: the PO lines storage returns for some ids. */
    const fetchPoLines: seq<string> -> Result<seq<PoLineData>, Failure>
    /** `calculatePoLineReceiptStatus` then `updatePoLineReceiptStatus`: the id of the updated line, or null. */
    const updateReceiptStatus: Option<string> -> Result<Option<string>, Failure>
    /** `calculateProcessingErrors`: the counters after one received piece. */
    const calculateProcessingErrors: (string, set<string>, Counts, string) -> Counts

    var errors: seq<PieceError>
    var poLineLookups: seq<seq<string>>
    var receiptUpdates: seq<Option<string>>
    /** The order-status events sent, each given by its list of purchase-order ids. */
    var events: seq<seq<Option<string>>>

    /** The receiving constructor: a request whose grouping throws never yields a helper. */
    constructor (c: ReceivingCollection, inventory: InventoryHelper.InventoryHelper,
                 fetchPoLines: seq<string> -> Result<seq<PoLineData>, Failure>,
                 updateReceiptStatus: Option<string> -> Result<Option<string>, Failure>,
                 calculateProcessingErrors: (string, set<string>, Counts, string) -> Counts)
      requires GroupReceivedItemsByPoLineId(c).Ok?
      ensures receivingItems == GroupReceivedItemsByPoLineId(c).value
      ensures this.inventory == inventory && this.fetchPoLines == fetchPoLines
      ensures this.updateReceiptStatus == updateReceiptStatus && this.calculateProcessingErrors == calculateProcessingErrors
      ensures errors == [] && poLineLookups == [] && receiptUpdates == [] && events == []
    {
      receivingItems := GroupReceivedItemsByPoLineId(c).value;
      this.inventory := inventory;
      this.fetchPoLines := fetchPoLines;
      this.updateReceiptStatus := updateReceiptStatus;
      this.calculateProcessingErrors := calculateProcessingErrors;
      errors := [];
      poLineLookups := [];
      receiptUpdates := [];
      events := [];
    }

    /** The request names the piece under its PO line. */
    predicate Registered(piece: Piece) {
      piece.poLineId in receivingItems && piece.id in receivingItems[piece.poLineId]
    }

    function ReceivedItemOf(piece: Piece): ReceivedItem
      requires Registered(piece)
    {
      receivingItems[piece.poLineId][piece.id]
    }

    /** `updatePieceWithReceivingInfo`: the piece takes its received item's details at time `now`. */
    method UpdatePieceWithReceivingInfo(piece: Piece, now: int)
      requires Registered(piece)
      modifies piece
      ensures piece.Data() == WithReceivingInfo(old(piece.Data()), ReceivedItemOf(piece), now)
    {
      var receivedItem := receivingItems[piece.poLineId][piece.id];
      if !IsEmpty(receivedItem.caption) {
        piece.caption := receivedItem.caption;
      }
      if !IsEmpty(receivedItem.comment) {
        piece.comment := receivedItem.comment;
      }
      if !IsEmpty(receivedItem.locationId) {
        piece.locationId := receivedItem.locationId;
      }
      if !IsEmpty(receivedItem.holdingId) {
        piece.holdingId := receivedItem.holdingId;
      }
      if InventoryHelper.IsOnOrderItemStatus(receivedItem) {
        piece.receivedDate := None;
        piece.receivingStatus := Expected;
      } else {
        piece.receivedDate := Some(now);
        piece.receivingStatus := Received;
      }
    }

    /** `isRevertToOnOrder`: a received piece whose item is declared "On order" again. */
    predicate IsRevertToOnOrder(piece: Piece)
      requires Registered(piece)
      reads piece
    {
      piece.receivingStatus == Received && InventoryHelper.IsOnOrderItemStatus(ReceivedItemOf(piece))
    }

    /** Receiving a piece that reverts to "On order" makes it expected and clears its received date. */
    lemma RevertClearsReceipt(piece: Piece, now: int)
      requires Registered(piece) && IsRevertToOnOrder(piece)
      ensures WithReceivingInfo(piece.Data(), ReceivedItemOf(piece), now).receivingStatus == Expected
      ensures WithReceivingInfo(piece.Data(), ReceivedItemOf(piece), now).receivedDate == None
    {
    }

    /**
     * `receiveInventoryItemAndUpdatePiece`: the item is updated and sent; if
     * the update succeeds the piece takes the receiving details, otherwise
     * ITEM_UPDATE_FAILED is recorded for the piece, which stays as it was.
     */
    method ReceiveInventoryItemAndUpdatePiece(item: InventoryHelper.ItemRecord, piece: Piece, now: int) returns (updated: bool)
      requires Registered(piece)
      modifies this, inventory, item, piece
      ensures var receivedItem := ReceivedItemOf(piece);
        item.fields == InventoryHelper.WithStatusAndBarcode(old(item.fields), receivedItem.itemStatus, receivedItem.barcode)
      ensures inventory.requests == old(inventory.requests) + [InventoryHelper.PutRequest(item.fields)]
      ensures updated == inventory.put(|old(inventory.requests)|, item.fields)
      ensures updated ==> piece.Data() == WithReceivingInfo(old(piece.Data()), ReceivedItemOf(piece), now) && errors == old(errors)
      ensures !updated ==> piece.Data() == old(piece.Data()) && errors == old(errors) + [PieceError(piece.poLineId, piece.id, ItemUpdateFailed)]
      ensures inventory.processingErrors == old(inventory.processingErrors)
      ensures events == old(events) && receiptUpdates == old(receiptUpdates) && poLineLookups == old(poLineLookups)
    {
      var receivedItem := receivingItems[piece.poLineId][piece.id];
      updated := inventory.ReceiveItem(item, receivedItem);
      if updated {
        UpdatePieceWithReceivingInfo(piece, now);
      } else {
        errors := errors + [PieceError(piece.poLineId, piece.id, ItemUpdateFailed)];
      }
    }

    /**
     * `updatePieceRecordsWithoutItems`: every piece with no item id takes its
     * receiving details; pieces with an item are left alone; the map is
     * returned as it was given.
     */
    method UpdatePieceRecordsWithoutItems(piecesGroupedByPoLine: map<string, seq<Piece>>, now: int)
      returns (r: map<string, seq<Piece>>)
      requires forall l, p :: l in piecesGroupedByPoLine && p in piecesGroupedByPoLine[l] && IsEmpty(p.itemId) ==> Registered(p)
      modifies set l, p | l in piecesGroupedByPoLine && p in piecesGroupedByPoLine[l] :: p
      ensures r == piecesGroupedByPoLine
      ensures forall l, p :: l in piecesGroupedByPoLine && p in piecesGroupedByPoLine[l] && IsEmpty(old(p.itemId)) ==>
        p.Data() == WithReceivingInfo(old(p.Data()), ReceivedItemOf(p), now)
      ensures forall l, p :: l in piecesGroupedByPoLine && p in piecesGroupedByPoLine[l] && !IsEmpty(old(p.itemId)) ==>
        p.Data() == old(p.Data())
    {
      var all := set l, p | l in piecesGroupedByPoLine && p in piecesGroupedByPoLine[l] :: p;
      var remaining := all;
      while remaining != {}
        invariant remaining <= all
        invariant forall p :: p in all ==> (IsEmpty(p.itemId) ==> Registered(p))
        invariant forall p :: p in all ==> p.itemId == old(p.itemId)
        invariant forall p :: p in all && p !in remaining && IsEmpty(old(p.itemId)) ==>
          p.Data() == WithReceivingInfo(old(p.Data()), ReceivedItemOf(p), now)
        invariant forall p :: p in all && (p in remaining || !IsEmpty(old(p.itemId))) ==> p.Data() == old(p.Data())
        decreases remaining
      {
        var piece :| piece in remaining;
        if IsEmpty(piece.itemId) {
          UpdatePieceWithReceivingInfo(piece, now);
        }
        remaining := remaining - {piece};
      }
      r := piecesGroupedByPoLine;
    }

    /** `updateOrderStatus`: one event listing the distinct purchase-order ids, and none for no lines. */
    method UpdateOrderStatus(lines: seq<PoLineData>)
      modifies this
      ensures lines == [] ==> events == old(events)
      ensures lines != [] ==> events == old(events) + [OrderIdsPayload(lines)]
      ensures errors == old(errors) && receiptUpdates == old(receiptUpdates) && poLineLookups == old(poLineLookups)
    {
      if lines != [] {
        var payload := OrderIdsPayload(lines);
        events := events + [payload];
      }
    }

    /** The ids the receipt-status updates of the non-ONGOING lines report as updated, in order. */
    function UpdatedIds(lines: seq<PoLineData>): seq<string>
      {
      if lines == [] then []
      else
        var n := |lines| - 1;
        var status := updateReceiptStatus(lines[n].id);
        UpdatedIds(lines[..n]) + (if lines[n].paymentStatus != Ongoing && status.Ok? && status.value.Some? then [status.value.value] else [])
    }

    /** Every id counted as updated was reported by the receipt-status update of a line that is not ONGOING. */
    lemma {:induction false} UpdatedIdsComeFromNonOngoingLines(lines: seq<PoLineData>)
      ensures forall x :: x in UpdatedIds(lines) ==>
        (exists i :: 0 <= i < |lines| && lines[i].paymentStatus != Ongoing && updateReceiptStatus(lines[i].id) == Ok(Some(x)))
    {
      if lines != [] {
        var n := |lines| - 1;
        UpdatedIdsComeFromNonOngoingLines(lines[..n]);
        forall x | x in UpdatedIds(lines)
          ensures exists i :: 0 <= i < |lines| && lines[i].paymentStatus != Ongoing && updateReceiptStatus(lines[i].id) == Ok(Some(x))
        {
          if x in UpdatedIds(lines[..n]) {
            var i :| 0 <= i < n && lines[..n][i].paymentStatus != Ongoing && updateReceiptStatus(lines[..n][i].id) == Ok(Some(x));
            assert lines[..n][i] == lines[i];
          } else {
            assert lines[n].paymentStatus != Ongoing && updateReceiptStatus(lines[n].id) == Ok(Some(x));
          }
        }
      }
    }

    /** The failure of the first non-ONGOING line whose receipt-status update fails, if any. */
    function FirstFailure(lines: seq<PoLineData>): Option<Failure>
      {
      if lines == [] then None
      else
        var n := |lines| - 1;
        var earlier := FirstFailure(lines[..n]);
        var status := updateReceiptStatus(lines[n].id);
        if earlier.Some? then earlier
        else if lines[n].paymentStatus != Ongoing && status.Err? then Some(status.error)
        else None
    }

    /** The receipt-status updates of the fetched lines, ONGOING lines skipped, in order. */
    method RequestReceiptUpdates(lines: seq<PoLineData>) returns (updatedIds: seq<string>, failure: Option<Failure>)
      modifies this
      ensures receiptUpdates == old(receiptUpdates) + NonOngoingIds(lines)
      ensures updatedIds == UpdatedIds(lines)
      ensures failure == FirstFailure(lines)
      ensures events == old(events) && errors == old(errors) && poLineLookups == old(poLineLookups)
    {
      updatedIds := [];
      failure := None;
      var i := 0;
      while i < |lines|
        invariant 0 <= i <= |lines|
        invariant receiptUpdates == old(receiptUpdates) + NonOngoingIds(lines[..i])
        invariant updatedIds == UpdatedIds(lines[..i])
        invariant failure == FirstFailure(lines[..i])
        invariant events == old(events) && errors == old(errors) && poLineLookups == old(poLineLookups)
      {
        assert lines[..i + 1][..i] == lines[..i];
        var line := lines[i];
        if line.paymentStatus != Ongoing {
          receiptUpdates := receiptUpdates + [line.id];
          match updateReceiptStatus(line.id)
          case Err(e) =>
            if failure.None? {
              failure := Some(e);
            }
          case Ok(id) =>
            if id.Some? {
              updatedIds := updatedIds + [id.value];
            }
        }
        i := i + 1;
      }
      assert lines[..i] == lines;
    }

    /** The event sent after the receipt-status updates of `lines`: none when no line was updated. */
    function EventsAfterUpdates(lines: seq<PoLineData>): seq<seq<Option<string>>>
      {
      var updatedLines := LinesWithIdIn(lines, UpdatedIds(lines));
      if updatedLines == [] then [] else [OrderIdsPayload(updatedLines)]
    }

    /**
     * The part of `updatePoLinesStatus` after the lines are fetched: the
     * receipt-status updates, then, if all of them succeed, the order-status
     * event for the lines actually updated.
     */
    method UpdateFetchedLines(lines: seq<PoLineData>) returns (failure: Option<Failure>)
      modifies this
      ensures receiptUpdates == old(receiptUpdates) + NonOngoingIds(lines)
      ensures failure == FirstFailure(lines)
      ensures failure.Some? ==> events == old(events)
      ensures failure.None? ==> events == old(events) + EventsAfterUpdates(lines)
      ensures errors == old(errors) && poLineLookups == old(poLineLookups)
    {
      var updatedIds;
      updatedIds, failure := RequestReceiptUpdates(lines);
      if failure.None? {
        UpdateOrderStatus(LinesWithIdIn(lines, updatedIds));
      }
    }

    /**
     * `updatePoLinesStatus`: nothing is looked up for an empty map; otherwise
     * the lines are fetched, every line that is not ONGOING gets a
     * receipt-status update, and one order-status event names the orders of
     * the lines actually updated. The map is returned unchanged.
     */
    method UpdatePoLinesStatus(piecesGroupedByPoLine: map<string, seq<Piece>>, poLineIds: seq<string>)
      returns (r: Result<map<string, seq<Piece>>, Failure>)
      modifies this
      ensures piecesGroupedByPoLine == map[] ==>
        r == Ok(piecesGroupedByPoLine) && poLineLookups == old(poLineLookups)
        && receiptUpdates == old(receiptUpdates) && events == old(events)
      ensures piecesGroupedByPoLine != map[] ==> poLineLookups == old(poLineLookups) + [poLineIds]
      ensures piecesGroupedByPoLine != map[] && fetchPoLines(poLineIds).Err? ==>
        r == Err(fetchPoLines(poLineIds).error) && receiptUpdates == old(receiptUpdates) && events == old(events)
      ensures piecesGroupedByPoLine != map[] && fetchPoLines(poLineIds).Ok? ==>
        var lines := fetchPoLines(poLineIds).value;
        && receiptUpdates == old(receiptUpdates) + NonOngoingIds(lines)
        && (r.Ok? <==> FirstFailure(lines).None?)
        && (r.Err? ==> r == Err(FirstFailure(lines).value) && events == old(events))
        && (r.Ok? ==> events == old(events) + EventsAfterUpdates(lines))
      ensures r.Ok? ==> r.value == piecesGroupedByPoLine
      ensures errors == old(errors)
    {
      if piecesGroupedByPoLine == map[] {
        return Ok(piecesGroupedByPoLine);
      }
      poLineLookups := poLineLookups + [poLineIds];
      var fetched := fetchPoLines(poLineIds);
      if fetched.Err? {
        return Err(fetched.error);
      }
      var failure := UpdateFetchedLines(fetched.value);
      if failure.Some? {
        return Err(failure.value);
      }
      r := Ok(piecesGroupedByPoLine);
    }

    /** The counters of one response line: from zero, one `calculateProcessingErrors` step per received item. */
    function Tally(poLineId: string, processed: set<string>, items: seq<ReceivedItem>): Counts {
      if items == [] then Counts(0, 0)
      else calculateProcessingErrors(poLineId, processed, Tally(poLineId, processed, items[..|items| - 1]), items[|items| - 1].pieceId)
    }

    /** The response line of one request entry, given the ids of the line's processed pieces. */
    function LineResult(entry: ToBeReceived, processed: set<string>): ReceivingResult {
      var counts := Tally(entry.poLineId, processed, entry.receivedItems);
      ReceivingResult(entry.poLineId, counts.success, counts.failure)
    }

    /**
     * `prepareResponseBody`: one result per request entry, in order, each
     * with its entry's PO line id and counters tallied from zero, and the
     * request's total copied; a PO line whose processed pieces repeat a piece
     * id makes `toMap` throw.
     */
    method PrepareResponseBody(c: ReceivingCollection, piecesGroupedByPoLine: map<string, seq<Piece>>)
      returns (r: Result<ReceivingResults, Failure>)
      ensures r.Ok? <==> forall i :: 0 <= i < |c.toBeReceived| ==>
        NoDuplicates(PieceIds(PiecesOf(piecesGroupedByPoLine, c.toBeReceived[i].poLineId)))
      ensures r.Err? ==> r.error == DuplicateKey
      ensures r.Ok? ==> r.value.totalRecords == c.totalRecords
      ensures r.Ok? ==> |r.value.receivingResults| == |c.toBeReceived|
      ensures r.Ok? ==> forall i :: 0 <= i < |c.toBeReceived| ==>
        r.value.receivingResults[i].poLineId == c.toBeReceived[i].poLineId
      ensures r.Ok? ==> forall i :: 0 <= i < |c.toBeReceived| ==>
        var ids := PieceIds(PiecesOf(piecesGroupedByPoLine, c.toBeReceived[i].poLineId));
        r.value.receivingResults[i] == LineResult(c.toBeReceived[i], set k | 0 <= k < |ids| :: ids[k])
    {
      var results: seq<ReceivingResult> := [];
      var i := 0;
      while i < |c.toBeReceived|
        invariant 0 <= i <= |c.toBeReceived|
        invariant |results| == i
        invariant forall k :: 0 <= k < i ==> NoDuplicates(PieceIds(PiecesOf(piecesGroupedByPoLine, c.toBeReceived[k].poLineId)))
        invariant forall k :: 0 <= k < i ==>
          var ids := PieceIds(PiecesOf(piecesGroupedByPoLine, c.toBeReceived[k].poLineId));
          results[k] == LineResult(c.toBeReceived[k], set m | 0 <= m < |ids| :: ids[m])
      {
        var entry := c.toBeReceived[i];
        var ids := PieceIds(PiecesOf(piecesGroupedByPoLine, entry.poLineId));
        if !NoDuplicates(ids) {
          return Err(DuplicateKey);
        }
        var processed := set m | 0 <= m < |ids| :: ids[m];
        var counts := Counts(0, 0);
        var j := 0;
        while j < |entry.receivedItems|
          invariant 0 <= j <= |entry.receivedItems|
          invariant counts == Tally(entry.poLineId, processed, entry.receivedItems[..j])
        {
          assert entry.receivedItems[..j + 1][..j] == entry.receivedItems[..j];
          counts := calculateProcessingErrors(entry.poLineId, processed, counts, entry.receivedItems[j].pieceId);
          j := j + 1;
        }
        assert entry.receivedItems[..j] == entry.receivedItems;
        results := results + [ReceivingResult(entry.poLineId, counts.success, counts.failure)];
        i := i + 1;
      }
      r := Ok(ReceivingResults(c.totalRecords, results));
    }
  }
}
