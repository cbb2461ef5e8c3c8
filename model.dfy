/** The records the receiving flow and the order endpoints work on. */
module Model {
  import opened Wrappers

  datatype Format = Physical | Electronic | Other

  datatype ReceivingStatus = Expected | Received

  datatype PaymentStatus =
    AwaitingPayment | Cancelled | FullyPaid | Ongoing | PartiallyPaid | PaymentNotRequired | Pending

  /** What the caller says about one piece it received. */
  datatype ReceivedItem = ReceivedItem(
    pieceId: string,
    itemStatus: Option<string>,
    barcode: Option<string>,
    caption: Option<string>,
    comment: Option<string>,
    locationId: Option<string>,
    holdingId: Option<string>)

  /** What the caller says about one piece it checks in. */
  datatype CheckInPiece = CheckInPiece(id: string, itemStatus: Option<string>, barcode: Option<string>)

  /** The received pieces of one PO line. */
  datatype ToBeReceived = ToBeReceived(poLineId: string, receivedItems: seq<ReceivedItem>)

  /** The body of a receive request. */
  datatype ReceivingCollection = ReceivingCollection(toBeReceived: seq<ToBeReceived>, totalRecords: int)

  /** A location id and/or holding id. */
  datatype Location = Location(locationId: Option<string>, holdingId: Option<string>)

  /** The state of a piece record at one moment. */
  datatype PieceData = PieceData(
    itemId: Option<string>,
    caption: Option<string>,
    comment: Option<string>,
    locationId: Option<string>,
    holdingId: Option<string>,
    receivedDate: Option<int>,
    receivingStatus: ReceivingStatus)

  /** A piece record fetched from storage, updated in place before it is stored back. */
  class Piece {
    const id: string
    const poLineId: string
    const format: Format
    var itemId: Option<string>
    var caption: Option<string>
    var comment: Option<string>
    var locationId: Option<string>
    var holdingId: Option<string>
    var receivedDate: Option<int>
    var receivingStatus: ReceivingStatus

    constructor (id: string, poLineId: string, format: Format, data: PieceData)
      ensures this.id == id && this.poLineId == poLineId && this.format == format
      ensures Data() == data
    {
      this.id := id;
      this.poLineId := poLineId;
      this.format := format;
      itemId := data.itemId;
      caption := data.caption;
      comment := data.comment;
      locationId := data.locationId;
      holdingId := data.holdingId;
      receivedDate := data.receivedDate;
      receivingStatus := data.receivingStatus;
    }

    /** The mutable fields as one value. */
    function Data(): PieceData
      reads this
    {
      PieceData(itemId, caption, comment, locationId, holdingId, receivedDate, receivingStatus)
    }
  }

  /** The fields of a PO line the order endpoints and the status roll-up read. */
  datatype PoLineData = PoLineData(id: Option<string>, purchaseOrderId: Option<string>, paymentStatus: PaymentStatus)

  /** A PO line request body, whose ids the order endpoints fill in place. */
  class PoLine {
    var id: Option<string>
    var purchaseOrderId: Option<string>
    var paymentStatus: PaymentStatus

    constructor (id: Option<string>, purchaseOrderId: Option<string>, paymentStatus: PaymentStatus)
      ensures this.id == id && this.purchaseOrderId == purchaseOrderId && this.paymentStatus == paymentStatus
    {
      this.id := id;
      this.purchaseOrderId := purchaseOrderId;
      this.paymentStatus := paymentStatus;
    }

    /** The fields as one value. */
    function Data(): PoLineData
      reads this
    {
      PoLineData(id, purchaseOrderId, paymentStatus)
    }
  }
}
