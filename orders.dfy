/**
 * The admission rules of the order endpoints (OrdersImpl): the PO-line limit
 * and the reconciliation of ids given in the path and in the body.
 */
module OrdersImpl {
  import opened Wrappers
  import opened Errors
  import opened Text
  import opened Model

  const OverLimitMessagePrefix := "Your FOLIO system is configured to limit the number of PO Lines on each order to "
  const MismatchMessage := "Mismatch between id in path and PoLine"
  const LinesLimitErrorCode := "lines_limit"
  const IdMismatchErrorCode := "id_mismatch"
  const InvalidLimitMessage := "Invalid limit value in configuration."

  /** What an admitted request goes on to do. */
  datatype Admission = CreateOrder | UpdateOrder(orderId: string) | CreateLine(orderId: string) | UpdateLine(orderId: string, lineId: string)

  function OverLimit(limit: int): Failure {
    Validation(OverLimitMessagePrefix + IntToString(limit) + ".", LinesLimitErrorCode)
  }

  const IdMismatch: Failure := Validation(MismatchMessage, IdMismatchErrorCode)

  /**
   * `getPoLineLimit`: the configured limit, or the default when none is
   * configured, parsed as a 32-bit integer.
   */
  function GetPoLineLimit(configured: Option<string>, defaultLimit: string): (r: Result<int, Failure>)
    ensures var text := if configured.Some? then configured.value else defaultLimit;
      && (r.Ok? <==> ParseInt(text).Some?)
      && (r.Ok? ==> r.value == ParseInt(text).value)
    ensures r.Err? ==> r.error == NumberFormat(InvalidLimitMessage)
    ensures r.Ok? ==> MinInt <= r.value <= MaxInt
  {
    var text := if configured.Some? then configured.value else defaultLimit;
    match ParseInt(text)
    case Some(limit) => Ok(limit)
    case None => Err(NumberFormat(InvalidLimitMessage))
  }

  /** With no configured limit, the default is parsed exactly as a configured value would be. */
  lemma UnconfiguredLimitIsDefault(defaultLimit: string, anyDefault: string)
    ensures GetPoLineLimit(None, defaultLimit) == GetPoLineLimit(Some(defaultLimit), anyDefault)
  {
  }

  /** A configured limit is read back as the number it renders. */
  lemma ConfiguredLimitIsRead(n: int, defaultLimit: string)
    requires MinInt <= n <= MaxInt
    ensures GetPoLineLimit(Some(IntToString(n)), defaultLimit) == Ok(n)
  {
    ParseIntToString(n);
  }

  /** The shared check of `postOrders` and `putOrdersById`: at most `limit` lines. */
  function CheckOrderLines(lineCount: nat, configured: Option<string>, defaultLimit: string): (r: Result<(), Failure>)
    ensures r.Ok? <==> GetPoLineLimit(configured, defaultLimit).Ok? && lineCount <= GetPoLineLimit(configured, defaultLimit).value
    ensures r.Err? && GetPoLineLimit(configured, defaultLimit).Ok? ==>
      r.error == OverLimit(GetPoLineLimit(configured, defaultLimit).value)
  {
    match GetPoLineLimit(configured, defaultLimit)
    case Err(e) => Err(e)
    case Ok(limit) => if lineCount <= limit then Ok(()) else Err(OverLimit(limit))
  }

  /** `postOrders`: an order is created only when its line count is within the limit. */
  function PostOrders(lineCount: nat, configured: Option<string>, defaultLimit: string): (r: Result<Admission, Failure>)
    ensures r.Ok? <==> CheckOrderLines(lineCount, configured, defaultLimit).Ok?
    ensures r.Ok? ==> r.value == CreateOrder
    ensures r.Err? ==> r.error == CheckOrderLines(lineCount, configured, defaultLimit).error
  {
    match CheckOrderLines(lineCount, configured, defaultLimit)
    case Err(e) => Err(e)
    case Ok(_) => Ok(CreateOrder)
  }

  /** `putOrdersById`: the same limit rule as creation; an admitted request updates the order in the path. */
  function PutOrdersById(id: string, lineCount: nat, configured: Option<string>, defaultLimit: string): (r: Result<Admission, Failure>)
    ensures r.Ok? <==> CheckOrderLines(lineCount, configured, defaultLimit).Ok?
    ensures r.Ok? ==> r.value == UpdateOrder(id)
    ensures r.Err? ==> r.error == CheckOrderLines(lineCount, configured, defaultLimit).error
  {
    match CheckOrderLines(lineCount, configured, defaultLimit)
    case Err(e) => Err(e)
    case Ok(_) => Ok(UpdateOrder(id))
  }

  /** `null` is replaced by the default; every other value, the empty string included, is kept. */
  function DefaultIfNull(value: Option<string>, default: string): (r: Option<string>)
    ensures value.None? ==> r == Some(default)
    ensures value.Some? ==> r == value
  {
    if value.None? then Some(default) else value
  }

  /** `null` and the empty string are replaced by the default. */
  function DefaultIfEmpty(value: Option<string>, default: string): (r: Option<string>)
    ensures !IsEmpty(value) ==> r == value
    ensures IsEmpty(value) ==> r == Some(default)
  {
    if IsEmpty(value) then Some(default) else value
  }

  /**
   * The decision of `postOrdersLinesById` once the body's order id is
   * defaulted: a mismatch is refused before the limit is read, then the
   * existing line count must be strictly below the limit.
   */
  function AddLineDecision(orderId: string, purchaseOrderId: Option<string>, totalRecords: int,
                           configured: Option<string>, defaultLimit: string): (r: Result<Admission, Failure>)
    ensures purchaseOrderId != Some(orderId) ==> r == Err(IdMismatch)
    ensures r.Ok? <==> purchaseOrderId == Some(orderId) && GetPoLineLimit(configured, defaultLimit).Ok?
                       && totalRecords < GetPoLineLimit(configured, defaultLimit).value
    ensures r.Ok? ==> r.value == CreateLine(orderId)
    ensures purchaseOrderId == Some(orderId) && GetPoLineLimit(configured, defaultLimit).Err? ==>
      r == Err(GetPoLineLimit(configured, defaultLimit).error)
    ensures purchaseOrderId == Some(orderId) && GetPoLineLimit(configured, defaultLimit).Ok?
            && totalRecords >= GetPoLineLimit(configured, defaultLimit).value ==>
      r == Err(OverLimit(GetPoLineLimit(configured, defaultLimit).value))
  {
    if purchaseOrderId != Some(orderId) then Err(IdMismatch)
    else match GetPoLineLimit(configured, defaultLimit)
      case Err(e) => Err(e)
      case Ok(limit) => if totalRecords < limit then Ok(CreateLine(orderId)) else Err(OverLimit(limit))
  }

  /** The decision of `putOrdersLinesByIdAndLineId` once both ids are defaulted. */
  function UpdateLineDecision(orderId: string, lineId: string, purchaseOrderId: Option<string>, id: Option<string>): (r: Result<Admission, Failure>)
    ensures r.Ok? <==> purchaseOrderId == Some(orderId) && id == Some(lineId)
    ensures r.Ok? ==> r.value == UpdateLine(orderId, lineId)
    ensures r.Err? ==> r.error == IdMismatch
  {
    if purchaseOrderId == Some(orderId) && id == Some(lineId) then Ok(UpdateLine(orderId, lineId)) else Err(IdMismatch)
  }

  /** `postOrdersLinesById`: a null order id in the body takes the path's order id, then the line is admitted or refused. */
  method PostOrdersLinesById(orderId: string, poLine: PoLine, totalRecords: int,
                             configured: Option<string>, defaultLimit: string) returns (r: Result<Admission, Failure>)
    modifies poLine
    ensures poLine.purchaseOrderId == DefaultIfNull(old(poLine.purchaseOrderId), orderId)
    ensures poLine.id == old(poLine.id) && poLine.paymentStatus == old(poLine.paymentStatus)
    ensures r == AddLineDecision(orderId, poLine.purchaseOrderId, totalRecords, configured, defaultLimit)
  {
    if poLine.purchaseOrderId.None? {
      poLine.purchaseOrderId := Some(orderId);
    }
    r := AddLineDecision(orderId, poLine.purchaseOrderId, totalRecords, configured, defaultLimit);
  }

  /** `putOrdersLinesByIdAndLineId`: empty ids in the body take the path's ids, then both must match the path. */
  method PutOrdersLinesByIdAndLineId(orderId: string, lineId: string, poLine: PoLine) returns (r: Result<Admission, Failure>)
    modifies poLine
    ensures poLine.purchaseOrderId == DefaultIfEmpty(old(poLine.purchaseOrderId), orderId)
    ensures poLine.id == DefaultIfEmpty(old(poLine.id), lineId)
    ensures poLine.paymentStatus == old(poLine.paymentStatus)
    ensures r == UpdateLineDecision(orderId, lineId, poLine.purchaseOrderId, poLine.id)
  {
    if IsEmpty(poLine.purchaseOrderId) {
      poLine.purchaseOrderId := Some(orderId);
    }
    if IsEmpty(poLine.id) {
      poLine.id := Some(lineId);
    }
    r := UpdateLineDecision(orderId, lineId, poLine.purchaseOrderId, poLine.id);
  }

  /** A new line is admitted iff its body's order id is null or the path's, and the order holds fewer lines than the limit. */
  lemma AddLineAcceptedIff(orderId: string, bodyOrderId: Option<string>, totalRecords: int,
                           configured: Option<string>, defaultLimit: string)
    ensures AddLineDecision(orderId, DefaultIfNull(bodyOrderId, orderId), totalRecords, configured, defaultLimit).Ok?
      <==> (bodyOrderId.None? || bodyOrderId == Some(orderId))
           && GetPoLineLimit(configured, defaultLimit).Ok?
           && totalRecords < GetPoLineLimit(configured, defaultLimit).value
  {
  }

  /** An empty (not null) order id in the body is not defaulted, so it mismatches any non-empty path id. */
  lemma EmptyBodyOrderIdMismatches(orderId: string, totalRecords: int, configured: Option<string>, defaultLimit: string)
    requires orderId != ""
    ensures AddLineDecision(orderId, DefaultIfNull(Some(""), orderId), totalRecords, configured, defaultLimit) == Err(IdMismatch)
  {
  }

  /** A line update is admitted iff each body id is empty or equal to the path's. */
  lemma UpdateLineAcceptedIff(orderId: string, lineId: string, bodyOrderId: Option<string>, bodyId: Option<string>)
    ensures UpdateLineDecision(orderId, lineId, DefaultIfEmpty(bodyOrderId, orderId), DefaultIfEmpty(bodyId, lineId)).Ok?
      <==> (IsEmpty(bodyOrderId) || bodyOrderId == Some(orderId)) && (IsEmpty(bodyId) || bodyId == Some(lineId))
  {
  }

  /**
   * The two limit rules agree on the order size they allow: an order of
   * exactly `limit` lines may be created or updated, while adding a line to
   * an order that already holds `limit` lines is refused.
   */
  lemma LimitBoundary(orderId: string, limit: int, defaultLimit: string)
    requires 0 <= limit <= MaxInt
    ensures PostOrders(limit, Some(IntToString(limit)), defaultLimit) == Ok(CreateOrder)
    ensures PutOrdersById(orderId, limit, Some(IntToString(limit)), defaultLimit) == Ok(UpdateOrder(orderId))
    ensures PostOrders(limit + 1, Some(IntToString(limit)), defaultLimit) == Err(OverLimit(limit))
    ensures AddLineDecision(orderId, Some(orderId), limit, Some(IntToString(limit)), defaultLimit) == Err(OverLimit(limit))
    ensures limit > 0 ==> AddLineDecision(orderId, Some(orderId), limit - 1, Some(IntToString(limit)), defaultLimit) == Ok(CreateLine(orderId))
  {
    ConfiguredLimitIsRead(limit, defaultLimit);
  }

  /** After an admitted add, the order holds at most `limit` lines. */
  lemma AddedLineStaysWithinLimit(orderId: string, purchaseOrderId: Option<string>, totalRecords: int,
                                  configured: Option<string>, defaultLimit: string)
    requires AddLineDecision(orderId, purchaseOrderId, totalRecords, configured, defaultLimit).Ok?
    ensures totalRecords + 1 <= GetPoLineLimit(configured, defaultLimit).value
  {
  }
}
