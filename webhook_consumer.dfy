/** The webhook consumer (cmd/webhook-consumer): it binds a finish-order
    request, updates that order's status and answers according to what the
    database reports.

    The JSON body arrives already decoded (None when it is not JSON at
    all); the outcome of the UPDATE and of RowsAffected, and the
    database's NOW(), are inputs. */
module WebhookConsumer {
  import opened Wrappers
  import opened Json
  import Decimal

  // ---------------------------------------------------------------------
  // Binding OrderFinishRequest
  // ---------------------------------------------------------------------

  /** OrderFinishRequest: both fields carry `binding:"required"`. */
  datatype FinishRequest = FinishRequest(orderId: int, status: string)

  /** Why ShouldBindJSON failed: the body is not JSON, the JSON does not
      fit the struct (not an object, or a field of the wrong type), or a
      required field holds its zero value. */
  datatype BindError = InvalidJson | TypeMismatch | MissingRequired

  /** Decoding of `order_id` into an int64: a number is taken, absence and
      null leave the zero value, any other JSON type is a mismatch. */
  function DecodeOrderId(m: Object): (r: Option<int>)
    ensures r.None? <==> "order_id" in m && !m["order_id"].JNum? && !m["order_id"].JNull?
    ensures IsNumberAt(m, "order_id") ==> r == Some(m["order_id"].n)
    ensures "order_id" !in m || m["order_id"].JNull? ==> r == Some(0)
    ensures r.Some? && r.value != 0 ==> IsNumberAt(m, "order_id") && m["order_id"].n == r.value
  {
    if "order_id" !in m || m["order_id"].JNull? then Some(0)
    else if m["order_id"].JNum? then Some(m["order_id"].n)
    else None
  }

  /** Decoding of `status` into a string, with "" as the zero value. */
  function DecodeStatus(m: Object): (r: Option<string>)
    ensures r.None? <==> "status" in m && !m["status"].JStr? && !m["status"].JNull?
    ensures IsStringAt(m, "status") ==> r == Some(m["status"].s)
    ensures "status" !in m || m["status"].JNull? ==> r == Some("")
    ensures r.Some? && r.value != "" ==> IsStringAt(m, "status") && m["status"].s == r.value
  {
    if "status" !in m || m["status"].JNull? then Some("")
    else if m["status"].JStr? then Some(m["status"].s)
    else None
  }

  /** ShouldBindJSON into OrderFinishRequest: decode, then check that both
      required fields are non-zero. Fields other than order_id and status
      are ignored. */
  function BindRequest(body: Option<JsonVal>): (r: Result<FinishRequest, BindError>)
    ensures r.Success? <==>
      body.Some? && body.value.JObj? &&
      IsNumberAt(body.value.fields, "order_id") && body.value.fields["order_id"].n != 0 &&
      IsStringAt(body.value.fields, "status") && body.value.fields["status"].s != ""
    ensures r.Success? ==>
      r.value == FinishRequest(body.value.fields["order_id"].n, body.value.fields["status"].s)
    ensures body.None? <==> r == Failure(InvalidJson)
    // JSON null decodes to the zero struct, which `required` rejects
    ensures body == Some(JNull) ==> r == Failure(MissingRequired)
    // a field of the wrong type, or JSON that is not an object, fails in the decoder
    ensures (body.Some? && !body.value.JNull? &&
             (!body.value.JObj? || DecodeOrderId(body.value.fields).None? || DecodeStatus(body.value.fields).None?)) ==>
      r == Failure(TypeMismatch)
    // when both fields decode, the only failure is a zero (missing) required field
    ensures (body.Some? && body.value.JObj? &&
             DecodeOrderId(body.value.fields).Some? && DecodeStatus(body.value.fields).Some? && r.Failure?) ==>
      r.error == MissingRequired
  {
    match body
    case None => Failure(InvalidJson)
    case Some(JNull) => Failure(MissingRequired)  // decoding null into a struct leaves it zero
    case Some(JObj(m)) =>
      (match (DecodeOrderId(m), DecodeStatus(m))
       case (Some(id), Some(status)) =>
         if id == 0 || status == "" then Failure(MissingRequired) else Success(FinishRequest(id, status))
       case _ => Failure(TypeMismatch))
    case Some(_) => Failure(TypeMismatch)
  }

  /** Keys other than order_id and status do not change the binding. */
  lemma ExtraFieldsIgnored(m: Object, key: string, v: JsonVal)
    requires key != "order_id" && key != "status"
    ensures BindRequest(Some(JObj(m[key := v]))) == BindRequest(Some(JObj(m)))
  {
    var m' := m[key := v];
    assert ("order_id" in m' <==> "order_id" in m) && ("status" in m' <==> "status" in m);
    assert DecodeOrderId(m') == DecodeOrderId(m);
    assert DecodeStatus(m') == DecodeStatus(m);
  }

  /** A missing order_id and an explicit 0 bind identically: both decode
      to the zero int64, which `required` rejects. */
  lemma MissingOrderIdIsZero(m: Object)
    requires "order_id" !in m
    ensures BindRequest(Some(JObj(m))) == BindRequest(Some(JObj(m["order_id" := JNum(0)])))
  {
  }

  // ---------------------------------------------------------------------
  // The handler (finishOrderHandler)
  // ---------------------------------------------------------------------

  /** Outcome of `dbConn.Exec` for the UPDATE. */
  datatype ExecOutcome = ExecOk | ExecErr(reason: string)

  /** Outcome of `result.RowsAffected()`. */
  datatype RowsOutcome = RowCount(n: int) | RowsErr(reason: string)

  datatype ReplyBody =
    | BindFailed(error: BindError)
    | ErrorText(text: string)
    | Finished(message: string, orderId: int, status: string)

  datatype Reply = Reply(code: int, body: ReplyBody)

  const StatusOK := 200
  const StatusBadRequest := 400
  const StatusNotFound := 404
  const StatusInternalServerError := 500

  const FinishedMessage := "order finished successfully"

  /** The 404 text: `order id=<id> not found`. */
  function NotFoundText(id: int): string {
    "order id=" + Decimal.IntToString(id) + " not found"
  }

  /** The 404 text names the order: different ids give different texts. */
  lemma NotFoundTextNamesOrder(a: int, b: int)
    requires NotFoundText(a) == NotFoundText(b)
    ensures a == b
  {
    Decimal.FramedEqual("order id=", Decimal.IntToString(a), Decimal.IntToString(b), " not found");
    Decimal.Injective(a, b);
  }

  /** The outcome ladder of finishOrderHandler. */
  function FinishOutcome(body: Option<JsonVal>, exec: ExecOutcome, rows: RowsOutcome): (r: Reply)
    ensures r.code == StatusBadRequest <==> BindRequest(body).Failure?
    ensures r.code == StatusBadRequest ==> r.body == BindFailed(BindRequest(body).error)
    ensures r.code == StatusInternalServerError <==>
      BindRequest(body).Success? && (exec.ExecErr? || rows.RowsErr?)
    ensures BindRequest(body).Success? && exec.ExecErr? ==>
      r.body == ErrorText("failed to update order: " + exec.reason)
    ensures BindRequest(body).Success? && exec.ExecOk? && rows.RowsErr? ==>
      r.body == ErrorText("failed to verify update: " + rows.reason)
    ensures r.code == StatusNotFound <==> BindRequest(body).Success? && exec.ExecOk? && rows == RowCount(0)
    ensures r.code == StatusNotFound ==> r.body == ErrorText(NotFoundText(BindRequest(body).value.orderId))
    ensures r.code == StatusOK <==>
      BindRequest(body).Success? && exec.ExecOk? && rows.RowCount? && rows.n != 0
    ensures r.code == StatusOK ==>
      r.body == Finished(FinishedMessage, BindRequest(body).value.orderId, BindRequest(body).value.status)
  {
    match BindRequest(body)
    case Failure(e) => Reply(StatusBadRequest, BindFailed(e))
    case Success(req) =>
      match exec
      case ExecErr(reason) => Reply(StatusInternalServerError, ErrorText("failed to update order: " + reason))
      case ExecOk =>
        match rows
        case RowsErr(reason) => Reply(StatusInternalServerError, ErrorText("failed to verify update: " + reason))
        case RowCount(n) =>
          if n == 0 then Reply(StatusNotFound, ErrorText(NotFoundText(req.orderId)))
          else Reply(StatusOK, Finished(FinishedMessage, req.orderId, req.status))
  }

  // ---------------------------------------------------------------------
  // The orders table
  // ---------------------------------------------------------------------

  /** A row of the orders table: the amount the order service stored, the
      status and the last update time. */
  datatype Order = Order(totalAmount: real, status: string, updatedAt: Option<int>)

  /** `UPDATE orders SET status = $1, updated_at = NOW() WHERE id = $2`. */
  function UpdateOrder(orders: map<int, Order>, req: FinishRequest, now: int): (o: map<int, Order>)
    ensures o.Keys == orders.Keys
    ensures forall k :: k in orders && k != req.orderId ==> o[k] == orders[k]
    ensures req.orderId in o ==>
      o[req.orderId].status == req.status && o[req.orderId].updatedAt == Some(now) &&
      o[req.orderId].totalAmount == orders[req.orderId].totalAmount
  {
    if req.orderId in orders
    then orders[req.orderId := orders[req.orderId].(status := req.status, updatedAt := Some(now))]
    else orders
  }

  /** The number of rows the UPDATE matches: the id is the primary key. */
  function RowsMatched(orders: map<int, Order>, id: int): nat {
    if id in orders then 1 else 0
  }

  /** With a driver that reports the true row count, the handler answers
      404 exactly when the order does not exist, and 200 exactly when it
      existed and now carries the requested status. */
  lemma FaithfulCountDecidesNotFound(orders: map<int, Order>, body: Option<JsonVal>, now: int)
    requires BindRequest(body).Success?
    ensures var req := BindRequest(body).value;
      var r := FinishOutcome(body, ExecOk, RowCount(RowsMatched(orders, req.orderId)));
      (r.code == StatusNotFound <==> req.orderId !in orders) &&
      (r.code == StatusOK <==>
        req.orderId in UpdateOrder(orders, req, now) &&
        UpdateOrder(orders, req, now)[req.orderId].status == req.status)
  {
  }

  /** The orders table of the consumer's database. */
  class OrderStore {
    var orders: map<int, Order>

    constructor (orders: map<int, Order>)
      ensures this.orders == orders
    {
      this.orders := orders;
    }

    /** finishOrderHandler: bind, update, then branch on what the database
        reports. The table changes exactly when binding succeeded and the
        UPDATE was accepted, even if RowsAffected then fails. */
    method FinishOrder(body: Option<JsonVal>, exec: ExecOutcome, rows: RowsOutcome, now: int) returns (reply: Reply)
      modifies this
      ensures reply == FinishOutcome(body, exec, rows)
      ensures orders ==
        if BindRequest(body).Success? && exec.ExecOk?
        then UpdateOrder(old(orders), BindRequest(body).value, now)
        else old(orders)
    {
      var bound := BindRequest(body);
      if bound.Failure? {
        return Reply(StatusBadRequest, BindFailed(bound.error));
      }
      var req := bound.value;
      if exec.ExecErr? {
        return Reply(StatusInternalServerError, ErrorText("failed to update order: " + exec.reason));
      }
      orders := UpdateOrder(orders, req, now);
      if rows.RowsErr? {
        return Reply(StatusInternalServerError, ErrorText("failed to verify update: " + rows.reason));
      }
      if rows.n == 0 {
        return Reply(StatusNotFound, ErrorText(NotFoundText(req.orderId)));
      }
      return Reply(StatusOK, Finished(FinishedMessage, req.orderId, req.status));
    }
  }
}
