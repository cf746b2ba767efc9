/** The CDC relay (cmd/relay): it receives one Debezium change event per
    request, validates the outbox row image it carries, posts the order's
    "finished" status to the webhook consumer and only then marks the outbox
    row published.

    The foreign collaborators are parameters: JSON decoding of the envelope
    and of the payload and RFC 3339 parsing are the functions of a
    `Libraries` value; the outcome of reading the body, of the webhook call,
    of the database UPDATE and the database clock are the fields of an `Io`
    value, one per request. */
module Relay {
  import opened Wrappers
  import opened Json
  import Decimal
  import Env

  // ---------------------------------------------------------------------
  // The outbox row image (extractOutbox)
  // ---------------------------------------------------------------------

  /** An instant, in nanoseconds since the Unix epoch. */
  datatype Time = Time(unixNanos: int) {
    /** `time.Time.IsZero`: the instant is January 1, year 1, 00:00:00 UTC. */
    predicate IsZero() {
      unixNanos == ZeroUnixNanos
    }
  }

  /** Go's zero `time.Time`, 62135596800 seconds before the Unix epoch. */
  const ZeroUnixNanos := -62_135_596_800 * 1_000_000_000
  const ZeroTime := Time(ZeroUnixNanos)

  /** The outbox row as the relay reads it from a change event's after image. */
  datatype Outbox = Outbox(id: int, aggregateId: string, payload: string, status: string, createdAt: Time)

  datatype ExtractError = MissingOrInvalid(field: string) {
    function Message(): string {
      "missing or invalid " + field
    }
  }

  /** The fields extractOutbox requires, in the order it checks them. */
  const RequiredFields: seq<string> := ["id", "aggregate_id", "payload", "status"]

  const NanosPerMilli := 1_000_000

  /** The type assertion extractOutbox applies to `field` succeeds: a number
      for `id`, a string for every other field. */
  predicate FieldOk(data: Object, field: string) {
    if field == "id" then IsNumberAt(data, field) else IsStringAt(data, field)
  }

  /** Reference definition of the check order: the first of `fields` whose
      type assertion fails, if any. */
  function FirstInvalid(data: Object, fields: seq<string>): (r: Option<string>)
    ensures r.None? <==> forall i :: 0 <= i < |fields| ==> FieldOk(data, fields[i])
    ensures r.Some? ==> r.value in fields && !FieldOk(data, r.value)
  {
    if fields == [] then None
    else if !FieldOk(data, fields[0]) then Some(fields[0])
    else
      var rest := FirstInvalid(data, fields[1..]);
      assert forall i :: 1 <= i < |fields| ==> fields[i] == fields[1..][i - 1];
      rest
  }

  /** created_at: epoch milliseconds when it is a number, the parsed instant
      when it is a string RFC 3339 accepts, the zero time otherwise. */
  function CreatedAtOf(data: Object, parseRfc3339: string -> Option<int>): (t: Time)
    ensures IsNumberAt(data, "created_at") ==> t == Time(data["created_at"].n * NanosPerMilli)
    ensures !IsNumberAt(data, "created_at") && IsStringAt(data, "created_at") &&
            parseRfc3339(data["created_at"].s).Some? ==>
      t == Time(parseRfc3339(data["created_at"].s).value)
    ensures t.IsZero() <==>
      (IsNumberAt(data, "created_at") && data["created_at"].n * NanosPerMilli == ZeroUnixNanos) ||
      (!IsNumberAt(data, "created_at") && IsStringAt(data, "created_at") &&
       parseRfc3339(data["created_at"].s) == Some(ZeroUnixNanos)) ||
      (!IsNumberAt(data, "created_at") &&
       !(IsStringAt(data, "created_at") && parseRfc3339(data["created_at"].s).Some?))
  {
    if IsNumberAt(data, "created_at") then Time(data["created_at"].n * NanosPerMilli)
    else if IsStringAt(data, "created_at") then
      match parseRfc3339(data["created_at"].s)
      case Some(instant) => Time(instant)
      case None => ZeroTime
    else ZeroTime
  }

  /** extractOutbox: checks id, aggregate_id, payload and status in that
      order and stops at the first one that is missing or mistyped;
      created_at never causes a failure. */
  function ExtractOutbox(data: Object, parseRfc3339: string -> Option<int>): (r: Result<Outbox, ExtractError>)
    ensures r.Success? <==>
      IsNumberAt(data, "id") && IsStringAt(data, "aggregate_id") &&
      IsStringAt(data, "payload") && IsStringAt(data, "status")
    ensures r.Success? ==>
      r.value.id == data["id"].n && r.value.aggregateId == data["aggregate_id"].s &&
      r.value.payload == data["payload"].s && r.value.status == data["status"].s &&
      r.value.createdAt == CreatedAtOf(data, parseRfc3339)
    ensures r.Failure? ==> r.error.field in RequiredFields && !FieldOk(data, r.error.field)
  {
    if !IsNumberAt(data, "id") then Failure(MissingOrInvalid("id"))
    else if !IsStringAt(data, "aggregate_id") then Failure(MissingOrInvalid("aggregate_id"))
    else if !IsStringAt(data, "payload") then Failure(MissingOrInvalid("payload"))
    else if !IsStringAt(data, "status") then Failure(MissingOrInvalid("status"))
    else Success(Outbox(data["id"].n, data["aggregate_id"].s, data["payload"].s, data["status"].s,
                        CreatedAtOf(data, parseRfc3339)))
  }

  /** The field extractOutbox reports is the first invalid one of the
      required fields, and it fails exactly when one of them is invalid. */
  lemma ExtractReportsFirstInvalid(data: Object, parseRfc3339: string -> Option<int>)
    ensures ExtractOutbox(data, parseRfc3339).Failure? <==> FirstInvalid(data, RequiredFields).Some?
    ensures ExtractOutbox(data, parseRfc3339).Failure? ==>
      ExtractOutbox(data, parseRfc3339).error.field == FirstInvalid(data, RequiredFields).value
  {
    var fs := RequiredFields;
    var f1, f2, f3 := fs[1..], fs[1..][1..], fs[1..][1..][1..];
    assert f1 == ["aggregate_id", "payload", "status"];
    assert f2 == ["payload", "status"];
    assert f3 == ["status"];
    assert f3[1..] == [];
    assert FirstInvalid(data, f3) == if !FieldOk(data, "status") then Some("status") else None;
    assert FirstInvalid(data, f2) == if !FieldOk(data, "payload") then Some("payload") else FirstInvalid(data, f3);
    assert FirstInvalid(data, f1) == if !FieldOk(data, "aggregate_id") then Some("aggregate_id") else FirstInvalid(data, f2);
    assert FirstInvalid(data, fs) == if !FieldOk(data, "id") then Some("id") else FirstInvalid(data, f1);
  }

  /** Two maps agree on `keys`: each key is in both or in neither, with the same value. */
  predicate AgreeOn(a: Object, b: Object, keys: seq<string>) {
    forall i :: 0 <= i < |keys| ==>
      (keys[i] in a <==> keys[i] in b) && (keys[i] in a ==> a[keys[i]] == b[keys[i]])
  }

  /** Fields after the first invalid one are not inspected: any row image
      that agrees up to and including that field fails the same way. */
  lemma ExtractIgnoresLaterFields(data: Object, other: Object, k: nat, parseRfc3339: string -> Option<int>)
    requires k < |RequiredFields|
    requires ExtractOutbox(data, parseRfc3339) == Failure(MissingOrInvalid(RequiredFields[k]))
    requires AgreeOn(data, other, RequiredFields[..k + 1])
    ensures ExtractOutbox(other, parseRfc3339) == ExtractOutbox(data, parseRfc3339)
  {
    assert RequiredFields[..k + 1][0] == "id";
    if k >= 1 { assert RequiredFields[..k + 1][1] == "aggregate_id"; }
    if k >= 2 { assert RequiredFields[..k + 1][2] == "payload"; }
    if k >= 3 { assert RequiredFields[..k + 1][3] == "status"; }
  }

  /** created_at never decides success: replacing or removing it leaves the
      verdict unchanged. */
  lemma CreatedAtNeverFails(data: Object, v: JsonVal, parseRfc3339: string -> Option<int>)
    ensures ExtractOutbox(data["created_at" := v], parseRfc3339).Success? == ExtractOutbox(data, parseRfc3339).Success?
    ensures ExtractOutbox(data - {"created_at"}, parseRfc3339).Success? == ExtractOutbox(data, parseRfc3339).Success?
  {
    var withV := data["created_at" := v];
    var without := data - {"created_at"};
    assert forall f :: f in RequiredFields ==> (f in data <==> f in withV) && (f in data ==> data[f] == withV[f]);
    assert forall f :: f in RequiredFields ==> (f in data <==> f in without) && (f in data ==> data[f] == without[f]);
  }

  // ---------------------------------------------------------------------
  // The webhook call (callWebhook)
  // ---------------------------------------------------------------------

  /** The status the relay always asks the consumer to apply. */
  const FinishedStatus := "finished"

  /** The body callWebhook posts, as `{"order_id": <int64>, "status": <string>}`. */
  datatype DeliveryRequest = DeliveryRequest(orderId: int, status: string)

  function RequestJson(d: DeliveryRequest): (j: JsonVal)
    ensures j.JObj? && j.fields.Keys == {"order_id", "status"}
    ensures j.fields["order_id"] == JNum(d.orderId) && j.fields["status"] == JStr(d.status)
  {
    JObj(map["order_id" := JNum(d.orderId), "status" := JStr(d.status)])
  }

  /** What the downstream endpoint did with the request: answered with a
      status code and a body, or never answered (connection failure or the
      client's 5-second timeout). */
  datatype WebhookOutcome = Responded(code: int, body: string) | TransportError(reason: string)

  datatype WebhookError = CallFailed(reason: string) | BadStatus(code: int, body: string) {
    function Message(): string {
      match this
      case CallFailed(reason) => "failed to call webhook: " + reason
      case BadStatus(code, body) => "webhook returned status " + Decimal.IntToString(code) + ": " + body
    }
  }

  /** The 2xx rule of callWebhook: a response is a success iff its code is in [200, 300). */
  function WebhookResult(outcome: WebhookOutcome): (r: Option<WebhookError>)
    ensures r.None? <==> outcome.Responded? && 200 <= outcome.code < 300
    ensures outcome.TransportError? ==> r == Some(CallFailed(outcome.reason))
    ensures outcome.Responded? && r.Some? ==> r == Some(BadStatus(outcome.code, outcome.body))
  {
    match outcome
    case TransportError(reason) => Some(CallFailed(reason))
    case Responded(code, body) =>
      if code < 200 || code >= 300 then Some(BadStatus(code, body)) else None
  }

  /** The error text names the status code, and different codes give
      different texts. */
  lemma BadStatusMessageNamesCode(c1: int, c2: int, body: string)
    requires BadStatus(c1, body).Message() == BadStatus(c2, body).Message()
    ensures c1 == c2
  {
    var prefix := "webhook returned status ";
    var s1, s2 := Decimal.IntToString(c1), Decimal.IntToString(c2);
    assert BadStatus(c1, body).Message() == prefix + s1 + (": " + body);
    assert BadStatus(c2, body).Message() == prefix + s2 + (": " + body);
    Decimal.FramedEqual(prefix, s1, s2, ": " + body);
    Decimal.Injective(c1, c2);
  }

  // ---------------------------------------------------------------------
  // The handler (debeziumHandler)
  // ---------------------------------------------------------------------

  /** The part of a Debezium change event the handler reads: the operation
      tag and the optional after image. */
  datatype Change = Change(op: string, after: Option<Object>)

  /** The foreign decoders the handler calls. */
  datatype Libraries = Libraries(
    decodeChange: string -> Option<Change>,   // json.Unmarshal into DebeziumChange
    decodePayload: string -> Option<Object>,  // json.Unmarshal into map[string]interface{}
    parseRfc3339: string -> Option<int>)      // time.Parse(time.RFC3339, _), in Unix nanoseconds

  /** Outcome of the UPDATE statement as the database driver reports it. */
  datatype ExecOutcome = ExecOk | ExecErr(reason: string)

  /** The I/O outcomes of one request: the request body (None when reading
      it fails), what the webhook endpoint would answer, what the database
      would answer to the UPDATE, and the database's NOW(). */
  datatype Io = Io(body: Option<string>, webhook: WebhookOutcome, exec: ExecOutcome, now: Time)

  datatype ReplyBody = ErrorText(error: string) | Skipped | Processed(outboxId: int, orderId: int)

  /** The handler's HTTP answer, or the run-time panic of the unchecked
      type assertion on the payload's id. */
  datatype Reply = Reply(code: int, body: ReplyBody) | Panic

  const StatusOK := 200
  const StatusBadRequest := 400
  const StatusInternalServerError := 500

  /** The operations the handler processes: insert and update. */
  predicate Wanted(op: string) {
    op == "c" || op == "u"
  }

  /** Result of the validating half of the handler: an answer given before
      any side effect, the panic, or the row and order id to deliver. */
  datatype Admission = Answer(reply: Reply) | Crash | Deliver(row: Outbox, orderId: int)

  /** The after image of a change event the handler processes: the envelope
      `text` decodes, its operation is insert or update, and it carries an
      after image. */
  function WantedImage(libs: Libraries, text: string): (img: Option<Object>)
    ensures img.Some? <==>
      libs.decodeChange(text).Some? && Wanted(libs.decodeChange(text).value.op) &&
      libs.decodeChange(text).value.after.Some?
    ensures img.Some? ==> img == libs.decodeChange(text).value.after
  {
    match libs.decodeChange(text)
    case None => None
    case Some(change) => if Wanted(change.op) then change.after else None
  }

  /** The handler up to the webhook call (lines 96-143 of the relay). */
  function Admit(libs: Libraries, body: Option<string>): (a: Admission)
    ensures a.Answer? ==>
      a.reply.Reply? && (a.reply.code == StatusOK || a.reply.code == StatusBadRequest) &&
      (a.reply.code == StatusOK <==> a.reply.body == Skipped) &&
      (a.reply.code == StatusBadRequest ==> a.reply.body.ErrorText?)
    // skipped: the envelope decodes but is not an insert or update with an after image
    ensures a == Answer(Reply(StatusOK, Skipped)) <==>
      body.Some? && libs.decodeChange(body.value).Some? && WantedImage(libs, body.value).None?
    // the handler gets past the payload decode exactly when every earlier check passes
    ensures (a.Deliver? || a.Crash?) <==>
      body.Some? && WantedImage(libs, body.value).Some? &&
      ExtractOutbox(WantedImage(libs, body.value).value, libs.parseRfc3339).Success? &&
      libs.decodePayload(ExtractOutbox(WantedImage(libs, body.value).value, libs.parseRfc3339).value.payload).Some?
    // and then delivers the extracted row to the payload's order id, or panics without one
    ensures (a.Deliver? || a.Crash?) ==>
      var row := ExtractOutbox(WantedImage(libs, body.value).value, libs.parseRfc3339).value;
      var payload := libs.decodePayload(row.payload).value;
      (IsNumberAt(payload, "id") ==> a == Deliver(row, payload["id"].n)) &&
      (!IsNumberAt(payload, "id") ==> a == Crash)
  {
    match body
    case None => Answer(Reply(StatusBadRequest, ErrorText("failed to read body")))
    case Some(text) =>
      match libs.decodeChange(text)
      case None => Answer(Reply(StatusBadRequest, ErrorText("invalid json")))
      case Some(change) =>
        if !Wanted(change.op) then Answer(Reply(StatusOK, Skipped))
        else
          match change.after
          case None => Answer(Reply(StatusOK, Skipped))
          case Some(after) =>
            match ExtractOutbox(after, libs.parseRfc3339)
            case Failure(e) => Answer(Reply(StatusBadRequest, ErrorText("failed to extract outbox: " + e.Message())))
            case Success(row) =>
              match libs.decodePayload(row.payload)
              case None => Answer(Reply(StatusBadRequest, ErrorText("invalid payload json")))
              case Some(payload) =>
                if IsNumberAt(payload, "id") then Deliver(row, payload["id"].n) else Crash
  }

  /** Each malformed input is answered 400 with its own text. */
  lemma MalformedInputAnswers400(libs: Libraries, body: Option<string>)
    ensures body.None? ==>
      Admit(libs, body) == Answer(Reply(StatusBadRequest, ErrorText("failed to read body")))
    ensures body.Some? && libs.decodeChange(body.value).None? ==>
      Admit(libs, body) == Answer(Reply(StatusBadRequest, ErrorText("invalid json")))
    ensures body.Some? && libs.decodeChange(body.value).Some? ==>
      var change := libs.decodeChange(body.value).value;
      Wanted(change.op) && change.after.Some? ==>
        var extracted := ExtractOutbox(change.after.value, libs.parseRfc3339);
        (extracted.Failure? ==>
          Admit(libs, body) == Answer(Reply(StatusBadRequest, ErrorText("failed to extract outbox: " + extracted.error.Message())))) &&
        (extracted.Success? && libs.decodePayload(extracted.value.payload).None? ==>
          Admit(libs, body) == Answer(Reply(StatusBadRequest, ErrorText("invalid payload json"))))
  {
  }

  /** What one request decides: the answer, the webhook request issued (if
      any) and the outbox id whose UPDATE is issued (if any). */
  datatype Step = Step(reply: Reply, delivery: Option<DeliveryRequest>, publish: Option<int>)

  /** The whole handler as a function of its inputs. */
  function Dispatch(libs: Libraries, io: Io): (st: Step)
    ensures st.delivery.Some? <==> Admit(libs, io.body).Deliver?
    ensures st.delivery.Some? ==> st.delivery.value == DeliveryRequest(Admit(libs, io.body).orderId, FinishedStatus)
    // published only after a successful delivery, and then for the extracted row
    ensures st.publish.Some? <==> st.delivery.Some? && WebhookResult(io.webhook).None?
    ensures st.publish.Some? ==> st.publish.value == Admit(libs, io.body).row.id
    // early exits have no side effects
    ensures Admit(libs, io.body).Answer? ==> st.reply == Admit(libs, io.body).reply
    ensures Admit(libs, io.body).Crash? ==> st.reply == Panic
    ensures st.delivery.Some? && WebhookResult(io.webhook).Some? ==>
      st.reply == Reply(StatusInternalServerError, ErrorText("webhook call failed: " + WebhookResult(io.webhook).value.Message()))
    ensures st.publish.Some? && io.exec.ExecErr? ==>
      st.reply == Reply(StatusInternalServerError, ErrorText("failed to mark published: " + io.exec.reason))
    ensures (st.reply.Reply? && st.reply.body.Processed?) <==> st.publish.Some? && io.exec.ExecOk?
    ensures st.reply.Reply? && st.reply.body.Processed? ==>
      st.reply == Reply(StatusOK, Processed(Admit(libs, io.body).row.id, Admit(libs, io.body).orderId))
  {
    match Admit(libs, io.body)
    case Answer(reply) => Step(reply, None, None)
    case Crash => Step(Panic, None, None)
    case Deliver(row, orderId) =>
      var request := DeliveryRequest(orderId, FinishedStatus);
      match WebhookResult(io.webhook)
      case Some(err) =>
        Step(Reply(StatusInternalServerError, ErrorText("webhook call failed: " + err.Message())), Some(request), None)
      case None =>
        match io.exec
        case ExecErr(reason) =>
          Step(Reply(StatusInternalServerError, ErrorText("failed to mark published: " + reason)), Some(request), Some(row.id))
        case ExecOk =>
          Step(Reply(StatusOK, Processed(row.id, orderId)), Some(request), Some(row.id))
  }

  /** The main path: an insert or update whose row image extracts and whose
      payload carries a numeric id is posted to the consumer for that order,
      and after a 2xx answer and an accepted UPDATE the row is marked and the
      request answered 200 processed. */
  lemma ValidEventProcessed(libs: Libraries, io: Io, change: Change, payload: Object)
    requires io.body.Some? && libs.decodeChange(io.body.value) == Some(change)
    requires Wanted(change.op) && change.after.Some?
    requires ExtractOutbox(change.after.value, libs.parseRfc3339).Success?
    requires libs.decodePayload(ExtractOutbox(change.after.value, libs.parseRfc3339).value.payload) == Some(payload)
    requires IsNumberAt(payload, "id")
    requires WebhookResult(io.webhook).None? && io.exec.ExecOk?
    ensures var row := ExtractOutbox(change.after.value, libs.parseRfc3339).value;
      var orderId := payload["id"].n;
      Dispatch(libs, io) ==
        Step(Reply(StatusOK, Processed(row.id, orderId)), Some(DeliveryRequest(orderId, FinishedStatus)), Some(row.id))
  {
  }

  /** The relay does not read the row's status: a row image that says
      "published" (such as the update event its own UPDATE produces) is
      delivered and marked again exactly like a pending one. */
  lemma StatusIgnored(libs: Libraries, io1: Io, io2: Io, op: string, after: Object, status: string)
    requires io1.body.Some? && io2.body.Some?
    requires io1.webhook == io2.webhook && io1.exec == io2.exec
    requires IsStringAt(after, "status")
    requires libs.decodeChange(io1.body.value) == Some(Change(op, Some(after)))
    requires libs.decodeChange(io2.body.value) == Some(Change(op, Some(after["status" := JStr(status)])))
    ensures Dispatch(libs, io2).delivery == Dispatch(libs, io1).delivery
    ensures Dispatch(libs, io2).publish == Dispatch(libs, io1).publish
  {
    var after2 := after["status" := JStr(status)];
    var e1 := ExtractOutbox(after, libs.parseRfc3339);
    var e2 := ExtractOutbox(after2, libs.parseRfc3339);
    assert CreatedAtOf(after2, libs.parseRfc3339) == CreatedAtOf(after, libs.parseRfc3339);
    assert e1.Success? ==> e2 == Success(e1.value.(status := status));
    assert e1.Failure? ==> e2 == e1;
  }

  // ---------------------------------------------------------------------
  // The outbox table and the effect log
  // ---------------------------------------------------------------------

  /** A row of the outbox table. */
  datatype OutboxRow = OutboxRow(aggregateId: string, payload: string, status: string, createdAt: Time, publishedAt: Option<Time>)

  const PublishedStatus := "published"

  /** `UPDATE outbox SET status = 'published', published_at = NOW() WHERE id = $1`:
      only the row with that id changes; there is no guard on its status. */
  function MarkPublished(table: map<int, OutboxRow>, id: int, now: Time): (t: map<int, OutboxRow>)
    ensures t.Keys == table.Keys
    ensures forall k :: k in table && k != id ==> t[k] == table[k]
    ensures id in t ==> t[id].status == PublishedStatus && t[id].publishedAt == Some(now)
    ensures id in t ==> t[id].(status := table[id].status, publishedAt := table[id].publishedAt) == table[id]
  {
    if id in table then table[id := table[id].(status := PublishedStatus, publishedAt := Some(now))] else table
  }

  /** Re-applying the UPDATE leaves the row published; only published_at
      moves to the later NOW(). */
  lemma MarkPublishedTwice(table: map<int, OutboxRow>, id: int, now1: Time, now2: Time)
    ensures MarkPublished(MarkPublished(table, id, now1), id, now2) == MarkPublished(table, id, now2)
  {
    var once := MarkPublished(table, id, now1);
    var twice := MarkPublished(once, id, now2);
    var direct := MarkPublished(table, id, now2);
    assert twice.Keys == direct.Keys;
    forall k | k in twice ensures twice[k] == direct[k] {
    }
  }

  /** One entry of the relay's record of its outward effects, with the
      outcome each one had. */
  datatype Effect =
    | WebhookPost(url: string, request: DeliveryRequest, outcome: WebhookOutcome)
    | OutboxUpdate(id: int, result: ExecOutcome)

  predicate Delivered(e: Effect) {
    e.WebhookPost? && WebhookResult(e.outcome).None?
  }

  /** Every UPDATE of the outbox comes right after a successful webhook call. */
  predicate PublishFollowsDelivery(log: seq<Effect>) {
    forall i :: 0 <= i < |log| && log[i].OutboxUpdate? ==> 0 < i && Delivered(log[i - 1])
  }

  /** The effects of one request, in the order the handler causes them. */
  function Effects(url: string, st: Step, io: Io): seq<Effect> {
    match st.delivery
    case None => []
    case Some(request) =>
      [WebhookPost(url, request, io.webhook)] +
      (if st.publish.Some? then [OutboxUpdate(st.publish.value, io.exec)] else [])
  }

  /** The table after one request: the row is marked only when the UPDATE
      was issued and the database accepted it. */
  function Apply(table: map<int, OutboxRow>, st: Step, io: Io): map<int, OutboxRow> {
    if st.publish.Some? && io.exec.ExecOk? then MarkPublished(table, st.publish.value, io.now) else table
  }

  /** One request keeps the ordering of the log. */
  lemma {:induction false} DispatchKeepsOrdering(log: seq<Effect>, url: string, libs: Libraries, io: Io)
    requires PublishFollowsDelivery(log)
    ensures PublishFollowsDelivery(log + Effects(url, Dispatch(libs, io), io))
  {
    var st := Dispatch(libs, io);
    var es := Effects(url, st, io);
    var all := log + es;
    forall i | 0 <= i < |all| && all[i].OutboxUpdate? ensures 0 < i && Delivered(all[i - 1]) {
      if i >= |log| {
        assert es[i - |log|].OutboxUpdate?;
        assert i - |log| == 1 && st.publish.Some?;
        assert all[i - 1] == es[0];
      } else {
        assert all[i] == log[i];
        assert all[i - 1] == log[i - 1];
      }
    }
  }

  /** The relay server: the outbox table it updates and the record of what
      it has done. */
  class RelayServer {
    const webhookUrl: string
    const libs: Libraries
    var outbox: map<int, OutboxRow>
    var log: seq<Effect>

    ghost predicate Valid()
      reads this
    {
      PublishFollowsDelivery(log)
    }

    /** main: the webhook target comes from WEBHOOK_URL. */
    constructor (env: Env.Environment, libs: Libraries, outbox: map<int, OutboxRow>)
      ensures Valid()
      ensures webhookUrl == Env.WebhookUrl(env) && this.libs == libs
      ensures this.outbox == outbox && log == []
    {
      webhookUrl := Env.WebhookUrl(env);
      this.libs := libs;
      this.outbox := outbox;
      log := [];
    }

    /** callWebhook: posts the request; `outcome` is what the endpoint does. */
    method CallWebhook(orderId: int, status: string, outcome: WebhookOutcome) returns (err: Option<WebhookError>)
      requires Valid()
      modifies this`log
      ensures Valid()
      ensures log == old(log) + [WebhookPost(webhookUrl, DeliveryRequest(orderId, status), outcome)]
      ensures err == WebhookResult(outcome)
    {
      log := log + [WebhookPost(webhookUrl, DeliveryRequest(orderId, status), outcome)];
      if outcome.TransportError? {
        return Some(CallFailed(outcome.reason));
      }
      if outcome.code < 200 || outcome.code >= 300 {
        return Some(BadStatus(outcome.code, outcome.body));
      }
      return None;
    }

    /** The mark-published UPDATE. It may only be issued right after a
        successful webhook call; the row changes only when the database
        accepts the statement. */
    method ExecMarkPublished(id: int, exec: ExecOutcome, now: Time) returns (err: Option<string>)
      requires Valid()
      requires |log| > 0 && Delivered(log[|log| - 1])
      modifies this
      ensures Valid()
      ensures log == old(log) + [OutboxUpdate(id, exec)]
      ensures outbox == if exec.ExecOk? then MarkPublished(old(outbox), id, now) else old(outbox)
      ensures err.Some? <==> exec.ExecErr?
      ensures exec.ExecErr? ==> err == Some(exec.reason)
    {
      log := log + [OutboxUpdate(id, exec)];
      if exec.ExecErr? {
        return Some(exec.reason);
      }
      outbox := MarkPublished(outbox, id, now);
      return None;
    }

    /** debeziumHandler: the decision ladder, step by step. */
    method HandleDebezium(io: Io) returns (reply: Reply)
      requires Valid()
      modifies this
      ensures Valid()
      ensures reply == Dispatch(libs, io).reply
      ensures log == old(log) + Effects(webhookUrl, Dispatch(libs, io), io)
      ensures outbox == Apply(old(outbox), Dispatch(libs, io), io)
    {
      if io.body.None? {
        return Reply(StatusBadRequest, ErrorText("failed to read body"));
      }
      var change := libs.decodeChange(io.body.value);
      if change.None? {
        return Reply(StatusBadRequest, ErrorText("invalid json"));
      }
      if change.value.op != "c" && change.value.op != "u" {
        return Reply(StatusOK, Skipped);
      }
      if change.value.after.None? {
        return Reply(StatusOK, Skipped);
      }
      var extracted := ExtractOutbox(change.value.after.value, libs.parseRfc3339);
      if extracted.Failure? {
        return Reply(StatusBadRequest, ErrorText("failed to extract outbox: " + extracted.error.Message()));
      }
      var row := extracted.value;
      var payload := libs.decodePayload(row.payload);
      if payload.None? {
        return Reply(StatusBadRequest, ErrorText("invalid payload json"));
      }
      if !IsNumberAt(payload.value, "id") {
        return Panic;
      }
      var orderId := payload.value["id"].n;
      var webhookErr := CallWebhook(orderId, FinishedStatus, io.webhook);
      if webhookErr.Some? {
        return Reply(StatusInternalServerError, ErrorText("webhook call failed: " + webhookErr.value.Message()));
      }
      var dbErr := ExecMarkPublished(row.id, io.exec, io.now);
      if dbErr.Some? {
        return Reply(StatusInternalServerError, ErrorText("failed to mark published: " + dbErr.value));
      }
      return Reply(StatusOK, Processed(row.id, orderId));
    }
  }
}
