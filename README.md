# Outbox relay and webhook consumer, modelled in Dafny

This project models the dispatch half of a Transactional Outbox
implementation. There are two services.

- The **CDC relay** (`cmd/relay`) receives one Debezium change event per HTTP request:
  - it validates the outbox row image in the event's `after` field (`extractOutbox`);
  - it reads the order id out of the row's JSON payload;
  - it posts `{"order_id": id, "status": "finished"}` to the webhook consumer (`callWebhook`);
  - only after a 2xx answer does it run `UPDATE outbox SET status = 'published', published_at = NOW() WHERE id = $1`.
- The **webhook consumer** (`cmd/webhook-consumer`) binds that request,
  runs `UPDATE orders SET status = $1, updated_at = NOW() WHERE id = $2` and
  answers according to what the database reports.

Modules:

- `Wrappers`: Option and Result.
- `Json`: decoded JSON values, with integer numbers.
- `Decimal`: Go's `%d` rendering, used in the error texts, with a parser and the round-trip lemma.
- `Env`: `getEnv`. Both binaries contain the same function (relay `main.go:247-252`, consumer `main.go:89-94`), so it is modelled once.
- `Relay`:
  - the validator `ExtractOutbox`;
  - the 2xx rule `WebhookResult`;
  - the handler as pure functions: `Admit` covers everything up to the webhook call, and `Dispatch` covers the whole request;
  - the class `RelayServer`. It holds the outbox table (`map<int, OutboxRow>`) and a log of outward effects. Its method `HandleDebezium` follows the Go ladder step by step and is proved equal to `Dispatch`.
- `RelayRuns`: what a sequence of requests does to the table and the log.
- `WebhookConsumer`:
  - request binding (`BindRequest`);
  - the outcome ladder (`FinishOutcome`);
  - the class `OrderStore` over the orders table, with the method `FinishOrder`.
- `Integration`: the relay's request as the consumer binds it, and the consumer's answer as the relay classifies it.

Foreign code and I/O are inputs:

- The relay's JSON decoders and RFC 3339 parsing are function-valued fields of `Relay.Libraries`.
- For each request, `Relay.Io` carries the body (or a read failure), what the webhook endpoint answers (a status code and body, or a transport error/timeout), what the database answers to the UPDATE, and the database's `NOW()`.
- The consumer receives the decoded body, the outcome of `Exec` and the outcome of `RowsAffected` as parameters.

The relay's effect log records each webhook post with its outcome and each
outbox UPDATE with its outcome. The class invariant `PublishFollowsDelivery`
says that every UPDATE entry comes immediately after a successful webhook
post. `ExecMarkPublished` can only be called in that situation.

The code differs from the general design of the outbox pattern in two places. The model follows the code:

- The relay's UPDATE has no `status = 'pending'` guard. Re-applying it leaves the row published and moves `published_at` to the later `NOW()` (`Relay.MarkPublishedTwice`).
- The relay never looks at the row's status. `Relay.StatusIgnored` shows that an `"u"` event whose after image says `"published"` is delivered and marked again, exactly like a pending row. The update event produced by the relay's own UPDATE is such an event, so when the outbox table is captured every processed row comes back as a `"u"` event that is posted and marked again, without end.

Where the tests and the code disagree, the model follows the code:

- `getEnv` returns the fallback for a variable set to the empty string. `cmd/relay/main_test.go:51-58` and `cmd/webhook-consumer/main_test.go:47-54` expect `""`.
- A request with `order_id` 0 is rejected with 400. Go decodes a missing `order_id` and an explicit `0` to the same int64 zero. A missing `order_id` must be rejected (`cmd/webhook-consumer/main_test.go:154-161`), and the `required` check runs after decoding, so it cannot accept `0`. `WebhookConsumer.MissingOrderIdIsZero` states this. `cmd/webhook-consumer/main_test.go:197-210` expects `0` to reach the UPDATE.
- A payload without a numeric `id` makes `payload["id"].(float64)` panic. The model answers `Reply.Panic`, with no webhook call and no UPDATE. Under `gin.Default()`'s recovery middleware the client would see a 500.

## Model

| member | source | states |
|---|---|---|
| `Env.GetEnv` | outbox-pattern/cmd/relay/main.go:247-252 | the variable's value when it is set and non-empty, the fallback otherwise (also for a variable set to ""); the result is empty only if both are |
| `Env.WebhookUrl` | outbox-pattern/cmd/relay/main.go:69 | the webhook target is WEBHOOK_URL when it is set and non-empty, and `http://webhook-consumer:8082/orders/finish` when it is unset or empty; it is never empty |
| `Decimal.RoundTrip` | outbox-pattern/cmd/webhook-consumer/main.go:76 | the `%d` rendering of every integer, negative ones included, parses back to that integer |
| `Decimal.Injective` | outbox-pattern/cmd/relay/main.go:197 | distinct integers are rendered as distinct texts |
| `Relay.CreatedAtOf` | outbox-pattern/cmd/relay/main.go:235-242 | a number is taken as epoch milliseconds, a string RFC 3339 accepts gives the parsed instant, anything else leaves the zero time; the result is zero (`IsZero`) iff created_at is unusable or denotes the instant January 1, year 1, UTC |
| `Relay.ExtractOutbox` | outbox-pattern/cmd/relay/main.go:204-245 | succeeds iff id is a number and aggregate_id, payload and status are strings (empty strings accepted); on success the four values are copied unchanged; a failure names a required field whose assertion fails |
| `Relay.ExtractReportsFirstInvalid` | outbox-pattern/cmd/relay/main.go:207-233 | extraction fails iff one required field is invalid, and the reported field is the first invalid one in the order id, aggregate_id, payload, status (against the reference scan `FirstInvalid`) |
| `Relay.ExtractIgnoresLaterFields` | outbox-pattern/cmd/relay/main.go:207-233 | fields after the first invalid one are not inspected: any row image that agrees up to that field fails identically |
| `Relay.CreatedAtNeverFails` | outbox-pattern/cmd/relay/main.go:235-244 | setting created_at to any value, or removing it, never changes whether extraction succeeds |
| `Relay.RequestJson` | outbox-pattern/cmd/relay/main.go:173-178 | the webhook body has exactly the keys order_id (a number) and status (a string) carrying the request's values |
| `Relay.WebhookResult` | outbox-pattern/cmd/relay/main.go:189-201 | a call succeeds iff the endpoint answered with 200 <= code < 300; any other code is "webhook returned status N"; a transport error or timeout is "failed to call webhook" |
| `Relay.BadStatusMessageNamesCode` | outbox-pattern/cmd/relay/main.go:195-197 | the bad-status error text determines the status code |
| `Relay.Admit` | outbox-pattern/cmd/relay/main.go:95-143 | the handler gets past the payload decode iff the body is readable, the envelope decodes, op is "c" or "u", the after image is present, extraction succeeds and the payload decodes; it then delivers the extracted row to the payload's numeric id, or panics when the id is not a number; it answers "skipped" iff the envelope decodes but is not c/u with an after image; every other early answer is 400 with an error text |
| `Relay.MalformedInputAnswers400` | outbox-pattern/cmd/relay/main.go:96-141 | an unreadable body, invalid envelope JSON, a failed extraction and invalid payload JSON each answer 400 with "failed to read body", "invalid json", "failed to extract outbox: missing or invalid <field>" and "invalid payload json" |
| `Relay.ValidEventProcessed` | outbox-pattern/cmd/relay/main.go:112-169 | a c/u event whose row extracts and whose payload has a numeric id is posted as `{order_id: id, status: "finished"}`, and after a 2xx answer and an accepted UPDATE the row id is published and the answer is 200 processed with the outbox id and order id |
| `Relay.Dispatch` | outbox-pattern/cmd/relay/main.go:95-170 | the webhook is called iff the record is admitted, with the payload's id and status "finished"; the UPDATE is issued iff the webhook call succeeded, for the extracted row's id; early exits answer as admitted with no effect; webhook failure answers 500 "webhook call failed: ..."; a DB error answers 500 "failed to mark published: ..."; 200 processed with outbox_id and order_id iff the UPDATE was accepted |
| `Relay.StatusIgnored` | outbox-pattern/cmd/relay/main.go:112-157 | changing the after image's status string (for instance to "published") changes neither the delivery nor the UPDATE the relay performs |
| `Relay.MarkPublished` | outbox-pattern/cmd/relay/main.go:152-157 | the UPDATE changes only the row with that id, setting status "published" and published_at to NOW(), and adds or removes no rows |
| `Relay.MarkPublishedTwice` | outbox-pattern/cmd/relay/main.go:154-157 | applying the unguarded UPDATE twice equals applying it once at the later time: the row stays published |
| `Relay.DispatchKeepsOrdering` | outbox-pattern/cmd/relay/main.go:145-162 | one request appends effects that keep every outbox UPDATE right after a successful webhook call |
| `Relay.RelayServer.constructor` | outbox-pattern/cmd/relay/main.go:69-75 | a server over the given table, posting to `getEnv("WEBHOOK_URL", …)`, with an empty effect log |
| `Relay.RelayServer.CallWebhook` | outbox-pattern/cmd/relay/main.go:172-202 | records one POST of `{order_id, status}` to the configured URL and returns the 2xx classification of its outcome |
| `Relay.RelayServer.ExecMarkPublished` | outbox-pattern/cmd/relay/main.go:152-162 | callable only right after a successful webhook call; records the UPDATE; the table is marked iff the database accepted it; an error is returned iff it did not |
| `Relay.RelayServer.HandleDebezium` | outbox-pattern/cmd/relay/main.go:95-170 | the answer, the appended effects and the new outbox table are those of `Dispatch`; the ordering invariant is kept |
| `RelayRuns.RunKeepsOrdering` | outbox-pattern/cmd/relay/main.go:145-162 | over any sequence of requests, every outbox UPDATE in the log comes right after a successful webhook call |
| `RelayRuns.RunOnlyPublishes` | outbox-pattern/cmd/relay/main.go:152-157 | over any sequence of requests no outbox row is added or removed, and each row is either unchanged or differs only by status "published" and a set published_at |
| `RelayRuns.RunNeverUnpublishes` | outbox-pattern/cmd/relay/main.go:154-157 | a published row stays published whatever requests follow |
| `RelayRuns.RunPublishedOnlyAfterDelivery` | outbox-pattern/cmd/relay/main.go:145-162 | a row that becomes published during a run has an accepted UPDATE of that id in the new part of the log, immediately preceded by a successful webhook call |
| `WebhookConsumer.DecodeOrderId` | outbox-pattern/cmd/webhook-consumer/main.go:15 | order_id decodes to the number it holds, to 0 when absent or null, and fails exactly for any other JSON type |
| `WebhookConsumer.DecodeStatus` | outbox-pattern/cmd/webhook-consumer/main.go:16 | status decodes to the string it holds, to "" when absent or null, and fails exactly for any other JSON type |
| `WebhookConsumer.BindRequest` | outbox-pattern/cmd/webhook-consumer/main.go:44-51 | binding succeeds iff the body is a JSON object whose order_id is a non-zero number and whose status is a non-empty string, and then yields exactly those values; a body that is not JSON fails as invalid JSON; JSON that is not an object or has a field of the wrong type fails as a type mismatch; JSON null, or an object whose fields decode but leave order_id 0 or status empty, fails as a missing required field |
| `WebhookConsumer.ExtraFieldsIgnored` | outbox-pattern/cmd/webhook-consumer/main.go:14-17 | adding or changing any key other than order_id and status does not change the binding |
| `WebhookConsumer.MissingOrderIdIsZero` | outbox-pattern/cmd/webhook-consumer/main.go:15 | a missing order_id binds exactly like an explicit 0 |
| `WebhookConsumer.NotFoundTextNamesOrder` | outbox-pattern/cmd/webhook-consumer/main.go:74-77 | the "order id=N not found" text determines N |
| `WebhookConsumer.FinishOutcome` | outbox-pattern/cmd/webhook-consumer/main.go:46-85 | 400 iff binding fails; 500 "failed to update order: ..." on an Exec error; 500 "failed to verify update: ..." on a RowsAffected error; 404 "order id=N not found" iff zero rows; 200 iff a non-zero row count (2 included), echoing message, order_id and status verbatim |
| `WebhookConsumer.UpdateOrder` | outbox-pattern/cmd/webhook-consumer/main.go:56-60 | only the row with id = order_id changes: its status becomes the request's status unchanged and updated_at NOW(); its amount and every other row are untouched; no row is added |
| `WebhookConsumer.FaithfulCountDecidesNotFound` | outbox-pattern/cmd/webhook-consumer/main.go:56-85 | with the true row count, 404 iff the order does not exist and 200 iff the order now carries the requested status |
| `WebhookConsumer.OrderStore.constructor` | outbox-pattern/cmd/webhook-consumer/main.go:42-43 | a handler over the given orders table |
| `WebhookConsumer.OrderStore.FinishOrder` | outbox-pattern/cmd/webhook-consumer/main.go:42-87 | answers as `FinishOutcome`; the table is updated iff binding succeeded and Exec was accepted, even when RowsAffected then fails; otherwise it is unchanged |
| `Integration.DeliveryBinds` | outbox-pattern/cmd/relay/main.go:173-178 | the consumer binds the relay's request iff its order id is non-zero and its status non-empty, and then binds the same values |
| `Integration.DeliverySucceedsIffOrderFinished` | outbox-pattern/cmd/relay/main.go:195-198 | the relay counts a delivery as successful iff the consumer bound it, its UPDATE was accepted and a non-zero row count was reported |

## Left out

- HTTP transport, gin routing, the health endpoints, `httpClient` and its 5-second timeout are not modelled. The timeout appears only as the `TransportError` outcome.
- JSON decoding is not modelled. The Debezium envelope and the payload decoders are abstract functions, and the consumer receives an already-decoded body. Go's case-insensitive matching of struct keys and its rejection of non-integer or out-of-range numbers for int64 are not modelled.
- A payload of JSON `null` decodes to a nil map in Go, which reads as empty. In the model this is whatever the abstract payload decoder returns.
- Floating point is not modelled. JSON numbers are integers, so the `float64` to `int64` truncation of the ids is not represented. The millisecond-to-nanosecond conversion of created_at is exact arithmetic, with no int64 overflow.
- RFC 3339 date-time parsing (`time.Parse`) is an abstract function that may fail. A `time.Time` is modelled by its instant alone; its location and monotonic reading are not modelled, so Go's zero time and a parsed `0001-01-01T00:00:00Z` are the same value, as `IsZero` treats them.
- Integer widths are not modelled. Ids and row counts are unbounded integers, not int64.
- Relay.RelayServer.CallWebhook: the failures of `json.Marshal` and `http.NewRequest` ("failed to marshal payload", "failed to create request") are not modelled. Marshalling a number and a string cannot fail, and a request error needs a malformed configured URL. The body of a non-2xx response is taken as given; reading it is not modelled.
- WebhookConsumer.BindRequest: the error text of a bind failure comes from the validator library. The model only classifies it (invalid JSON, type mismatch, missing required field). When a body has both a mistyped field and a missing one, the model reports the type mismatch, as the decoder fails before validation runs.
- Logging is not modelled.
- The unused mutex in `RelayServer` and all concurrency are not modelled. Requests are handled one at a time in the model.
- `cmd/order/main.go` is not part of this model. It is the transactional insert of an order and its outbox row, whose atomicity is the database's guarantee.
- `db/db.go` is not part of this model. It covers connection set-up and configuration.
- The Debezium source metadata, `before` image and timestamps are not modelled, because the handler never reads them.
