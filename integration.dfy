/** The two services together: the request the relay posts, as the
    webhook consumer binds it, and the consumer's answer, as the relay
    classifies it. */
module Integration {
  import opened Wrappers
  import Json
  import Relay
  import WebhookConsumer

  /** The consumer accepts the relay's request body exactly when the order
      id is non-zero and the status non-empty, and then binds the same
      values. */
  lemma DeliveryBinds(d: Relay.DeliveryRequest)
    ensures WebhookConsumer.BindRequest(Some(Relay.RequestJson(d))).Success? <==> d.orderId != 0 && d.status != ""
    ensures WebhookConsumer.BindRequest(Some(Relay.RequestJson(d))).Success? ==>
      WebhookConsumer.BindRequest(Some(Relay.RequestJson(d))).value == WebhookConsumer.FinishRequest(d.orderId, d.status)
  {
    var j := Relay.RequestJson(d);
    assert Json.IsNumberAt(j.fields, "order_id") && Json.IsStringAt(j.fields, "status");
  }

  /** The relay counts a delivery as successful exactly when the consumer
      bound the request, its UPDATE was accepted and a non-zero row count
      was reported: a 400, 404 or 500 from the consumer leaves the outbox
      row unpublished. */
  lemma DeliverySucceedsIffOrderFinished(
    d: Relay.DeliveryRequest, exec: WebhookConsumer.ExecOutcome, rows: WebhookConsumer.RowsOutcome, text: string)
    ensures var reply := WebhookConsumer.FinishOutcome(Some(Relay.RequestJson(d)), exec, rows);
      Relay.WebhookResult(Relay.Responded(reply.code, text)).None? <==>
        d.orderId != 0 && d.status != "" && exec.ExecOk? && rows.RowCount? && rows.n != 0
  {
    DeliveryBinds(d);
  }
}
