/**
 * Worked scenarios over the whole service, stated as client methods whose
 * assertions the verifier checks.
 */
module Scenarios {
  import opened Options
  import opened Constants
  import opened Errors
  import opened Payloads
  import opened Registry
  import opened Logs
  import opened Dispatch
  import opened Webhooks

  /** The ObjectId string of 23 zeros followed by one decimal digit. */
  function Oid(last: char): (s: string)
    requires '0' <= last <= '9'
    ensures IsObjectIdString(s) && s[23] == last
  {
    seq(24, i requires 0 <= i < 24 => if i < 23 then '0' else last)
  }

  const HookId := Oid('1')
  const FirstEndpointId := Oid('2')
  const SecondEndpointId := Oid('3')
  const PrimaryUrl := "https://customer.example/hook"
  const FirstUrl := "https://a.example/in"
  const SecondUrl := "https://b.example/in"

  /** The webhook of the scenarios, with its two endpoints. */
  function Hook(): Webhook
  {
    Webhook(HookId, "customer-1", PrimaryUrl, [Endpoint(FirstEndpointId, FirstUrl), Endpoint(SecondEndpointId, SecondUrl)])
  }

  /** Create the webhook: the registry holds it with no endpoints, and one entry is listed under it. */
  method Create(now: string) returns (service: WebhookService)
    ensures fresh(service) && fresh(service.logs)
    ensures service.Valid() && service.webhooks == [Hook().(endpoints := [])] && service.issued == {HookId}
    ensures forall k :: 0 <= k < |service.logs.entries| ==> service.logs.entries[k].webhookId == Some(HookId)
    ensures |service.logs.entries| == 1
  {
    var logs := new LogService();
    service := new WebhookService(logs);
    var created := service.CreateWebhook(Some("customer-1"), Some(PrimaryUrl), HookId, true, now);
    assert created.Ok?;
  }

  /**
   * Create a webhook and add two endpoints to it: the registry holds exactly
   * that webhook, and the log holds one entry for each step, both listed
   * under the webhook.
   */
  method Register(now: string) returns (service: WebhookService)
    ensures fresh(service) && fresh(service.logs)
    ensures service.Valid() && service.webhooks == [Hook()]
    ensures |LogsFor(service.logs.entries, HookId)| == 2
  {
    service := Create(now);
    var ids := [FirstEndpointId, SecondEndpointId];
    assert HookId[23] != FirstEndpointId[23] && HookId[23] != SecondEndpointId[23];
    assert FirstEndpointId[23] != SecondEndpointId[23];
    var added := service.AddEndpoints(HookId, [FirstUrl, SecondUrl], ids, now);
    assert Canonical(HookId) == HookId;
    assert added.body.endpoints == Hook().endpoints;
    assert [] + added.body.endpoints == Hook().endpoints;
    assert service.webhooks[0] == Hook();
    ScopedAppendListed([], service.logs.entries, HookId);
  }

  /**
   * Receive a payload with every POST answered by 200: the payload comes
   * back, the endpoints are POSTed in order before the primary URL, and the
   * webhook's listing grows by two forwarding entries and the summary.
   */
  method EndToEnd(now: string)
  {
    var service := Register(now);
    LookupFinds(service.webhooks, 0);
    var data := Obj([("event", Str("paid"))]);
    var allUp := (url: string) => Responded(ResponseCodeSuccess);
    var beforeReceive := service.logs.entries;
    var received, posts := service.Receive(HookId, data, allUp, now);
    assert received == Ok(data, ResponseCodeSuccess);
    assert posts == [FirstUrl, SecondUrl, PrimaryUrl];
    var listed := service.GetWebhookLogs(HookId);
    ReceiveListed(beforeReceive, HookId, Hook().endpoints, PrimaryUrl, allUp, now);
    assert |listed.body| == 5;
  }

  /**
   * Deleting an endpoint of a webhook that does not exist: the source's
   * handler reports success, the corrected one reports the webhook missing.
   * Neither changes the registry.
   */
  method UnknownWebhookDelete(now: string)
  {
    var logs := new LogService();
    var service := new WebhookService(logs);
    var asWritten := service.DeleteEndpointAsWritten(HookId, FirstEndpointId, now);
    assert asWritten == Ok(Message(EndpointDeletedMessage), ResponseCodeSuccess);
    var corrected := service.DeleteEndpoint(HookId, FirstEndpointId, now);
    assert corrected == Raised(NotFoundError(WebhookNotFoundMessage));
    assert service.webhooks == [];
  }
}
