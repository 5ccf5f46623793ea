/**
 * The webhook service: a registry of webhooks (the `webhooks` collection)
 * and the shared log, with the operations that create webhooks, add and
 * remove endpoints, list, query the log, report status and fan an inbound
 * payload out to every endpoint and then the primary URL.
 *
 * Identifiers come from the caller as fresh ids (never handed out before);
 * HTTP delivery is the `deliver` oracle; the clock is the `now` parameter.
 */
module Webhooks {
  import opened Options
  import opened Constants
  import opened Errors
  import opened Payloads
  import opened Registry
  import opened Logs
  import opened Dispatch

  /** Reply bodies of the successful operations. */
  datatype Created = Created(webhookId: string, webhookUrl: string)
  datatype EndpointsAdded = EndpointsAdded(webhookId: string, endpoints: seq<Endpoint>)
  datatype Message = Message(message: string)

  /** The texts of the entries the registry operations log. */
  const CreatedMessage := "Webhook created successfully"
  const CreateErrorPrefix := "Error creating webhook: "
  const EndpointsAddedMessage := "Endpoints added successfully"
  const AddErrorPrefix := "Error adding endpoints: "
  const DeleteErrorPrefix := "Error deleting endpoint: "
  const ListedMessage := "Webhooks listed successfully"
  const StatusMessage := "Status retrieved successfully"

  /** The exception text caught when a webhook cannot be created. */
  function CreateFailure(customerId: Option<string>, webhookUrl: Option<string>): (m: string)
    ensures m == MissingCustomerId <==> customerId.None?
    ensures m == MissingWebhookUrl <==> customerId.Some? && webhookUrl.None?
    ensures m == NotInsertedMessage <==> customerId.Some? && webhookUrl.Some?
  {
    if customerId.None? then MissingCustomerId
    else if webhookUrl.None? then MissingWebhookUrl
    else NotInsertedMessage
  }

  const MissingCustomerId := "'customer_id'"
  const MissingWebhookUrl := "'webhook_url'"
  const NotInsertedMessage := "Data not inserted into MongoDB"

  /** Gives each submitted URL its generated endpoint id, keeping the submitted order. */
  method AssignEndpointIds(urls: seq<string>, ids: seq<string>) returns (endpoints: seq<Endpoint>)
    requires |ids| == |urls|
    ensures |endpoints| == |urls|
    ensures forall k :: 0 <= k < |urls| ==> endpoints[k] == Endpoint(ids[k], urls[k])
  {
    endpoints := [];
    for k := 0 to |urls|
      invariant |endpoints| == k
      invariant forall j :: 0 <= j < k ==> endpoints[j] == Endpoint(ids[j], urls[j])
    {
      endpoints := endpoints + [Endpoint(ids[k], urls[k])];
    }
  }

  class WebhookService {
    var webhooks: seq<Webhook>
    const logs: LogService
    /** Every ObjectId the id generator has handed out so far. */
    ghost var issued: set<string>

    /**
     * Ids are unique, in ObjectId string form and issued; endpoint ids were
     * issued; and no log entry carries the "failure" status.
     */
    ghost predicate Valid()
      reads this, logs
    {
      && (forall i, j :: 0 <= i < j < |webhooks| ==> webhooks[i].id != webhooks[j].id)
      && (forall i :: 0 <= i < |webhooks| ==> IsObjectIdString(webhooks[i].id) && webhooks[i].id in issued)
      && (forall i, e :: 0 <= i < |webhooks| && e in webhooks[i].endpoints ==> e.endpointId in issued)
      && SentinelFree(logs.entries)
    }

    constructor (logs: LogService)
      requires SentinelFree(logs.entries)
      ensures Valid()
      ensures this.logs == logs && webhooks == [] && issued == {}
    {
      this.logs := logs;
      webhooks := [];
      issued := {};
    }

    /** One append to the shared log with a text body and the current time. */
    method Log(webhookId: Option<string>, endpointId: Option<string>, status: Option<string>,
               code: nat, message: string, now: string)
      modifies logs
      ensures logs.entries == old(logs.entries) + [Stamped(webhookId, endpointId, status, code, message, now)]
      ensures SentinelFree(old(logs.entries)) && status != Some(FailureStatus) ==> SentinelFree(logs.entries)
    {
      var _ := logs.CreateLog(webhookId, endpointId, status, code, Text(message), None, now, true);
    }

    /**
     * A webhook with the given customer and URL and no endpoints, stored under
     * the fresh id; replies with that id and the URL. A missing field or an
     * unacknowledged insert stores nothing, logs one unlabelled 500 entry
     * without webhook id, and raises a database error.
     */
    method CreateWebhook(customerId: Option<string>, webhookUrl: Option<string>, newId: string,
                         acknowledged: bool, now: string)
      returns (r: Response<Created>)
      requires Valid()
      requires IsObjectIdString(newId) && newId !in issued
      modifies this, logs
      ensures Valid() && issued == if r.Ok? then old(issued) + {newId} else old(issued)
      ensures r.Ok? <==> customerId.Some? && webhookUrl.Some? && acknowledged
      ensures r.Ok? ==>
        && r == Ok(Created(newId, webhookUrl.value), ResponseCodeSuccess)
        && webhooks == old(webhooks) + [Webhook(newId, customerId.value, webhookUrl.value, [])]
        && Lookup(webhooks, newId) == Some(Webhook(newId, customerId.value, webhookUrl.value, []))
        && newId !in old(issued)
        && logs.entries == old(logs.entries)
             + [Stamped(Some(newId), None, Some(SuccessMessage), ResponseCodeSuccess, CreatedMessage, now)]
      ensures r.Raised? ==>
        && r == Raised(DatabaseError(DatabaseErrorMessage))
        && webhooks == old(webhooks)
        && logs.entries == old(logs.entries)
             + [Stamped(None, None, None, ResponseCodeError, CreateErrorPrefix + CreateFailure(customerId, webhookUrl), now)]
    {
      if customerId.None? || webhookUrl.None? || !acknowledged {
        r := Reject(None, None, CreateErrorPrefix + CreateFailure(customerId, webhookUrl), now);
        return;
      }
      var webhook := Webhook(newId, customerId.value, webhookUrl.value, []);
      webhooks := webhooks + [webhook];
      issued := issued + {newId};
      LookupFinds(webhooks, |webhooks| - 1);
      Log(Some(newId), None, Some(SuccessMessage), ResponseCodeSuccess, CreatedMessage, now);
      r := Ok(Created(newId, webhookUrl.value), ResponseCodeSuccess);
    }

    /**
     * Gives every submitted URL a fresh endpoint id and appends them to the
     * webhook's endpoints, leaving the existing ones and every other webhook
     * as they were; replies with exactly the new endpoints. An id matching no
     * webhook still succeeds and changes nothing. A malformed id changes
     * nothing, logs an unlabelled 500 entry and raises a database error.
     */
    method AddEndpoints(webhookId: string, urls: seq<string>, ids: seq<string>, now: string)
      returns (r: Response<EndpointsAdded>)
      requires Valid()
      requires |ids| == |urls| && FreshIds(ids, issued)
      modifies this, logs
      ensures Valid() && issued == old(issued) + (set k | 0 <= k < |ids| :: ids[k])
      ensures r.Ok? <==> ValidId(webhookId)
      ensures !ValidId(webhookId) ==>
        && r == Raised(DatabaseError(DatabaseErrorMessage))
        && webhooks == old(webhooks)
        && logs.entries == old(logs.entries)
             + [Stamped(Some(webhookId), None, None, ResponseCodeError,
                        AddErrorPrefix + InvalidIdMessage(webhookId), now)]
      ensures ValidId(webhookId) ==>
        && r.Ok? && r.code == ResponseCodeSuccess && r.body.webhookId == webhookId
        && |r.body.endpoints| == |urls|
        && (forall k :: 0 <= k < |urls| ==> r.body.endpoints[k] == Endpoint(ids[k], urls[k]))
        && (forall j, k :: 0 <= j < k < |urls| ==> r.body.endpoints[j].endpointId != r.body.endpoints[k].endpointId)
        && (forall k :: 0 <= k < |urls| ==> r.body.endpoints[k].endpointId !in old(issued))
        && |webhooks| == |old(webhooks)|
        && (forall i :: 0 <= i < |webhooks| ==>
              webhooks[i] == if old(webhooks)[i].id == Canonical(webhookId)
                             then old(webhooks)[i].(endpoints := old(webhooks)[i].endpoints + r.body.endpoints)
                             else old(webhooks)[i])
        && logs.entries == old(logs.entries)
             + [Stamped(Some(webhookId), None, Some(SuccessMessage), ResponseCodeSuccess, EndpointsAddedMessage, now)]
      ensures ValidId(webhookId) && Lookup(old(webhooks), Canonical(webhookId)).None? ==> webhooks == old(webhooks)
    {
      var added := Mint(urls, ids);
      if !ValidId(webhookId) {
        r := Reject(Some(webhookId), None, AddErrorPrefix + InvalidIdMessage(webhookId), now);
        return;
      }
      r := Attach(webhookId, added, now);
    }

    /** The handler's `except` branch: an unlabelled 500 entry, then a database error. */
    method Reject<T>(webhookId: Option<string>, endpointId: Option<string>, message: string, now: string)
      returns (r: Response<T>)
      requires Valid()
      modifies logs
      ensures Valid()
      ensures r == Raised(DatabaseError(DatabaseErrorMessage))
      ensures logs.entries == old(logs.entries) + [Stamped(webhookId, endpointId, None, ResponseCodeError, message, now)]
    {
      Log(webhookId, endpointId, None, ResponseCodeError, message, now);
      r := Raised(DatabaseError(DatabaseErrorMessage));
    }

    /** Endpoints for the submitted URLs under freshly generated ids, recorded as issued. */
    method Mint(urls: seq<string>, ids: seq<string>) returns (added: seq<Endpoint>)
      requires Valid()
      requires |ids| == |urls| && FreshIds(ids, issued)
      modifies this
      ensures Valid() && webhooks == old(webhooks) && issued == old(issued) + (set k | 0 <= k < |ids| :: ids[k])
      ensures |added| == |urls|
      ensures forall k :: 0 <= k < |urls| ==> added[k] == Endpoint(ids[k], urls[k])
      ensures forall k :: 0 <= k < |added| ==> added[k].endpointId in issued && added[k].endpointId !in old(issued)
      ensures forall j, k :: 0 <= j < k < |added| ==> added[j].endpointId != added[k].endpointId
      ensures Distinct(added)
      ensures forall i, k :: 0 <= i < |webhooks| && 0 <= k < |added| ==> added[k] !in webhooks[i].endpoints
    {
      added := AssignEndpointIds(urls, ids);
      Issue(ids);
      forall j, k | 0 <= j < k < |added|
        ensures added[j] != added[k]
      {
        assert added[j].endpointId == ids[j] && added[k].endpointId == ids[k];
      }
      forall i, k | 0 <= i < |webhooks| && 0 <= k < |added|
        ensures added[k] !in webhooks[i].endpoints
      {
        assert added[k].endpointId !in old(issued);
      }
    }

    /** The successful part of AddEndpoints: the registry update and its success entry. */
    method Attach(webhookId: string, added: seq<Endpoint>, now: string) returns (r: Response<EndpointsAdded>)
      requires Valid() && ValidId(webhookId)
      requires Distinct(added)
      requires forall k :: 0 <= k < |added| ==> added[k].endpointId in issued
      requires forall i, k :: 0 <= i < |webhooks| && 0 <= k < |added| ==> added[k] !in webhooks[i].endpoints
      modifies this, logs
      ensures Valid() && issued == old(issued)
      ensures r == Ok(EndpointsAdded(webhookId, added), ResponseCodeSuccess)
      ensures |webhooks| == |old(webhooks)|
      ensures forall i :: 0 <= i < |webhooks| ==>
                webhooks[i] == if old(webhooks)[i].id == Canonical(webhookId)
                               then old(webhooks)[i].(endpoints := old(webhooks)[i].endpoints + added)
                               else old(webhooks)[i]
      ensures Lookup(old(webhooks), Canonical(webhookId)).None? ==> webhooks == old(webhooks)
      ensures logs.entries == old(logs.entries)
                + [Stamped(Some(webhookId), None, Some(SuccessMessage), ResponseCodeSuccess, EndpointsAddedMessage, now)]
    {
      ApplyAddToSet(Canonical(webhookId), added);
      Log(Some(webhookId), None, Some(SuccessMessage), ResponseCodeSuccess, EndpointsAddedMessage, now);
      r := Ok(EndpointsAdded(webhookId, added), ResponseCodeSuccess);
    }

    /**
     * Removes every endpoint with the given id from the webhook, leaving its
     * other endpoints (in order) and every other webhook as they were. The
     * webhook is looked up first: an id of no webhook raises "Webhook not
     * found" and changes nothing. A malformed id logs an unlabelled 500 entry
     * and raises a database error.
     */
    method DeleteEndpoint(webhookId: string, endpointId: string, now: string)
      returns (r: Response<Message>)
      requires Valid()
      modifies this, logs
      ensures Valid() && issued == old(issued)
      ensures !ValidId(webhookId) ==>
        && r == Raised(DatabaseError(DatabaseErrorMessage))
        && webhooks == old(webhooks)
        && logs.entries == old(logs.entries)
             + [Stamped(Some(webhookId), Some(endpointId), None, ResponseCodeError,
                        DeleteErrorPrefix + InvalidIdMessage(webhookId), now)]
      ensures ValidId(webhookId) && Lookup(old(webhooks), Canonical(webhookId)).None? ==>
        && r == Raised(NotFoundError(WebhookNotFoundMessage))
        && webhooks == old(webhooks)
        && logs.entries == old(logs.entries)
      ensures ValidId(webhookId) && Lookup(old(webhooks), Canonical(webhookId)).Some? ==>
        && r == Ok(Message(EndpointDeletedMessage), ResponseCodeSuccess)
        && webhooks == PulledFrom(old(webhooks), Canonical(webhookId), endpointId)
        && logs.entries == old(logs.entries)
             + [Stamped(Some(webhookId), Some(endpointId), Some(SuccessMessage), ResponseCodeSuccess,
                        EndpointDeletedMessage, now)]
    {
      if !ValidId(webhookId) {
        r := Reject(Some(webhookId), Some(endpointId), DeleteErrorPrefix + InvalidIdMessage(webhookId), now);
        return;
      }
      var key := Canonical(webhookId);
      if Lookup(webhooks, key).None? {
        return Raised(NotFoundError(WebhookNotFoundMessage));
      }
      ApplyPull(key, endpointId);
      Log(Some(webhookId), Some(endpointId), Some(SuccessMessage), ResponseCodeSuccess, EndpointDeletedMessage, now);
      r := Ok(Message(EndpointDeletedMessage), ResponseCodeSuccess);
    }

    /**
     * `delete_endpoint` as the source has it: no lookup, so a well-formed id
     * of no webhook changes nothing yet reports success.
     */
    method DeleteEndpointAsWritten(webhookId: string, endpointId: string, now: string)
      returns (r: Response<Message>)
      requires Valid()
      modifies this, logs
      ensures Valid() && issued == old(issued)
      ensures !ValidId(webhookId) ==>
        && r == Raised(DatabaseError(DatabaseErrorMessage))
        && webhooks == old(webhooks)
        && logs.entries == old(logs.entries)
             + [Stamped(Some(webhookId), Some(endpointId), None, ResponseCodeError,
                        DeleteErrorPrefix + InvalidIdMessage(webhookId), now)]
      ensures ValidId(webhookId) ==>
        && r == Ok(Message(EndpointDeletedMessage), ResponseCodeSuccess)
        && webhooks == PulledFrom(old(webhooks), Canonical(webhookId), endpointId)
        && logs.entries == old(logs.entries)
             + [Stamped(Some(webhookId), Some(endpointId), Some(SuccessMessage), ResponseCodeSuccess,
                        EndpointDeletedMessage, now)]
      ensures ValidId(webhookId) && Lookup(old(webhooks), Canonical(webhookId)).None? ==>
        r.Ok? && webhooks == old(webhooks)
    {
      if !ValidId(webhookId) {
        r := Reject(Some(webhookId), Some(endpointId), DeleteErrorPrefix + InvalidIdMessage(webhookId), now);
        return;
      }
      ApplyPull(Canonical(webhookId), endpointId);
      Log(Some(webhookId), Some(endpointId), Some(SuccessMessage), ResponseCodeSuccess, EndpointDeletedMessage, now);
      r := Ok(Message(EndpointDeletedMessage), ResponseCodeSuccess);
    }

    /** Records identifiers as handed out by the id generator. */
    method Issue(ids: seq<string>)
      requires Valid()
      modifies this
      ensures Valid() && webhooks == old(webhooks) && issued == old(issued) + (set k | 0 <= k < |ids| :: ids[k])
      ensures forall k :: 0 <= k < |ids| ==> ids[k] in issued
    {
      issued := issued + set k | 0 <= k < |ids| :: ids[k];
    }

    /** The `$addToSet` update on the registry, for endpoints none of which is stored yet. */
    method ApplyAddToSet(key: string, added: seq<Endpoint>)
      requires Valid()
      requires Distinct(added)
      requires forall k :: 0 <= k < |added| ==> added[k].endpointId in issued
      requires forall i, k :: 0 <= i < |webhooks| && 0 <= k < |added| ==> added[k] !in webhooks[i].endpoints
      modifies this
      ensures Valid() && issued == old(issued)
      ensures |webhooks| == |old(webhooks)|
      ensures forall i :: 0 <= i < |webhooks| ==>
                webhooks[i] == if old(webhooks)[i].id == key
                               then old(webhooks)[i].(endpoints := old(webhooks)[i].endpoints + added)
                               else old(webhooks)[i]
      ensures Lookup(old(webhooks), key).None? ==> webhooks == old(webhooks)
    {
      ghost var before := webhooks;
      webhooks := AddedTo(webhooks, key, added);
      forall i | 0 <= i < |before| && before[i].id == key
        ensures webhooks[i].endpoints == before[i].endpoints + added
      {
        AddToSetOfFresh(before[i].endpoints, added);
      }
      if Lookup(before, key).None? {
        assert forall i :: 0 <= i < |before| ==> before[i] in before;
      }
    }

    /** The `$pull` update on the registry. */
    method ApplyPull(key: string, endpointId: string)
      requires Valid()
      modifies this
      ensures Valid() && issued == old(issued)
      ensures webhooks == PulledFrom(old(webhooks), key, endpointId)
      ensures Lookup(old(webhooks), key).None? ==> webhooks == old(webhooks)
    {
      ghost var before := webhooks;
      webhooks := PulledFrom(webhooks, key, endpointId);
      forall i, e | 0 <= i < |webhooks| && e in webhooks[i].endpoints
        ensures e.endpointId in issued
      {
        assert e in before[i].endpoints;
      }
      if Lookup(before, key).None? {
        assert forall i :: 0 <= i < |before| ==> before[i] in before;
      }
    }

    /** All webhooks in store order; logs one success entry (not one per webhook). */
    method ListWebhooks(now: string) returns (r: Response<seq<Webhook>>)
      requires Valid()
      modifies logs
      ensures Valid()
      ensures r == Ok(webhooks, ResponseCodeSuccess)
      ensures logs.entries == old(logs.entries)
                + [Stamped(None, None, Some(SuccessMessage), ResponseCodeSuccess, ListedMessage, now)]
    {
      r := Ok(webhooks, ResponseCodeSuccess);
      Log(None, None, Some(SuccessMessage), ResponseCodeSuccess, ListedMessage, now);
    }

    /** The log entries recorded under exactly this webhook id string, in log order; nothing is logged. */
    method GetWebhookLogs(webhookId: string) returns (r: Response<seq<LogEntry>>)
      ensures r == Ok(LogsFor(logs.entries, webhookId), ResponseCodeSuccess)
      ensures forall e :: e in r.body <==> e in logs.entries && e.webhookId == Some(webhookId)
    {
      r := Ok(LogsFor(logs.entries, webhookId), ResponseCodeSuccess);
    }

    /**
     * Counts taken from the log before this call's own success entry is
     * appended; since no entry ever carries "failure", failed is always 0.
     */
    method GetStatus(now: string) returns (r: Response<Status>)
      requires Valid()
      modifies logs
      ensures Valid()
      ensures r == Ok(StatusOf(old(logs.entries)), ResponseCodeSuccess)
      ensures r.body.totalRequests == |old(logs.entries)|
      ensures r.body.successfulRequests + r.body.failedRequests <= r.body.totalRequests
      ensures r.body.failedRequests == 0
      ensures logs.entries == old(logs.entries)
                + [Stamped(None, None, Some(SuccessMessage), ResponseCodeSuccess, StatusMessage, now)]
    {
      var status := StatusOf(logs.entries);
      Log(None, None, Some(SuccessMessage), ResponseCodeSuccess, StatusMessage, now);
      r := Ok(status, ResponseCodeSuccess);
    }

    /**
     * Fans `data` out: every endpoint in stored order, each attempt logged
     * under its endpoint whatever its outcome, then the primary URL. `posts`
     * lists the URLs POSTed to, in order. A primary failure logs the error
     * under the webhook and raises a database error instead of the summary.
     * An unknown id raises "Webhook not found" and neither POSTs nor logs; a
     * malformed one logs an unlabelled 500 entry and raises a database error.
     * The registry is never changed.
     */
    method Receive(webhookId: string, data: Json, deliver: string -> Delivery, now: string)
      returns (r: Response<Json>, posts: seq<string>)
      requires Valid()
      requires Provided(data)
      modifies logs
      ensures Valid()
      ensures !ValidId(webhookId) ==>
        && r == Raised(DatabaseError(DatabaseErrorMessage))
        && posts == []
        && logs.entries == old(logs.entries)
             + [Stamped(Some(webhookId), None, None, ResponseCodeError,
                        ReceiveErrorPrefix + InvalidIdMessage(webhookId), now)]
      ensures ValidId(webhookId) && Lookup(webhooks, Canonical(webhookId)).None? ==>
        && r == Raised(NotFoundError(WebhookNotFoundMessage))
        && posts == []
        && logs.entries == old(logs.entries)
      ensures ValidId(webhookId) && Lookup(webhooks, Canonical(webhookId)).Some? ==>
        var w := Lookup(webhooks, Canonical(webhookId)).value;
        && posts == Urls(w.endpoints) + [w.webhookUrl]
        && logs.entries == old(logs.entries) + FanOutEntries(webhookId, w.endpoints, deliver, now)
                           + [PrimaryEntry(webhookId, w.webhookUrl, deliver(w.webhookUrl), now)]
        && r == if deliver(w.webhookUrl) == Responded(ResponseCodeSuccess)
                then Ok(data, ResponseCodeSuccess)
                else Raised(DatabaseError(DatabaseErrorMessage))
    {
      posts := [];
      if !ValidId(webhookId) {
        r := Reject(Some(webhookId), None, ReceiveErrorPrefix + InvalidIdMessage(webhookId), now);
        return;
      }
      var found := Lookup(webhooks, Canonical(webhookId));
      if found.None? {
        return Raised(NotFoundError(WebhookNotFoundMessage)), posts;
      }
      var webhook := found.value;
      posts := FanOut(webhookId, webhook.endpoints, deliver, now);
      posts := posts + [webhook.webhookUrl];
      r := Primary(webhookId, webhook.webhookUrl, data, deliver, now);
    }

    /** The loop over the endpoints: one POST and one log entry per endpoint, in order. */
    method FanOut(webhookId: string, endpoints: seq<Endpoint>, deliver: string -> Delivery, now: string)
      returns (posts: seq<string>)
      requires SentinelFree(logs.entries)
      modifies logs
      ensures posts == Urls(endpoints)
      ensures logs.entries == old(logs.entries) + FanOutEntries(webhookId, endpoints, deliver, now)
      ensures SentinelFree(logs.entries)
    {
      posts := [];
      var i := 0;
      while i < |endpoints|
        invariant 0 <= i <= |endpoints|
        invariant posts == Urls(endpoints[..i])
        invariant logs.entries == old(logs.entries) + FanOutEntries(webhookId, endpoints[..i], deliver, now)
        invariant SentinelFree(logs.entries)
      {
        var endpoint := endpoints[i];
        posts := posts + [endpoint.url];
        Attempt(webhookId, endpoint, deliver(endpoint.url), now);
        assert endpoints[..i + 1] == endpoints[..i] + [endpoint];
        FanOutSnoc(webhookId, endpoints[..i], endpoint, deliver, now);
        i := i + 1;
      }
      assert endpoints[..i] == endpoints;
    }

    /** `forward_to_endpoint` on one endpoint, with its outcome logged either way. */
    method Attempt(webhookId: string, endpoint: Endpoint, outcome: Delivery, now: string)
      modifies logs
      ensures logs.entries == old(logs.entries) + [AttemptEntry(webhookId, endpoint, outcome, now)]
      ensures SentinelFree(old(logs.entries)) ==> SentinelFree(logs.entries)
    {
      match Forward(endpoint.url, outcome) {
        case Delivered =>
          Log(Some(webhookId), Some(endpoint.endpointId), Some(SuccessMessage), ResponseCodeSuccess,
              ForwardedMessage, now);
        case Failed(message) =>
          Log(Some(webhookId), Some(endpoint.endpointId), None, ResponseCodeError,
              ForwardPrefix + endpoint.url + ": " + message, now);
      }
    }

    /** The final POST to the primary URL and the entry that reports it. */
    method Primary(webhookId: string, webhookUrl: string, data: Json, deliver: string -> Delivery, now: string)
      returns (r: Response<Json>)
      modifies logs
      ensures logs.entries == old(logs.entries) + [PrimaryEntry(webhookId, webhookUrl, deliver(webhookUrl), now)]
      ensures SentinelFree(old(logs.entries)) ==> SentinelFree(logs.entries)
      ensures r == if deliver(webhookUrl) == Responded(ResponseCodeSuccess)
                   then Ok(data, ResponseCodeSuccess)
                   else Raised(DatabaseError(DatabaseErrorMessage))
    {
      match Forward(webhookUrl, deliver(webhookUrl)) {
        case Failed(message) =>
          Log(Some(webhookId), None, None, ResponseCodeError, ReceiveErrorPrefix + message, now);
          r := Raised(DatabaseError(DatabaseErrorMessage));
        case Delivered =>
          Log(Some(webhookId), None, Some(SuccessMessage), ResponseCodeSuccess, ReceivedMessage, now);
          r := Ok(data, ResponseCodeSuccess);
      }
    }
  }
}
