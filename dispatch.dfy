/**
 * Outbound delivery and the log entries the fan-out writes. An HTTP POST is
 * an oracle: for a URL it yields either the response's status code or a
 * network-level failure. Only the specification of the fan-out lives here;
 * the loop itself is WebhookService.Receive.
 */
module Dispatch {
  import opened Options
  import opened Constants
  import opened Registry
  import opened Logs

  /** What one POST of the payload to a URL comes back with. */
  datatype Delivery = Responded(statusCode: nat) | NetworkFailure(cause: string)

  /** The outcome of `forward_to_endpoint`: returned normally, or raised with a message. */
  datatype Forwarded = Delivered | Failed(message: string)

  function Digit(d: nat): (c: char)
    requires d < 10
    ensures '0' <= c <= '9'
  {
    ('0' as int + d) as char
  }

  /** The number a string of decimal digits denotes, most significant digit first. */
  function DecimalValue(s: string): nat
    requires forall i :: 0 <= i < |s| ==> '0' <= s[i] <= '9'
  {
    if s == [] then 0
    else DecimalValue(s[..|s| - 1]) * 10 + (s[|s| - 1] as int - '0' as int)
  }

  /** Decimal rendering of a status code, as an f-string shows it: digits that denote the number. */
  function NatToString(n: nat): (s: string)
    ensures |s| >= 1
    ensures forall i :: 0 <= i < |s| ==> '0' <= s[i] <= '9'
    ensures DecimalValue(s) == n
    ensures |s| > 1 ==> s[0] != '0'
  {
    if n < 10 then [Digit(n)]
    else
      var s := NatToString(n / 10) + [Digit(n % 10)];
      assert s[..|s| - 1] == NatToString(n / 10);
      s
  }

  /** The texts of the entries the fan-out logs. */
  const ForwardPrefix := "Error forwarding to endpoint "
  const ForwardedMessage := "Forwarded successfully"
  const ReceivedMessage := "Webhook received successfully"
  const ReceiveErrorPrefix := "Error receiving webhook: "

  /**
   * Only an exact 200 counts as delivered; any other code and any network
   * failure raise, with a message naming the URL and the cause.
   */
  function Forward(url: string, outcome: Delivery): (r: Forwarded)
    ensures r.Delivered? <==> outcome == Responded(ResponseCodeSuccess)
    ensures r.Failed? ==> |r.message| > |ForwardPrefix + url| && r.message[..|ForwardPrefix + url|] == ForwardPrefix + url
  {
    match outcome
    case Responded(code) =>
      if code == ResponseCodeSuccess then Delivered
      else Failed(ForwardPrefix + url + ": " + "Endpoint " + url + " returned status code " + NatToString(code))
    case NetworkFailure(cause) =>
      Failed(ForwardPrefix + url + ": " + cause)
  }

  /** The entry logged for one endpoint's delivery attempt. */
  function AttemptEntry(webhookId: string, endpoint: Endpoint, outcome: Delivery, now: string): (e: LogEntry)
    ensures e.webhookId == Some(webhookId) && e.endpointId == Some(endpoint.endpointId)
    ensures e.status == Some(SuccessMessage) <==> outcome == Responded(ResponseCodeSuccess)
    ensures (e.status == Some(SuccessMessage) && e.responseCode == ResponseCodeSuccess)
            || (e.status == None && e.responseCode == ResponseCodeError)
  {
    match Forward(endpoint.url, outcome)
    case Delivered =>
      Stamped(Some(webhookId), Some(endpoint.endpointId), Some(SuccessMessage), ResponseCodeSuccess,
              ForwardedMessage, now)
    case Failed(message) =>
      Stamped(Some(webhookId), Some(endpoint.endpointId), None, ResponseCodeError,
              ForwardPrefix + endpoint.url + ": " + message, now)
  }

  /**
   * The entries the fan-out writes: one per endpoint, in stored order, scoped
   * to that endpoint, a success with 200 exactly when its POST got 200 and an
   * unlabelled 500 otherwise.
   */
  function FanOutEntries(webhookId: string, endpoints: seq<Endpoint>, deliver: string -> Delivery, now: string)
    : (r: seq<LogEntry>)
    ensures |r| == |endpoints|
    ensures forall k :: 0 <= k < |r| ==> r[k] == AttemptEntry(webhookId, endpoints[k], deliver(endpoints[k].url), now)
    ensures forall k :: 0 <= k < |r| ==>
              r[k].webhookId == Some(webhookId) && r[k].endpointId == Some(endpoints[k].endpointId)
    ensures forall k :: 0 <= k < |r| ==>
              (r[k].status == Some(SuccessMessage) <==> deliver(endpoints[k].url) == Responded(ResponseCodeSuccess))
    ensures forall k :: 0 <= k < |r| ==>
              (r[k].status == Some(SuccessMessage) && r[k].responseCode == ResponseCodeSuccess)
              || (r[k].status == None && r[k].responseCode == ResponseCodeError)
  {
    seq(|endpoints|, k requires 0 <= k < |endpoints| => AttemptEntry(webhookId, endpoints[k], deliver(endpoints[k].url), now))
  }

  lemma FanOutSnoc(webhookId: string, endpoints: seq<Endpoint>, endpoint: Endpoint,
                   deliver: string -> Delivery, now: string)
    ensures FanOutEntries(webhookId, endpoints + [endpoint], deliver, now)
            == FanOutEntries(webhookId, endpoints, deliver, now) + [AttemptEntry(webhookId, endpoint, deliver(endpoint.url), now)]
  {
    var whole := endpoints + [endpoint];
    assert whole[|endpoints|] == endpoint;
    forall k | 0 <= k < |endpoints|
      ensures whole[k] == endpoints[k]
    {
    }
  }

  /** The entry written after the primary URL's POST: the summary, or the caught error. */
  function PrimaryEntry(webhookId: string, webhookUrl: string, outcome: Delivery, now: string): (e: LogEntry)
    ensures e.webhookId == Some(webhookId) && e.endpointId == None
    ensures e.status == Some(SuccessMessage) <==> outcome == Responded(ResponseCodeSuccess)
    ensures e.status == None <==> outcome != Responded(ResponseCodeSuccess)
  {
    match Forward(webhookUrl, outcome)
    case Delivered =>
      Stamped(Some(webhookId), None, Some(SuccessMessage), ResponseCodeSuccess, ReceivedMessage, now)
    case Failed(message) =>
      Stamped(Some(webhookId), None, None, ResponseCodeError, ReceiveErrorPrefix + message, now)
  }

  /** How many of the endpoints answer their POST with 200. */
  function Reachable(endpoints: seq<Endpoint>, deliver: string -> Delivery): (n: nat)
    ensures n <= |endpoints|
  {
    if endpoints == [] then 0
    else (if deliver(endpoints[0].url) == Responded(ResponseCodeSuccess) then 1 else 0)
         + Reachable(endpoints[1..], deliver)
  }

  /** The fan-out raises the success count by exactly the number of reachable endpoints. */
  lemma {:induction false} FanOutSuccesses(webhookId: string, endpoints: seq<Endpoint>,
                                           deliver: string -> Delivery, now: string)
    ensures Count(FanOutEntries(webhookId, endpoints, deliver, now), Some(SuccessMessage))
            == Reachable(endpoints, deliver)
  {
    var entries := FanOutEntries(webhookId, endpoints, deliver, now);
    if endpoints != [] {
      var rest := FanOutEntries(webhookId, endpoints[1..], deliver, now);
      assert entries[1..] == rest;
      FanOutSuccesses(webhookId, endpoints[1..], deliver, now);
    }
  }

  /**
   * After a receive, the webhook's listing is its earlier listing followed
   * by every fan-out entry and the primary entry, in the order written.
   */
  lemma ReceiveListed(before: seq<LogEntry>, webhookId: string, endpoints: seq<Endpoint>, webhookUrl: string,
                      deliver: string -> Delivery, now: string)
    ensures LogsFor(before + FanOutEntries(webhookId, endpoints, deliver, now)
                    + [PrimaryEntry(webhookId, webhookUrl, deliver(webhookUrl), now)], webhookId)
            == LogsFor(before, webhookId) + FanOutEntries(webhookId, endpoints, deliver, now)
               + [PrimaryEntry(webhookId, webhookUrl, deliver(webhookUrl), now)]
  {
    var fanOut := FanOutEntries(webhookId, endpoints, deliver, now);
    var tail := fanOut + [PrimaryEntry(webhookId, webhookUrl, deliver(webhookUrl), now)];
    forall k | 0 <= k < |tail|
      ensures tail[k].webhookId == Some(webhookId)
    {
      if k < |fanOut| {
        assert tail[k] == fanOut[k];
      }
    }
    assert before + fanOut + [tail[|fanOut|]] == before + tail;
    ScopedAppendListed(before, tail, webhookId);
  }
}
