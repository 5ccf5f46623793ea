/**
 * The customer-side receivers: stand-in targets that a webhook can point at.
 * Each one records the payload it was sent in the shared log, under no
 * webhook and no endpoint, and echoes the payload back with 200.
 */
module Customers {
  import opened Options
  import opened Constants
  import opened Errors
  import opened Payloads
  import opened Logs

  /** The status labels the receivers write (spelled as the service spells them). */
  const CallbackLabel := "Webhook callback recieved successfully"
  const Event1Label := "Event 1 recieved successfully"
  const Event2Label := "Event 2 recieved successfully"
  const Event3Label := "Event 3 recieved successfully"

  /** The entry a receiver logs: the payload as body, the tag as status, no scope. */
  function ReceiptEntry(tag: string, data: Json, now: string): (e: LogEntry)
    ensures e.webhookId == None && e.endpointId == None
    ensures e.status == Some(tag) && e.responseCode == ResponseCodeSuccess
    ensures e.responseBody == Payload(data)
  {
    LogEntry(None, None, Some(tag), ResponseCodeSuccess, Payload(data), Stamp(None, now))
  }

  /** A receipt never shows up in any webhook's log listing. */
  lemma ReceiptUnlisted(entries: seq<LogEntry>, tag: string, data: Json, now: string, webhookId: string)
    ensures LogsFor(entries + [ReceiptEntry(tag, data, now)], webhookId) == LogsFor(entries, webhookId)
  {
    LogsForAppend(entries, [ReceiptEntry(tag, data, now)], webhookId);
  }

  /**
   * A receipt raises the total by one but is never counted as a successful
   * or a failed request, and it keeps the log free of the failure sentinel.
   */
  lemma ReceiptUncounted(entries: seq<LogEntry>, tag: string, data: Json, now: string)
    requires tag != SuccessMessage && tag != FailureStatus
    ensures StatusOf(entries + [ReceiptEntry(tag, data, now)]).totalRequests == StatusOf(entries).totalRequests + 1
    ensures StatusOf(entries + [ReceiptEntry(tag, data, now)]).successfulRequests
            == StatusOf(entries).successfulRequests
    ensures StatusOf(entries + [ReceiptEntry(tag, data, now)]).failedRequests
            == StatusOf(entries).failedRequests
    ensures SentinelFree(entries) ==> SentinelFree(entries + [ReceiptEntry(tag, data, now)])
  {
    var e := ReceiptEntry(tag, data, now);
    CountAppend(entries, [e], Some(SuccessMessage));
    CountAppend(entries, [e], Some(FailureStatus));
    assert [e][1..] == [];
  }

  class CustomerService {
    const logs: LogService

    constructor (logs: LogService)
      ensures this.logs == logs
    {
      this.logs := logs;
    }

    /**
     * Logs the receipt and echoes the payload with 200. When the log store
     * refuses the insert, its database error propagates and nothing is logged.
     */
    method Receipt(tag: string, data: Json, now: string, stored: bool) returns (r: Response<Json>)
      modifies logs
      ensures stored ==>
        && r == Ok(data, ResponseCodeSuccess)
        && logs.entries == old(logs.entries) + [ReceiptEntry(tag, data, now)]
      ensures !stored ==> r == Raised(DatabaseError(DatabaseErrorMessage)) && logs.entries == old(logs.entries)
    {
      var logged := logs.CreateLog(None, None, Some(tag), ResponseCodeSuccess, Payload(data), None, now, stored);
      match logged {
        case Raised(error) =>
          r := Raised(error);
        case Ok(_, _) =>
          r := Ok(data, ResponseCodeSuccess);
      }
    }

    method WebhookCallback(data: Json, now: string, stored: bool) returns (r: Response<Json>)
      modifies logs
      ensures stored ==>
        && r == Ok(data, ResponseCodeSuccess)
        && logs.entries == old(logs.entries) + [ReceiptEntry(CallbackLabel, data, now)]
      ensures !stored ==> r == Raised(DatabaseError(DatabaseErrorMessage)) && logs.entries == old(logs.entries)
    {
      r := Receipt(CallbackLabel, data, now, stored);
    }

    method Event1(data: Json, now: string, stored: bool) returns (r: Response<Json>)
      modifies logs
      ensures stored ==>
        && r == Ok(data, ResponseCodeSuccess)
        && logs.entries == old(logs.entries) + [ReceiptEntry(Event1Label, data, now)]
      ensures !stored ==> r == Raised(DatabaseError(DatabaseErrorMessage)) && logs.entries == old(logs.entries)
    {
      r := Receipt(Event1Label, data, now, stored);
    }

    method Event2(data: Json, now: string, stored: bool) returns (r: Response<Json>)
      modifies logs
      ensures stored ==>
        && r == Ok(data, ResponseCodeSuccess)
        && logs.entries == old(logs.entries) + [ReceiptEntry(Event2Label, data, now)]
      ensures !stored ==> r == Raised(DatabaseError(DatabaseErrorMessage)) && logs.entries == old(logs.entries)
    {
      r := Receipt(Event2Label, data, now, stored);
    }

    method Event3(data: Json, now: string, stored: bool) returns (r: Response<Json>)
      modifies logs
      ensures stored ==>
        && r == Ok(data, ResponseCodeSuccess)
        && logs.entries == old(logs.entries) + [ReceiptEntry(Event3Label, data, now)]
      ensures !stored ==> r == Raised(DatabaseError(DatabaseErrorMessage)) && logs.entries == old(logs.entries)
    {
      r := Receipt(Event3Label, data, now, stored);
    }
  }
}
