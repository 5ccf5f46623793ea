/**
 * The log store: an append-only sequence of outcome records, the single
 * append operation every service goes through, and the queries over it
 * (entries of one webhook, counts by status).
 */
module Logs {
  import opened Options
  import opened Constants
  import opened Errors
  import opened Payloads

  /** A log entry's body is either a descriptive text or an echoed payload. */
  datatype Body = Text(text: string) | Payload(data: Json)

  datatype LogEntry = LogEntry(
    webhookId: Option<string>,
    endpointId: Option<string>,
    status: Option<string>,
    responseCode: nat,
    responseBody: Body,
    timestamp: string)

  /** The status the status snapshot counts as failed; no service ever writes it. */
  const FailureStatus := "failure"

  /**
   * The stored timestamp: the supplied one unchanged, or else the current
   * time `now` (already rendered in ISO-8601) followed by 'Z'.
   */
  function Stamp(timestamp: Option<string>, now: string): (r: string)
    ensures timestamp.Some? ==> r == timestamp.value
    ensures timestamp.None? ==> |r| == |now| + 1 && r[|now|] == 'Z' && r[..|now|] == now
  {
    match timestamp
    case Some(t) => t
    case None => now + "Z"
  }

  /** The entry a service writes with a text body and no explicit timestamp. */
  function Stamped(webhookId: Option<string>, endpointId: Option<string>, status: Option<string>,
                   code: nat, message: string, now: string): LogEntry
  {
    LogEntry(webhookId, endpointId, status, code, Text(message), Stamp(None, now))
  }

  class LogService {
    var entries: seq<LogEntry>

    constructor ()
      ensures entries == []
    {
      entries := [];
    }

    /**
     * Appends one entry carrying the given fields verbatim and returns it
     * with 200. When the store refuses the insert (`stored` is false) the
     * log is left as it was and a database error is raised; the failure is
     * not itself logged.
     */
    method CreateLog(webhookId: Option<string>, endpointId: Option<string>, status: Option<string>,
                     responseCode: nat, responseBody: Body, timestamp: Option<string>,
                     now: string, stored: bool)
      returns (r: Response<LogEntry>)
      modifies this
      ensures stored ==>
        && r == Ok(LogEntry(webhookId, endpointId, status, responseCode, responseBody, Stamp(timestamp, now)),
                   ResponseCodeSuccess)
        && entries == old(entries) + [r.body]
      ensures !stored ==> r == Raised(DatabaseError(DatabaseErrorMessage)) && entries == old(entries)
    {
      if !stored {
        return Raised(DatabaseError(DatabaseErrorMessage));
      }
      var log := LogEntry(webhookId, endpointId, status, responseCode, responseBody, Stamp(timestamp, now));
      entries := entries + [log];
      r := Ok(log, ResponseCodeSuccess);
    }
  }

  /** The number of entries whose status is exactly `status`. */
  function Count(entries: seq<LogEntry>, status: Option<string>): (n: nat)
    ensures n <= |entries|
  {
    if entries == [] then 0
    else (if entries[0].status == status then 1 else 0) + Count(entries[1..], status)
  }

  lemma {:induction false} CountAppend(a: seq<LogEntry>, b: seq<LogEntry>, status: Option<string>)
    ensures Count(a + b, status) == Count(a, status) + Count(b, status)
  {
    if a == [] {
      assert a + b == b;
    } else {
      assert (a + b)[1..] == a[1..] + b;
      CountAppend(a[1..], b, status);
    }
  }

  /** Entries with two different statuses are never counted twice. */
  lemma {:induction false} CountsAreDisjoint(entries: seq<LogEntry>, s1: Option<string>, s2: Option<string>)
    requires s1 != s2
    ensures Count(entries, s1) + Count(entries, s2) <= |entries|
  {
    if entries != [] {
      CountsAreDisjoint(entries[1..], s1, s2);
    }
  }

  /** No entry carries the failure sentinel. */
  predicate SentinelFree(entries: seq<LogEntry>)
  {
    forall k :: 0 <= k < |entries| ==> entries[k].status != Some(FailureStatus)
  }

  lemma {:induction false} FailureCount(entries: seq<LogEntry>)
    ensures SentinelFree(entries) ==> Count(entries, Some(FailureStatus)) == 0
  {
    if entries != [] {
      FailureCount(entries[1..]);
    }
  }

  /** The status snapshot: placeholders plus point-in-time counts of the log. */
  datatype Status = Status(
    uptime: string,
    totalRequests: nat,
    successfulRequests: nat,
    failedRequests: nat,
    averageLatencyMs: nat)

  function StatusOf(entries: seq<LogEntry>): (s: Status)
    ensures s.uptime == Uptime && s.averageLatencyMs == AverageLatencyMs
    ensures s.totalRequests == |entries|
    ensures s.successfulRequests == Count(entries, Some(SuccessMessage))
    ensures s.failedRequests == Count(entries, Some(FailureStatus))
    ensures s.successfulRequests + s.failedRequests <= s.totalRequests
    ensures SentinelFree(entries) ==> s.failedRequests == 0
  {
    CountsAreDisjoint(entries, Some(SuccessMessage), Some(FailureStatus));
    FailureCount(entries);
    Status(Uptime, |entries|, Count(entries, Some(SuccessMessage)), Count(entries, Some(FailureStatus)),
           AverageLatencyMs)
  }

  /** The entries logged under `webhookId`, in log order. */
  function LogsFor(entries: seq<LogEntry>, webhookId: string): (r: seq<LogEntry>)
    ensures |r| <= |entries|
    ensures forall e :: e in r <==> e in entries && e.webhookId == Some(webhookId)
  {
    if entries == [] then []
    else if entries[0].webhookId == Some(webhookId) then [entries[0]] + LogsFor(entries[1..], webhookId)
    else LogsFor(entries[1..], webhookId)
  }

  /** Querying a log that grew by appending is querying both parts, in order. */
  lemma {:induction false} LogsForAppend(a: seq<LogEntry>, b: seq<LogEntry>, webhookId: string)
    ensures LogsFor(a + b, webhookId) == LogsFor(a, webhookId) + LogsFor(b, webhookId)
  {
    if a == [] {
      assert a + b == b;
    } else {
      assert (a + b)[1..] == a[1..] + b;
      LogsForAppend(a[1..], b, webhookId);
    }
  }

  /** Entries all scoped to `webhookId` are returned whole and in order. */
  lemma {:induction false} LogsForScoped(entries: seq<LogEntry>, webhookId: string)
    requires forall k :: 0 <= k < |entries| ==> entries[k].webhookId == Some(webhookId)
    ensures LogsFor(entries, webhookId) == entries
  {
    if entries != [] {
      LogsForScoped(entries[1..], webhookId);
    }
  }

  /** Appending entries that all carry the id extends the listing by exactly those entries. */
  lemma ScopedAppendListed(before: seq<LogEntry>, tail: seq<LogEntry>, webhookId: string)
    requires forall k :: 0 <= k < |tail| ==> tail[k].webhookId == Some(webhookId)
    ensures LogsFor(before + tail, webhookId) == LogsFor(before, webhookId) + tail
  {
    LogsForAppend(before, tail, webhookId);
    LogsForScoped(tail, webhookId);
  }
}
