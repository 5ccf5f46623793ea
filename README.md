# Webhook multiplexer — a verified model of its services

The webhook multiplexer keeps a registry of webhooks. Each webhook has a
customer id, a primary URL and an ordered list of extra endpoints. When a
payload arrives for a webhook, the service POSTs it to every endpoint in
stored order and then to the primary URL. Every step is recorded in an
append-only audit log, and a status call summarises that log. A few
customer-side receivers echo payloads back and log them. A top-level handler
turns the errors the services raise into an HTTP error body and code.

This project models those services in Dafny:

- `WebhookService` is a class. Its registry is a sequence of webhook records
  in store order. It shares a `LogService`, whose state is the sequence of
  log entries. Each operation is a method whose postcondition states the new
  registry and the exact entries appended.
- The fan-out loop is a `while` loop. Its invariant ties the log to the
  specification function `FanOutEntries`.
- The document-store updates are pure functions over the registry.
  `$addToSet` with `$each` is `AddToSet`, and `$pull` is `Without`. The status
  counts and the per-webhook log query are pure functions over the log. The
  lemmas are stated about these functions.
- Three things the program gets from its environment become inputs:
  - fresh ObjectIds: the caller passes ids that were never issued, and a ghost
    set `issued` records every id handed out;
  - HTTP delivery: a `deliver` function from URL to a status code or a
    network failure;
  - the clock: `now`, already rendered in ISO-8601.
- Malformed webhook ids are a real error path. `ValidId` holds for the
  strings an ObjectId accepts, which are 24 hex digits in either case. Every
  lookup compares the lower-case form `Canonical`, because that is the form
  the store holds. Log entries keep the id string exactly as it was passed.

Files: `options.dfy`, `constants.dfy`, `errors.dfy`, `payloads.dfy`,
`logs.dfy`, `registry.dfy`, `dispatch.dfy`, `webhook_service.dfy`,
`customer_service.dfy`, and `scenarios.dfy`, which holds worked end-to-end
client methods.

## Model

| member | source | states |
|---|---|---|
| Errors.HandleException | exceptions.py:14-22 | The code is always 404 or 500, and 404 holds exactly for a not-found error. Database, not-found and forwarding errors keep their own message. Any other error gets the fixed "An unexpected error occurred" text and never its own. |
| Logs.Stamp | services/log_service.py:20-21 | A supplied timestamp is stored unchanged. Without one, the stamp is the current time followed by a single 'Z'. |
| Logs.LogService.constructor | services/log_service.py:12-13 | The log starts empty. |
| Logs.LogService.CreateLog | services/log_service.py:18-34 | When the store accepts it: exactly one entry is appended, prior entries are unchanged, the fields are as passed, and the stored record comes back with 200. When the store refuses: nothing is appended, and "Database error" is raised. |
| Logs.Count | services/webhook_service.py:93-95 | The number of entries with a given status never exceeds the log's length. |
| Logs.CountAppend | services/webhook_service.py:93-95 | Counts over an appended log are the sum of the counts of its parts. |
| Logs.CountsAreDisjoint | services/webhook_service.py:94-95 | Entries with two different statuses are never counted twice, so successful + failed <= total. |
| Logs.FailureCount | services/webhook_service.py:95 | A log with no "failure" entry counts 0 failed requests. |
| Logs.StatusOf | services/webhook_service.py:89-97 | The snapshot reports uptime "24h", latency 100, total = log length, successful = "success" entries, and failed = "failure" entries. Successful + failed <= total, and failed is 0 on a log free of "failure". |
| Logs.LogsFor | services/webhook_service.py:79-84 | An entry is listed exactly when it is in the log and carries that webhook id. The listing is never longer than the log. |
| Logs.LogsForAppend | services/webhook_service.py:79-84 | The listing of an appended log is the listing of each part, in order. |
| Logs.LogsForScoped | services/webhook_service.py:79-84 | A log whose entries all carry the id is listed whole and in order. |
| Registry.ValidIdDecodes | services/webhook_service.py:47 | `ValidId` (what `ObjectId(webhook_id)` accepts) holds exactly for the 24-character strings that hex-decode, and those decode to exactly 12 bytes. |
| Registry.Canonical | services/webhook_service.py:47 | A valid id maps to a 24-digit lower-case ObjectId string whose digits have, position by position, the same values as the input's. A string already in that form maps to itself. |
| Registry.CanonicalIdentifies | services/webhook_service.py:106 | Two valid id strings have the same canonical form exactly when they hex-decode to the same 12 bytes, so an upper-case id finds the webhook stored under its lower-case form. |
| Registry.InvalidIdMessage | services/webhook_service.py:52-54 | The logged text of a malformed-id error quotes the rejected string in single quotes, followed by the driver's fixed explanation. |
| Registry.Urls | services/webhook_service.py:111-113 | Gives the endpoints' URLs in stored order, one per endpoint. |
| Registry.Lookup | services/webhook_service.py:106-108 | Gives the record stored under the id if there is one, and nothing exactly when no record has that id. |
| Registry.LookupFinds | services/webhook_service.py:106 | With unique ids, looking up a stored record's id finds exactly that record. |
| Registry.AddToSet | services/webhook_service.py:46-49 | `$addToSet`/`$each`: existing endpoints stay first and in place, and the result holds exactly the old and added endpoints. No duplicate is introduced. |
| Registry.AddToSetOfFresh | services/webhook_service.py:44-49 | Distinct endpoints that are not yet stored are all appended, in the order given. |
| Registry.Without | services/webhook_service.py:58-61 | `$pull`: keeps exactly the endpoints whose id differs. |
| Registry.WithoutAppend | services/webhook_service.py:58-61 | Removal keeps the relative order of the remaining endpoints. |
| Registry.WithoutAbsent | services/webhook_service.py:58-61 | Pulling an id no endpoint carries changes nothing. |
| Registry.WithoutIdempotent | services/webhook_service.py:58-61 | Pulling the same id twice equals pulling it once. |
| Registry.AddedTo | services/webhook_service.py:46-49 | Only the webhook with the key gets its endpoints updated. Ids, customers, URLs and every other webhook are unchanged. |
| Registry.PulledFrom | services/webhook_service.py:58-61 | Only the webhook with the key loses the endpoints with that id. Everything else is unchanged. |
| Registry.PulledFromIdempotent | services/webhook_service.py:56-63 | Deleting the same endpoint twice leaves the registry as deleting it once. |
| Dispatch.NatToString | services/webhook_service.py:137 | A status code is rendered as a non-empty string of decimal digits, without leading zero, whose decimal value is the code. |
| Dispatch.Forward | services/webhook_service.py:126-140 | Delivery succeeds exactly when the response is 200. Otherwise the error message starts with "Error forwarding to endpoint " and the URL. |
| Dispatch.AttemptEntry | services/webhook_service.py:112-116 | The entry for one endpoint is scoped to the webhook and that endpoint. It carries "success"/200 exactly when the POST got 200, and null/500 otherwise. |
| Dispatch.FanOutEntries | services/webhook_service.py:110-116 | Exactly one entry per endpoint, in stored order, each being that endpoint's attempt entry. A failure never prevents the later attempts. |
| Dispatch.FanOutSnoc | services/webhook_service.py:111-116 | One more endpoint adds exactly its own attempt entry at the end. |
| Dispatch.PrimaryEntry | services/webhook_service.py:117-123 | The final entry is scoped to the webhook only. It is "success" exactly when the primary POST got 200, and null-status otherwise. |
| Dispatch.Reachable | services/webhook_service.py:111-116 | The number of endpoints answering 200 never exceeds the number of endpoints. |
| Dispatch.FanOutSuccesses | services/webhook_service.py:111-116 | The fan-out raises the success count by exactly the number of endpoints that answer 200. |
| Dispatch.ReceiveListed | services/webhook_service.py:104-124 | After a receive, the listing is the earlier listing followed by the attempt entries and the primary entry. |
| Payloads.Provided | controllers/webhook_controller.py:197-198 | A body counts as provided exactly when it is not one of Python's falsy JSON values: null, false, 0, "", [] or {}. |
| Webhooks.CreateFailure | services/webhook_service.py:26-38 | The logged failure text names "'customer_id'" exactly when that field is missing. It names "'webhook_url'" exactly when only the URL is missing. It is "Data not inserted into MongoDB" exactly when both are present, which is the unacknowledged insert. |
| Webhooks.AssignEndpointIds | services/webhook_service.py:43-45 | Each submitted URL, in order, gets the generated id at its position. |
| Webhooks.WebhookService.constructor | services/webhook_service.py:17-19 | The service starts with an empty registry over the given log. |
| Webhooks.WebhookService.Log | services/log_service.py:18-31 | Appends exactly the text-bodied entry stamped with the current time. |
| Webhooks.WebhookService.CreateWebhook | services/webhook_service.py:24-39 | Success exactly when both fields are present and the insert is acknowledged. On success: the webhook is stored with the given customer, URL and no endpoints, the reply is the fresh id and the URL with 200, and one success entry is logged under the new id. Otherwise: the registry is unchanged, one null-id null-status 500 entry is logged, and "Database error" is raised. |
| Webhooks.WebhookService.AddEndpoints | services/webhook_service.py:41-54 | For a valid id, the reply is exactly the submitted URLs, in order, each with a fresh pairwise-distinct id and code 200. The target webhook's endpoints become the old ones followed by the new ones, and every other webhook is unchanged. An id of no webhook changes nothing yet succeeds. A malformed id changes nothing, logs a 500 entry and raises "Database error". |
| Webhooks.WebhookService.Mint | services/webhook_service.py:43-45 | The new endpoints carry the given ids, pairwise distinct, and all are recorded as issued and never issued before. |
| Webhooks.WebhookService.Attach | services/webhook_service.py:46-51 | The registry update followed by the success entry and the reply listing the added endpoints. |
| Webhooks.WebhookService.Reject | services/webhook_service.py:52-54 | The except branch: logs one null-status 500 entry, raises "Database error", and leaves the registry unchanged. |
| Webhooks.WebhookService.DeleteEndpoint | services/webhook_service.py:56-66 | A malformed id: logs a 500 entry and raises "Database error". An id of no webhook: raises "Webhook not found" and changes and logs nothing. Otherwise: the registry becomes the `$pull` of that endpoint id from that webhook, one success entry is logged, and the reply is "Endpoint deleted successfully" with 200. |
| Webhooks.WebhookService.DeleteEndpointAsWritten | services/webhook_service.py:56-66 | The handler exactly as the source has it: for a well-formed id of no webhook, it reports success and changes nothing. |
| Webhooks.WebhookService.Issue | services/webhook_service.py:45 | The ids handed out are added to the issued set, and the registry is unchanged. |
| Webhooks.WebhookService.ApplyAddToSet | services/webhook_service.py:46-49 | The keyed webhook's endpoints gain the fresh endpoints at the end. Nothing else changes. |
| Webhooks.WebhookService.ApplyPull | services/webhook_service.py:58-61 | The registry becomes `PulledFrom` of the old one. An unknown key changes nothing. |
| Webhooks.WebhookService.ListWebhooks | services/webhook_service.py:68-74 | Returns every webhook in store order with 200, and logs exactly one success entry, not one per webhook. |
| Webhooks.WebhookService.GetWebhookLogs | services/webhook_service.py:79-84 | Returns exactly the entries logged under that id string, in log order, with 200. Nothing is logged. |
| Webhooks.WebhookService.GetStatus | services/webhook_service.py:89-99 | The counts are taken before this call's own success entry is appended: total = old length, successful + failed <= total, and failed = 0. Exactly one success entry is appended. |
| Webhooks.WebhookService.Receive | services/webhook_service.py:104-124 | A malformed id: one 500 entry, "Database error", and no POST. An unknown id: "Webhook not found", no POST and no entry. Otherwise it POSTs every endpoint in order and then the primary URL, appending the fan-out entries and then the primary entry (n+1 entries). It returns the payload unchanged with 200 when the primary POST got 200, and raises "Database error" otherwise. The registry is never changed. |
| Webhooks.WebhookService.FanOut | services/webhook_service.py:110-116 | The loop POSTs each endpoint once, in order, and appends exactly `FanOutEntries`. |
| Webhooks.WebhookService.Attempt | services/webhook_service.py:112-116 | One endpoint's POST, with its outcome logged either way. |
| Webhooks.WebhookService.Primary | services/webhook_service.py:117-124 | The primary POST appends `PrimaryEntry`. It replies with the payload and 200 exactly when the POST got 200, and raises "Database error" otherwise. |
| Customers.ReceiptEntry | services/customer_service.py:11 | A receipt entry has no webhook or endpoint, carries the handler's label, 200, and the payload as body. |
| Customers.ReceiptUnlisted | services/customer_service.py:11 | A receipt never appears in any webhook's log listing. |
| Customers.ReceiptUncounted | services/customer_service.py:11-23 | A receipt raises the total by one but neither the successful nor the failed count, and it keeps the log free of "failure". |
| Customers.CustomerService.constructor | services/customer_service.py:6-8 | The receivers write to the given shared log. |
| Customers.CustomerService.Receipt | services/customer_service.py:10-12 | When the store accepts the entry: it appends exactly the receipt entry and echoes the payload with 200. When the store refuses: the database error propagates and nothing is appended. Only the log is touched. |
| Customers.CustomerService.WebhookCallback | services/customer_service.py:10-12 | The receipt labelled "Webhook callback recieved successfully". |
| Customers.CustomerService.Event1 | services/customer_service.py:14-16 | The receipt labelled "Event 1 recieved successfully". |
| Customers.CustomerService.Event2 | services/customer_service.py:18-20 | The receipt labelled "Event 2 recieved successfully". |
| Customers.CustomerService.Event3 | services/customer_service.py:22-24 | The receipt labelled "Event 3 recieved successfully". |
| Scenarios.Create | services/webhook_service.py:24-36 | A create on an empty service stores the webhook with no endpoints and logs one entry under its id. |
| Scenarios.Register | services/webhook_service.py:24-51 | After a create and an add of two endpoints, the registry holds exactly that webhook, and its listing holds the two entries. |

## Left out

- MongoDB: the driver, connections and collections are replaced by the two sequences. Document `_id` fields and the loops that turn them into strings are not modelled, because they change no value this model carries. `models/webhook_model.py` is not part of this model.
- Store failures: only a refused log insert (`CreateLog`, and through it the customer receivers) and an unacknowledged webhook insert are modelled. Inside `WebhookService` every log insert succeeds. Failures of `update_one`, `find`, `find_one` and `count_documents`, and their except branches (including the "Error listing webhooks", "Error getting webhook logs" and "Error getting status" entries), are not modelled.
- HTTP: `requests.post` is the `deliver` oracle. There are no timeouts or retries. The commented-out aiohttp variant is not modelled. The payload is passed through untouched.
- Webhooks.WebhookService.Receive: a log insert that fails inside the per-endpoint try block is not modelled. In the source, that failure would be caught and logged as a forwarding failure.
- Webhooks.WebhookService.Receive: the `deliver` oracle fixes one outcome per URL for a whole receive. Two endpoints with the same URL, or an endpoint whose URL equals the primary URL, always get the same response in the model. The source makes a separate POST for each, and it accepts duplicate URLs because each gets its own endpoint id.
- Webhooks.WebhookService.CreateWebhook: a JSON null is treated the same as a missing key. For `{"customer_id": null, "webhook_url": "u"}`, the source stores the webhook with a null customer and answers 200. The model raises "Database error" and logs "'customer_id'", because its fields are `Option<string>` and a stored customer id is a string.
- Webhooks.WebhookService.CreateWebhook: an unacknowledged insert is treated as not applied, so the registry is unchanged. The driver reports an unacknowledged insert only for unacknowledged (w=0) writes, and those are sent and normally applied. The model does not capture a webhook that is stored while the call reports "Database error".
- The clock: `now` is an input, and one value is used for every entry of one call. The ISO-8601 rendering of the current time is not modelled. Only the trailing 'Z' is stated.
- Flask: routing, Swagger documentation and lazy service creation are not modelled. The one controller rule kept is the empty-body 400 in `controllers/webhook_controller.py`, which is the `Provided(data)` precondition of `Receive`. `controllers/log_controller.py` is not part of this model: it calls a log query that `LogService` does not define, and it is never registered.
- Logging side effects (`logging.error`, the Flask application logger) are not modelled.
- Payloads: JSON numbers are integers. Floating-point values are not modelled.
- Endpoints: a submitted endpoint is just its URL. Endpoint dicts without a "url" key, and extra keys in them, are not modelled.
- Driver error text: `InvalidIdMessage` approximates the driver's message for a malformed id. The driver, and Python's rendering of other exceptions inside f-strings, are not part of this model.
- Registry.ValidId: counts only 24-hex-digit strings as valid. The driver's other accepted form, a 12-byte `bytes` value, never reaches these string-keyed handlers. A 24-character string that contains whitespace accepted by `bytes.fromhex` is not modelled.
- The failure sentinel: nothing in the services writes the status "failure", so `failed_requests` is always 0. The model keeps this as written, and it is proved (`SentinelFree` is part of `WebhookService.Valid`). `ForwardingError` and "Error forwarding to endpoint" exist as constants, but no service raises a forwarding error. Forwarding failures surface as generic exceptions, as the code has them, so the model raises none either.

## Findings

| source | as written | input that shows it | evidently intended | confidence | as-written member | corrected member |
|---|---|---|---|---|---|---|
| services/webhook_service.py:56-66 | `delete_endpoint` runs `$pull` without looking the webhook up first. A well-formed id of no webhook therefore updates nothing, logs a success entry and answers "Endpoint deleted successfully" with 200. | A well-formed id that no webhook has, on an empty registry. `Scenarios.UnknownWebhookDelete` proves the as-written handler answers `Ok` there while the corrected one raises. | Look up first, as `receive_webhook` does at lines 106-108, and raise "Webhook not found", as `services/tests/test_webhook_service.py:107-129` expects. | not executed | Webhooks.WebhookService.DeleteEndpointAsWritten | Webhooks.WebhookService.DeleteEndpoint |
