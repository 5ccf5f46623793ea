/** Messages, placeholder status values and response codes shared by the services. */
module Constants {

  /** The status label written on every successful operation; also the response message. */
  const SuccessMessage := "success"
  const EndpointDeletedMessage := "Endpoint deleted successfully"
  const WebhookNotFoundMessage := "Webhook not found"
  const DatabaseErrorMessage := "Database error"

  /** Placeholder values reported by the status snapshot; they are not measured. */
  const Uptime := "24h"
  const AverageLatencyMs := 100

  const ResponseCodeSuccess := 200
  const ResponseCodeError := 500
  const ResponseCodeNotFound := 404
}
