/** The orchestrator's REST client, reduced to the exception its calls may throw. */
module OrchClient {

  /** The `RemoteResourceException` an orchestrator REST call may throw, with its HTTP status. */
  datatype RemoteResourceException = RemoteResourceException(status: int)
}
