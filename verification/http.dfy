/** The part of an HTTP exchange the services look at. */
module Http {
  import opened Wrappers
  import opened JsonValue

  /**
   * A request that raised (connection error, timeout), or a response with
   * its status code and its body as JSON (`None` where `response.json()`
   * would raise).
   */
  datatype Reply = TransportError | Response(statusCode: int, body: Option<Json>)

  /** A 200 response, whatever its body. */
  predicate IsOk(r: Reply) {
    r.Response? && r.statusCode == 200
  }
}
