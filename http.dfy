/** The requests the model issues to the proxy's admin API, recorded in
    the order they are sent, and the status test of a fetch `Response`. */
module Http {
  import opened Base
  import opened Json

  /** `Response.ok`: a status in the range 200 to 299. */
  predicate IsOk(status: int) {
    200 <= status <= 299
  }

  /** One HTTP request: its method, full URL and JSON body, if any. */
  datatype HttpCall = HttpCall(httpMethod: string, url: string, body: Option<Json>)
}
