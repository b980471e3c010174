/** The slice of an HTTP exchange the client sees: the POST it issues and the
    status and decoded JSON body it gets back. The round trip itself is a
    `Transport`, a function from request to response supplied from outside. */
module Http {
  import opened PyJson

  datatype Request = Request(
    url: string,
    headers: map<string, string>,
    json: Json,
    timeoutSeconds: nat)

  datatype Response = Response(status: int, body: Json) {

    /** `response.ok` of the `requests` library: false exactly for the
        client-error and server-error ranges, 400 up to 599. */
    predicate Ok() {
      !(400 <= status < 600)
    }
  }

  type Transport = Request -> Response
}
