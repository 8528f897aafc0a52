/** `fetchWrapper`: send the decorated request, inspect a clone of the
    response with the error normaliser, and either throw the normalised error
    or hand back the original response. The platform `fetch` is a parameter;
    the response body is modelled as already parsed. */
module FetchWrapper {
  import opened Wrappers
  import opened Json
  import opened GraphQLErrors
  import opened CustomFetch

  /** A response whose body is the parsed JSON value; `bodyUsed` records
      whether its body stream has been read. */
  datatype Response = Response(status: int, body: Body, bodyUsed: bool)

  /** The two ways a call ends: the response is returned, or an error is thrown. */
  datatype Outcome = Returned(response: Response) | Thrown(error: NormalizedError)

  /** `response.clone()`: a second, unread response over the same body
      (cloning a response whose body was already read is a platform error). */
  function Clone(response: Response): (c: Response)
    requires !response.bodyUsed
    ensures c.status == response.status && c.body == response.body && !c.bodyUsed
  {
    Response(response.status, response.body, false)
  }

  /** `await response.json()`: the parsed body, and the response with its body consumed. */
  function ReadJson(response: Response): (r: (Body, Response))
    requires !response.bodyUsed
    ensures r.0 == response.body
    ensures r.1.bodyUsed && r.1.status == response.status && r.1.body == response.body
  {
    (response.body, response.(bodyUsed := true))
  }

  /** Lines 50-59 of `fetchWrapper`, given the response `fetch` produced. */
  function Settle(response: Response): (o: Outcome)
    requires !response.bodyUsed
    ensures o.Thrown? <==> GetGraphQLErrors(response.body).Some?
    ensures o.Thrown? ==> o.error == GetGraphQLErrors(response.body).value
    // the caller gets the original response, its body still unread
    ensures o.Returned? ==> o.response == response && !o.response.bodyUsed
  {
    var (body, _) := ReadJson(Clone(response));
    match GetGraphQLErrors(body)
    case Some(error) => Thrown(error)
    case None => Returned(response)
  }

  /** `fetchWrapper(url, options)` with the stored token and the platform
      `fetch` as parameters. */
  function FetchWrapper(url: string, options: RequestInit, token: Option<string>,
                        fetch: Request -> Response): (o: Outcome)
    requires !fetch(DecorateRequest(url, options, token)).bodyUsed
    ensures var response := fetch(DecorateRequest(url, options, token));
            && (o.Thrown? <==> GetGraphQLErrors(response.body).Some?)
            && (o.Thrown? ==> o.error == GetGraphQLErrors(response.body).value)
            && (o.Returned? ==> o.response == response)
  {
    Settle(fetch(DecorateRequest(url, options, token)))
  }

  /** A call returns exactly when the response body is a truthy object
      without an "errors" key; the HTTP status plays no part. */
  lemma ReturnsIffNoErrorsKey(response: Response)
    requires !response.bodyUsed
    ensures Settle(response).Returned? <==> response.body.Object? && response.body.errors.Absent?
    ensures forall s :: Settle(response.(status := s)) == (if Settle(response).Returned? then Returned(response.(status := s)) else Settle(response))
  {
  }

  /** Whatever is thrown carries a non-empty message and a truthy status code. */
  lemma ThrownErrorWellFormed(response: Response)
    requires !response.bodyUsed
    ensures Settle(response).Thrown? ==>
              Settle(response).error.message != "" && TruthyCode(Settle(response).error.statusCode)
  {
  }
}
