/**
 * `fetchWithMiddleware`: nests the raw middlewares around `runFetch`, the
 * format step around them and the typed middlewares around that, runs the
 * result on the request and classifies what comes back.
 *
 * Promises are modelled as direct return values; a transport rejection
 * simply propagates and is not represented.
 */
module Dispatch {
  import opened Wrappers
  import opened Js
  import opened Composition
  import opened Transport

  /** The normalized response the format step produces (`RelayResponse`). */
  datatype RelayResponse = RelayResponse(status: int, data: Option<Json>, errors: Option<Json>)

  /** `MiddlewareNextFn`: a request in, a possibly missing normalized response out. */
  type Handler = Request -> Option<RelayResponse>
  /** `Middleware`: a typed interceptor wrapping the next handler. */
  type Middleware = Handler -> Handler
  /** `RawMiddlewareNextFn`: a request in, the unparsed transport result out. */
  type RawHandler<Raw> = Request -> Raw
  /** `RawMiddleware`: a raw interceptor wrapping the next raw handler. */
  type RawMiddleware<!Raw> = RawHandler<Raw> -> RawHandler<Raw>

  /** How the promise returned by `fetchWithMiddleware` settles. */
  datatype Outcome<E> = Resolved(res: Option<RelayResponse>) | Rejected(error: E)

  /** `!res || res.errors || !res.data`: any `errors` value that is truthy, even an empty list, fails. */
  predicate IsInvalid(res: Option<RelayResponse>)
  {
    res.None? || Present(res.value.errors) || !Present(res.value.data)
  }

  /**
   * The three tiers: `compose(...rawMiddlewares)(terminal)`, then the single
   * format step, then `compose(...middlewares)` around that. The format step
   * changes the handler type, so `compose(format)(base)` is `format(base)`
   * (see Composition.ComposeSingle).
   */
  function Assemble<H1, H2>(middlewares: seq<H2 -> H2>, format: H1 -> H2,
                            rawMiddlewares: seq<H1 -> H1>, terminal: H1): (wrapped: H2)
    ensures wrapped == Nest(middlewares, format(Nest(rawMiddlewares, terminal)))
  {
    var baseFetch := Compose(rawMiddlewares, terminal);
    var formatFetch := format(baseFetch);
    Compose(middlewares, formatFetch)
  }

  /** The `.then` step: rejects with the error factory's value exactly when the throw is not suppressed and the response is invalid. */
  function Settle<E>(req: Request, res: Option<RelayResponse>, noThrow: bool,
                     createRequestError: (Request, Option<RelayResponse>) -> E): (o: Outcome<E>)
    ensures o.Rejected? <==> !noThrow && (res.None? || Present(res.value.errors) || !Present(res.value.data))
    ensures o.Rejected? ==> o.error == createRequestError(req, res)
    ensures o.Resolved? ==> o.res == res
  {
    if !noThrow && IsInvalid(res) then Rejected(createRequestError(req, res)) else Resolved(res)
  }

  /**
   * `fetchWithMiddleware(req, middlewares, rawMiddlewares, noThrow)`. The
   * network call, the format step and the error factory are parameters; an
   * omitted `noThrow` is `false`.
   */
  function FetchWithMiddleware<Raw, E>(req: Request, middlewares: seq<Middleware>,
                                       rawMiddlewares: seq<RawMiddleware<Raw>>, noThrow: bool,
                                       transport: Transport<Raw>, format: RawHandler<Raw> -> Handler,
                                       createRequestError: (Request, Option<RelayResponse>) -> E): (o: Outcome<E>)
    ensures var res := Nest(middlewares, format(Nest(rawMiddlewares, RunFetchHandler(transport))))(req);
            && (o.Rejected? <==> !noThrow && IsInvalid(res))
            && (o.Rejected? ==> o.error == createRequestError(req, res))
            && (o.Resolved? ==> o.res == res)
  {
    var wrappedFetch := Assemble(middlewares, format, rawMiddlewares, RunFetchHandler(transport));
    Settle(req, wrappedFetch(req), noThrow, createRequestError)
  }

  /** With no middleware in either tier, the pipeline is the format step around `runFetch`. */
  lemma EmptyTiers<Raw, E>(req: Request, noThrow: bool, transport: Transport<Raw>,
                           format: RawHandler<Raw> -> Handler,
                           createRequestError: (Request, Option<RelayResponse>) -> E)
    ensures FetchWithMiddleware(req, [], [], noThrow, transport, format, createRequestError)
         == Settle(req, format(RunFetchHandler(transport))(req), noThrow, createRequestError)
  {
  }

  /** With `noThrow`, the pipeline's result comes back unchanged whatever its errors and data. */
  lemma NoThrowResolvesUnchanged<Raw, E>(req: Request, middlewares: seq<Middleware>,
                                         rawMiddlewares: seq<RawMiddleware<Raw>>,
                                         transport: Transport<Raw>, format: RawHandler<Raw> -> Handler,
                                         createRequestError: (Request, Option<RelayResponse>) -> E)
    ensures FetchWithMiddleware(req, middlewares, rawMiddlewares, true, transport, format, createRequestError)
         == Resolved(Assemble(middlewares, format, rawMiddlewares, RunFetchHandler(transport))(req))
  {
  }

  /** An `errors` list that is present but empty still rejects: an empty array is truthy. */
  lemma EmptyErrorListRejects<E>(req: Request, status: int, data: Option<Json>,
                                 createRequestError: (Request, Option<RelayResponse>) -> E)
    ensures Settle(req, Some(RelayResponse(status, data, Some(JArray([])))), false, createRequestError)
         == Rejected(createRequestError(req, Some(RelayResponse(status, data, Some(JArray([]))))))
  {
  }

  /**
   * For a GraphQL-shaped response (`errors` missing, null or a list; `data`
   * missing, null or an object) the failure test reads: no response, an
   * error list of any length, or no data object.
   */
  lemma GraphQLShapedFailure(res: Option<RelayResponse>)
    requires res.Some? ==> res.value.errors.None? || res.value.errors.value.JNull? || res.value.errors.value.JArray?
    requires res.Some? ==> res.value.data.None? || res.value.data.value.JNull? || res.value.data.value.JObject?
    ensures IsInvalid(res) <==>
              || res.None?
              || (res.value.errors.Some? && res.value.errors.value.JArray?)
              || !(res.value.data.Some? && res.value.data.value.JObject?)
  {
  }

  /** With no middleware, a transport and format step that yield data and no errors resolve successfully. */
  lemma EmptyTiersSucceed<Raw, E>(req: Request, transport: Transport<Raw>, format: RawHandler<Raw> -> Handler,
                                  createRequestError: (Request, Option<RelayResponse>) -> E, status: int,
                                  data: map<string, Json>)
    requires format(RunFetchHandler(transport))(req) == Some(RelayResponse(status, Some(JObject(data)), None))
    ensures FetchWithMiddleware(req, [], [], false, transport, format, createRequestError)
         == Resolved(Some(RelayResponse(status, Some(JObject(data)), None)))
  {
  }
}
