# fetchWithMiddleware: the middleware dispatch engine of react-relay-network-modern

This project models the core of the network layer's request dispatch in Dafny:

- `compose`, the right-to-left composition of "wrap the next handler" functions that both middleware tiers are built with (module `Composition`);
- `runFetch`, the transport executor, which picks the URL (falling back to `/graphql`), fills in the `Accept` and `Content-Type` headers of the request in place, and calls the network (module `Transport`);
- `fetchWithMiddleware`, which nests the raw middlewares around `runFetch`, the single format step around them and the typed middlewares around that, runs the pipeline on the request, and rejects with `createRequestError(req, res)` when the response is missing, has `errors`, or has no `data`, unless `noThrow` is set (module `Dispatch`);
- the call order this assembly produces, made observable by wrappers that log their entry and exit (module `CallOrder`).

Supporting modules: `Wrappers` (an `Option` type, `None` standing for `undefined`/`null`) and `Js` (JSON values and JavaScript truthiness, which every `!x` test in the source relies on).

Modelling choices:

- Handlers are total functions. `compose(...fs)` returns a function; the model writes its application to a terminal `x` as `Compose(fs, x)`. `Nest` is the documented meaning `f1(f2(...fn(x)))`; `ReduceRight` is the fold the source actually performs; `Compose` is proved equal to `Nest`.
- The format step turns a raw handler into a typed one. Its type differs from the middlewares' type, so `compose(formatMiddleware())(baseFetch)` is written `format(baseFetch)`; `Composition.ComposeSingle` shows that composing one function is applying it.
- Raw and typed middlewares are given as two lists of handler wrappers (`RawHandler<Raw>` and `Handler`). The raw value type `Raw` is a parameter and may coincide with the normalized one. What keeps the tiers apart is how `Dispatch.Assemble` nests them: the raw tier wraps only `runFetch` and the typed tier wraps only the format step's output.
- The request object the caller owns is the class `Transport.RelayRequest`, whose fields are those of `req.fetchOpts` (`url`, `httpMethod`, `headers`, `body`). `RunFetch` updates its `headers` in place and leaves every other field alone. `isFormData()` is modelled as "the body is multipart form data"; the `RelayRequest` source is not part of this model.
- The pipeline in `Dispatch` is pure: handlers receive request values (`Transport.Request`), and `Transport.RunFetchHandler` is `runFetch` seen as such a handler. `Transport.RunFetch` is proved to leave the request in the state `Transport.Defaulted` describes and to return exactly what `RunFetchHandler` returns on the request's prior state.
- Truthiness is modelled as JavaScript defines it. A header whose value is `""` counts as unset, and so does a URL that is `""`. An `errors` value that is an empty array is truthy, so it still fails the response.
- The network call (`fetch`), the format step (`formatMiddleware()`) and the error factory (`createRequestError`) are parameters of the model.

Every test in the source is a JavaScript truthiness test, and the model keeps that. `res.errors` is tested for truthiness, so an empty error array also fails the response (`Dispatch.EmptyErrorListRejects`). Header values are tested the same way, so an empty-string `Accept` or `Content-Type` is replaced.

## Model

| member | source | states |
|---|---|---|
| Composition.Compose | src/fetchWithMiddleware.js:57-64 | `compose(...fs)(x)` as written equals the nesting `fs[0](fs[1](...fs[n-1](x)))`: it is the identity for no functions, and otherwise the last function is applied first and the rest fold around it from the right |
| Composition.ReduceRightIsNest | src/fetchWithMiddleware.js:61-63 | folding `f => f(composed)` with `reduceRight` over the remaining functions, starting from `last(x)`, gives the documented right-to-left nesting |
| Composition.NestSnoc | src/fetchWithMiddleware.js:61-63 | the nesting of a non-empty list equals the nesting of all but the last function around `last(x)` |
| Composition.ComposeEmpty | src/fetchWithMiddleware.js:58-59 | composing zero functions returns its argument unchanged |
| Composition.ComposeSingle | src/fetchWithMiddleware.js:36 | composing a single function is applying it |
| Composition.ComposeOutermostInnermost | src/fetchWithMiddleware.js:47-55 | the leftmost function is the outermost wrapper and the rightmost is applied directly to the terminal |
| Composition.ComposeAppend | src/fetchWithMiddleware.js:47-55 | composing `fs + gs` around `x` equals composing `fs` around the composition of `gs` around `x` |
| Transport.FetchUrl | src/fetchWithMiddleware.js:16-17 | the URL used is the request's own when it is set and non-empty, otherwise `/graphql`; it is never empty |
| Transport.WithDefaultHeaders | src/fetchWithMiddleware.js:19-22 | afterwards `Accept` is `*/*` if it was unset or empty and keeps its value otherwise. A set `Content-Type` is never overwritten. An unset one becomes `application/json` unless the body is form data, in which case it is left as it was. No other header is added, removed or changed |
| Transport.DefaultHeadersIdempotent | src/fetchWithMiddleware.js:19-22 | filling in the defaults a second time (as a retried `runFetch` does on the same request) changes nothing |
| Transport.RunFetch | src/fetchWithMiddleware.js:15-27 | the request's headers become the defaulted headers in place, and the URL, method and body fields are not written. The transport's result on the fallback-resolved URL and the updated options is returned unchanged. It equals `RunFetchHandler` on the prior request |
| Transport.RunFetchHandler | src/fetchWithMiddleware.js:15-27 | `runFetch` as the pipeline's terminal handler: for every request, it calls the transport with `FetchUrl(url)` and the options with `WithDefaultHeaders` applied. Running it again on a request it has already defaulted (a retry) sends the same call. The in-place header update does not reach the caller's request here; the last `ensures` of `Transport.RunFetch` ties the two together |
| Dispatch.Assemble | src/fetchWithMiddleware.js:35-37 | the pipeline is `Nest(middlewares, format(Nest(rawMiddlewares, terminal)))`: raw middlewares innermost around the terminal, the format step once between the tiers, typed middlewares outermost |
| Dispatch.Settle | src/fetchWithMiddleware.js:39-44 | the result is a rejection iff `noThrow` is false and the response is missing, has truthy `errors`, or has falsy `data`. A rejection carries `createRequestError(req, res)`; otherwise the response is resolved unchanged |
| Dispatch.FetchWithMiddleware | src/fetchWithMiddleware.js:29-45 | the dispatch runs `compose(middlewares)(format(compose(rawMiddlewares)(runFetch)))` on the request and rejects exactly under the failure test (with `createRequestError(req, res)`); otherwise it resolves with that response unchanged |
| Dispatch.EmptyTiers | src/fetchWithMiddleware.js:35-37 | with both middleware lists empty, the pipeline is the format step around `runFetch` |
| Dispatch.NoThrowResolvesUnchanged | src/fetchWithMiddleware.js:39-44 | with `noThrow`, the dispatch resolves with the pipeline's response unchanged, whatever its errors and data |
| Dispatch.EmptyErrorListRejects | src/fetchWithMiddleware.js:40-41 | a response whose `errors` is an empty list still rejects when `noThrow` is false |
| Dispatch.GraphQLShapedFailure | src/fetchWithMiddleware.js:40 | for responses whose `errors` is missing, null or a list, and whose `data` is missing, null or an object, the failure test is: no response, or an error list of any length, or no data object |
| Dispatch.EmptyTiersSucceed | src/fetchWithMiddleware.js:35-44 | with no middleware, a format step that yields data and no errors makes the dispatch resolve with that response |
| CallOrder.ComposeCallOrder | src/fetchWithMiddleware.js:57-64 | composed logging wrappers are entered in list order and exited in reverse order, with the terminal called once in between |
| CallOrder.PipelineCallOrder | src/fetchWithMiddleware.js:35-39 | one dispatch logs typed entries, the format entry, raw entries, the network call, raw exits, the format exit and typed exits, in that order |
| CallOrder.FormatStepAndNetworkCallOnce | src/fetchWithMiddleware.js:35-37 | one dispatch enters and leaves the format step exactly once and calls the network exactly once |

## Left out

- The network call `fetch(url, fetchOpts)` is global I/O. It is the parameter `transport`, a function of the URL and the options.
- Promises and `async`/`.then` are modelled as direct return values. A rejected transport call or middleware promise propagates unchanged in the source and is not represented.
- `formatMiddleware`, `createRequestError` and `RelayResponse` are not part of this model. The format step and the error factory are parameters. `RelayResponse` is reduced to its `status`, `data` and `errors`.
- `src/index.js` only re-exports modules and holds no logic.
- The individual middlewares (batch, retry, url, auth, perf, logger, error, cache, progress) and the express batch wrapper are not part of this model. Any function of the middleware types can stand in for them.
- JSON numbers are integers, so `NaN` and floating point are not modelled in the truthiness test of `data`. Header values are strings only.
- `fetchOpts.headers` is always a map. The source would throw when it is undefined; that case is not modelled.
- Dispatch.FetchWithMiddleware: the error factory receives the request value given to the dispatch. In the source it receives the same object, which `runFetch` and the middlewares may have mutated in place by then. That aliasing is captured only by `Transport.RunFetch`, not by the pure pipeline.
