/**
 * The transport executor `runFetch`: it resolves the URL, fills in default
 * `Accept` and `Content-Type` headers on the request in place, and hands the
 * request's options to the network call, which is a parameter here.
 */
module Transport {
  import opened Wrappers
  import opened Js

  type Headers = map<string, string>

  /** The body of a request; `isFormData()` asks whether it is multipart form data. */
  datatype Body = NoBody | TextBody(text: string) | FormBody(fields: seq<(string, string)>)

  /** The options bag `req.fetchOpts` as a value: what the network call receives. */
  datatype FetchOpts = FetchOpts(url: Option<string>, httpMethod: string, headers: Headers, body: Body)

  /** A request as the pipeline's handlers see it. */
  datatype Request = Request(fetchOpts: FetchOpts)
  {
    predicate IsFormData()
    {
      fetchOpts.body.FormBody?
    }
  }

  /** The network call `fetch(url, fetchOpts)`. */
  type Transport<Raw> = (string, FetchOpts) -> Raw

  const DefaultUrl := "/graphql"
  const Accept := "Accept"
  const ContentType := "Content-Type"
  const AnyMediaType := "*/*"
  const JsonMediaType := "application/json"

  /** `!!headers[name]`: a missing header and an empty one are both unset. */
  predicate HeaderSet(h: Headers, name: string)
  {
    name in h && h[name] != ""
  }

  /** The URL `runFetch` calls: the request's own when set, the fallback path otherwise. */
  function FetchUrl(url: Option<string>): (u: string)
    ensures u != ""
    ensures StringPresent(url) ==> u == url.value
    ensures !StringPresent(url) ==> u == DefaultUrl
  {
    if StringPresent(url) then url.value else DefaultUrl
  }

  /**
   * The header map after `runFetch` has filled in its defaults: `Accept`
   * first, then `Content-Type` unless the body is form data.
   */
  function WithDefaultHeaders(h: Headers, isFormData: bool): (r: Headers)
    // Accept is always set afterwards, and kept when it was already set
    ensures Accept in r && r[Accept] == (if HeaderSet(h, Accept) then h[Accept] else AnyMediaType)
    // an existing Content-Type is never overwritten
    ensures HeaderSet(h, ContentType) ==> ContentType in r && r[ContentType] == h[ContentType]
    // a missing one becomes JSON, except for form data, whose entry is left as it was
    ensures !HeaderSet(h, ContentType) && !isFormData ==> ContentType in r && r[ContentType] == JsonMediaType
    ensures isFormData ==> (ContentType in r <==> ContentType in h)
    ensures isFormData && ContentType in h ==> r[ContentType] == h[ContentType]
    ensures HeaderSet(r, ContentType) <==> HeaderSet(h, ContentType) || !isFormData
    // no other header is touched
    ensures r.Keys == h.Keys + {Accept} + (if isFormData then {} else {ContentType})
    ensures forall k :: k in h && k != Accept && k != ContentType ==> r[k] == h[k]
  {
    var withAccept := if HeaderSet(h, Accept) then h else h[Accept := AnyMediaType];
    if HeaderSet(withAccept, ContentType) || isFormData then withAccept
    else withAccept[ContentType := JsonMediaType]
  }

  /** Running `runFetch` again on the request it has already updated changes no header. */
  lemma DefaultHeadersIdempotent(h: Headers, isFormData: bool)
    ensures WithDefaultHeaders(WithDefaultHeaders(h, isFormData), isFormData) == WithDefaultHeaders(h, isFormData)
  {
  }

  /** The request as `runFetch` leaves it: headers defaulted, every other option as it was. */
  function Defaulted(req: Request): Request
  {
    Request(req.fetchOpts.(headers := WithDefaultHeaders(req.fetchOpts.headers, req.IsFormData())))
  }

  /**
   * `runFetch` as a handler on request values. The transport is called with
   * the resolved URL and the defaulted options; a handler that receives a
   * request `runFetch` has already updated (a retried call) sends the same
   * call again. The in-place update of the caller's object is `RunFetch`'s.
   */
  function RunFetchHandler<Raw>(transport: Transport<Raw>): (h: Request -> Raw)
    ensures forall req: Request :: h(req) == transport(FetchUrl(req.fetchOpts.url), Defaulted(req).fetchOpts)
    ensures forall req: Request :: h(Defaulted(req)) == h(req)
  {
    var h := (req: Request) => transport(FetchUrl(req.fetchOpts.url), Defaulted(req).fetchOpts);
    assert forall req: Request :: Defaulted(Defaulted(req)) == Defaulted(req) by {
      forall req: Request ensures Defaulted(Defaulted(req)) == Defaulted(req) {
        DefaultHeadersIdempotent(req.fetchOpts.headers, req.IsFormData());
      }
    }
    h
  }

  /**
   * The request object the caller owns. Its fields are those of
   * `req.fetchOpts`; `runFetch` updates `headers` in place.
   */
  class RelayRequest {
    var url: Option<string>
    var httpMethod: string
    var headers: Headers
    var body: Body

    constructor (opts: FetchOpts)
      ensures Value() == Request(opts)
    {
      url := opts.url;
      httpMethod := opts.httpMethod;
      headers := opts.headers;
      body := opts.body;
    }

    /** The request's current state as a value. */
    function Value(): Request
      reads this
    {
      Request(FetchOpts(url, httpMethod, headers, body))
    }

    /** `req.isFormData()`. */
    predicate IsFormData()
      reads this
    {
      Value().IsFormData()
    }
  }

  /**
   * `runFetch(req)`: defaults the URL in a local variable, updates the
   * request's headers in place and returns the transport's result on them.
   */
  method RunFetch<Raw>(req: RelayRequest, transport: Transport<Raw>) returns (res: Raw)
    modifies req`headers
    ensures req.headers == WithDefaultHeaders(old(req.headers), req.IsFormData())
    ensures req.url == old(req.url) && req.httpMethod == old(req.httpMethod) && req.body == old(req.body)
    ensures res == transport(FetchUrl(req.url), req.Value().fetchOpts)
    ensures req.Value() == Defaulted(old(req.Value()))
    ensures res == RunFetchHandler(transport)(old(req.Value()))
  {
    ghost var before := req.Value();
    var url := req.url;
    if !StringPresent(url) {
      url := Some(DefaultUrl);
    }
    if !HeaderSet(req.headers, Accept) {
      req.headers := req.headers[Accept := AnyMediaType];
    }
    if !HeaderSet(req.headers, ContentType) && !req.IsFormData() {
      req.headers := req.headers[ContentType := JsonMediaType];
    }
    assert req.Value() == Defaulted(before);
    res := transport(url.value, req.Value().fetchOpts);
  }
}
