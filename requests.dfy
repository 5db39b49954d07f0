/**
 * A single HTTP request (request.go): the method enumeration and its names,
 * request construction, the choice of request body, and `Do`, which sends the
 * request through an HTTP collaborator and copies the response headers.
 *
 * The network is not modelled: `Http` is the collaborator's behaviour, given
 * as two total functions (building the request, and sending it), and JSON
 * serialisation of a struct is an abstract, possibly failing, function.
 */
module Requests {
  import opened Wrappers

  newtype byte = b: int | 0 <= b < 0x100

  /** A Go `[]byte`; Go strings used as request data are byte sequences too. */
  type Bytes = seq<byte>

  /** A response header: each name maps to its ordered list of values. */
  type Header = map<string, seq<string>>

  /** Go's `Method` is an `int64`; four of its values are named. */
  newtype Method = m: int | -0x8000_0000_0000_0000 <= m < 0x8000_0000_0000_0000

  const GET: Method := 0
  const POST: Method := 1
  const PUT: Method := 2
  const PATCH: Method := 3

  predicate IsDefined(m: Method) {
    m == GET || m == POST || m == PUT || m == PATCH
  }

  /** `Method.String`: the canonical upper-case name, or "" for any other value. */
  function MethodName(m: Method): (s: string)
    ensures s == "GET" <==> m == GET
    ensures s == "POST" <==> m == POST
    ensures s == "PUT" <==> m == PUT
    ensures s == "PATCH" <==> m == PATCH
    ensures s == "" <==> !IsDefined(m)
  {
    if m == GET then "GET"
    else if m == POST then "POST"
    else if m == PUT then "PUT"
    else if m == PATCH then "PATCH"
    else ""
  }

  /** The four names are pairwise different, so naming loses no information. */
  lemma MethodNameInjective(m1: Method, m2: Method)
    requires IsDefined(m1) && IsDefined(m2)
    requires MethodName(m1) == MethodName(m2)
    ensures m1 == m2
  {
  }

  /**
   * An error value. `Wrapped` is what `fmt.Errorf("<context>: %w", inner)`
   * produces: the inner error stays reachable.
   */
  datatype Error = Cause(text: string) | Wrapped(context: string, inner: Error)

  const SettingPostBody := "error setting postbody"
  const CreatingRequest := "error creating request"
  const ExecutingRequest := "error executing requesst"

  /** An immutable request template. */
  datatype Request = Request(verb: Method, targetURL: string, headers: map<string, string>)

  /** `New`: a request holding exactly the given method, URL and headers. */
  function New(verb: Method, targetURL: string, headers: map<string, string>): (r: Request)
    ensures r.verb == verb && r.targetURL == targetURL && r.headers == headers
  {
    Request(verb, targetURL, headers)
  }

  /**
   * The dataset handed to `Do`, by the kind Go's reflection reports:
   * the nil interface, a string, a struct of type V, or anything else.
   */
  datatype Dataset<V> = Nil | Str(text: Bytes) | Struct(value: V) | OtherKind

  /** The reader handed to `http.NewRequest`: none, or one over some bytes. */
  datatype Body = NoBody | Reader(content: Bytes)

  /**
   * `getReaderForType`: a string is sent verbatim, a struct as its JSON
   * serialisation (or the serialiser's error), anything else as no body.
   */
  function GetReaderForType<V>(data: Dataset<V>, marshal: V -> Result<Bytes, Error>): (r: Result<Body, Error>)
    ensures data.Nil? || data.OtherKind? ==> r == Success(NoBody)
    ensures data.Str? ==> r == Success(Reader(data.text))
    ensures data.Struct? && marshal(data.value).Success? ==> r == Success(Reader(marshal(data.value).value))
    ensures data.Struct? && marshal(data.value).Failure? ==> r == Failure(marshal(data.value).error)
    ensures r.Failure? <==> data.Struct? && marshal(data.value).Failure?
  {
    match data
    case Nil => Success(NoBody)
    case Str(s) => Success(Reader(s))
    case Struct(v) =>
      (match marshal(v)
       case Success(json) => Success(Reader(json))
       case Failure(e) => Failure(e))
    case OtherKind => Success(NoBody)
  }

  /** The request as the HTTP collaborator receives it. */
  datatype Outgoing = Outgoing(verb: string, url: string, headers: map<string, string>, body: Body)

  /** What the collaborator answers with: the body read in full, and the header. */
  datatype Response = Response(body: Bytes, header: Header)

  /**
   * The HTTP collaborator: `newRequest` stands for `http.NewRequest` (an error,
   * or none), `send` for `http.DefaultClient.Do` followed by reading the body.
   */
  datatype Http = Http(
    newRequest: (string, string, Body) -> Option<Error>,
    send: Outgoing -> Result<Response, Error>)

  /** The three results of `Do`; nil data and headers are empty. */
  datatype Reply = Reply(data: Bytes, headers: Header, err: Option<Error>)

  /**
   * The body `Do` attaches: only a POST consults the dataset; every other
   * method sends no body.
   */
  function PostBody<V>(r: Request, dataset: Dataset<V>, marshal: V -> Result<Bytes, Error>): Result<Body, Error>
  {
    if r.verb == POST then GetReaderForType(dataset, marshal) else Success(NoBody)
  }

  /** The request `Do` hands to `send`, or the wrapped error that comes first. */
  function BuildRequest<V>(r: Request, dataset: Dataset<V>, marshal: V -> Result<Bytes, Error>, http: Http): Result<Outgoing, Error>
  {
    match PostBody(r, dataset, marshal)
    case Failure(e) => Failure(Wrapped(SettingPostBody, e))
    case Success(body) =>
      match http.newRequest(MethodName(r.verb), r.targetURL, body)
      case Some(e) => Failure(Wrapped(CreatingRequest, e))
      case None => Success(Outgoing(MethodName(r.verb), r.targetURL, r.headers, body))
  }

  /** What `Do` returns, as a function of its inputs and of the collaborator. */
  function Perform<V>(r: Request, dataset: Dataset<V>, marshal: V -> Result<Bytes, Error>, http: Http): Reply
  {
    match BuildRequest(r, dataset, marshal, http)
    case Failure(e) => Reply([], map[], Some(e))
    case Success(out) =>
      match http.send(out)
      case Failure(e) => Reply([], map[], Some(Wrapped(ExecutingRequest, e)))
      case Success(res) => Reply(res.body, res.header, None)
  }

  /**
   * `Do`: choose the body (POST only), build the request, send it, and copy
   * the response header into a fresh map entry by entry.
   */
  method Do<V>(r: Request, dataset: Dataset<V>, marshal: V -> Result<Bytes, Error>, http: Http)
    returns (data: Bytes, headers: Header, err: Option<Error>)
    ensures Reply(data, headers, err) == Perform(r, dataset, marshal, http)
  {
    var postbody := NoBody;
    if r.verb == POST {
      var reader := GetReaderForType(dataset, marshal);
      if reader.Failure? {
        return [], map[], Some(Wrapped(SettingPostBody, reader.error));
      }
      postbody := reader.value;
    }
    var name := MethodName(r.verb);
    var built := http.newRequest(name, r.targetURL, postbody);
    if built.Some? {
      return [], map[], Some(Wrapped(CreatingRequest, built.value));
    }
    var sent := http.send(Outgoing(name, r.targetURL, r.headers, postbody));
    if sent.Failure? {
      return [], map[], Some(Wrapped(ExecutingRequest, sent.error));
    }
    var res := sent.value;
    headers := map[];
    var pending := res.header.Keys;
    while pending != {}
      invariant pending <= res.header.Keys
      invariant headers.Keys == res.header.Keys - pending
      invariant forall name :: name in headers ==> headers[name] == res.header[name]
      decreases pending
    {
      var key :| key in pending;
      headers := headers[key := res.header[key]];
      pending := pending - {key};
    }
    data, err := res.body, None;
  }

  /** For every method but POST the dataset never reaches the request. */
  lemma NonPostIgnoresDataset<V>(r: Request, d1: Dataset<V>, m1: V -> Result<Bytes, Error>,
                                 d2: Dataset<V>, m2: V -> Result<Bytes, Error>, http: Http)
    requires r.verb != POST
    ensures BuildRequest(r, d1, m1, http) == BuildRequest(r, d2, m2, http)
    ensures BuildRequest(r, d1, m1, http).Success? ==> BuildRequest(r, d1, m1, http).value.body == NoBody
    ensures Perform(r, d1, m1, http) == Perform(r, d2, m2, http)
  {
  }

  /** A POST with a string dataset sends exactly that string. */
  lemma PostStringVerbatim<V>(r: Request, s: Bytes, marshal: V -> Result<Bytes, Error>, http: Http)
    requires r.verb == POST
    requires http.newRequest(MethodName(POST), r.targetURL, Reader(s)).None?
    ensures BuildRequest(r, Str(s), marshal, http)
         == Success(Outgoing("POST", r.targetURL, r.headers, Reader(s)))
  {
  }

  /**
   * A POST whose body cannot be built returns empty data, empty headers and
   * the wrapped error, whatever the collaborator would have done: no request
   * is issued.
   */
  lemma BodyErrorSkipsRequest<V>(r: Request, dataset: Dataset<V>, marshal: V -> Result<Bytes, Error>,
                                 http1: Http, http2: Http)
    requires r.verb == POST
    requires GetReaderForType(dataset, marshal).Failure?
    ensures Perform(r, dataset, marshal, http1) == Perform(r, dataset, marshal, http2)
    ensures Perform(r, dataset, marshal, http1)
         == Reply([], map[], Some(Wrapped(SettingPostBody, GetReaderForType(dataset, marshal).error)))
  {
  }

  /**
   * `Do` reports no error exactly when the request was built and sent, and
   * then returns the response body and a header with exactly the response's
   * names, each with its unchanged list of values.
   */
  lemma PerformSucceeds<V>(r: Request, dataset: Dataset<V>, marshal: V -> Result<Bytes, Error>, http: Http)
    ensures Perform(r, dataset, marshal, http).err.None?
        <==> BuildRequest(r, dataset, marshal, http).Success?
             && http.send(BuildRequest(r, dataset, marshal, http).value).Success?
    ensures Perform(r, dataset, marshal, http).err.None? ==>
              var res := http.send(BuildRequest(r, dataset, marshal, http).value).value;
              var rep := Perform(r, dataset, marshal, http);
              rep.data == res.body && rep.headers.Keys == res.header.Keys
              && forall name :: name in rep.headers ==> rep.headers[name] == res.header[name]
    ensures Perform(r, dataset, marshal, http).err.Some? ==>
              Perform(r, dataset, marshal, http).data == [] && Perform(r, dataset, marshal, http).headers == map[]
  {
  }
}
