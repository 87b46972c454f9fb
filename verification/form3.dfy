/**
 * The transport core of the Form3 client (form3/form3.go): building a client
 * from a base URL, building requests against it, classifying responses, and
 * the control flow of one request/response exchange.
 *
 * The parts of the Go standard library the core calls are parameters here:
 * url.Parse and URL.Parse are functions handed in, the JSON codec is a pair of
 * functions, and the network's answer to a request is a Transport value.
 */
module Form3 {
  import opened Wrappers
  import opened Text
  import opened Urls

  /** The media type of the Accept and Content-Type headers. */
  const ApplicationJson: string := "application/json; charset=utf-8"

  /** The environment variable that holds the base URL. */
  const BaseURLKey: string := "FORM3_BASE_URL"

  /** What ctx.Err() reports once a context is done. */
  datatype ContextCause = Canceled | DeadlineExceeded

  /**
   * A caller's context as Do can observe it: whether it was already done when the
   * request was about to go out, whether it became done while the transport was
   * busy, and the error it then reports.
   */
  datatype Context = Context(doneBeforeSend: bool, doneInFlight: bool, cause: ContextCause) {
    predicate Done() {
      doneBeforeSend || doneInFlight
    }

    function Err(): Error {
      ContextError(cause)
    }
  }

  /** The errors the core returns or passes on. */
  datatype Error =
    | Message(text: string)             // built with errors.New in this package
    | ContextError(cause: ContextCause) // ctx.Err()
    | Api(response: ErrorResponse)      // the *ErrorResponse of CheckResponse
    | InvalidMethod(verb: string)     // refused by http.NewRequest
    | External(description: string)     // from net/url, encoding/json, the transport or a body read

  const NilContextError: Error := Message("context should not be nil")

  const MissingBaseURLError: Error := Message("Please set the baseURL " + BaseURLKey + " environment variable")

  /** A response body: what the server sent, whether reading it fails, and how often it was closed. */
  class Body {
    const content: string
    const readError: Option<Error>
    var closes: nat

    constructor (content: string, readError: Option<Error>)
      ensures this.content == content && this.readError == readError && closes == 0
    {
      this.content := content;
      this.readError := readError;
      closes := 0;
    }

    method Close()
      modifies this
      ensures closes == old(closes) + 1
    {
      closes := closes + 1;
    }
  }

  /** ioutil.ReadAll on a body. */
  function ReadAll(b: Body): Result<string, Error> {
    if b.readError.Some? then Failure(b.readError.value) else Success(b.content)
  }

  /** An outgoing request: method, URL and encoded body are fixed, headers are set afterwards. */
  class Request {
    const verb: string
    const url: Url
    const body: Option<string>
    var header: map<string, string>

    constructor (verb: string, url: Url, body: Option<string>)
      ensures this.verb == verb && this.url == url && this.body == body && header == map[]
    {
      this.verb := verb;
      this.url := url;
      this.body := body;
      header := map[];
    }

    /** Header.Set */
    method SetHeader(key: string, value: string)
      modifies this
      ensures header == old(header)[key := value]
    {
      header := header[key := value];
    }
  }

  /** A received response: status, body, and the request it answers. */
  datatype Response = Response(statusCode: int, body: Body, request: Request)

  /** An API error: the response that caused it and the message taken from its body. */
  datatype ErrorResponse = ErrorResponse(response: Response, errorMessage: string)

  /** A request as it went on the wire. */
  datatype Sent = Sent(verb: string, url: Url, body: Option<string>, header: map<string, string>)

  function Snapshot(req: Request): Sent
    reads req
  {
    Sent(req.verb, req.url, req.body, req.header)
  }

  /** The network's answer to a request: a response, or a transport error. */
  datatype Transport =
    | Delivered(statusCode: int, content: string, readError: Option<Error>)
    | Failed(err: Error)

  /** The http.Client: here it only keeps the requests handed to the network. */
  class HttpClient {
    var sent: seq<Sent>

    constructor ()
      ensures sent == []
    {
      sent := [];
    }

    /** http.Client.Do: the request goes out and `outcome` comes back. */
    method Send(req: Request, outcome: Transport) returns (resp: Option<Response>)
      modifies this
      ensures sent == old(sent) + [Snapshot(req)]
      ensures outcome.Failed? ==> resp.None?
      ensures outcome.Delivered? ==>
                && resp.Some? && fresh(resp.value.body)
                && resp.value.statusCode == outcome.statusCode && resp.value.request == req
                && resp.value.body.content == outcome.content
                && resp.value.body.readError == outcome.readError
                && resp.value.body.closes == 0
    {
      sent := sent + [Snapshot(req)];
      if outcome.Failed? {
        resp := None;
      } else {
        var body := new Body(outcome.content, outcome.readError);
        resp := Some(Response(outcome.statusCode, body, req));
      }
    }
  }

  /** The value a caller hands to Do to decode into; None stands for the zero value of new(T). */
  class Target<T> {
    var decoded: Option<T>

    constructor ()
      ensures decoded == None
    {
      decoded := None;
    }
  }

  predicate Is2xx(status: int) {
    200 <= status <= 299
  }

  // ---------------------------------------------------------------------------
  // Base URL normalisation (NewClient)
  // ---------------------------------------------------------------------------

  /**
   * The base path a client keeps: unchanged when it already ends in "/v1/",
   * otherwise extended by "/", "v1/" or "/v1/" as far as needed.
   */
  function NormalizedPath(p: string): string {
    if EndsWith(p, "/v1/") then p
    else if EndsWith(p, "/v1") then p + "/"
    else if EndsWith(p, "/") then p + "v1/"
    else p + "/v1/"
  }

  /** The two suffix steps of NewClient, done one after the other, give NormalizedPath. */
  lemma NormalizationSteps(p: string)
    ensures var p1 := if EndsWith(p, "/") then p else p + "/";
            var p2 := if EndsWith(p1, "/v1/") then p1 else p1 + "v1/";
            p2 == NormalizedPath(p)
  {
    assert "/" == ['/'];
    EndsWithChar(p, '/');
    EndsWithLast(p, "/v1");
    EndsWithLast(p, "/v1/");
    if !EndsWith(p, "/") {
      EndsWithAppend(p, "/v1", '/');
      assert "/v1" + ['/'] == "/v1/";
      assert p + "/" + "v1/" == p + "/v1/";
    }
  }

  /** After normalisation the base path ends in "/v1/", and the original path is kept as a prefix. */
  lemma NormalizedPathShape(p: string)
    ensures EndsWith(NormalizedPath(p), "/v1/")
    ensures StartsWith(NormalizedPath(p), p)
  {
    var n := NormalizedPath(p);
    assert n[..|p|] == p;
    if !EndsWith(p, "/v1/") {
      if EndsWith(p, "/v1") {
        EndsWithAppend(p, "/v1", '/');
        assert "/v1" + ['/'] == "/v1/";
      } else if EndsWith(p, "/") {
        assert n[|n| - 4..] == [p[|p| - 1]] + "v1/";
      } else {
        EndsWithAppended(p, "/v1/");
      }
    }
  }

  /** Normalisation changes a path exactly when it does not already end in "/v1/". */
  lemma NormalizedPathFixed(p: string)
    ensures NormalizedPath(p) == p <==> EndsWith(p, "/v1/")
  {
  }

  /** Normalising a normalised path changes nothing. */
  lemma NormalizedPathIdempotent(p: string)
    ensures NormalizedPath(NormalizedPath(p)) == NormalizedPath(p)
  {
    NormalizedPathShape(p);
  }

  /** An empty or rooted path stays rooted. */
  lemma NormalizedPathRooted(p: string)
    requires p == "" || p[0] == '/'
    ensures StartsWith(NormalizedPath(p), "/")
  {
    if p != "" {
      NormalizedPathShape(p);
      assert NormalizedPath(p)[0] == p[0];
    }
  }

  /**
   * Only the suffix is checked: a base path with "v1/" earlier in it gets a second one.
   * The base URL is not guaranteed to contain the version segment exactly once.
   */
  lemma NormalizedPathRepeatsV1()
    ensures NormalizedPath("/v1/accounts") == "/v1/accounts/v1/"
  {
    assert !EndsWith("/v1/accounts", "/v1/");
    assert !EndsWith("/v1/accounts", "/v1");
    assert !EndsWith("/v1/accounts", "/");
  }

  // ---------------------------------------------------------------------------
  // Construction
  // ---------------------------------------------------------------------------

  /** The client: an HTTP client and a normalised base URL, both fixed after construction. */
  class Client {
    const httpClient: HttpClient
    const baseURL: Url

    constructor (httpClient: HttpClient, baseURL: Url)
      ensures this.httpClient == httpClient && this.baseURL == baseURL
    {
      this.httpClient := httpClient;
      this.baseURL := baseURL;
    }

    /**
     * NewRequest: resolve `path` against the base URL, encode the body if there is
     * one, create the request and set its headers. `resolve` stands for URL.Parse
     * and `encode` for json.Encoder.Encode.
     */
    method NewRequest<B>(verb: string, path: string, body: Option<B>,
                         resolve: (Url, string) -> Result<Url, Error>,
                         encode: B -> Result<string, Error>)
      returns (req: Request?, err: Option<Error>)
      requires ResolvesAsModelled(resolve, baseURL, path)
      ensures req == null <==> err.Some?
      ensures resolve(baseURL, path).Failure? ==> err == Some(resolve(baseURL, path).error)
      ensures resolve(baseURL, path).Success? && Encoded(body, encode).Failure? ==>
                err == Some(Encoded(body, encode).error)
      ensures resolve(baseURL, path).Success? && Encoded(body, encode).Success?
                && !ValidMethod(RequestMethod(verb)) ==>
                err == Some(InvalidMethod(verb))
      ensures resolve(baseURL, path).Success? && Encoded(body, encode).Success?
                && ValidMethod(RequestMethod(verb)) ==>
                && req != null && fresh(req)
                && req.verb == RequestMethod(verb)
                && req.url == resolve(baseURL, path).value
                && req.body == Encoded(body, encode).value
                && req.header == JsonHeaders(body.Some?)
    {
      var requestURL := resolve(baseURL, path);
      if requestURL.Failure? {
        return null, Some(requestURL.error);
      }
      var buf: Option<string> := None;
      if body.Some? {
        var encoded := encode(body.value);
        if encoded.Failure? {
          return null, Some(encoded.error);
        }
        buf := Some(encoded.value);
      }
      // http.NewRequest
      var m := RequestMethod(verb);
      if !ValidMethod(m) {
        return null, Some(InvalidMethod(verb));
      }
      req := new Request(m, requestURL.value, buf);
      if body.Some? {
        req.SetHeader("Content-Type", ApplicationJson);
      }
      req.SetHeader("Accept", ApplicationJson);
      err := None;
    }

    /**
     * Do, with the request bound to the caller's context: a nil context is refused,
     * a context already done stops the request before it is sent, a transport error
     * gives way to the context's error, a non-2xx response comes back with its
     * ErrorResponse, and only a 2xx response is decoded, and only into a target.
     * The body of a received response is closed exactly once.
     */
    method Do<T(==)>(ctx: Option<Context>, req: Request, target: Target?<T>, outcome: Transport,
                 decode: string -> Result<T, Error>, unmarshal: string -> Result<string, Error>)
      returns (resp: Option<Response>, err: Option<Error>)
      modifies httpClient, target
      ensures Exchanged(httpClient, Snapshot(req), ctx, outcome,
                        if target == null then None else Some(decode), unmarshal, resp, err,
                        if target != null && err.None? && resp.Some? then target.decoded else None)
      ensures resp.Some? ==> resp.value.request == req
      ensures target != null && (err.Some? || resp.None?) ==> target.decoded == old(target.decoded)
    {
      if ctx.None? {
        return None, Some(NilContextError);
      }
      if ctx.value.doneBeforeSend {
        return None, Some(ctx.value.Err());
      }
      resp := httpClient.Send(req, outcome);
      if resp.None? {
        err := Some(if ctx.value.Done() then ctx.value.Err() else outcome.err);
        return;
      }
      err := Receive(resp.value, target, decode, unmarshal);
    }

    /**
     * Do as written: the context is checked for nil but never reaches the transport,
     * because the request that http.Request.WithContext returns is dropped.
     */
    method DoAsWritten<T(==)>(ctx: Option<Context>, req: Request, target: Target?<T>, outcome: Transport,
                          decode: string -> Result<T, Error>, unmarshal: string -> Result<string, Error>)
      returns (resp: Option<Response>, err: Option<Error>)
      modifies httpClient, target
      ensures ctx.None? ==> httpClient.sent == old(httpClient.sent) && resp.None? && err == Some(NilContextError)
      ensures ctx.Some? ==> httpClient.sent == old(httpClient.sent) + [Snapshot(req)]
      ensures ctx.Some? && outcome.Failed? ==>
                resp.None? && err == Some(if ctx.value.Done() then ctx.value.Err() else outcome.err)
      ensures ctx.Some? && outcome.Delivered? ==>
                && resp.Some? && resp.value.request == req
                && resp.value.statusCode == outcome.statusCode
                && resp.value.body.content == outcome.content
                && resp.value.body.readError == outcome.readError
                && resp.value.body.closes == 1
                && Settled(resp.value, if target == null then None else Some(decode), unmarshal, err,
                           if target != null && err.None? then target.decoded else None)
      ensures target != null && (err.Some? || resp.None?) ==> target.decoded == old(target.decoded)
    {
      if ctx.None? {
        return None, Some(NilContextError);
      }
      resp := httpClient.Send(req, outcome);
      if resp.None? {
        err := Some(if ctx.value.Done() then ctx.value.Err() else outcome.err);
        return;
      }
      err := Receive(resp.value, target, decode, unmarshal);
    }
  }

  /**
   * What URL.Parse does on the references this model resolves itself, against a
   * base path without dot segments (net/url removes those from the merged path).
   */
  predicate ResolvesAsModelled(resolve: (Url, string) -> Result<Url, Error>, base: Url, path: string) {
    NoDotSegments(base.path) && ModelledReference(path) ==>
      resolve(base, path) == Success(Resolve(base, SplitReference(path)))
  }

  /** http.NewRequest reads an empty method as GET. */
  function RequestMethod(verb: string): string {
    if verb == "" then "GET" else verb
  }

  /** A token character of RFC 7230 section 3.2.6, the characters http.NewRequest accepts in a method. */
  predicate TokenChar(c: char) {
    ('a' <= c <= 'z') || ('A' <= c <= 'Z') || ('0' <= c <= '9') || c in "!#$%&'*+-.^_`|~"
  }

  predicate ValidMethod(verb: string) {
    |verb| > 0 && forall i :: 0 <= i < |verb| ==> TokenChar(verb[i])
  }

  /** The request body: nothing without a body, the encoder's output or error with one. */
  function Encoded<B>(body: Option<B>, encode: B -> Result<string, Error>): Result<Option<string>, Error> {
    match body
    case None => Success(None)
    case Some(b) => if encode(b).Success? then Success(Some(encode(b).value)) else Failure(encode(b).error)
  }

  /** The headers NewRequest sets: Accept always, Content-Type exactly when there is a body. */
  function JsonHeaders(hasBody: bool): (h: map<string, string>)
    ensures "Accept" in h && h["Accept"] == ApplicationJson
    ensures "Content-Type" in h <==> hasBody
    ensures "Content-Type" in h ==> h["Content-Type"] == ApplicationJson
    ensures h.Keys <= {"Accept", "Content-Type"}
  {
    if hasBody then map["Content-Type" := ApplicationJson, "Accept" := ApplicationJson]
    else map["Accept" := ApplicationJson]
  }

  // ---------------------------------------------------------------------------
  // Responses
  // ---------------------------------------------------------------------------

  /**
   * The message of an ErrorResponse: empty when the body cannot be read or is
   * empty, the decoded "error_message" when the body is JSON, and the raw body
   * when it is not. `unmarshal` stands for json.Unmarshal into an ErrorResponse
   * and yields the field's value, "" when it is absent.
   */
  function ErrorMessageOf(b: Body, unmarshal: string -> Result<string, Error>): string {
    match ReadAll(b)
    case Failure(_) => ""
    case Success(data) =>
      if |data| == 0 then ""
      else match unmarshal(data)
        case Success(m) => m
        case Failure(_) => data
  }

  /** The message always comes from the body: it is empty, the body itself, or what the body decodes to. */
  lemma ErrorMessageFromBody(b: Body, unmarshal: string -> Result<string, Error>)
    ensures var m := ErrorMessageOf(b, unmarshal);
            m == "" || (b.readError.None? && (m == b.content || unmarshal(b.content) == Success(m)))
  {
  }

  /** CheckResponse: nil for a 2xx status, otherwise an ErrorResponse for this very response. */
  method CheckResponse(r: Response, unmarshal: string -> Result<string, Error>) returns (err: Option<Error>)
    ensures err.None? <==> Is2xx(r.statusCode)
    ensures err.Some? ==> err.value.Api? && err.value.response.response == r
    ensures err.Some? ==> err.value.response.errorMessage == ErrorMessageOf(r.body, unmarshal)
  {
    if 200 <= r.statusCode && r.statusCode <= 299 {
      return None;
    }
    var message := "";
    var data := ReadAll(r.body);
    if data.Success? && |data.value| > 0 {
      var decoded := unmarshal(data.value);
      if decoded.Success? {
        message := decoded.value;
      } else {
        message := data.value;
      }
    }
    err := Some(Api(ErrorResponse(r, message)));
  }

  /** ErrorResponse.Error: "<method> <url>: <status> <message>". */
  function ErrorString(e: ErrorResponse): (s: string)
    ensures StartsWith(s, e.response.request.verb + " ")
    ensures EndsWith(s, UrlString(e.response.request.url) + ": " + FormatInt(e.response.statusCode) + " " + e.errorMessage)
    ensures EndsWith(s, " " + e.errorMessage)
  {
    var head := e.response.request.verb + " ";
    var front := UrlString(e.response.request.url) + ": " + FormatInt(e.response.statusCode);
    var rest := front + " " + e.errorMessage;
    var s := head + rest;
    assert s[..|head|] == head;
    EndsWithAppended(head, rest);
    assert rest == front + (" " + e.errorMessage);
    EndsWithAppended(front, " " + e.errorMessage);
    assert s[|s| - |" " + e.errorMessage|..] == rest[|rest| - |" " + e.errorMessage|..];
    s
  }

  /**
   * The status can be read back from an error's text: two errors for the same
   * method, URL and message have the same text only when their statuses agree.
   */
  lemma ErrorStringStatus(e1: ErrorResponse, e2: ErrorResponse)
    requires e1.response.request.verb == e2.response.request.verb
    requires e1.response.request.url == e2.response.request.url
    requires e1.errorMessage == e2.errorMessage
    requires ErrorString(e1) == ErrorString(e2)
    ensures e1.response.statusCode == e2.response.statusCode
  {
    var head := e1.response.request.verb + " " + UrlString(e1.response.request.url) + ": ";
    var tail := " " + e1.errorMessage;
    var f1, f2 := FormatInt(e1.response.statusCode), FormatInt(e2.response.statusCode);
    var s1, s2 := ErrorString(e1), ErrorString(e2);
    assert s1 == head + f1 + tail;
    assert s2 == head + f2 + tail;
    assert |f1| == |f2|;
    assert f1 == s1[|head|..|head| + |f1|];
    assert f2 == s2[|head|..|head| + |f2|];
    FormatIntInjective(e1.response.statusCode, e2.response.statusCode);
  }

  /** json.Decoder.Decode on a body: a read error, or what `decode` makes of the content. */
  function DecodeBody<T>(b: Body, decode: string -> Result<T, Error>): Result<T, Error> {
    if b.readError.Some? then Failure(b.readError.value) else decode(b.content)
  }

  /**
   * How a received response settles Do's result: a non-2xx status gives the
   * ErrorResponse and nothing decoded; a 2xx status without a target gives no
   * error; with a target it gives the decoded value or the decoder's error.
   */
  predicate Settled<T(==)>(r: Response, decode: Option<string -> Result<T, Error>>,
                       unmarshal: string -> Result<string, Error>, err: Option<Error>, value: Option<T>)
  {
    if !Is2xx(r.statusCode) then
      err == Some(Api(ErrorResponse(r, ErrorMessageOf(r.body, unmarshal)))) && value.None?
    else if decode.None? then
      err.None? && value.None?
    else match DecodeBody(r.body, decode.value)
      case Success(v) => err.None? && value == Some(v)
      case Failure(e) => err == Some(e) && value.None?
  }

  /**
   * What one call of Do leaves behind for a request that goes on the wire as
   * `wire`: what was sent, the response and error returned, and the value
   * decoded for the caller (None on every error).
   */
  twostate predicate Exchanged<T>(h: HttpClient, wire: Sent, ctx: Option<Context>, outcome: Transport,
                                  decode: Option<string -> Result<T, Error>>,
                                  unmarshal: string -> Result<string, Error>,
                                  new resp: Option<Response>, new err: Option<Error>, new value: Option<T>)
    reads h, if resp.Some? then {resp.value.body} else {}
  {
    if ctx.None? then
      h.sent == old(h.sent) && resp.None? && err == Some(NilContextError) && value.None?
    else if ctx.value.doneBeforeSend then
      h.sent == old(h.sent) && resp.None? && err == Some(ctx.value.Err()) && value.None?
    else
      && h.sent == old(h.sent) + [wire]
      && match outcome
         case Failed(e) =>
           resp.None? && value.None? && err == Some(if ctx.value.Done() then ctx.value.Err() else e)
         case Delivered(status, content, readError) =>
           && resp.Some?
           && resp.value.statusCode == status
           && resp.value.body.content == content
           && resp.value.body.readError == readError
           && resp.value.body.closes == 1
           && Settled(resp.value, decode, unmarshal, err, value)
  }

  /**
   * The tail of Do once a response exists: check the status, decode a 2xx body
   * into the target if there is one, and close the body on the way out.
   */
  method Receive<T(==)>(resp: Response, target: Target?<T>, decode: string -> Result<T, Error>,
                    unmarshal: string -> Result<string, Error>)
    returns (err: Option<Error>)
    modifies resp.body, target
    ensures resp.body.closes == old(resp.body.closes) + 1
    ensures Settled(resp, if target == null then None else Some(decode), unmarshal, err,
                    if target != null && err.None? then target.decoded else None)
    ensures target != null && err.Some? ==> target.decoded == old(target.decoded)
  {
    err := CheckResponse(resp, unmarshal);
    if err.None? && target != null {
      var d := DecodeBody(resp.body, decode);
      if d.Success? {
        target.decoded := Some(d.value);
      } else {
        err := Some(d.error);
      }
    }
    resp.body.Close();
  }

  /**
   * NewClient: parse the base URL, make its path end in "/v1/", and fall back to
   * the default HTTP client when none is given. `parse` stands for url.Parse and
   * `defaultClient` for http.DefaultClient.
   */
  method NewClient(baseURL: string, httpClient: HttpClient?, defaultClient: HttpClient,
                   parse: string -> Result<Url, Error>)
    returns (r: Result<Client, Error>)
    ensures parse(baseURL).Failure? ==> r == Failure(parse(baseURL).error)
    ensures parse(baseURL).Success? ==>
              && r.Success? && fresh(r.value)
              && r.value.httpClient == (if httpClient == null then defaultClient else httpClient)
              && r.value.baseURL == parse(baseURL).value.(path := NormalizedPath(parse(baseURL).value.path))
  {
    var client := if httpClient == null then defaultClient else httpClient;
    var parsed := parse(baseURL);
    if parsed.Failure? {
      return Failure(parsed.error);
    }
    var u := parsed.value;
    NormalizationSteps(u.path);
    if !EndsWith(u.path, "/") {
      u := u.(path := u.path + "/");
    }
    if !EndsWith(u.path, "/v1/") {
      u := u.(path := u.path + "v1/");
    }
    var c := new Client(client, u);
    r := Success(c);
  }

  /**
   * NewClientFromEnvironment: an error when FORM3_BASE_URL is not set in `env`,
   * otherwise NewClient on its value with the default HTTP client.
   */
  method NewClientFromEnvironment(env: map<string, string>, defaultClient: HttpClient,
                                  parse: string -> Result<Url, Error>)
    returns (r: Result<Client, Error>)
    ensures BaseURLKey !in env ==> r == Failure(MissingBaseURLError)
    ensures BaseURLKey in env && parse(env[BaseURLKey]).Failure? ==>
              r == Failure(parse(env[BaseURLKey]).error)
    ensures BaseURLKey in env && parse(env[BaseURLKey]).Success? ==>
              && r.Success? && fresh(r.value)
              && r.value.httpClient == defaultClient
              && r.value.baseURL == parse(env[BaseURLKey]).value.(path := NormalizedPath(parse(env[BaseURLKey]).value.path))
  {
    if BaseURLKey !in env {
      return Failure(MissingBaseURLError);
    }
    r := NewClient(env[BaseURLKey], null, defaultClient, parse);
  }

  // ---------------------------------------------------------------------------
  // Worked examples
  // ---------------------------------------------------------------------------

  /** The base URL http://localhost becomes http://localhost/v1/. */
  lemma LocalhostBaseExample()
    ensures NormalizedPath("") == "/v1/"
    ensures UrlString(Url("http", "localhost", NormalizedPath(""), None)) == "http://localhost/v1/"
  {
  }

  /** Against that base, the relative path "test" resolves to http://localhost/v1/test. */
  lemma LocalhostRequestExample()
    ensures Resolve(Url("http", "localhost", "/v1/", None), SplitReference("test"))
         == Url("http", "localhost", "/v1/test", None)
  {
    var base := Url("http", "localhost", "/v1/", None);
    TestReference();
    assert Directory(base.path) == "/v1/";
    assert Merge(base, "test") == "/v1/test";
  }

  /** That URL renders as http://localhost/v1/test. */
  lemma LocalhostRequestString()
    ensures UrlString(Url("http", "localhost", "/v1/test", None)) == "http://localhost/v1/test"
  {
  }

  lemma TestReference()
    ensures SplitReference("test") == Reference("test", None)
    ensures ModelledReference("test")
  {
    CutAbsent("test", '?');
  }

  /**
   * Do as written, with a context cancelled before the call and a server that
   * answers 200: the request is sent and the call succeeds, where the method's
   * documentation promises ctx.Err().
   */
  method CancelledContextIgnoredAsWritten() returns (sent: nat, resp: Option<Response>, err: Option<Error>)
    ensures sent == 1 && resp.Some? && resp.value.statusCode == 200 && err.None?
  {
    var h := new HttpClient();
    var c := new Client(h, Url("http", "localhost", "/v1/", None));
    var req := new Request("GET", Url("http", "localhost", "/v1/test", None), None);
    resp, err := c.DoAsWritten<int>(Some(Context(true, false, Canceled)), req, null, Delivered(200, "", None),
                                    s => Failure(External("decode")), s => Success(""));
    sent := |h.sent|;
  }

  /** The same call with the context bound to the request: nothing is sent and ctx.Err() is returned. */
  method CancelledContextHonoured() returns (sent: nat, resp: Option<Response>, err: Option<Error>)
    ensures sent == 0 && resp.None? && err == Some(ContextError(Canceled))
  {
    var h := new HttpClient();
    var c := new Client(h, Url("http", "localhost", "/v1/", None));
    var req := new Request("GET", Url("http", "localhost", "/v1/test", None), None);
    resp, err := c.Do<int>(Some(Context(true, false, Canceled)), req, null, Delivered(200, "", None),
                           s => Failure(External("decode")), s => Success(""));
    sent := |h.sent|;
  }
}
