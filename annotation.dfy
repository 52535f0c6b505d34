/** The annotation write of influxdl (`addAnnotation`): the request it builds
    from the configured address, credentials, label and instant, and the one
    round-trip it performs. URL parsing, JSON encoding, request construction
    and the HTTP exchange are collaborators that may fail. */
module Annotation {
  import opened Wrappers
  import opened Scheduler

  type byte = bv8

  /** An error value as the collaborators return it; `log.Print` shows its message. */
  datatype Error = Error(message: string)

  /** The parts of a parsed URL. */
  datatype Url = Url(scheme: string, user: string, host: string, path: string, rawQuery: string, fragment: string)

  /** The JSON document sent: `{"time": …, "isRegion": …, "text": …}`. */
  datatype Body = Body(time: int, isRegion: bool, text: string)

  /** User name and password for HTTP Basic authentication. */
  datatype Credentials = Credentials(username: string, password: string)

  /** The request handed to the HTTP client: `verb` is its HTTP method; `header` holds the headers set
      with `Header.Set`; Basic credentials are kept apart in `basicAuth`. */
  datatype Request = Request(
    verb: string,
    url: Url,
    header: map<string, string>,
    basicAuth: Option<Credentials>,
    body: Body,
    encoded: seq<byte>)

  /** What the HTTP round-trip returns when it completes. */
  datatype Response = Response(statusCode: int)

  /** The library calls `addAnnotation` depends on: `url.Parse`,
      `json.Marshal` and `http.NewRequest` (which reports an error or none). */
  datatype Library = Library(
    parse: string -> Result<Url, Error>,
    marshal: Body -> Result<seq<byte>, Error>,
    newRequest: (string, Url, seq<byte>) -> Option<Error>)

  /** `http.DefaultClient.Do`: the network's answer to one request. */
  type Transport = Request -> Result<Response, Error>

  const MethodPost: string := "POST"
  const AnnotationsPath: string := "/api/annotations"
  const ContentTypeKey: string := "Content-Type"
  const ContentTypeJson: string := "application/json"
  const UserAgentKey: string := "User-Agent"
  const UserAgent: string := "Influx Daylight"

  /** `t.Unix()`: whole seconds since the epoch, rounded towards minus infinity. */
  function UnixSeconds(t: Instant): (s: int)
    ensures s * Second <= t < s * Second + Second
  {
    t / Second
  }

  /** The request `addAnnotation` sends, or the first error on the way to it. */
  function BuildRequest(addr: string, username: string, password: string, text: string, t: Instant, lib: Library)
    : (r: Result<Request, Error>)
    // a failed parse is reported as it is, before anything else is attempted
    ensures lib.parse(addr).Failure? ==> r == Failure(lib.parse(addr).error)
    // every other failure is that of encoding or of request construction
    ensures r.Failure? && lib.parse(addr).Success? ==>
              (lib.marshal(Body(UnixSeconds(t), false, text)) == Failure(r.error)) ||
              (lib.marshal(Body(UnixSeconds(t), false, text)).Success? &&
               lib.newRequest(MethodPost, lib.parse(addr).value.(path := AnnotationsPath),
                              lib.marshal(Body(UnixSeconds(t), false, text)).value) == Some(r.error))
    ensures r.Success? <==>
              lib.parse(addr).Success? &&
              lib.marshal(Body(UnixSeconds(t), false, text)).Success? &&
              lib.newRequest(MethodPost, lib.parse(addr).value.(path := AnnotationsPath),
                             lib.marshal(Body(UnixSeconds(t), false, text)).value).None?
    ensures r.Success? ==> r.value.verb == MethodPost
    // the path is forced, whatever path the address had; the rest of the address is kept
    ensures r.Success? ==> r.value.url.path == AnnotationsPath
    ensures r.Success? ==>
              var u := lib.parse(addr).value;
              r.value.url.scheme == u.scheme && r.value.url.user == u.user && r.value.url.host == u.host &&
              r.value.url.rawQuery == u.rawQuery && r.value.url.fragment == u.fragment
    ensures r.Success? ==>
              r.value.header.Keys == {ContentTypeKey, UserAgentKey} &&
              r.value.header[ContentTypeKey] == ContentTypeJson && r.value.header[UserAgentKey] == UserAgent
    // credentials are attached exactly when both strings are non-empty
    ensures r.Success? ==> (r.value.basicAuth.Some? <==> username != "" && password != "")
    ensures r.Success? && r.value.basicAuth.Some? ==> r.value.basicAuth.value == Credentials(username, password)
    ensures r.Success? ==> r.value.body.time * Second <= t < r.value.body.time * Second + Second
    ensures r.Success? ==> !r.value.body.isRegion && r.value.body.text == text
    ensures r.Success? ==> lib.marshal(r.value.body) == Success(r.value.encoded)
  {
    match lib.parse(addr)
    case Failure(e) => Failure(e)
    case Success(parsed) =>
      var u := parsed.(path := AnnotationsPath);
      var body := Body(UnixSeconds(t), false, text);
      match lib.marshal(body)
      case Failure(e) => Failure(e)
      case Success(b) =>
        match lib.newRequest(MethodPost, u, b)
        case Some(e) => Failure(e)
        case None =>
          var header := map[ContentTypeKey := ContentTypeJson, UserAgentKey := UserAgent];
          var auth := if username != "" && password != "" then Some(Credentials(username, password)) else None;
          Success(Request(MethodPost, u, header, auth, body, b))
  }

  /** `addAnnotation`: build the request and send it once. The result is
      `None` (Go's `nil`) when a response came back, whatever its status. */
  function AddAnnotation(addr: string, username: string, password: string, text: string, t: Instant,
                         lib: Library, send: Transport): (r: Option<Error>)
    ensures BuildRequest(addr, username, password, text, t, lib).Failure? ==>
              r == Some(BuildRequest(addr, username, password, text, t, lib).error)
    ensures BuildRequest(addr, username, password, text, t, lib).Success? ==>
              var req := BuildRequest(addr, username, password, text, t, lib).value;
              (r.None? <==> send(req).Success?) &&
              (send(req).Failure? ==> r == Some(send(req).error))
  {
    match BuildRequest(addr, username, password, text, t, lib)
    case Failure(e) => Some(e)
    case Success(req) =>
      match send(req)
      case Failure(e) => Some(e)
      case Success(_) => None
  }

  /** A failed address parse returns its error and sends nothing: the
      transport cannot influence the result. */
  lemma ParseFailureSendsNothing(addr: string, username: string, password: string, text: string, t: Instant,
                                 lib: Library, send: Transport, send': Transport)
    requires lib.parse(addr).Failure?
    ensures AddAnnotation(addr, username, password, text, t, lib, send) == Some(lib.parse(addr).error)
    ensures AddAnnotation(addr, username, password, text, t, lib, send) ==
            AddAnnotation(addr, username, password, text, t, lib, send')
  {
  }

  /** The response status is never inspected: any two transports that both
      complete the round-trip give the same result, no error. */
  lemma StatusIgnored(addr: string, username: string, password: string, text: string, t: Instant,
                      lib: Library, send: Transport, send': Transport)
    requires BuildRequest(addr, username, password, text, t, lib).Success?
    requires send(BuildRequest(addr, username, password, text, t, lib).value).Success?
    requires send'(BuildRequest(addr, username, password, text, t, lib).value).Success?
    ensures AddAnnotation(addr, username, password, text, t, lib, send) == None
    ensures AddAnnotation(addr, username, password, text, t, lib, send') == None
  {
  }

  /** The body carries the instant at second precision: every instant within
      the same second yields the same request. */
  lemma SecondPrecision(addr: string, username: string, password: string, text: string, t: Instant, t': Instant,
                        lib: Library)
    requires t / Second == t' / Second
    ensures BuildRequest(addr, username, password, text, t, lib) == BuildRequest(addr, username, password, text, t', lib)
  {
  }
}
