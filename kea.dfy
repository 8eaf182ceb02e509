/** The transport envelope of the Kea control-agent client: the request
    record and its serialisation, URL normalisation and headers in `make`,
    the result-code classification in `checkResponse` and the decode rules
    in `do`. The HTTP exchange itself is an input: a transport error, an
    undecodable body, or the decoded array of response envelopes. */
module Kea {
  import opened Wrappers
  import opened Text
  import opened Json

  const PackageName: string := "kea"
  const EnvUser: string := "KEA_USERNAME"
  const EnvPass: string := "KEA_PASSWORD"
  const ApplicationJson: string := "application/json"
  const MethodPost: string := "POST"

  /** logrus levels, most severe first. */
  datatype Level = PanicLevel | FatalLevel | ErrorLevel | WarnLevel | InfoLevel | DebugLevel | TraceLevel

  datatype Auth = Auth(username: string, password: string)

  /** The connection settings of the `http.Client`: a pooled transport that
      either skips TLS verification or routes through a proxy. */
  datatype Transport = Transport(insecureSkipVerify: bool, proxy: Option<string>)

  /** `timeout` is a `time.Duration` in nanoseconds; 0 means no timeout. */
  datatype HttpClient = HttpClient(transport: Transport, timeout: int)

  /** The configured client. Nothing changes it after construction. */
  datatype Client = Client(http: HttpClient, level: Level, auth: Auth, remote: string)

  /** The server tags Kea attaches to configuration-backend objects. */
  datatype Metadata = Metadata(serverTags: seq<string>)

  /** The generic Kea command: `arguments` and `service` are `omitempty`. */
  datatype Request = Request(command: string, arguments: map<string, Json>, service: seq<string>)

  /** Every caller in the client asks the DHCPv4 server. */
  const Dhcp4: seq<string> := ["dhcp4"]

  /** A command addressed to the DHCPv4 server. */
  function Dhcp4Command(command: string, arguments: map<string, Json>): (r: Request)
    ensures r.command == command && r.arguments == arguments && r.service == Dhcp4
  {
    Request(command, arguments, Dhcp4)
  }

  /** A configuration-backend command for the DHCPv4 server: it names the
      remote and carries `server-tags` exactly when `tagged`. */
  predicate ConfigBackend(r: Request, c: Client, tagged: bool) {
    && r.service == Dhcp4
    && "remote" in r.arguments && r.arguments["remote"] == RemoteArg(c)
    && ("server-tags" in r.arguments <==> tagged)
    && (tagged ==> r.arguments["server-tags"] == AllServerTags)
  }

  /** A command that leaves the configuration backend out. */
  predicate Unbacked(r: Request) {
    r.service == Dhcp4 && "remote" !in r.arguments && "server-tags" !in r.arguments
  }

  /** `{"type": c.remote}`, the configuration-backend selector. */
  function RemoteArg(c: Client): Json {
    Obj(map["type" := Str(c.remote)])
  }

  /** `["all"]`, the server-tags argument. */
  const AllServerTags: Json := Strs(["all"])

  /** The fields of `Request` in declaration order. */
  function RequestFields(r: Request): seq<Field> {
    [ Always("command", Str(r.command)),
      Field("arguments", |r.arguments| == 0, Obj(r.arguments)),
      Field("service", |r.service| == 0, Strs(r.service)) ]
  }

  /** The JSON body `make` writes for a request: the command always, the
      arguments and the service list only when not empty. */
  function EncodeRequest(r: Request): (j: Json)
    ensures j.Obj? && "command" in j.fields && j.fields["command"] == Str(r.command)
    ensures "arguments" in j.fields <==> |r.arguments| > 0
    ensures "arguments" in j.fields ==> j.fields["arguments"] == Obj(r.arguments)
    ensures "service" in j.fields <==> |r.service| > 0
    ensures "service" in j.fields ==> j.fields["service"] == Strs(r.service)
    ensures j.fields.Keys <= {"command", "arguments", "service"}
  {
    var fs := RequestFields(r);
    assert DistinctKeys(fs);
    FieldWritten(fs, 0); FieldWritten(fs, 1); FieldWritten(fs, 2);
    OnlyFieldsWritten(fs);
    Struct(fs)
  }

  /** The HTTP request `make` builds. `basicAuth` is what `SetBasicAuth`
      encodes into the `Authorization` header (section 2 of RFC 7617). */
  datatype HttpRequest = HttpRequest(verb: string, url: string, header: map<string, string>, basicAuth: Auth, body: Json)

  /** The URL `make` sends to: `https://` is prepended unless already there,
      then `/` is appended unless already there. */
  function NormalizeURL(url: string): (u: string)
    ensures HasPrefix(u, "https://") && HasSuffix(u, "/")
  {
    var withScheme := if HasPrefix(url, "https://") then url else "https://" + url;
    assert HasPrefix(withScheme, "https://") by {
      if !HasPrefix(url, "https://") {
        assert withScheme[..8] == "https://";
      }
    }
    var u := if HasSuffix(withScheme, "/") then withScheme else withScheme + "/";
    assert u[..8] == withScheme[..8];
    u
  }

  lemma NormalizeKeepsNormal(url: string)
    requires HasPrefix(url, "https://") && HasSuffix(url, "/")
    ensures NormalizeURL(url) == url
  {
  }

  /** Normalising twice is normalising once. */
  lemma NormalizeIdempotent(url: string)
    ensures NormalizeURL(NormalizeURL(url)) == NormalizeURL(url)
  {
    NormalizeKeepsNormal(NormalizeURL(url));
  }

  /** Only the literal `https://` counts as a scheme: a host written with
      `http://` is wrapped a second time. */
  lemma NormalizeWrapsHttp(host: string)
    requires |host| > 0 && host[|host| - 1] != '/'
    ensures NormalizeURL("http://" + host) == "https://http://" + host + "/"
  {
    var url := "http://" + host;
    assert url[4] == ':';
    assert !HasPrefix(url, "https://");
    var w := "https://" + url;
    assert w == "https://http://" + host;
    assert w[|w| - 1] == host[|host| - 1];
    assert !HasSuffix(w, "/");
  }

  /** `make`: the URL is normalised step by step, the JSON headers and the
      Basic credentials are set, and the request fails only when
      `http.NewRequestWithContext` rejects the URL (`urlError` gives its
      message). Query parameters are never passed by any caller. */
  method Make(c: Client, verb: string, url: string, body: Request, urlError: string -> Option<string>)
    returns (r: Result<HttpRequest, string>)
    ensures r.Failure? <==> urlError(NormalizeURL(url)).Some?
    ensures r.Failure? ==> r.error == urlError(NormalizeURL(url)).value
    ensures r.Success? ==> r.value.url == NormalizeURL(url) && r.value.verb == verb
    ensures r.Success? ==> r.value.header == map["Content-Type" := ApplicationJson, "Accept" := ApplicationJson]
    ensures r.Success? ==> r.value.basicAuth == c.auth && r.value.body == EncodeRequest(body)
  {
    var buf := EncodeRequest(body);
    var u := url;
    if !HasPrefix(u, "https://") {
      u := "https://" + u;
    }
    if !HasSuffix(u, "/") {
      u := u + "/";
    }
    match urlError(u)
    case Some(msg) =>
      return Failure(msg);
    case None =>
    var header: map<string, string> := map[];
    header := header["Content-Type" := ApplicationJson];
    header := header["Accept" := ApplicationJson];
    r := Success(HttpRequest(verb, u, header, c.auth, buf));
  }

  // ---- Replies -------------------------------------------------------

  /** What decoding an envelope's `arguments` into a target of type `T`
      gives: nothing to decode (absent, or JSON `null`, which `io.EOF` or a
      no-op decode), a decode failure with whatever was filled in before it,
      or the decoded value. */
  datatype Payload<T> = NoArguments | Malformed(msg: string, partial: T) | Arguments(value: T)

  /** One element of the array Kea answers with. */
  datatype Response<T> = Response(result: int, text: string, arguments: Payload<T>)

  /** The HTTP body: not a JSON array of envelopes, or the decoded array. */
  datatype Body<T> = Unparsable(msg: string) | Envelopes(items: seq<Response<T>>)

  /** `http.Client.Do`: a transport error or an answer. */
  datatype Exchange<T> = TransportError(msg: string) | Answer(body: Body<T>)

  /** A whole call: `make` failed, or the request was sent. */
  datatype Wire<T> = Unbuilt(msg: string) | Sent(exchange: Exchange<T>)

  /** The errors the client returns. */
  datatype Error =
    | RequestFailed(msg: string)        // from `make` or `http.Client.Do`, passed through
    | EnvelopeUnparsable(msg: string)
    | EnvelopeEmpty
    | ResultCode(code: int, text: string)
    | PayloadUndecodable(msg: string)
    | InvalidIP
    | InvalidMAC

  /** `err.Error()`. */
  function Message(e: Error): string {
    match e
    case RequestFailed(m) => m
    case EnvelopeUnparsable(m) => "checkResponse.json.Unmarshal(" + m + ")"
    case EnvelopeEmpty => EmptyEnvelopeMessage
    case ResultCode(code, text) => "result:" + Decimal(code) + "(" + text + ")"
    case PayloadUndecodable(m) => "failure decoding payload: " + m
    case InvalidIP => "invalid IP address"
    case InvalidMAC => "invalid MAC address"
  }

  /** `checkResponse`'s text for an empty array, which `%v` renders as `[]`. */
  const EmptyEnvelopeMessage: string := "checkResponse(" + "Unable to " + "find " + "response " + "in [])"

  const NotFound: string := "not found"

  /** The provider's and `RemoteOptionDef4Get`'s test for an absent object. */
  predicate IsNotFound(e: Error) {
    Contains(Message(e), NotFound)
  }

  /** For a Kea result code, whether the error counts as "not found"
      depends only on the server's text, never on the code. */
  lemma NotFoundIsInText(code: int, text: string)
    ensures IsNotFound(ResultCode(code, text)) <==> Contains(text, NotFound)
  {
    var a := "result:" + Decimal(code) + "(";
    assert 'n' !in a by {
      assert 'n' !in "result:";
      assert forall i | 0 <= i < |a| :: a[i] == 'n' ==> false by {
        forall i | 0 <= i < |a| ensures a[i] != 'n' {
          if 7 <= i < 7 + |Decimal(code)| {
            assert a[i] == Decimal(code)[i - 7];
          }
        }
      }
    }
    assert ')' !in NotFound;
    ContainsInfix(a, text, ')', NotFound);
    assert Message(ResultCode(code, text)) == a + text + [')'];
  }

  lemma NotFoundIgnoresCode(c1: int, c2: int, text: string)
    ensures IsNotFound(ResultCode(c1, text)) == IsNotFound(ResultCode(c2, text))
  {
    NotFoundIsInText(c1, text);
    NotFoundIsInText(c2, text);
  }

  /** The client's own errors are never mistaken for an absent object. */
  lemma LocalErrorsAreFound()
    ensures !IsNotFound(EnvelopeEmpty) && !IsNotFound(InvalidIP) && !IsNotFound(InvalidMAC)
  {
    assert NotFound[6] == 'u' && NotFound[4] == 'f';
    assert 'u' !in "checkResponse(" && 'u' !in "Unable to " && 'u' !in "find ";
    assert 'u' !in "response " && 'u' !in "in [])";
    NoOccurrenceWithoutChar(Message(EnvelopeEmpty), NotFound, 6);
    NoOccurrenceWithoutChar(Message(InvalidIP), NotFound, 4);
    NoOccurrenceWithoutChar(Message(InvalidMAC), NotFound, 4);
  }

  /** `checkResponse`: only element 0 of the array is looked at. */
  function CheckResponse<T>(body: Body<T>): (r: Result<Response<T>, Error>)
    ensures body.Unparsable? ==> r == Failure(EnvelopeUnparsable(body.msg))
    ensures body.Envelopes? && |body.items| == 0 ==> r == Failure(EnvelopeEmpty)
    ensures r.Success? <==> body.Envelopes? && |body.items| > 0 && body.items[0].result == 0
    ensures r.Success? ==> r.value == body.items[0]
    ensures body.Envelopes? && |body.items| > 0 && body.items[0].result != 0 ==>
              r == Failure(ResultCode(body.items[0].result, body.items[0].text))
  {
    match body
    case Unparsable(m) => Failure(EnvelopeUnparsable(m))
    case Envelopes(items) =>
      if |items| == 0 then Failure(EnvelopeEmpty)
      else if items[0].result == 0 then Success(items[0])
      else Failure(ResultCode(items[0].result, items[0].text))
  }

  /** Elements after the first never influence the classification. */
  lemma CheckResponseFirstOnly<T>(items: seq<Response<T>>, rest: seq<Response<T>>)
    requires |items| > 0
    ensures CheckResponse(Envelopes(items + rest)) == CheckResponse(Envelopes(items[..1]))
  {
    assert (items + rest)[0] == items[..1][0];
  }

  /** What `do` returns (the envelope and the error) and what it left in the
      caller's target. */
  datatype DoResult<T> = DoResult(response: Option<Response<T>>, target: T, err: Option<Error>)

  /** `do(req, v)`: `decode` is false when `v` is nil. The error a deferred
      close of the body would annotate is lost, because `err` is not a
      named result and the return value is fixed before the deferred call. */
  function Do<T>(ex: Exchange<T>, target: T, decode: bool): (r: DoResult<T>)
    ensures ex.TransportError? ==> r == DoResult(None, target, Some(RequestFailed(ex.msg)))
    ensures ex.Answer? && CheckResponse(ex.body).Failure? ==>
              r == DoResult(None, target, Some(CheckResponse(ex.body).error))
    ensures ex.Answer? && CheckResponse(ex.body).Success? ==> r.response == Some(CheckResponse(ex.body).value)
    ensures !decode ==> r.target == target && (r.err.None? <==> r.response.Some?)
    ensures r.err.Some? && r.response.Some? ==> decode && r.response.value.arguments.Malformed?
    ensures r.response.Some? && !r.response.value.arguments.Malformed? ==> r.err.None?
  {
    match ex
    case TransportError(m) => DoResult(None, target, Some(RequestFailed(m)))
    case Answer(body) =>
      match CheckResponse(body)
      case Failure(e) => DoResult(None, target, Some(e))
      case Success(res) =>
        if !decode then DoResult(Some(res), target, None)
        else
          match res.arguments
          case NoArguments => DoResult(Some(res), target, None)
          case Malformed(m, partial) => DoResult(Some(res), partial, Some(PayloadUndecodable(m)))
          case Arguments(v) => DoResult(Some(res), v, None)
  }

  // ---- The declarative view of a call --------------------------------

  /** A call succeeds when the request was built and sent, the first
      envelope carries result 0, and its arguments, if any, decode. */
  predicate Succeeds<T>(wire: Wire<T>) {
    Accepted(wire) && !wire.exchange.body.items[0].arguments.Malformed?
  }

  /** The request was built and sent and the first envelope carries result 0. */
  predicate Accepted<T>(wire: Wire<T>) {
    wire.Sent? && wire.exchange.Answer? && wire.exchange.body.Envelopes?
    && |wire.exchange.body.items| > 0
    && wire.exchange.body.items[0].result == 0
  }

  /** The error of a failed call, by the stage that failed. */
  function ErrorOf<T>(wire: Wire<T>): Error
    requires !Succeeds(wire)
  {
    match wire
    case Unbuilt(m) => RequestFailed(m)
    case Sent(TransportError(m)) => RequestFailed(m)
    case Sent(Answer(Unparsable(m))) => EnvelopeUnparsable(m)
    case Sent(Answer(Envelopes(items))) =>
      if |items| == 0 then EnvelopeEmpty
      else if items[0].result != 0 then ResultCode(items[0].result, items[0].text)
      else PayloadUndecodable(items[0].arguments.msg)
  }

  /** The first envelope of a successful call. */
  function Envelope<T>(wire: Wire<T>): Response<T>
    requires Accepted(wire)
  {
    wire.exchange.body.items[0]
  }

  /** The reply a successful call decodes into a target starting at `zero`. */
  function Decoded<T>(wire: Wire<T>, zero: T): T
    requires Succeeds(wire)
  {
    match Envelope(wire).arguments
    case Arguments(v) => v
    case _ => zero
  }

  /** `make` then `do` with a non-nil target. */
  function Call<T>(wire: Wire<T>, zero: T): (r: DoResult<T>)
    ensures r.err.None? <==> Succeeds(wire)
    ensures r.err.Some? ==> r.err.value == ErrorOf(wire)
    ensures Succeeds(wire) ==> r.target == Decoded(wire, zero) && r.response == Some(Envelope(wire))
    ensures !Accepted(wire) ==> r.target == zero
    ensures Accepted(wire) && !Succeeds(wire) ==> r.target == Envelope(wire).arguments.partial
  {
    match wire
    case Unbuilt(m) => DoResult(None, zero, Some(RequestFailed(m)))
    case Sent(ex) => Do(ex, zero, true)
  }

  /** `make` then `do` with a nil target: the envelope alone. */
  function CallUndecoded<T>(wire: Wire<T>, zero: T): (r: DoResult<T>)
    ensures r.err.None? <==> r.response.Some?
    ensures r.response.Some? <==> Accepted(wire)
    ensures r.response.Some? ==> r.response.value == Envelope(wire)
    ensures !Accepted(wire) ==> !Succeeds(wire) && r.err == Some(ErrorOf(wire))
    ensures r.target == zero
  {
    match wire
    case Unbuilt(m) => DoResult(None, zero, Some(RequestFailed(m)))
    case Sent(ex) => Do(ex, zero, false)
  }

  /** A client method that validates its input first: the request it would
      send, if validation passed, and the error it returns. */
  datatype Issued = Issued(request: Option<Request>, err: Option<Error>)

  /** A Go `(value, error)` pair. */
  datatype Outcome<X> = Outcome(value: X, err: Option<Error>)

  /** The usual client method ending: the extracted reply on success, the
      method's zero result and the error otherwise. */
  function Finish<T, X>(wire: Wire<T>, zeroTarget: T, extract: T -> X, zeroResult: X): (r: Outcome<X>)
    ensures Succeeds(wire) ==> r == Outcome(extract(Decoded(wire, zeroTarget)), None)
    ensures !Succeeds(wire) ==> r == Outcome(zeroResult, Some(ErrorOf(wire)))
  {
    var d := Call(wire, zeroTarget);
    if d.err.Some? then Outcome(zeroResult, d.err) else Outcome(extract(d.target), None)
  }

  /** The error of a call whose reply is decoded into an `interface{}` and
      then dropped: nil exactly when the call succeeded. */
  function StatusOf(wire: Wire<()>): (err: Option<Error>)
    ensures err.None? <==> Succeeds(wire)
    ensures err.Some? ==> err.value == ErrorOf(wire)
  {
    Call(wire, ()).err
  }
}
