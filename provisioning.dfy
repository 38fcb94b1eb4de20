/** The provisioning client: the payloads sent to publish or retract a TXT
    value, the request options, and how a response becomes the call's outcome. */
module Provisioning {
  import opened Wrappers
  import opened Strings

  const RawHostnameKey := "rawHostname"
  const ValueKey := "value"

  /** The publish payload: the provider's hostname and the proof value. */
  function SetPayload(hostname: string, value: string): (p: map<string, string>)
    ensures p.Keys == {RawHostnameKey, ValueKey}
    ensures p[RawHostnameKey] == hostname && p[ValueKey] == value
  {
    map[RawHostnameKey := hostname, ValueKey := value]
  }

  /** The retract payload: the provider's hostname only, meaning "remove every value". */
  function RemovePayload(hostname: string): (p: map<string, string>)
    ensures p.Keys == {RawHostnameKey} && p[RawHostnameKey] == hostname
  {
    map[RawHostnameKey := hostname]
  }

  /** Retracting names the same host as publishing and drops exactly the value key. */
  lemma RemoveIsSetWithoutValue(hostname: string, value: string)
    ensures RemovePayload(hostname) == SetPayload(hostname, value) - {ValueKey}
    ensures ValueKey !in RemovePayload(hostname)
  {
    assert RawHostnameKey != ValueKey;
  }

  /** The options of the authenticated POST to the provisioning endpoint. */
  datatype RequestOptions = RequestOptions(
    host: string,
    path: string,
    httpMethod: string,
    pooledAgent: bool,
    key: string,
    cert: string,
    headers: map<string, string>,
    localAddress: Option<string>)

  /** JavaScript truthiness of an optional string. */
  predicate Truthy(s: Option<string>)
  {
    s.Some? && s.value != ""
  }

  /** The options before any local address is bound. */
  function BaseOptions(key: string, cert: string): (o: RequestOptions)
    ensures o.host == "sandcats.io" && o.path == "/acme-challenge" && o.httpMethod == "POST"
    ensures !o.pooledAgent && o.key == key && o.cert == cert && o.localAddress == None
    ensures o.headers == map["X-Sand" := "cats", "Content-Type" := "application/x-www-form-urlencoded"]
  {
    RequestOptions("sandcats.io", "/acme-challenge", "POST", false, key, cert,
                   map["X-Sand" := "cats", "Content-Type" := "application/x-www-form-urlencoded"], None)
  }

  /** The message of the ReferenceError thrown by reading an undeclared `bindIp`. */
  const UndeclaredBindIp := "ReferenceError: bindIp is not defined"

  /** The options as the source builds them: a truthy bind address makes it read
      the undeclared variable `bindIp`, which throws before any request is made. */
  function RequestOptionsAsWritten(key: string, cert: string, bindIp: Option<string>): (r: Result<RequestOptions, string>)
    ensures r.Ok? <==> !Truthy(bindIp)
    ensures r.Ok? ==> r.value == BaseOptions(key, cert)
  {
    if Truthy(bindIp) then Err(UndeclaredBindIp) else Ok(BaseOptions(key, cert))
  }

  /** Configuring a bind address makes every request fail as written. */
  lemma BindIpAsWrittenThrows(key: string, cert: string, ip: string)
    requires ip != ""
    ensures RequestOptionsAsWritten(key, cert, Some(ip)) == Err(UndeclaredBindIp)
  {
  }

  /** The options as intended: a truthy bind address is applied, and nothing else changes. */
  function RequestOptionsFor(key: string, cert: string, bindIp: Option<string>): (o: RequestOptions)
    ensures o.localAddress == (if Truthy(bindIp) then bindIp else None)
    ensures o.(localAddress := None) == BaseOptions(key, cert)
  {
    var base := BaseOptions(key, cert);
    if Truthy(bindIp) then base.(localAddress := bindIp) else base
  }

  /** What the network delivers for one request: a failure to connect, or a
      status with the body chunks received and whether the stream then failed. */
  datatype HttpExchange =
    | ConnectionFailed(reason: string)
    | Response(statusCode: nat, chunks: seq<string>, streamError: Option<string>)

  /** The transport: one HTTPS exchange for given options and form payload. */
  type Transport = (RequestOptions, map<string, string>) -> HttpExchange

  /** The errors a provisioning call can end with. */
  datatype RequestError =
    | TransportFailure(reason: string)
    | ProvisioningFailure(message: string)
    | ScriptFailure(message: string)

  const FailurePrefix := "sandcats request failed: "

  /** The message of a non-200 failure, carrying the status and the whole body. */
  function FailureMessage(status: nat, body: string): (m: string)
    ensures FailurePrefix <= m
    ensures |m| >= |body| && m[|m| - |body|..] == body
  {
    FailurePrefix + Decimal(status) + ": " + body
  }

  /** Reads a failure message back into its status and body. */
  function ParseFailureMessage(message: string): Option<(nat, string)>
  {
    var n := |FailurePrefix|;
    if |message| < n || message[..n] != FailurePrefix then None
    else
      var rest := message[n..];
      var digits := LeadingDigits(rest);
      var after := rest[|digits|..];
      if digits == "" || |after| < 2 || after[..2] != ": " then None
      else Some((DecimalValue(digits), after[2..]))
  }

  /** The status and the body can always be recovered from the failure message. */
  lemma FailureMessageRoundTrip(status: nat, body: string)
    ensures ParseFailureMessage(FailureMessage(status, body)) == Some((status, body))
  {
    var message := FailureMessage(status, body);
    var d := Decimal(status);
    var n := |FailurePrefix|;
    assert message[..n] == FailurePrefix;
    assert message[n..] == d + (": " + body);
    LeadingDigitsOf(d, ": " + body);
    assert message[n..][|d|..] == ": " + body;
    DecimalRoundTrip(status);
  }

  /** The outcome of a provisioning call once the exchange is over: transport
      failures pass through, status 200 succeeds, any other status fails with
      the status and the full body. */
  function Interpret(exchange: HttpExchange): (r: Outcome<RequestError>)
    ensures r.Pass? <==> exchange.Response? && exchange.streamError == None && exchange.statusCode == 200
    ensures r.Fail? && r.error.ProvisioningFailure? <==>
              exchange.Response? && exchange.streamError == None && exchange.statusCode != 200
    ensures r.Fail? && r.error.ProvisioningFailure? ==>
              && r.error.message == FailureMessage(exchange.statusCode, Concat(exchange.chunks))
              && ParseFailureMessage(r.error.message) == Some((exchange.statusCode, Concat(exchange.chunks)))
    ensures !(r.Fail? && r.error.ScriptFailure?)
    ensures r.Fail? && r.error.TransportFailure? ==>
              r.error.reason == if exchange.ConnectionFailed? then exchange.reason else exchange.streamError.value
  {
    match exchange
    case ConnectionFailed(reason) => Fail(TransportFailure(reason))
    case Response(status, chunks, streamError) =>
      if streamError.Some? then Fail(TransportFailure(streamError.value))
      else if status != 200 then
        FailureMessageRoundTrip(status, Concat(chunks));
        Fail(ProvisioningFailure(FailureMessage(status, Concat(chunks))))
      else Pass
  }

  /** The outcome of a provisioning call as the source runs it: a truthy bind
      address throws before anything is sent; otherwise the exchange made with
      the base options is interpreted. */
  function RequestOutcomeAsWritten(key: string, cert: string, bindIp: Option<string>,
                                   postData: map<string, string>, transport: Transport): (r: Outcome<RequestError>)
    ensures Truthy(bindIp) ==> r == Fail(ScriptFailure(UndeclaredBindIp))
    ensures !Truthy(bindIp) ==> r == Interpret(transport(BaseOptions(key, cert), postData))
  {
    match RequestOptionsAsWritten(key, cert, bindIp)
    case Err(message) => Fail(ScriptFailure(message))
    case Ok(options) => Interpret(transport(options, postData))
  }

  /** Without a bind address the corrected call and the call as written send the
      same request and end the same way; with one, only the corrected call
      reaches the network. */
  lemma CorrectedAgreesWithoutBindIp(key: string, cert: string, bindIp: Option<string>,
                                     postData: map<string, string>, transport: Transport)
    ensures !Truthy(bindIp) <==>
              RequestOutcomeAsWritten(key, cert, bindIp, postData, transport)
                == Interpret(transport(RequestOptionsFor(key, cert, bindIp), postData))
  {
    var corrected := Interpret(transport(RequestOptionsFor(key, cert, bindIp), postData));
    if Truthy(bindIp) {
      assert !(corrected.Fail? && corrected.error.ScriptFailure?);
    } else {
      assert RequestOptionsFor(key, cert, bindIp) == BaseOptions(key, cert);
    }
  }

  /** Accumulates the response body one data chunk at a time. */
  method ReadBody(chunks: seq<string>) returns (body: string)
    ensures body == Concat(chunks)
  {
    body := "";
    var i := 0;
    while i < |chunks|
      invariant i <= |chunks|
      invariant body == Concat(chunks[..i])
    {
      ConcatAppend(chunks[..i], [chunks[i]]);
      assert chunks[..i + 1] == chunks[..i] + [chunks[i]];
      assert Concat([chunks[i]]) == chunks[i] + Concat([]);
      body := body + chunks[i];
      i := i + 1;
    }
    assert chunks[..i] == chunks;
  }
}
