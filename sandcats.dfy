/** The ACME DNS-01 challenge provider for sandcats.io hostnames. */
module Sandcats {
  import opened Wrappers
  import opened Names
  import opened TxtLookup
  import opened Provisioning

  /** The options a provider is created with. */
  datatype ProviderOptions = ProviderOptions(
    key: string,
    cert: string,
    hostname: string,
    bindIp: Option<string>,
    isTest: bool)

  /** The part of an ACME challenge object the provider reads: the host the
      orchestrator wants validated and the proof token. */
  datatype AcmeChallenge = AcmeChallenge(dnsHost: string, dnsAuthorization: string)

  /** The public DNS as seen by one query: the outcome of resolving TXT at a name. */
  type Resolver = string -> ResolveOutcome

  class Challenge {
    const key: string
    const cert: string
    const hostname: string
    const bindIp: Option<string>
    const isTest: bool

    constructor (options: ProviderOptions)
      ensures key == options.key && cert == options.cert && hostname == options.hostname
      ensures bindIp == options.bindIp && isTest == options.isTest
    {
      key := options.key;
      cert := options.cert;
      hostname := options.hostname;
      bindIp := options.bindIp;
      isTest := options.isTest;
    }

    /** The zones to validate: exactly one, the provider's own; the hosts the
        orchestrator proposes are ignored. */
    function Zones(dnsHosts: seq<string>): (zones: seq<string>)
      ensures |zones| == 1 && HostnameOf(zones[0]) == Some(hostname)
    {
      ZoneRoundTrip(hostname);
      [ZoneOf(hostname)]
    }

    /** One propagation check: the TXT record at the provider's own challenge
        name is looked up, whatever host the challenge names, and the result
        depends only on the token and what the resolver reports there. */
    function Get(ch: AcmeChallenge, resolve: Resolver): (r: Result<Option<Authorization>, DnsError>)
      ensures var outcome := resolve(ChallengeRecordName(hostname));
        && (r.Err? <==> outcome.Failed? && !IsAbsence(outcome.error))
        && (r.Err? ==> r.error == outcome.error)
        && (r == Ok(Some(Authorization(ch.dnsAuthorization))) <==>
              outcome.Resolved? && ch.dnsAuthorization != "" && Published(outcome.records, ch.dnsAuthorization))
        && (r.Ok? ==> r.value == None || r.value == Some(Authorization(ch.dnsAuthorization)))
    {
      Lookup(ch.dnsAuthorization, resolve(ChallengeRecordName(hostname)))
    }

    /** The options every provisioning request is sent with, the bind address
        applied as intended (the source never applies it). */
    function Options(): (o: RequestOptions)
      ensures o.(localAddress := None) == BaseOptions(key, cert)
      ensures o.localAddress == (if Truthy(bindIp) then bindIp else None)
    {
      RequestOptionsFor(key, cert, bindIp)
    }

    /** Publishes the challenge's token for the provider's hostname. */
    method Set(ch: AcmeChallenge, transport: Transport) returns (r: Outcome<RequestError>)
      ensures r == Interpret(transport(Options(), SetPayload(hostname, ch.dnsAuthorization)))
      ensures !Truthy(bindIp) ==>
                r == RequestOutcomeAsWritten(key, cert, bindIp, SetPayload(hostname, ch.dnsAuthorization), transport)
    {
      r := Request(SetPayload(hostname, ch.dnsAuthorization), transport);
    }

    /** Retracts every value published for the provider's hostname. */
    method Remove(transport: Transport) returns (r: Outcome<RequestError>)
      ensures r == Interpret(transport(Options(), RemovePayload(hostname)))
      ensures !Truthy(bindIp) ==> r == RequestOutcomeAsWritten(key, cert, bindIp, RemovePayload(hostname), transport)
    {
      r := Request(RemovePayload(hostname), transport);
    }

    /** One authenticated POST: build the options, send the payload, read the
        whole body, and only then judge the status. */
    method Request(postData: map<string, string>, transport: Transport) returns (r: Outcome<RequestError>)
      ensures r == Interpret(transport(Options(), postData))
      ensures !Truthy(bindIp) ==> r == RequestOutcomeAsWritten(key, cert, bindIp, postData, transport)
    {
      var options := BaseOptions(key, cert);
      if Truthy(bindIp) {
        options := options.(localAddress := bindIp);
      }
      var exchange := transport(options, postData);
      match exchange
      case ConnectionFailed(reason) =>
        r := Fail(TransportFailure(reason));
      case Response(status, chunks, streamError) =>
        var body := ReadBody(chunks);
        if streamError.Some? {
          r := Fail(TransportFailure(streamError.value));
        } else if status != 200 {
          r := Fail(ProvisioningFailure(FailureMessage(status, body)));
        } else {
          r := Pass;
        }
    }
  }
}
