# sandcats ACME DNS-01 challenge provider, modelled in Dafny

This project models the challenge provider that lets an ACME client (RFC 8555)
prove control of a `<hostname>.sandcats.io` domain with the DNS-01 challenge
(section 8.4 of RFC 8555). The provider derives its single zone and its fixed
challenge record name `_acme-challenge.<hostname>.sandcats.io` from its own
hostname. It publishes and retracts the proof token through an authenticated
POST to the sandcats provisioning API. It checks propagation by resolving the
TXT record, joining each record's chunks, and looking for the exact token.

Modules:

- `Wrappers` (wrappers.dfy): `Option`, `Result`, `Outcome`.
- `Strings` (strings.dfy): chunk concatenation (`join("")` and `+=`), decimal form of a number and its inverse.
- `Names` (names.dfy): zone and challenge record name derivation.
- `TxtLookup` (txt_lookup.dfy): classification of the resolver outcome, record reassembly, exact matching, the truthiness test on the first match.
- `Provisioning` (provisioning.dfy): set/remove payloads, request options, the response-body loop, and how a response becomes success or failure.
- `Sandcats` (sandcats.dfy): class `Challenge` with immutable fields `key`, `cert`, `hostname`, `bindIp`, `isTest` and the operations `zones`, `get`, `set`, `remove`, `_request`.

I/O is abstracted as inputs. DNS is a `Resolver`, a function from a record name to what
resolving TXT there reports, so the queried name is part of the model. HTTPS is
a `Transport`, a function from the request options and the form payload to an
`HttpExchange`: a connection failure, or a status with the body chunks and an
optional stream error. Resolver errors are identified by their code; `dns.NOTFOUND`
and `dns.NODATA` are Node's `"ENOTFOUND"` and `"ENODATA"`.

## Model

| member | source | states |
|---|---|---|
| Sandcats.Challenge.constructor | acme-dns-01-sandcats/index.js:8-14 | the provider keeps key, cert, hostname, bindIp and isTest exactly as given |
| Sandcats.Challenge.Zones | acme-dns-01-sandcats/index.js:20-22 | exactly one zone, and it is the provider's own hostname under sandcats.io; the `dnsHosts` argument plays no part |
| Names.ZoneOf | acme-dns-01-sandcats/index.js:21 | the zone is the hostname followed by ".sandcats.io" |
| Names.ZoneRoundTrip | acme-dns-01-sandcats/index.js:21 | stripping ".sandcats.io" from a derived zone gives back the hostname |
| Names.ZoneInjective | acme-dns-01-sandcats/index.js:21 | two providers with different hostnames never share a zone |
| Names.ChallengeRecordName | acme-dns-01-sandcats/index.js:39-42 | the queried name is "_acme-challenge." followed by the provider's zone |
| Names.ChallengeRecordNameInjective | acme-dns-01-sandcats/index.js:42 | different hostnames never query the same record name |
| TxtLookup.IsAbsence | acme-dns-01-sandcats/index.js:44 | an error counts as absence exactly when its code is ENOTFOUND or ENODATA |
| TxtLookup.Classify | acme-dns-01-sandcats/index.js:43-51 | ENOTFOUND and ENODATA become an empty record list; every other error is an error, passed on unchanged; records pass through |
| Strings.Concat | acme-dns-01-sandcats/index.js:55 | the chunks joined in order, as `join("")` at line 55 and the `+=` accumulation at line 101 both produce: empty exactly when every chunk is empty, and it starts with the first chunk |
| Strings.ConcatAppend | acme-dns-01-sandcats/index.js:55 | joining chunks is a homomorphism: joining two runs is joining each and concatenating |
| Strings.ConcatAt | acme-dns-01-sandcats/index.js:55 | each chunk sits in the joined string right after all chunks before it, so order is kept |
| TxtLookup.Reassemble | acme-dns-01-sandcats/index.js:55 | one joined record per resolver record, in the same order, each the in-order join of that record's chunks |
| TxtLookup.Matching | acme-dns-01-sandcats/index.js:56 | the filtered list holds only the token, once per record equal to it |
| TxtLookup.FirstTruthy | acme-dns-01-sandcats/index.js:57-61 | a value is returned only when a first match exists and is not the empty string, and it is that match |
| TxtLookup.Lookup | acme-dns-01-sandcats/index.js:43-61 | an error exactly for non-absence resolver failures, carried unchanged; `{dnsAuthorization: token}` exactly when the token is non-empty and some joined record equals it; otherwise null |
| TxtLookup.SplitRecordMatches | acme-dns-01-sandcats/index.js:55-58 | a token split anywhere into two chunks (such as "abc","def" for "abcdef") still matches |
| TxtLookup.ExtensionDoesNotMatch | acme-dns-01-sandcats/index.js:56-61 | a record longer than the token by a suffix, or a token longer than the record, gives null |
| TxtLookup.AbsenceIsNotYetVisible | acme-dns-01-sandcats/index.js:43-45 | ENOTFOUND or ENODATA gives null, never an error |
| TxtLookup.LookupIgnoresRecordOrder | acme-dns-01-sandcats/index.js:55-61 | the order the resolver lists the records in does not change the result |
| Sandcats.Challenge.Get | acme-dns-01-sandcats/index.js:31-62 | the result depends only on the token and on what the resolver reports at the provider's own challenge name (the challenge's host is ignored), with the classification and matching of Lookup |
| Provisioning.SetPayload | acme-dns-01-sandcats/index.js:24-29 | the publish payload has exactly the keys rawHostname (the provider's hostname) and value (the token) |
| Provisioning.RemovePayload | acme-dns-01-sandcats/index.js:64-71 | the retract payload has exactly the key rawHostname, the provider's hostname |
| Provisioning.RemoveIsSetWithoutValue | acme-dns-01-sandcats/index.js:64-71 | the retract payload is the publish payload with only the value key dropped, whatever the token |
| Sandcats.Challenge.Set | acme-dns-01-sandcats/index.js:24-29 | corrected: sends the publish payload with the corrected options and its outcome is the interpretation of that exchange; without a bind address this is the outcome of the source as written |
| Sandcats.Challenge.Remove | acme-dns-01-sandcats/index.js:64-71 | corrected: sends the retract payload, taking no challenge argument, with the corrected options; without a bind address this is the outcome of the source as written |
| Provisioning.BaseOptions | acme-dns-01-sandcats/index.js:74-85 | POST to sandcats.io/acme-challenge with no pooled agent, the provider's key and cert, the X-Sand and form content-type headers, and no bound address |
| Provisioning.Truthy | acme-dns-01-sandcats/index.js:87 | the `if (this.bindIp)` test: a bind address counts only when present and not the empty string |
| Provisioning.RequestOptionsAsWritten | acme-dns-01-sandcats/index.js:87-89 | as written, a truthy bind address makes the options fail to build; otherwise they are the base options |
| Provisioning.BindIpAsWrittenThrows | acme-dns-01-sandcats/index.js:87-89 | as written, any non-empty bind address ends the request with a ReferenceError |
| Provisioning.RequestOptionsFor | acme-dns-01-sandcats/index.js:87-89 | corrected: a truthy bind address becomes the local address, and the options are otherwise the base options |
| Sandcats.Challenge.Options | acme-dns-01-sandcats/index.js:74-89 | corrected: the base options with the provider's key and cert, and the local address equal to the bind address exactly when it is truthy (the source as written never applies it) |
| Provisioning.RequestOutcomeAsWritten | acme-dns-01-sandcats/index.js:73-111 | as written: a truthy bind address ends the call with the ReferenceError before anything is sent; otherwise the exchange made with the base options is interpreted |
| Provisioning.CorrectedAgreesWithoutBindIp | acme-dns-01-sandcats/index.js:87-94 | the corrected call and the call as written end the same way exactly when no bind address is set |
| Strings.Decimal | acme-dns-01-sandcats/index.js:108 | the status is written with decimal digits only, with no leading zero |
| Strings.DecimalRoundTrip | acme-dns-01-sandcats/index.js:108 | reading back the written status gives the status |
| Provisioning.FailureMessage | acme-dns-01-sandcats/index.js:108 | the message starts with "sandcats request failed: " and ends with the whole response body |
| Provisioning.FailureMessageRoundTrip | acme-dns-01-sandcats/index.js:107-109 | the status and the full body can always be recovered from the failure message |
| Provisioning.Interpret | acme-dns-01-sandcats/index.js:93-111 | success exactly for status 200 with no transport or stream failure; a provisioning failure exactly for any other status, whose message is the exact source text and yields that status and the joined body; transport errors pass through |
| Provisioning.ReadBody | acme-dns-01-sandcats/index.js:100-105 | the accumulated body is all data chunks concatenated in order |
| Sandcats.Challenge.Request | acme-dns-01-sandcats/index.js:73-112 | corrected: the outcome is the interpretation of the exchange sent with the corrected options and the given payload, the body read in full before the status is judged; without a bind address it equals the outcome as written |

## Left out

- HTTPS transport, TLS and the socket: replaced by the `Transport` input; key and cert are carried in the options only.
- DNS resolution: replaced by the `Resolver` input; a resolver error is reduced to its code.
- Form encoding of the payload: the payload stays a key/value map.
- The 30-second test-mode wait before the lookup and its log line: timing and logging only, so `isTest` is stored but affects nothing modelled.
- `init` (a no-op) and the `create` factory: glue with no behaviour to state.
- Promise and event wiring: each operation is modelled as one call from its inputs to its outcome.
- Sandcats.Challenge.Request: uses the corrected options (see Findings), so unlike the source it does not fail with a ReferenceError when `bindIp` is set; Provisioning.RequestOutcomeAsWritten states the source's outcome.
- Sandcats.Challenge.Options: states the corrected options, with the bind address applied; the source as written never applies it and throws instead.
- Sandcats.Challenge.Set: sends the request with the corrected options; the source as written rejects with a ReferenceError before sending when `bindIp` is set.
- Sandcats.Challenge.Remove: sends the request with the corrected options; the source as written rejects with a ReferenceError before sending when `bindIp` is set.
- Response body decoding: the body chunks are strings already decoded one by one; since the source never sets an encoding, a multi-byte UTF-8 character split across two chunks would decode to replacement characters, which the model does not capture.
- JavaScript values that are not strings (an undefined hostname or token) are not modelled; every field is a string.

## Findings

| source | as written | input that shows it | evidently intended | confidence | as-written member | corrected member |
|---|---|---|---|---|---|---|
| acme-dns-01-sandcats/index.js:87-89 | reads `bindIp`, a name declared nowhere in the module, instead of `this.bindIp` | a provider created with bindIp "10.0.0.1": every set and remove throws "ReferenceError: bindIp is not defined" before any request | bind outgoing connections to `this.bindIp` | high, not executed (assumes no global named bindIp exists) | Provisioning.BindIpAsWrittenThrows | Provisioning.RequestOptionsFor |
