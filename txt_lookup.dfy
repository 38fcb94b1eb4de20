/** The decision core of the propagation check: classify what the resolver
    reported, reassemble each TXT record from its chunks, and look for the
    expected token among the records. */
module TxtLookup {
  import opened Wrappers
  import opened Strings

  /** Node's `dns.NOTFOUND` and `dns.NODATA` error codes. */
  const NotFoundCode := "ENOTFOUND"
  const NoDataCode := "ENODATA"

  /** A resolver failure, identified by its error code. */
  datatype DnsError = DnsError(code: string)

  /** What a TXT resolution reports: each record as the list of character
      strings it is made of, or a failure. */
  datatype ResolveOutcome = Resolved(records: seq<seq<string>>) | Failed(error: DnsError)

  /** The `{dnsAuthorization: v}` object handed back on a match. */
  datatype Authorization = Authorization(dnsAuthorization: string)

  /** The failures that mean "nothing published yet" rather than an error. */
  predicate IsAbsence(e: DnsError)
  {
    e.code == NotFoundCode || e.code == NoDataCode
  }

  /** Some record, once its chunks are joined, is exactly `token`. */
  predicate Published(results: seq<seq<string>>, token: string)
  {
    exists i :: 0 <= i < |results| && Concat(results[i]) == token
  }

  /** Absence becomes an empty record list; every other failure is passed on unchanged. */
  function Classify(outcome: ResolveOutcome): (r: Result<seq<seq<string>>, DnsError>)
    ensures r.Err? <==> outcome.Failed? && !IsAbsence(outcome.error)
    ensures r.Err? ==> r.error == outcome.error
    ensures r.Ok? && outcome.Failed? ==> r.value == []
    ensures r.Ok? && outcome.Resolved? ==> r.value == outcome.records
  {
    match outcome
    case Resolved(results) => Ok(results)
    case Failed(e) => if IsAbsence(e) then Ok([]) else Err(e)
  }

  /** Each record with its chunks joined in order (`results.map(chunks => chunks.join(""))`). */
  function Reassemble(results: seq<seq<string>>): (records: seq<string>)
    ensures |records| == |results|
    ensures forall i :: 0 <= i < |results| ==> records[i] == Concat(results[i])
  {
    if results == [] then [] else [Concat(results[0])] + Reassemble(results[1..])
  }

  /** The records exactly equal to `token`, in order (`records.filter(r => r === token)`). */
  function Matching(records: seq<string>, token: string): (m: seq<string>)
    ensures forall x :: x in m ==> x == token
    ensures |m| == multiset(records)[token]
  {
    if records == [] then []
    else
      assert records == [records[0]] + records[1..];
      (if records[0] == token then [records[0]] else []) + Matching(records[1..], token)
  }

  /** `match[0]` when it is truthy, that is present and not the empty string. */
  function FirstTruthy(m: seq<string>): (r: Option<string>)
    ensures r.Some? <==> |m| > 0 && m[0] != ""
    ensures r.Some? ==> r.value == m[0]
  {
    if |m| > 0 && m[0] != "" then Some(m[0]) else None
  }

  /** The outcome of one propagation check for `token`, given what the resolver reported. */
  function Lookup(token: string, outcome: ResolveOutcome): (r: Result<Option<Authorization>, DnsError>)
    ensures r.Err? <==> outcome.Failed? && !IsAbsence(outcome.error)
    ensures r.Err? ==> r.error == outcome.error
    ensures r == Ok(Some(Authorization(token))) <==>
              outcome.Resolved? && token != "" && Published(outcome.records, token)
    ensures r.Ok? ==> r.value == None || r.value == Some(Authorization(token))
  {
    match Classify(outcome)
    case Err(e) => Err(e)
    case Ok(results) =>
      var records := Reassemble(results);
      var m := Matching(records, token);
      assert |m| > 0 <==> token in records;
      assert |m| > 0 ==> m[0] in m;
      match FirstTruthy(m)
      case Some(v) => Ok(Some(Authorization(v)))
      case None => Ok(None)
  }

  /** A token split anywhere into two chunks is still recognised once reassembled. */
  lemma SplitRecordMatches(token: string, k: nat)
    requires token != "" && k <= |token|
    ensures Lookup(token, Resolved([[token[..k], token[k..]]])) == Ok(Some(Authorization(token)))
  {
    var chunks := [token[..k], token[k..]];
    assert Concat(chunks[1..][1..]) == "";
    assert Concat(chunks) == token[..k] + token[k..] == token;
    assert Concat([chunks][0]) == token;
  }

  /** Matching is exact: a record that extends the token, or that the token extends, is no match. */
  lemma ExtensionDoesNotMatch(token: string, extra: string)
    requires extra != ""
    ensures Lookup(token, Resolved([[token + extra]])) == Ok(None)
    ensures Lookup(token + extra, Resolved([[token]])) == Ok(None)
  {
    assert Concat([token + extra]) == token + extra;
    assert Concat([token]) == token;
    assert |token + extra| > |token|;
  }

  /** Absence of a record is a negative result, never an error, whatever the token. */
  lemma AbsenceIsNotYetVisible(token: string, e: DnsError)
    requires IsAbsence(e)
    ensures Lookup(token, Failed(e)) == Ok(None)
  {
  }

  /** The order in which the resolver lists the records does not change the result. */
  lemma LookupIgnoresRecordOrder(token: string, rs1: seq<seq<string>>, rs2: seq<seq<string>>)
    requires multiset(rs1) == multiset(rs2)
    ensures Lookup(token, Resolved(rs1)) == Lookup(token, Resolved(rs2))
  {
    PublishedInOrderFree(token, rs1, rs2);
    PublishedInOrderFree(token, rs2, rs1);
  }

  lemma PublishedInOrderFree(token: string, rs1: seq<seq<string>>, rs2: seq<seq<string>>)
    requires multiset(rs1) == multiset(rs2)
    ensures Published(rs1, token) ==> Published(rs2, token)
  {
    if Published(rs1, token) {
      var i :| 0 <= i < |rs1| && Concat(rs1[i]) == token;
      assert rs1[i] in multiset(rs2);
      var j :| 0 <= j < |rs2| && rs2[j] == rs1[i];
    }
  }
}
