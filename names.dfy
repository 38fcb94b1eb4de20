/** Name derivation: the single zone a provider manages and the TXT record
    name it queries, both derived from the provider's own hostname. */
module Names {
  import opened Wrappers

  /** The fixed parent domain every provider hostname lives under. */
  const ParentZone := "sandcats.io"

  /** The label ACME DNS-01 places the challenge TXT record under
      (section 8.4 of RFC 8555). */
  const ChallengeLabel := "_acme-challenge"

  /** The zone of a provider: `hostname + ".sandcats.io"`. */
  function ZoneOf(hostname: string): (zone: string)
    ensures |zone| == |hostname| + 1 + |ParentZone|
    ensures zone[..|hostname|] == hostname
    ensures zone[|hostname|..] == "." + ParentZone
  {
    hostname + "." + ParentZone
  }

  /** Inverse of ZoneOf: the hostname a zone belongs to, if it lies under the parent zone. */
  function HostnameOf(zone: string): (hostname: Option<string>)
    ensures hostname.Some? ==> |hostname.value| + 1 + |ParentZone| == |zone|
  {
    var n := |ParentZone| + 1;
    if |zone| >= n && zone[|zone| - n..] == "." + ParentZone then Some(zone[..|zone| - n]) else None
  }

  /** Stripping the parent zone from a derived zone gives back the hostname. */
  lemma ZoneRoundTrip(hostname: string)
    ensures HostnameOf(ZoneOf(hostname)) == Some(hostname)
  {
    var zone := ZoneOf(hostname);
    assert |zone| - (|ParentZone| + 1) == |hostname|;
  }

  /** Distinct hostnames never share a zone. */
  lemma ZoneInjective(h1: string, h2: string)
    requires ZoneOf(h1) == ZoneOf(h2)
    ensures h1 == h2
  {
    ZoneRoundTrip(h1);
    ZoneRoundTrip(h2);
  }

  /** The TXT record name queried for verification:
      `"_acme-challenge." + hostname + ".sandcats.io"`. */
  function ChallengeRecordName(hostname: string): (name: string)
    ensures name == ChallengeLabel + "." + ZoneOf(hostname)
  {
    "_acme-challenge." + hostname + ".sandcats.io"
  }

  /** Distinct hostnames never query the same record name. */
  lemma ChallengeRecordNameInjective(h1: string, h2: string)
    requires ChallengeRecordName(h1) == ChallengeRecordName(h2)
    ensures h1 == h2
  {
    var prefix := ChallengeLabel + ".";
    assert ZoneOf(h1) == ChallengeRecordName(h1)[|prefix|..];
    assert ZoneOf(h2) == ChallengeRecordName(h2)[|prefix|..];
    ZoneInjective(h1, h2);
  }
}
