/**
  The Cloudflare provider client (cloudflare.go) over the answers its API gives: the zone
  listing and, per zone, the DNS-record listing are inputs instead of network calls.
 */
module Cloudflare {
  import opened Wrappers
  import opened Strings
  import opened Records

  /** The fields of a Cloudflare zone the client reads. */
  datatype Zone = Zone(id: string, name: string, nameServers: seq<string>)

  /** The fields of a Cloudflare DNS record the client reads. */
  datatype DnsRecord = DnsRecord(recordType: string, name: string, content: string)

  /**
    What the API answers during one run: the zone listing (None when ListZones fails) and
    the DNS records of each zone by zone ID (an ID without an entry is a ListDNSRecords call
    that failed).
   */
  datatype CloudflareApi = CloudflareApi(zoneList: Option<seq<Zone>>, dnsRecords: map<string, seq<DnsRecord>>)

  const Source := "cloudflare"

  /** A name server under this suffix marks Cloudflare as the registrar of the zone. */
  const RegistrarNsSuffix := ".ns.cloudflare.com"

  /** matchesType: an empty filter lets every type through; otherwise some entry must equal
      the type ignoring case. Route53 uses the same filter. */
  function MatchesType(recordType: string, types: seq<string>): (b: bool)
    ensures types == [] ==> b
    ensures types != [] ==> (b <==> exists i :: 0 <= i < |types| && EqualFold(recordType, types[i]))
  {
    types == [] || AnyEqualFold(recordType, types)
  }

  function AnyEqualFold(recordType: string, types: seq<string>): (b: bool)
    ensures b <==> exists i :: 0 <= i < |types| && EqualFold(recordType, types[i])
  {
    if types == [] then false
    else if EqualFold(recordType, types[0]) then true
    else
      var rest := AnyEqualFold(recordType, types[1..]);
      assert rest <==> exists i :: 1 <= i < |types| && EqualFold(recordType, types[i]) by {
        forall i | 1 <= i < |types| ensures types[i] == types[1..][i - 1] { }
      }
      rest
  }

  /** The record built from one DNS record of a zone. */
  function FromDns(zone: Zone, r: DnsRecord): Record
  {
    NewRecord(zone.name, r.name, r.content, r.recordType, Source)
  }

  /** The synthetic NS record built from one of the zone's name servers. */
  function NameServerRecord(zone: Zone, ns: string): Record
  {
    NewRecord(zone.name, zone.name, ns, "NS", Source)
  }

  /** The records built from the DNS records whose type passes the filter, in input order. */
  function Kept(zone: Zone, dns: seq<DnsRecord>, types: seq<string>): seq<Record>
  {
    if dns == [] then []
    else
      var last := dns[|dns| - 1];
      Kept(zone, dns[..|dns| - 1], types) + (if MatchesType(last.recordType, types) then [FromDns(zone, last)] else [])
  }

  function NameServerRecords(zone: Zone): seq<Record>
  {
    seq(|zone.nameServers|, i requires 0 <= i < |zone.nameServers| => NameServerRecord(zone, zone.nameServers[i]))
  }

  /** What fetchZoneRecords returns once the zone's DNS records are listed. */
  function ZoneRecords(zone: Zone, dns: seq<DnsRecord>, types: seq<string>): seq<Record>
  {
    Kept(zone, dns, types) + (if MatchesType("NS", types) then NameServerRecords(zone) else [])
  }

  /** fetchZoneRecords after a successful ListDNSRecords call. */
  method FetchZoneRecords(zone: Zone, dns: seq<DnsRecord>, types: seq<string>) returns (records: seq<Record>)
    ensures records == ZoneRecords(zone, dns, types)
  {
    records := [];
    for k := 0 to |dns|
      invariant records == Kept(zone, dns[..k], types)
    {
      assert dns[..k + 1][..k] == dns[..k];
      if MatchesType(dns[k].recordType, types) {
        records := records + [FromDns(zone, dns[k])];
      }
    }
    assert dns[..|dns|] == dns;
    if MatchesType("NS", types) {
      var kept := records;
      for k := 0 to |zone.nameServers|
        invariant records == kept + NameServerRecords(zone)[..k]
      {
        assert NameServerRecords(zone)[..k + 1] == NameServerRecords(zone)[..k] + [NameServerRecord(zone, zone.nameServers[k])];
        records := records + [NameServerRecord(zone, zone.nameServers[k])];
      }
      assert NameServerRecords(zone)[..|zone.nameServers|] == NameServerRecords(zone);
    }
  }

  /** A record is kept exactly when it comes from a DNS record whose type passes the filter. */
  lemma {:induction false} KeptMembers(zone: Zone, dns: seq<DnsRecord>, types: seq<string>, r: Record)
    ensures r in Kept(zone, dns, types) <==>
      exists i :: 0 <= i < |dns| && MatchesType(dns[i].recordType, types) && r == FromDns(zone, dns[i])
  {
    if dns != [] {
      var init := dns[..|dns| - 1];
      KeptMembers(zone, init, types, r);
      forall i | 0 <= i < |init| ensures init[i] == dns[i] { }
    }
  }

  /** The positions below n of the DNS records whose type passes the filter. */
  ghost function Matching(dns: seq<DnsRecord>, types: seq<string>, n: int): set<int>
    requires n <= |dns|
  {
    set i | 0 <= i < n && MatchesType(dns[i].recordType, types)
  }

  /** Extending the range by one position adds that position exactly when it matches. */
  lemma MatchingNext(dns: seq<DnsRecord>, types: seq<string>, n: int)
    requires 0 <= n < |dns|
    ensures Matching(dns, types, n + 1) == Matching(dns, types, n) + (if MatchesType(dns[n].recordType, types) then {n} else {})
  {
  }

  /** Matching positions below n depend only on the first n records. */
  lemma MatchingPrefix(dns: seq<DnsRecord>, types: seq<string>, n: int)
    requires 0 <= n <= |dns|
    ensures Matching(dns[..n], types, n) == Matching(dns, types, n)
  {
    assert forall i :: 0 <= i < n ==> dns[..n][i] == dns[i];
  }

  /** One kept record per DNS record whose type passes the filter. */
  lemma {:induction false} KeptCount(zone: Zone, dns: seq<DnsRecord>, types: seq<string>)
    ensures |Kept(zone, dns, types)| == |Matching(dns, types, |dns|)|
  {
    if dns != [] {
      var n := |dns| - 1;
      KeptCount(zone, dns[..n], types);
      MatchingPrefix(dns, types, n);
      MatchingNext(dns, types, n);
    }
  }

  /**
    Every record of a zone has the zone's name as its domain, "cloudflare" as its source, a
    type that passes the filter and no enrichment yet; the matching DNS records come first and
    then, when "NS" passes the filter, one NS record named after the zone per name server.
   */
  lemma ZoneRecordsShape(zone: Zone, dns: seq<DnsRecord>, types: seq<string>)
    ensures var rs := ZoneRecords(zone, dns, types);
      forall r :: r in rs ==>
        (r.domain == zone.name && r.source == Source && MatchesType(r.recordType, types)
         && r.registrar == r.certIssuer == r.certExpires == r.certError == "")
    ensures var rs := ZoneRecords(zone, dns, types);
      var kept := |Matching(dns, types, |dns|)|;
      |rs| == kept + (if MatchesType("NS", types) then |zone.nameServers| else 0)
      && (MatchesType("NS", types) ==> forall j :: 0 <= j < |zone.nameServers| ==>
            rs[kept + j] == NewRecord(zone.name, zone.name, zone.nameServers[j], "NS", Source))
  {
    KeptCount(zone, dns, types);
    forall r | r in Kept(zone, dns, types)
      ensures r.domain == zone.name && r.source == Source && MatchesType(r.recordType, types)
      ensures r.registrar == r.certIssuer == r.certExpires == r.certError == ""
    {
      KeptMembers(zone, dns, types, r);
    }
    forall r | r in NameServerRecords(zone)
      ensures r.domain == zone.name && r.source == Source && r.recordType == "NS"
      ensures r.registrar == r.certIssuer == r.certExpires == r.certError == ""
    {
      var j :| 0 <= j < |zone.nameServers| && r == NameServerRecords(zone)[j];
    }
  }

  /** The concatenation of the zones' records, in zone order. */
  function AllZoneRecords(zones: seq<Zone>, dns: map<string, seq<DnsRecord>>, types: seq<string>): seq<Record>
    requires forall i :: 0 <= i < |zones| ==> zones[i].id in dns
  {
    if zones == [] then []
    else
      var last := zones[|zones| - 1];
      AllZoneRecords(zones[..|zones| - 1], dns, types) + ZoneRecords(last, dns[last.id], types)
  }

  /** Every record the client returns belongs to one of the listed zones and passes the filter. */
  lemma {:induction false} AllZoneRecordsFromZones(zones: seq<Zone>, dns: map<string, seq<DnsRecord>>, types: seq<string>)
    requires forall i :: 0 <= i < |zones| ==> zones[i].id in dns
    ensures forall r :: r in AllZoneRecords(zones, dns, types) ==>
      r.source == Source && MatchesType(r.recordType, types) && exists i :: 0 <= i < |zones| && r.domain == zones[i].name
  {
    if zones != [] {
      var n := |zones| - 1;
      AllZoneRecordsFromZones(zones[..n], dns, types);
      ZoneRecordsShape(zones[n], dns[zones[n].id], types);
      forall r | r in AllZoneRecords(zones[..n], dns, types)
        ensures exists i :: 0 <= i < |zones| && r.domain == zones[i].name
      {
        var i :| 0 <= i < n && r.domain == zones[..n][i].name;
        assert zones[i] == zones[..n][i];
      }
    }
  }

  /** The position of the first zone named `domain`, if any. */
  function FirstZoneNamed(zones: seq<Zone>, domain: string): (k: Option<nat>)
    ensures k.Some? ==>
      (k.value < |zones| && zones[k.value].name == domain
       && forall j :: 0 <= j < k.value ==> zones[j].name != domain)
    ensures k.None? ==> forall j :: 0 <= j < |zones| ==> zones[j].name != domain
  {
    if zones == [] then None
    else if zones[0].name == domain then Some(0)
    else match FirstZoneNamed(zones[1..], domain)
      case None => None
      case Some(k) => Some(k + 1)
  }

  /** Some name server of the list lies under the Cloudflare suffix. */
  predicate HasCloudflareNameServer(nameServers: seq<string>)
  {
    exists ns :: ns in nameServers && HasSuffix(ns, RegistrarNsSuffix)
  }

  /**
    IsCloudflareRegistrar over the stored zones: the search stops at the first zone named
    `domain`, and the answer is whether one of that zone's name servers ends in
    ".ns.cloudflare.com"; with no such zone it is false.
   */
  function Claims(zones: seq<Zone>, domain: string): (b: bool)
    ensures b <==> match FirstZoneNamed(zones, domain)
      case None => false
      case Some(k) => HasCloudflareNameServer(zones[k].nameServers)
  {
    if zones == [] then false
    else if zones[0].name == domain then AnyCloudflareNameServer(zones[0].nameServers)
    else Claims(zones[1..], domain)
  }

  /** The inner loop of IsCloudflareRegistrar over one zone's name servers. */
  function AnyCloudflareNameServer(nameServers: seq<string>): (b: bool)
    ensures b <==> HasCloudflareNameServer(nameServers)
  {
    if nameServers == [] then false
    else HasSuffix(nameServers[0], RegistrarNsSuffix) || AnyCloudflareNameServer(nameServers[1..])
  }

  /**
    NewCloudflareClient: no client and no error when the API key or the e-mail is missing;
    no client and an error when the SDK handle cannot be created; otherwise a fresh client.
   */
  method NewCloudflareClient(apiKey: string, email: string, sdkReady: bool) returns (client: CloudflareClient?, err: Option<string>)
    ensures client == null <==> apiKey == "" || email == "" || !sdkReady
    ensures err.Some? <==> apiKey != "" && email != "" && !sdkReady
    ensures client != null ==> fresh(client) && client.zones == []
  {
    if apiKey == "" || email == "" {
      return null, None;
    }
    if !sdkReady {
      return null, Some("failed to create cloudflare client");
    }
    client := new CloudflareClient();
    err := None;
  }

  class CloudflareClient {
    /** The zones of the last successful zone listing. */
    var zones: seq<Zone>

    /** NewCloudflareClient once credentials and the SDK handle are in place. */
    constructor ()
      ensures zones == []
    {
      zones := [];
    }

    /**
      FetchRecords: lists the zones (and stores them even if a later call fails), then each
      zone's records in zone order. A failed listing of any zone discards every record.
     */
    method FetchRecords(api: CloudflareApi, types: seq<string>) returns (res: Result<seq<Record>, string>)
      modifies this
      ensures api.zoneList.None? ==> res.Failure? && zones == old(zones)
      ensures api.zoneList.Some? ==> zones == api.zoneList.value
      ensures res.Success? <==> api.zoneList.Some? && forall i :: 0 <= i < |zones| ==> zones[i].id in api.dnsRecords
      ensures res.Success? ==> res.value == AllZoneRecords(zones, api.dnsRecords, types)
    {
      if api.zoneList.None? {
        return Failure("failed to list cloudflare zones");
      }
      var listed := api.zoneList.value;
      zones := listed;
      var records := [];
      for k := 0 to |listed|
        invariant zones == listed
        invariant forall i :: 0 <= i < k ==> listed[i].id in api.dnsRecords
        invariant records == AllZoneRecords(listed[..k], api.dnsRecords, types)
      {
        var zone := listed[k];
        if zone.id !in api.dnsRecords {
          return Failure("failed to list dns records for zone " + zone.name);
        }
        var zoneRecords := FetchZoneRecords(zone, api.dnsRecords[zone.id], types);
        assert listed[..k + 1][..k] == listed[..k];
        records := records + zoneRecords;
      }
      assert listed[..|listed|] == listed;
      return Success(records);
    }

    function IsCloudflareRegistrar(domain: string): bool
      reads this
    {
      Claims(zones, domain)
    }
  }
}
