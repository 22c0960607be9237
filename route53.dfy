/**
  The Route53 provider client (route53.go) over the answers its API gives: the hosted-zone
  listing and, per zone, the resource-record-set listing are inputs instead of network calls.
 */
module Route53 {
  import opened Wrappers
  import opened Strings
  import opened Records
  import Cloudflare

  /** A hosted zone's configuration; Comment is an optional pointer in the SDK. */
  datatype ZoneConfig = ZoneConfig(comment: Option<string>)

  /** The fields of a hosted zone the client reads; the name is fully qualified ("example.com."). */
  datatype HostedZone = HostedZone(id: string, name: string, config: Option<ZoneConfig>)

  /** The fields of a resource record set the client reads: an alias set has a target DNS name,
      any other set lists its values. */
  datatype RecordSet = RecordSet(name: string, recordType: string, aliasTarget: Option<string>, resourceRecords: seq<string>)

  /**
    What the API answers during one run: the hosted-zone listing (None when ListHostedZones
    fails) and the record sets of each zone by zone ID (an ID without an entry is a
    ListResourceRecordSets call that failed).
   */
  datatype Route53Api = Route53Api(zoneList: Option<seq<HostedZone>>, recordSets: map<string, seq<RecordSet>>)

  const Source := "route53"

  /** A hosted-zone comment containing this text marks Route53 as the registrar. */
  const RegistrarComment := "Route53 Registrar"

  /** One trailing dot removed, as the client does with every name it reads. */
  function TrimDot(s: string): string
  {
    TrimSuffix(s, ".")
  }

  /** The values recordValues gives for a record set. */
  function ValuesOf(rs: RecordSet): seq<string>
  {
    match rs.aliasTarget
    case Some(target) => [TrimDot(target)]
    case None => seq(|rs.resourceRecords|, i requires 0 <= i < |rs.resourceRecords| => TrimDot(rs.resourceRecords[i]))
  }

  /**
    recordValues: an alias set gives exactly its target, one trailing dot removed; any other
    set gives each of its values in order, each with one trailing dot removed.
   */
  method RecordValues(rs: RecordSet) returns (values: seq<string>)
    ensures rs.aliasTarget.Some? ==> |values| == 1 && values[0] + (if HasSuffix(rs.aliasTarget.value, ".") then "." else "") == rs.aliasTarget.value
    ensures rs.aliasTarget.None? ==> |values| == |rs.resourceRecords|
    ensures rs.aliasTarget.None? ==> forall i :: 0 <= i < |values| ==>
      values[i] + (if HasSuffix(rs.resourceRecords[i], ".") then "." else "") == rs.resourceRecords[i]
    ensures values == ValuesOf(rs)
  {
    if rs.aliasTarget.Some? {
      return [TrimDot(rs.aliasTarget.value)];
    }
    values := [];
    for k := 0 to |rs.resourceRecords|
      invariant values == ValuesOf(rs)[..k]
    {
      values := values + [TrimDot(rs.resourceRecords[k])];
    }
  }

  /** The records one record set contributes to a zone named `domain`, one per value. */
  function SetRecords(domain: string, rs: RecordSet): seq<Record>
  {
    var values := ValuesOf(rs);
    seq(|values|, i requires 0 <= i < |values| => NewRecord(domain, TrimDot(rs.name), values[i], rs.recordType, Source))
  }

  /** What fetchZoneRecords returns once the zone's record sets are listed. */
  function ZoneRecords(zone: HostedZone, sets: seq<RecordSet>, types: seq<string>): seq<Record>
  {
    if sets == [] then []
    else
      var last := sets[|sets| - 1];
      ZoneRecords(zone, sets[..|sets| - 1], types)
        + (if Cloudflare.MatchesType(last.recordType, types) then SetRecords(TrimDot(zone.name), last) else [])
  }

  /** The inner loop of fetchZoneRecords: one record per value of the set, appended in order. */
  method AppendValues(records: seq<Record>, domain: string, rs: RecordSet, values: seq<string>) returns (records': seq<Record>)
    requires values == ValuesOf(rs)
    ensures records' == records + SetRecords(domain, rs)
  {
    records' := records;
    ghost var contributed := SetRecords(domain, rs);
    for j := 0 to |values|
      invariant records' == records + contributed[..j]
    {
      assert contributed[..j + 1] == contributed[..j] + [contributed[j]];
      records' := records' + [NewRecord(domain, TrimDot(rs.name), values[j], rs.recordType, Source)];
    }
    assert contributed[..|values|] == contributed;
  }

  /** fetchZoneRecords after a successful ListResourceRecordSets call. */
  method FetchZoneRecords(zone: HostedZone, sets: seq<RecordSet>, types: seq<string>) returns (records: seq<Record>)
    ensures records == ZoneRecords(zone, sets, types)
  {
    records := [];
    var domain := TrimDot(zone.name);
    for k := 0 to |sets|
      invariant records == ZoneRecords(zone, sets[..k], types)
    {
      var rs := sets[k];
      ghost var done := ZoneRecords(zone, sets[..k], types);
      assert sets[..k + 1][..k] == sets[..k];
      if Cloudflare.MatchesType(rs.recordType, types) {
        var values := RecordValues(rs);
        records := AppendValues(records, domain, rs, values);
        assert ZoneRecords(zone, sets[..k + 1], types) == done + SetRecords(domain, rs);
      } else {
        assert ZoneRecords(zone, sets[..k + 1], types) == done;
      }
    }
    assert sets[..|sets|] == sets;
  }

  /**
    A record belongs to a zone's output exactly when it is the j-th value of a record set
    whose type passes the filter: its domain is the zone name and its name the set name, both
    without the trailing dot, and its source is "route53".
   */
  lemma ZoneRecordsMembers(zone: HostedZone, sets: seq<RecordSet>, types: seq<string>, r: Record)
    ensures r in ZoneRecords(zone, sets, types) <==>
      exists k, j :: 0 <= k < |sets| && 0 <= j < |ValuesOf(sets[k])| && Cloudflare.MatchesType(sets[k].recordType, types)
        && r == NewRecord(TrimDot(zone.name), TrimDot(sets[k].name), ValuesOf(sets[k])[j], sets[k].recordType, Source)
  {
    var domain := TrimDot(zone.name);
    ZoneRecordsFromSets(zone, sets, types, r);
    forall k | 0 <= k < |sets|
      ensures r in SetRecords(domain, sets[k]) <==>
        exists j :: 0 <= j < |ValuesOf(sets[k])| && r == NewRecord(domain, TrimDot(sets[k].name), ValuesOf(sets[k])[j], sets[k].recordType, Source)
    {
      if r in SetRecords(domain, sets[k]) {
        var j :| 0 <= j < |ValuesOf(sets[k])| && r == SetRecords(domain, sets[k])[j];
      }
      if exists j :: 0 <= j < |ValuesOf(sets[k])| && r == NewRecord(domain, TrimDot(sets[k].name), ValuesOf(sets[k])[j], sets[k].recordType, Source) {
        var j :| 0 <= j < |ValuesOf(sets[k])| && r == NewRecord(domain, TrimDot(sets[k].name), ValuesOf(sets[k])[j], sets[k].recordType, Source);
        assert SetRecords(domain, sets[k])[j] == r;
      }
    }
  }

  /** A record belongs to a zone's output exactly when some record set that passes the
      filter contributes it. */
  lemma {:induction false} ZoneRecordsFromSets(zone: HostedZone, sets: seq<RecordSet>, types: seq<string>, r: Record)
    ensures r in ZoneRecords(zone, sets, types) <==>
      exists k :: 0 <= k < |sets| && Cloudflare.MatchesType(sets[k].recordType, types) && r in SetRecords(TrimDot(zone.name), sets[k])
  {
    if sets != [] {
      var n := |sets| - 1;
      ZoneRecordsFromSets(zone, sets[..n], types, r);
      forall k | 0 <= k < n ensures sets[..n][k] == sets[k] { }
    }
  }

  /** Each record set that passes the filter contributes exactly one record per value. */
  lemma {:induction false} ZoneRecordsCount(zone: HostedZone, sets: seq<RecordSet>, types: seq<string>)
    ensures |ZoneRecords(zone, sets, types)| == ContributedCount(sets, types)
  {
    if sets != [] {
      var n := |sets| - 1;
      ZoneRecordsCount(zone, sets[..n], types);
      ContributedCountSplit(sets[..n], sets[n], types);
      assert sets[..n] + [sets[n]] == sets;
    }
  }

  /** The number of values of the record sets that pass the filter, counted from the front. */
  function ContributedCount(sets: seq<RecordSet>, types: seq<string>): nat
  {
    if sets == [] then 0
    else (if Cloudflare.MatchesType(sets[0].recordType, types) then |ValuesOf(sets[0])| else 0) + ContributedCount(sets[1..], types)
  }

  lemma {:induction false} ContributedCountSplit(sets: seq<RecordSet>, rs: RecordSet, types: seq<string>)
    ensures ContributedCount(sets + [rs], types)
      == ContributedCount(sets, types) + (if Cloudflare.MatchesType(rs.recordType, types) then |ValuesOf(rs)| else 0)
  {
    if sets != [] {
      assert (sets + [rs])[1..] == sets[1..] + [rs];
      ContributedCountSplit(sets[1..], rs, types);
    }
  }

  /** The concatenation of the zones' records, in zone order. */
  function AllZoneRecords(zones: seq<HostedZone>, sets: map<string, seq<RecordSet>>, types: seq<string>): seq<Record>
    requires forall i :: 0 <= i < |zones| ==> zones[i].id in sets
  {
    if zones == [] then []
    else
      var last := zones[|zones| - 1];
      AllZoneRecords(zones[..|zones| - 1], sets, types) + ZoneRecords(last, sets[last.id], types)
  }

  /** The comment of a zone, "" when the configuration or the comment is missing. */
  function CommentOf(zone: HostedZone): string
  {
    match zone.config
    case Some(ZoneConfig(Some(c))) => c
    case _ => ""
  }

  /** The position of the first zone whose name without the trailing dot is `domain`, if any. */
  function FirstZoneNamed(zones: seq<HostedZone>, domain: string): (k: Option<nat>)
    ensures k.Some? ==>
      (k.value < |zones| && TrimDot(zones[k.value].name) == domain
       && forall j :: 0 <= j < k.value ==> TrimDot(zones[j].name) != domain)
    ensures k.None? ==> forall j :: 0 <= j < |zones| ==> TrimDot(zones[j].name) != domain
  {
    if zones == [] then None
    else if TrimDot(zones[0].name) == domain then Some(0)
    else match FirstZoneNamed(zones[1..], domain)
      case None => None
      case Some(k) => Some(k + 1)
  }

  /**
    IsRoute53Registrar over the stored zones: the search stops at the first zone whose
    trimmed name is `domain`, and the answer is whether its comment (missing = "") contains
    "Route53 Registrar"; with no such zone it is false.
   */
  function Claims(zones: seq<HostedZone>, domain: string): (b: bool)
    ensures b <==> match FirstZoneNamed(zones, domain)
      case None => false
      case Some(k) => Contains(CommentOf(zones[k]), RegistrarComment)
  {
    if zones == [] then false
    else if TrimDot(zones[0].name) == domain then Contains(CommentOf(zones[0]), RegistrarComment)
    else Claims(zones[1..], domain)
  }

  /** HasZone over the stored zones: some zone's trimmed name is `domain`. */
  function HostsZone(zones: seq<HostedZone>, domain: string): (b: bool)
    ensures b <==> exists i :: 0 <= i < |zones| && TrimDot(zones[i].name) == domain
  {
    if zones == [] then false
    else if TrimDot(zones[0].name) == domain then true
    else
      var rest := HostsZone(zones[1..], domain);
      assert rest <==> exists i :: 1 <= i < |zones| && TrimDot(zones[i].name) == domain by {
        forall i | 1 <= i < |zones| ensures zones[i] == zones[1..][i - 1] { }
      }
      rest
  }

  /** Route53 claims to be registrar only of a domain it hosts. */
  lemma ClaimsImpliesHostsZone(zones: seq<HostedZone>, domain: string)
    ensures Claims(zones, domain) ==> HostsZone(zones, domain)
  {
  }

  /** NewRoute53Client: an error and no client when the AWS configuration cannot be loaded;
      otherwise a fresh client. */
  method NewRoute53Client(configLoaded: bool) returns (client: Route53Client?, err: Option<string>)
    ensures client == null <==> !configLoaded
    ensures err.Some? <==> !configLoaded
    ensures client != null ==> fresh(client) && client.zones == []
  {
    if !configLoaded {
      return null, Some("failed to load aws config");
    }
    client := new Route53Client();
    err := None;
  }

  class Route53Client {
    /** The zones of the last successful hosted-zone listing. */
    var zones: seq<HostedZone>

    /** NewRoute53Client once the AWS configuration is loaded. */
    constructor ()
      ensures zones == []
    {
      zones := [];
    }

    /**
      FetchRecords: lists the hosted zones (and stores them even if a later call fails), then
      each zone's record sets in zone order. A failed listing of any zone discards every record.
     */
    method FetchRecords(api: Route53Api, types: seq<string>) returns (res: Result<seq<Record>, string>)
      modifies this
      ensures api.zoneList.None? ==> res.Failure? && zones == old(zones)
      ensures api.zoneList.Some? ==> zones == api.zoneList.value
      ensures res.Success? <==> api.zoneList.Some? && forall i :: 0 <= i < |zones| ==> zones[i].id in api.recordSets
      ensures res.Success? ==> res.value == AllZoneRecords(zones, api.recordSets, types)
    {
      if api.zoneList.None? {
        return Failure("failed to list route53 hosted zones");
      }
      var listed := api.zoneList.value;
      zones := listed;
      var records := [];
      for k := 0 to |listed|
        invariant zones == listed
        invariant forall i :: 0 <= i < k ==> listed[i].id in api.recordSets
        invariant records == AllZoneRecords(listed[..k], api.recordSets, types)
      {
        var zone := listed[k];
        if zone.id !in api.recordSets {
          return Failure("failed to list record sets for zone " + TrimDot(zone.name));
        }
        var zoneRecords := FetchZoneRecords(zone, api.recordSets[zone.id], types);
        assert listed[..k + 1][..k] == listed[..k];
        records := records + zoneRecords;
      }
      assert listed[..|listed|] == listed;
      return Success(records);
    }

    function IsRoute53Registrar(domain: string): bool
      reads this
    {
      Claims(zones, domain)
    }

    function HasZone(domain: string): bool
      reads this
    {
      HostsZone(zones, domain)
    }
  }
}
