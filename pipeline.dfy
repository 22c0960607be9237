/**
  The run of the tool (main.go): fetch the records of both providers, combine them, attribute
  every domain to a registrar, sort by domain and name, and optionally attach certificate
  details. Configuration loading, the provider SDKs, WHOIS and the TLS probe are inputs.
 */
module Pipeline {
  import opened Wrappers
  import opened Records
  import Cloudflare
  import Route53
  import Whois
  import Cert
  import Sorting

  /** The zones a Cloudflare client holds; None stands for a nil client. */
  function CloudflareZones(cf: Cloudflare.CloudflareClient?): Option<seq<Cloudflare.Zone>>
    reads cf
  {
    if cf == null then None else Some(cf.zones)
  }

  /** The zones a Route 53 client holds; None stands for a nil client. */
  function Route53Zones(r53: Route53.Route53Client?): Option<seq<Route53.HostedZone>>
    reads r53
  {
    if r53 == null then None else Some(r53.zones)
  }

  /** Some present provider claims to be the domain's registrar. */
  predicate ProviderClaims(domain: string, cfZones: Option<seq<Cloudflare.Zone>>, r53Zones: Option<seq<Route53.HostedZone>>)
  {
    || (cfZones.Some? && Cloudflare.Claims(cfZones.value, domain))
    || (r53Zones.Some? && Route53.Claims(r53Zones.value, domain))
  }

  /**
    The registrar resolveRegistrar settles on: Cloudflare when it claims the domain, else
    Route 53 when it claims it, else the WHOIS answer. Cloudflare wins when both claim it.
   */
  function ExpectedRegistrar(domain: string, cfZones: Option<seq<Cloudflare.Zone>>, r53Zones: Option<seq<Route53.HostedZone>>,
                             whoisRegistrar: string -> string): (registrar: string)
    ensures cfZones.Some? && Cloudflare.Claims(cfZones.value, domain) ==> registrar == Cloudflare.Source
    ensures !(cfZones.Some? && Cloudflare.Claims(cfZones.value, domain)) && r53Zones.Some? && Route53.Claims(r53Zones.value, domain) ==>
      registrar == Route53.Source
    ensures !ProviderClaims(domain, cfZones, r53Zones) ==> registrar == whoisRegistrar(domain)
  {
    if cfZones.Some? && Cloudflare.Claims(cfZones.value, domain) then Cloudflare.Source
    else if r53Zones.Some? && Route53.Claims(r53Zones.value, domain) then Route53.Source
    else whoisRegistrar(domain)
  }

  /** A domain that no present provider hosts is never claimed by a provider; WHOIS decides. */
  lemma UnhostedGoesToWhois(domain: string, cfZones: Option<seq<Cloudflare.Zone>>, r53Zones: Option<seq<Route53.HostedZone>>,
                            whoisRegistrar: string -> string)
    requires cfZones.Some? ==> forall i :: 0 <= i < |cfZones.value| ==> cfZones.value[i].name != domain
    requires r53Zones.Some? ==> !Route53.HostsZone(r53Zones.value, domain)
    ensures ExpectedRegistrar(domain, cfZones, r53Zones, whoisRegistrar) == whoisRegistrar(domain)
  {
    if r53Zones.Some? {
      Route53.ClaimsImpliesHostsZone(r53Zones.value, domain);
    }
  }

  /** Model-only record of the domains resolveRegistrar has been called on, in call order. */
  class ResolveLog {
    ghost var calls: seq<string>

    ghost constructor ()
      ensures calls == []
    {
      calls := [];
    }
  }

  /**
    resolveRegistrar: the expected registrar; WHOIS is consulted (through the cache) only
    when no provider claims the domain. Every call is appended to `log`.
   */
  method ResolveRegistrar(domain: string, cf: Cloudflare.CloudflareClient?, r53: Route53.Route53Client?, whois: Whois.WhoisClient,
                          ghost log: ResolveLog)
    returns (registrar: string)
    requires whois.Valid()
    modifies whois, log
    ensures whois.Valid()
    ensures log.calls == old(log.calls) + [domain]
    ensures registrar == ExpectedRegistrar(domain, CloudflareZones(cf), Route53Zones(r53), whois.registrarOf)
    ensures ProviderClaims(domain, CloudflareZones(cf), Route53Zones(r53)) ==>
      whois.cache == old(whois.cache) && whois.fetched == old(whois.fetched)
    ensures !ProviderClaims(domain, CloudflareZones(cf), Route53Zones(r53)) ==>
      whois.fetched == old(whois.fetched) + (if domain in old(whois.cache) then [] else [domain])
  {
    log.calls := log.calls + [domain];
    if cf != null && cf.IsCloudflareRegistrar(domain) {
      return Cloudflare.Source;
    }
    if r53 != null && r53.IsRoute53Registrar(domain) {
      return Route53.Source;
    }
    registrar := whois.LookupRegistrar(domain);
  }

  /** What resolveRegistrars has built after some records: the memo map, the domains
      resolved (in order), and the records. */
  datatype ResolveState = ResolveState(done: map<string, string>, resolved: seq<string>, records: seq<Record>)

  /** The state of resolveRegistrars' loop after its first i passes over `orig`, where
      `registrarOf` gives the registrar resolveRegistrar settles on for a domain. */
  function ResolveLoop(orig: seq<Record>, i: int, registrarOf: string -> string): ResolveState
    requires 0 <= i <= |orig|
    decreases i
  {
    if i == 0 then ResolveState(map[], [], orig)
    else
      var st := ResolveLoop(orig, i - 1, registrarOf);
      var d := orig[i - 1].domain;
      var done := st.done[d := registrarOf(d)];
      ResolveState(done, if d in st.done then st.resolved else st.resolved + [d],
                   if i - 1 < |st.records| then st.records[i - 1 := orig[i - 1].(registrar := done[d])] else st.records)
  }

  /** The records: the first i carry their domain's registrar, the rest are as they were. */
  lemma {:induction false} ResolveLoopRecords(orig: seq<Record>, i: int, registrarOf: string -> string)
    requires 0 <= i <= |orig|
    ensures var st := ResolveLoop(orig, i, registrarOf);
      && |st.records| == |orig|
      && (forall j :: 0 <= j < i ==> st.records[j] == orig[j].(registrar := registrarOf(orig[j].domain)))
      && (forall j :: i <= j < |orig| ==> st.records[j] == orig[j])
    decreases i
  {
    if i > 0 {
      ResolveLoopRecords(orig, i - 1, registrarOf);
    }
  }

  /** The memo map holds exactly the domains of the first i records, each with its registrar. */
  lemma {:induction false} ResolveLoopDone(orig: seq<Record>, i: int, registrarOf: string -> string)
    requires 0 <= i <= |orig|
    ensures var st := ResolveLoop(orig, i, registrarOf);
      && (forall d :: d in st.done ==> st.done[d] == registrarOf(d))
      && (forall d :: d in st.done <==> exists j :: 0 <= j < i && orig[j].domain == d)
    decreases i
  {
    if i > 0 {
      ResolveLoopDone(orig, i - 1, registrarOf);
      var before := ResolveLoop(orig, i - 1, registrarOf).done;
      var d0 := orig[i - 1].domain;
      var after := ResolveLoop(orig, i, registrarOf).done;
      assert after == before[d0 := registrarOf(d0)];
      forall d
        ensures d in after <==> exists j :: 0 <= j < i && orig[j].domain == d
      {
        if d in after && d != d0 {
          assert d in before;
          var j :| 0 <= j < i - 1 && orig[j].domain == d;
        }
        if exists j :: 0 <= j < i && orig[j].domain == d {
          var j :| 0 <= j < i && orig[j].domain == d;
          if j < i - 1 {
            assert d in before;
          }
        }
      }
    }
  }

  /** `resolved` lists the keys of the memo map, each once: one resolution per distinct domain. */
  lemma {:induction false} ResolveLoopResolved(orig: seq<Record>, i: int, registrarOf: string -> string)
    requires 0 <= i <= |orig|
    ensures var st := ResolveLoop(orig, i, registrarOf);
      && (forall d :: d in st.done <==> d in st.resolved)
      && NoDuplicates(st.resolved)
    decreases i
  {
    if i > 0 {
      ResolveLoopResolved(orig, i - 1, registrarOf);
    }
  }

  /**
    One pass of resolveRegistrars' loop: record i takes the registrar remembered for its
    domain, which is resolved (and remembered) first when the domain is new. Only a new
    domain can cause a resolveRegistrar call and a WHOIS query, and then only for that
    domain. The clients' zones are passed alongside as ghost values; they do not change.
   */
  method ResolveAt(records: array<Record>, i: int, done: map<string, string>, cf: Cloudflare.CloudflareClient?,
                   r53: Route53.Route53Client?, whois: Whois.WhoisClient, ghost log: ResolveLog,
                   ghost cfZones: Option<seq<Cloudflare.Zone>>, ghost r53Zones: Option<seq<Route53.HostedZone>>)
    returns (done': map<string, string>)
    requires 0 <= i < records.Length
    requires whois.Valid()
    requires CloudflareZones(cf) == cfZones && Route53Zones(r53) == r53Zones
    requires forall d :: d in done ==> done[d] == ExpectedRegistrar(d, cfZones, r53Zones, whois.registrarOf)
    modifies records, whois, log
    ensures whois.Valid()
    ensures CloudflareZones(cf) == cfZones && Route53Zones(r53) == r53Zones
    ensures log.calls == old(log.calls) + (if old(records[i]).domain in done then [] else [old(records[i]).domain])
    ensures var domain := old(records[i]).domain;
      done' == done[domain := ExpectedRegistrar(domain, cfZones, r53Zones, whois.registrarOf)]
    ensures records[..] == old(records[..])[i := old(records[i]).(registrar := done'[old(records[i]).domain])]
    ensures old(records[i]).domain in done ==> whois.fetched == old(whois.fetched)
    ensures old(records[i]).domain !in done ==>
      whois.fetched == old(whois.fetched) || whois.fetched == old(whois.fetched) + [old(records[i]).domain]
  {
    var domain := records[i].domain;
    if domain in done {
      done' := done;
      records[i] := records[i].(registrar := done[domain]);
    } else {
      var registrar := ResolveRegistrar(domain, cf, r53, whois, log);
      done' := done[domain := registrar];
      records[i] := records[i].(registrar := registrar);
    }
  }

  /** ExpectedRegistrar for every domain, with the providers' zones and the WHOIS registrars fixed. */
  function Expected(cfZones: Option<seq<Cloudflare.Zone>>, r53Zones: Option<seq<Route53.HostedZone>>,
                    whoisRegistrar: string -> string): string -> string
  {
    d => ExpectedRegistrar(d, cfZones, r53Zones, whoisRegistrar)
  }

  /** The loop invariant of resolveRegistrars after i passes over `orig`: the state is the one
      ResolveLoop describes, resolveRegistrar has been called on exactly the domains resolved
      so far, and WHOIS has been asked only about those. */
  ghost predicate ResolveInvariant(records: array<Record>, i: int, done: map<string, string>, resolved: seq<string>,
                                   whois: Whois.WhoisClient, log: ResolveLog, orig: seq<Record>, fetched0: seq<string>,
                                   expected: string -> string)
    reads records, whois, log
  {
    && 0 <= i <= |orig| == records.Length
    && whois.Valid()
    && ResolveState(done, resolved, records[..]) == ResolveLoop(orig, i, expected)
    && log.calls == resolved
    && fetched0 <= whois.fetched
    && (forall d :: d in whois.fetched ==> d in fetched0 || d in resolved)
  }

  /** One pass of resolveRegistrars' loop keeps its invariant. */
  method ResolveStep(records: array<Record>, i: int, done: map<string, string>, cf: Cloudflare.CloudflareClient?,
                     r53: Route53.Route53Client?, whois: Whois.WhoisClient, ghost log: ResolveLog, ghost resolved: seq<string>,
                     ghost orig: seq<Record>, ghost fetched0: seq<string>,
                     ghost cfZones: Option<seq<Cloudflare.Zone>>, ghost r53Zones: Option<seq<Route53.HostedZone>>)
    returns (done': map<string, string>, ghost resolved': seq<string>)
    requires 0 <= i < records.Length
    requires CloudflareZones(cf) == cfZones && Route53Zones(r53) == r53Zones
    requires ResolveInvariant(records, i, done, resolved, whois, log, orig, fetched0, Expected(cfZones, r53Zones, whois.registrarOf))
    modifies records, whois, log
    ensures ResolveInvariant(records, i + 1, done', resolved', whois, log, orig, fetched0, Expected(cfZones, r53Zones, whois.registrarOf))
  {
    ghost var expected := Expected(cfZones, r53Zones, whois.registrarOf);
    ResolveLoopRecords(orig, i, expected);
    ResolveLoopDone(orig, i, expected);
    ghost var d := orig[i].domain;
    resolved' := if d in done then resolved else resolved + [d];
    done' := ResolveAt(records, i, done, cf, r53, whois, log, cfZones, r53Zones);
  }

  /**
    resolveRegistrars: every record gets its domain's expected registrar and nothing else
    changes; resolveRegistrar is called once per distinct domain (`calls` lists the calls,
    in first-seen order), and WHOIS is queried only for domains among them.
   */
  method ResolveRegistrars(records: array<Record>, cf: Cloudflare.CloudflareClient?, r53: Route53.Route53Client?,
                           whois: Whois.WhoisClient) returns (ghost calls: seq<string>)
    requires whois.Valid()
    modifies records, whois
    ensures whois.Valid()
    ensures forall i :: 0 <= i < records.Length ==>
      records[i] == old(records[i]).(registrar := ExpectedRegistrar(old(records[i]).domain, CloudflareZones(cf), Route53Zones(r53), whois.registrarOf))
    ensures NoDuplicates(calls)
    ensures forall d :: d in calls <==> exists i :: 0 <= i < records.Length && old(records[i]).domain == d
    ensures old(whois.fetched) <= whois.fetched
    ensures forall d :: d in whois.fetched ==> d in old(whois.fetched) || d in calls
  {
    ghost var fetched0, orig := whois.fetched, records[..];
    ghost var cfZones, r53Zones := CloudflareZones(cf), Route53Zones(r53);
    ghost var expected := Expected(cfZones, r53Zones, whois.registrarOf);
    ghost var log := new ResolveLog();
    var done: map<string, string> := map[];
    ghost var resolved: seq<string> := [];
    for i := 0 to records.Length
      invariant ResolveInvariant(records, i, done, resolved, whois, log, orig, fetched0, expected)
    {
      done, resolved := ResolveStep(records, i, done, cf, r53, whois, log, resolved, orig, fetched0, cfZones, r53Zones);
    }
    ResolveFinal(orig, expected);
    calls := log.calls;
  }

  /** What the loop has built once it has passed over every record. */
  lemma ResolveFinal(orig: seq<Record>, expected: string -> string)
    ensures var st := ResolveLoop(orig, |orig|, expected);
      && |st.records| == |orig|
      && (forall i :: 0 <= i < |orig| ==> st.records[i] == orig[i].(registrar := expected(orig[i].domain)))
      && NoDuplicates(st.resolved)
      && (forall d :: d in st.resolved <==> exists i :: 0 <= i < |orig| && orig[i].domain == d)
  {
    ResolveLoopRecords(orig, |orig|, expected);
    ResolveLoopDone(orig, |orig|, expected);
    ResolveLoopResolved(orig, |orig|, expected);
  }

  /** What one provider goroutine of run leaves behind: no client, or a client and, when its
      fetch succeeded, the records. */
  datatype SourceOutcome = NoClient | Fetched(records: Option<seq<Record>>)

  /** The records an outcome contributes: none unless the fetch succeeded. */
  function RecordsOf(o: SourceOutcome): (rs: seq<Record>)
    ensures o.NoClient? || o.records.None? ==> rs == []
    ensures o.Fetched? && o.records.Some? ==> rs == o.records.value
  {
    if o.Fetched? && o.records.Some? then o.records.value else []
  }

  /**
    The combination step of run: an error exactly when neither provider has a client (a
    client whose fetch failed still counts); otherwise the Cloudflare records followed by the
    Route 53 records, with nothing dropped or merged.
   */
  function Aggregate(cf: SourceOutcome, r53: SourceOutcome): (res: Result<seq<Record>, string>)
    ensures res.Failure? <==> cf.NoClient? && r53.NoClient?
    ensures res.Success? ==> |res.value| == |RecordsOf(cf)| + |RecordsOf(r53)|
    ensures res.Success? ==> res.value[..|RecordsOf(cf)|] == RecordsOf(cf) && res.value[|RecordsOf(cf)|..] == RecordsOf(r53)
  {
    if cf.NoClient? && r53.NoClient? then Failure("no credentials configured for cloudflare or aws")
    else Success(RecordsOf(cf) + RecordsOf(r53))
  }

  /**
    Everything outside the model that run depends on: whether configuration loads, the
    Cloudflare credentials and whether its SDK handle can be made, the two provider APIs,
    whether the AWS configuration loads, the WHOIS service and the TLS probe.
   */
  datatype Environment = Environment(
    configLoaded: bool,
    cfApiKey: string,
    cfEmail: string,
    cfSdkReady: bool,
    cfApi: Cloudflare.CloudflareApi,
    awsConfigLoaded: bool,
    r53Api: Route53.Route53Api,
    whois: string -> Option<string>,
    probe: string -> Cert.Handshake)

  predicate CloudflareConfigured(env: Environment)
  {
    env.cfApiKey != "" && env.cfEmail != "" && env.cfSdkReady
  }

  /** The Cloudflare goroutine's outcome. */
  function CloudflareOutcome(env: Environment, types: seq<string>): SourceOutcome
  {
    if !CloudflareConfigured(env) then NoClient
    else
      var api := env.cfApi;
      if api.zoneList.Some? && forall i :: 0 <= i < |api.zoneList.value| ==> api.zoneList.value[i].id in api.dnsRecords
      then Fetched(Some(Cloudflare.AllZoneRecords(api.zoneList.value, api.dnsRecords, types)))
      else Fetched(None)
  }

  /** The Route 53 goroutine's outcome. */
  function Route53Outcome(env: Environment, types: seq<string>): SourceOutcome
  {
    if !env.awsConfigLoaded then NoClient
    else
      var api := env.r53Api;
      if api.zoneList.Some? && forall i :: 0 <= i < |api.zoneList.value| ==> api.zoneList.value[i].id in api.recordSets
      then Fetched(Some(Route53.AllZoneRecords(api.zoneList.value, api.recordSets, types)))
      else Fetched(None)
  }

  /** The zones each client holds once its goroutine is over (None for a nil client). */
  function CloudflareZonesAfter(env: Environment): Option<seq<Cloudflare.Zone>>
  {
    if !CloudflareConfigured(env) then None
    else Some(if env.cfApi.zoneList.Some? then env.cfApi.zoneList.value else [])
  }

  function Route53ZonesAfter(env: Environment): Option<seq<Route53.HostedZone>>
  {
    if !env.awsConfigLoaded then None
    else Some(if env.r53Api.zoneList.Some? then env.r53Api.zoneList.value else [])
  }

  /** A fetched record once resolveRegistrars has run: its domain's registrar filled in. */
  function Resolved(r: Record, env: Environment): Record
  {
    r.(registrar := ExpectedRegistrar(r.domain, CloudflareZonesAfter(env), Route53ZonesAfter(env), Whois.Registrars(env.whois)))
  }

  /** A fetched record as run hands it to the output: registrar resolved, then enriched when asked. */
  function Finished(r: Record, env: Environment, fetchCert: bool): Record
  {
    if fetchCert then Cert.Enriched(Resolved(r, env), env.probe) else Resolved(r, env)
  }

  function MapSeq<T, U>(f: T -> U, s: seq<T>): (t: seq<U>)
    ensures |t| == |s| && forall i :: 0 <= i < |s| ==> t[i] == f(s[i])
  {
    seq(|s|, i requires 0 <= i < |s| => f(s[i]))
  }

  /** Applying the same function to two arrangements of the same elements gives two
      arrangements of the same results. */
  lemma {:induction false} MapPreservesPermutation<T, U>(f: T -> U, s: seq<T>, t: seq<T>)
    requires multiset(s) == multiset(t)
    ensures multiset(MapSeq(f, s)) == multiset(MapSeq(f, t))
    decreases |s|
  {
    if s == [] {
      assert |multiset(t)| == 0;
    } else {
      assert s[0] in multiset(t);
      var k :| 0 <= k < |t| && t[k] == s[0];
      RemoveMatching(s, t, k);
      MapPreservesPermutation(f, s[1..], t[..k] + t[k + 1..]);
      MapRemoved(f, s, t, k);
    }
  }

  /** Removing one copy of the first element of s from both sides keeps the same elements. */
  lemma RemoveMatching<T>(s: seq<T>, t: seq<T>, k: int)
    requires multiset(s) == multiset(t) && 0 <= k < |t| && s != [] && t[k] == s[0]
    ensures multiset(s[1..]) == multiset(t[..k] + t[k + 1..])
  {
    RemoveAt(t, k);
    RemoveAt(s, 0);
    assert s[..0] + s[1..] == s[1..];
    Cancel(multiset(s[1..]), multiset(t[..k] + t[k + 1..]), s[0]);
  }

  /** The step of MapPreservesPermutation: put the matching result back on both sides. */
  lemma MapRemoved<T, U>(f: T -> U, s: seq<T>, t: seq<T>, k: int)
    requires 0 <= k < |t| && s != [] && t[k] == s[0]
    requires multiset(MapSeq(f, s[1..])) == multiset(MapSeq(f, t[..k] + t[k + 1..]))
    ensures multiset(MapSeq(f, s)) == multiset(MapSeq(f, t))
  {
    var ms, mt := MapSeq(f, s), MapSeq(f, t);
    RemoveAt(mt, k);
    MapRemoveAt(f, t, k);
    assert multiset(mt) == multiset(MapSeq(f, t[..k] + t[k + 1..])) + multiset{f(s[0])};
    assert ms == [f(s[0])] + MapSeq(f, s[1..]);
    assert multiset(ms) == multiset{f(s[0])} + multiset(MapSeq(f, s[1..]));
  }

  lemma MapRemoveAt<T, U>(f: T -> U, t: seq<T>, k: int)
    requires 0 <= k < |t|
    ensures MapSeq(f, t)[..k] + MapSeq(f, t)[k + 1..] == MapSeq(f, t[..k] + t[k + 1..])
  {
    var m, t' := MapSeq(f, t), t[..k] + t[k + 1..];
    forall i | 0 <= i < |t'|
      ensures (m[..k] + m[k + 1..])[i] == MapSeq(f, t')[i]
    {
      if i < k {
        assert t'[i] == t[i];
      } else {
        assert t'[i] == t[i + 1];
      }
    }
  }

  lemma RemoveAt<T>(t: seq<T>, k: int)
    requires 0 <= k < |t|
    ensures multiset(t) == multiset(t[..k] + t[k + 1..]) + multiset{t[k]}
  {
    assert t == t[..k] + [t[k]] + t[k + 1..];
  }

  lemma Cancel<T>(a: multiset<T>, b: multiset<T>, x: T)
    requires a + multiset{x} == b + multiset{x}
    ensures a == b
  {
    assert forall y :: a[y] == (a + multiset{x})[y] - multiset{x}[y];
    assert forall y :: b[y] == (b + multiset{x})[y] - multiset{x}[y];
  }

  /**
    The two provider goroutines of run and the combination of their results: each client
    ends holding the zones its listing returned, and the combined result is Aggregate of the
    two outcomes.
   */
  method FetchSources(env: Environment, types: seq<string>)
    returns (cf: Cloudflare.CloudflareClient?, r53: Route53.Route53Client?, combined: Result<seq<Record>, string>)
    ensures CloudflareZones(cf) == CloudflareZonesAfter(env)
    ensures Route53Zones(r53) == Route53ZonesAfter(env)
    ensures combined == Aggregate(CloudflareOutcome(env, types), Route53Outcome(env, types))
  {
    var cfErr, r53Err;
    cf, cfErr := Cloudflare.NewCloudflareClient(env.cfApiKey, env.cfEmail, env.cfSdkReady);
    var cfOutcome := NoClient;
    if cf != null {
      var fetched := cf.FetchRecords(env.cfApi, types);
      cfOutcome := Fetched(if fetched.Success? then Some(fetched.value) else None);
    }
    r53, r53Err := Route53.NewRoute53Client(env.awsConfigLoaded);
    var r53Outcome := NoClient;
    if r53 != null {
      var fetched := r53.FetchRecords(env.r53Api, types);
      r53Outcome := Fetched(if fetched.Success? then Some(fetched.value) else None);
    }
    combined := Aggregate(cfOutcome, r53Outcome);
  }

  /**
    The rest of run on the combined records: registrars resolved with a fresh WHOIS client,
    records sorted by domain and name, certificates fetched when asked. The result is sorted,
    holds exactly the finished records, and every record carries its domain's registrar.
   */
  method Complete(records: seq<Record>, cf: Cloudflare.CloudflareClient?, r53: Route53.Route53Client?, env: Environment, fetchCert: bool)
    returns (out: seq<Record>)
    requires CloudflareZones(cf) == CloudflareZonesAfter(env)
    requires Route53Zones(r53) == Route53ZonesAfter(env)
    ensures Sorting.Sorted(out)
    ensures multiset(out) == multiset(MapSeq(r => Finished(r, env, fetchCert), records))
    ensures forall i :: 0 <= i < |out| ==>
      out[i].registrar == ExpectedRegistrar(out[i].domain, CloudflareZonesAfter(env), Route53ZonesAfter(env), Whois.Registrars(env.whois))
  {
    var a := ResolveCopy(records, cf, r53, env);
    ghost var afterResolve := a[..];
    Sorting.SortRecords(a);
    ghost var sorted := a[..];
    SortedRegistrars(sorted, afterResolve, records, env);
    if fetchCert {
      ghost var probed := Cert.FetchCertificates(a, env.probe);
      EnrichSorted(sorted, a[..], afterResolve, records, env);
    } else {
      assert afterResolve == MapSeq(r => Finished(r, env, fetchCert), records);
    }
    out := a[..];
  }

  /** The first part of Complete: the records copied into a fresh array and given their
      registrars by resolveRegistrars with a fresh WHOIS client. */
  method ResolveCopy(records: seq<Record>, cf: Cloudflare.CloudflareClient?, r53: Route53.Route53Client?, env: Environment)
    returns (a: array<Record>)
    requires CloudflareZones(cf) == CloudflareZonesAfter(env)
    requires Route53Zones(r53) == Route53ZonesAfter(env)
    ensures fresh(a)
    ensures a[..] == MapSeq(r => Resolved(r, env), records)
  {
    a := new Record[|records|](i requires 0 <= i < |records| => records[i]);
    assert a[..] == records;
    var whois := new Whois.WhoisClient(env.whois);
    ghost var calls := ResolveRegistrars(a, cf, r53, whois);
  }

  /** Reordering the resolved records keeps every record's registrar its domain's. */
  lemma SortedRegistrars(sorted: seq<Record>, afterResolve: seq<Record>, records: seq<Record>, env: Environment)
    requires multiset(sorted) == multiset(afterResolve)
    requires afterResolve == MapSeq(r => Resolved(r, env), records)
    ensures forall i :: 0 <= i < |sorted| ==>
      sorted[i].registrar == ExpectedRegistrar(sorted[i].domain, CloudflareZonesAfter(env), Route53ZonesAfter(env), Whois.Registrars(env.whois))
  {
    forall i | 0 <= i < |sorted|
      ensures sorted[i].registrar == ExpectedRegistrar(sorted[i].domain, CloudflareZonesAfter(env), Route53ZonesAfter(env), Whois.Registrars(env.whois))
    {
      assert sorted[i] in multiset(sorted);
      assert sorted[i] in afterResolve;
    }
  }

  /** Enriching the sorted, resolved records keeps them sorted, keeps their registrars and
      gives the finished records. */
  lemma EnrichSorted(sorted: seq<Record>, enriched: seq<Record>, afterResolve: seq<Record>, records: seq<Record>, env: Environment)
    requires Sorting.Sorted(sorted)
    requires multiset(sorted) == multiset(afterResolve)
    requires afterResolve == MapSeq(r => Resolved(r, env), records)
    requires |enriched| == |sorted| && forall i :: 0 <= i < |sorted| ==> enriched[i] == Cert.Enriched(sorted[i], env.probe)
    ensures Sorting.Sorted(enriched)
    ensures multiset(enriched) == multiset(MapSeq(r => Finished(r, env, true), records))
    ensures forall i :: 0 <= i < |sorted| ==> enriched[i].domain == sorted[i].domain && enriched[i].registrar == sorted[i].registrar
  {
    var enrich := (r: Record) => Cert.Enriched(r, env.probe);
    assert enriched == MapSeq(enrich, sorted);
    MapPreservesPermutation(enrich, sorted, afterResolve);
    assert MapSeq(enrich, afterResolve) == MapSeq(r => Finished(r, env, true), records);
    forall i, j | 0 <= i < j < |enriched|
      ensures !Sorting.RecordLess(enriched[j], enriched[i])
    {
      assert !Sorting.RecordLess(sorted[j], sorted[i]);
    }
  }

  /**
    run after configuration: an error when configuration fails to load or when neither
    provider has a client; otherwise the records of both providers, each with its domain's
    registrar and, when asked, its certificate details, sorted by domain and then name.
    Only the order of records is left open: the output holds exactly the finished records.
   */
  method Run(env: Environment, types: seq<string>, fetchCert: bool) returns (res: Result<seq<Record>, string>)
    ensures res.Failure? <==> !env.configLoaded || Aggregate(CloudflareOutcome(env, types), Route53Outcome(env, types)).Failure?
    ensures res.Success? ==> Sorting.Sorted(res.value)
    ensures res.Success? ==>
      var fetched := Aggregate(CloudflareOutcome(env, types), Route53Outcome(env, types)).value;
      multiset(res.value) == multiset(MapSeq(r => Finished(r, env, fetchCert), fetched))
    ensures res.Success? ==> forall i :: 0 <= i < |res.value| ==>
      res.value[i].registrar == ExpectedRegistrar(res.value[i].domain, CloudflareZonesAfter(env), Route53ZonesAfter(env), Whois.Registrars(env.whois))
  {
    if !env.configLoaded {
      return Failure("failed to load config");
    }
    var cf, r53, combined := FetchSources(env, types);
    if combined.Failure? {
      return Failure(combined.error);
    }
    var out := Complete(combined.value, cf, r53, env, fetchCert);
    res := Success(out);
  }
}
