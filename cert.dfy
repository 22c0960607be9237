/**
  Certificate enrichment (cert.go): one TLS probe per distinct host name among the records
  whose type can carry a certificate, and the result copied to every such record. The probe
  (dial, handshake, error classification) is a function given to the enricher.
 */
module Cert {
  import opened Wrappers
  import opened Records

  /** The sentinel written into records whose type cannot carry a certificate. */
  const NotApplicable := "n/a"

  datatype CertInfo = CertInfo(issuer: string, expires: string, error: string)

  /** The parts of a peer certificate the enricher reads; NotAfter is kept already formatted. */
  datatype Certificate = Certificate(organization: seq<string>, commonName: string, notAfter: string)

  /** What tls.DialWithDialer gives: a failure, already classified by formatCertError, or the
      peer certificates of the connection. */
  datatype Handshake = DialFailed(formattedError: string) | Connected(peerCertificates: seq<Certificate>)

  /** shouldCheckCert: only address and alias records are probed; the match is case-sensitive. */
  predicate ShouldCheckCert(recordType: string): (b: bool)
    ensures b <==> recordType in {"A", "AAAA", "CNAME"}
  {
    recordType == "A" || recordType == "AAAA" || recordType == "CNAME"
  }

  /**
    The issuer name lookupCert reports: the first Organization entry, else a non-empty
    CommonName, else "unknown". It is empty only when the first Organization entry is.
   */
  function IssuerName(cert: Certificate): (issuer: string)
    ensures |cert.organization| > 0 ==> issuer == cert.organization[0]
    ensures |cert.organization| == 0 && cert.commonName != "" ==> issuer == cert.commonName
    ensures |cert.organization| == 0 && cert.commonName == "" ==> issuer == "unknown"
    ensures issuer == "" ==> |cert.organization| > 0 && cert.organization[0] == ""
  {
    if |cert.organization| > 0 then cert.organization[0]
    else if cert.commonName != "" then cert.commonName
    else "unknown"
  }

  /**
    lookupCert after the dial: a failed dial reports only its error; a connection without
    peer certificates reports the error "no certificate"; otherwise the leaf certificate gives
    the issuer and the expiry date and there is no error.
   */
  function LookupCert(h: Handshake): (info: CertInfo)
    ensures h.DialFailed? ==> info == CertInfo("", "", h.formattedError)
    ensures h.Connected? && |h.peerCertificates| == 0 ==> info == CertInfo("", "", "no certificate")
    ensures h.Connected? && |h.peerCertificates| > 0 ==>
      info.error == "" && info.expires == h.peerCertificates[0].notAfter && info.issuer == IssuerName(h.peerCertificates[0])
  {
    match h
    case DialFailed(e) => CertInfo("", "", e)
    case Connected(certs) =>
      if |certs| == 0 then CertInfo("", "", "no certificate")
      else CertInfo(IssuerName(certs[0]), certs[0].notAfter, "")
  }

  /** A record after enrichment, given the probe: only the certificate fields change. An
      eligible record takes its name's probe result; any other gets "n/a" as issuer and
      expiry and keeps its error. */
  function Enriched(r: Record, probe: string -> Handshake): (e: Record)
    ensures e.domain == r.domain && e.name == r.name && e.value == r.value
    ensures e.recordType == r.recordType && e.source == r.source && e.registrar == r.registrar
    ensures !ShouldCheckCert(r.recordType) ==>
      e.certIssuer == NotApplicable && e.certExpires == NotApplicable && e.certError == r.certError
    ensures ShouldCheckCert(r.recordType) ==>
      var info := LookupCert(probe(r.name));
      e.certIssuer == info.issuer && e.certExpires == info.expires && e.certError == info.error
  {
    if !ShouldCheckCert(r.recordType) then r.(certIssuer := NotApplicable, certExpires := NotApplicable)
    else
      var info := LookupCert(probe(r.name));
      r.(certIssuer := info.issuer, certExpires := info.expires, certError := info.error)
  }

  predicate Eligible(records: seq<Record>, i: int, name: string)
  {
    0 <= i < |records| && ShouldCheckCert(records[i].recordType) && records[i].name == name
  }

  /** The strictly increasing list of exactly the eligible positions below `bound` with this name. */
  ghost predicate TargetList(ixs: seq<int>, records: seq<Record>, name: string, bound: int)
  {
    && (forall a, b :: 0 <= a < b < |ixs| ==> ixs[a] < ixs[b])
    && (forall i :: i in ixs <==> i < bound && Eligible(records, i, name))
  }

  /** The positions below `bound` are grouped: the keys are the names of those eligible
      records, each with its exact target list. */
  ghost predicate Grouped(targets: map<string, seq<int>>, records: seq<Record>, bound: int)
  {
    && (forall name :: name in targets <==> exists i :: i < bound && Eligible(records, i, name))
    && (forall name :: name in targets ==> TargetList(targets[name], records, name, bound))
  }

  /**
    The first loop of FetchCertificates: groups the positions of the records to probe by
    name. A name is a key exactly when some eligible record has it, and its list holds, in
    increasing order, exactly the positions of the eligible records with that name.
   */
  method GroupTargets(records: seq<Record>) returns (targets: map<string, seq<int>>)
    ensures forall name :: name in targets <==> exists i :: Eligible(records, i, name)
    ensures forall name :: name in targets ==> TargetList(targets[name], records, name, |records|)
  {
    targets := map[];
    for k := 0 to |records|
      invariant Grouped(targets, records, k)
    {
      ghost var before := targets;
      if ShouldCheckCert(records[k].recordType) {
        var name := records[k].name;
        var ixs := if name in targets then targets[name] else [];
        targets := targets[name := ixs + [k]];
        GroupEligible(before, records, k);
      } else {
        GroupIneligible(targets, records, k);
      }
    }
  }

  lemma GroupIneligible(targets: map<string, seq<int>>, records: seq<Record>, k: int)
    requires 0 <= k < |records| && !ShouldCheckCert(records[k].recordType)
    requires Grouped(targets, records, k)
    ensures Grouped(targets, records, k + 1)
  {
    assert forall name :: !Eligible(records, k, name);
  }

  lemma GroupEligible(targets: map<string, seq<int>>, records: seq<Record>, k: int)
    requires 0 <= k < |records| && ShouldCheckCert(records[k].recordType)
    requires Grouped(targets, records, k)
    ensures var name := records[k].name;
      var ixs := if name in targets then targets[name] else [];
      Grouped(targets[name := ixs + [k]], records, k + 1)
  {
    var name := records[k].name;
    var ixs := if name in targets then targets[name] else [];
    var after := targets[name := ixs + [k]];
    assert TargetList(ixs, records, name, k);
    AppendTarget(ixs, records, name, k);
    forall other | other != name
      ensures !Eligible(records, k, other)
    {
    }
    forall other
      ensures other in after <==> exists i :: i < k + 1 && Eligible(records, i, other)
    {
      if other == name {
        assert Eligible(records, k, other);
      }
    }
    forall other | other in after
      ensures TargetList(after[other], records, other, k + 1)
    {
      if other != name {
        assert after[other] == targets[other];
      }
    }
  }

  /** Appending the next eligible position keeps a target list exact. */
  lemma AppendTarget(ixs: seq<int>, records: seq<Record>, name: string, k: int)
    requires TargetList(ixs, records, name, k)
    requires Eligible(records, k, name)
    ensures TargetList(ixs + [k], records, name, k + 1)
  {
    forall a | 0 <= a < |ixs|
      ensures ixs[a] < k
    {
      assert ixs[a] in ixs;
    }
  }

  /**
    FetchCertificates: the probe runs once per distinct name among the eligible records and
    never for any other name; every eligible record gets its name's result, every other
    record gets "n/a" as issuer and expiry and keeps its error; nothing else changes.
   */
  method FetchCertificates(records: array<Record>, probe: string -> Handshake) returns (ghost probed: seq<string>)
    modifies records
    ensures forall i :: 0 <= i < records.Length ==> records[i] == Enriched(old(records[i]), probe)
    ensures NoDuplicates(probed)
    ensures forall name :: name in probed <==> exists i :: Eligible(old(records[..]), i, name)
    ensures forall i, j ::
      (0 <= i < records.Length && 0 <= j < records.Length && records[i].name == records[j].name
       && ShouldCheckCert(records[i].recordType) && ShouldCheckCert(records[j].recordType)) ==>
        (records[i].certIssuer == records[j].certIssuer && records[i].certExpires == records[j].certExpires
         && records[i].certError == records[j].certError)
  {
    var targets := GroupTargets(records[..]);
    var results;
    results, probed := ProbeAll(targets.Keys, probe);
    forall i | 0 <= i < records.Length && ShouldCheckCert(records[i].recordType)
      ensures records[i].name in results
    {
      assert Eligible(records[..], i, records[i].name);
    }
    ApplyResults(records, results, probe);
  }

  /**
    The probing loop of FetchCertificates: one probe per name, each name probed once, and
    every name's result kept.
   */
  method ProbeAll(names: set<string>, probe: string -> Handshake) returns (results: map<string, CertInfo>, ghost probed: seq<string>)
    ensures results.Keys == names
    ensures forall name :: name in results ==> results[name] == LookupCert(probe(name))
    ensures NoDuplicates(probed)
    ensures forall name :: name in probed <==> name in names
  {
    results := map[];
    var pending := names;
    probed := [];
    while pending != {}
      invariant pending <= names
      invariant results.Keys == names - pending
      invariant forall name :: name in results ==> results[name] == LookupCert(probe(name))
      invariant NoDuplicates(probed)
      invariant forall name :: name in probed <==> name in results
      decreases pending
    {
      var name :| name in pending;
      results := results[name := LookupCert(probe(name))];
      probed := probed + [name];
      pending := pending - {name};
    }
  }

  /**
    The second loop of FetchCertificates: each record to probe takes its name's result,
    every other record gets "n/a" as issuer and expiry. The probe is ghost here: this loop
    only reads results and never probes.
   */
  method ApplyResults(records: array<Record>, results: map<string, CertInfo>, ghost probe: string -> Handshake)
    requires forall i :: 0 <= i < records.Length && ShouldCheckCert(records[i].recordType) ==> records[i].name in results
    requires forall name :: name in results ==> results[name] == LookupCert(probe(name))
    modifies records
    ensures forall i :: 0 <= i < records.Length ==> records[i] == Enriched(old(records[i]), probe)
  {
    for i := 0 to records.Length
      invariant forall j :: 0 <= j < i ==> records[j] == Enriched(old(records[j]), probe)
      invariant forall j :: i <= j < records.Length ==> records[j] == old(records[j])
    {
      if !ShouldCheckCert(records[i].recordType) {
        records[i] := records[i].(certIssuer := NotApplicable, certExpires := NotApplicable);
      } else {
        assert Eligible(old(records[..]), i, records[i].name);
        var info := results[records[i].name];
        records[i] := records[i].(certIssuer := info.issuer, certExpires := info.expires, certError := info.error);
      }
    }
  }
}
