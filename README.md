# domains-cli record pipeline, modelled in Dafny

domains-cli lists the DNS records of every zone held at Cloudflare and at AWS Route 53. It
attributes each domain to its registrar and optionally attaches TLS certificate details to
address records, then prints a report sorted by domain and record name. This project models
its pipeline and proves what each stage promises:

- `record.dfy`: the `Record` that flows through every stage (record.go, plus the three
  certificate fields cert.go writes).
- `cloudflare.dfy`, `route53.dfy`: the provider clients (cloudflare.go, route53.go). They
  include the case-insensitive type filter, the per-zone record construction, the stored zone
  list, and the "is this provider the registrar" and "is this zone hosted" queries. The zone
  and record listings the SDKs return are inputs.
- `whois.dfy`: the WHOIS client (whois.go). It has the memo table `cache` and the scan of a
  WHOIS response for its first `Registrar:` line, which follows the regular expression
  `(?i)^Registrar:\s*(.+)$` exactly. The WHOIS query is an input function.
- `cert.dfy`: certificate enrichment (cert.go). Records are grouped by host name, each
  distinct eligible name is probed once, and the results are copied back. The TLS handshake
  is an input function.
- `output.dfy`: `NormalizeTypes` and the TSV report (output.go).
- `sorting.dfy`: the `sort.Slice` ordering of `run`, as an in-place sort of an array.
- `pipeline.dfy`: `run`, `resolveRegistrars` and `resolveRegistrar` (main.go).
- `strings.dfy`, `wrappers.dfy`: the parts of Go's `strings` package the code uses, and
  `Option`/`Result`.

Two details of `run` (main.go) shape the model:

- `run` sorts the records before it fetches certificates. Enrichment keeps every record's
  domain and name, so the order is the same as sorting last (`Pipeline.EnrichSorted`).
- When certificates are not requested, `run` leaves the certificate fields empty. They are
  "n/a" only for ineligible records of a run that fetches certificates.

## Model

| member | source | states |
|---|---|---|
| Output.NormalizeTypes | output.go:25-31 | One type per argument, in order; the i-th is the i-th argument upper-cased. |
| Output.NormalizedFilterMatches | output.go:25-31 | Upper-casing the filters never changes which record types pass the case-insensitive filter. |
| Output.OutputTSV | output.go:10-17 | The text written is the header line, then one tab-separated line per record in slice order, each ended by "\n"; the error is always nil. |
| Output.TsvLinesAppend | output.go:12-15 | One more record adds exactly its own line at the end of the report. |
| Output.HeaderSplits | output.go:11 | The header line has no newline and splits at tabs into the six column names. |
| Output.LineWithoutNewline | output.go:13-14 | A record whose fields hold no tab or newline gives a line without a newline. |
| Output.LinesWithoutNewline | output.go:11-14 | When no field holds a tab or newline, no line of the report holds a newline. |
| Output.LineFields | output.go:13-14 | A clean record's line splits at tabs into exactly its six columns: domain, name, value, type, source, registrar. |
| Output.LinesSplit | output.go:10-17 | Every line of the report splits at tabs into its expected row. |
| Output.TsvRoundTrip | output.go:10-17 | For records whose fields hold no tab or newline, the report reads back as the header row followed by every record's six columns, in order. |
| Cloudflare.MatchesType | cloudflare.go:102-112 | An empty filter passes every type; otherwise a type passes if and only if some entry equals it ignoring case. |
| Cloudflare.AnyEqualFold | cloudflare.go:106-111 | The loop over the filter is true exactly when some entry equals the type ignoring case. |
| Cloudflare.FetchZoneRecords | cloudflare.go:48-82 | The zone's records are the DNS records passing the filter, in order, followed by one NS record per name server when "NS" passes the filter. |
| Cloudflare.KeptMembers | cloudflare.go:56-67 | A record is among the kept ones exactly when it was built from a DNS record whose type passes the filter. |
| Cloudflare.KeptCount | cloudflare.go:56-67 | There is one kept record per DNS record whose type passes the filter. |
| Cloudflare.ZoneRecordsShape | cloudflare.go:48-82 | Each record of a zone has the zone name as domain, source "cloudflare", a type passing the filter and empty registrar and certificate fields; the count is the kept records plus the name servers when "NS" passes, with the NS records last. |
| Cloudflare.AllZoneRecordsFromZones | cloudflare.go:29-46 | Every record the client returns has source "cloudflare", a type passing the filter, and the name of one of the listed zones as its domain. |
| Cloudflare.FirstZoneNamed | cloudflare.go:89-90 | Finds the first stored zone with the given name, or reports that none has it. |
| Cloudflare.Claims | cloudflare.go:88-100 | IsCloudflareRegistrar holds exactly when the first zone named the domain has a name server ending in ".ns.cloudflare.com"; with no such zone it is false. |
| Cloudflare.AnyCloudflareNameServer | cloudflare.go:91-96 | The name-server loop is true exactly when some name server ends in ".ns.cloudflare.com". |
| Cloudflare.NewCloudflareClient | cloudflare.go:16-27 | No client and no error when the API key or e-mail is empty; no client and an error when the SDK handle fails; otherwise a fresh client with no zones. |
| Cloudflare.CloudflareClient.constructor | cloudflare.go:26 | A new client holds no zones. |
| Cloudflare.CloudflareClient.FetchRecords | cloudflare.go:29-46 | A failed zone listing is an error and keeps the old zones; a successful one is stored. The result is a success exactly when every zone's records could be listed, and then it is all zones' records in zone order. |
| Route53.RecordValues | route53.go:79-89 | An alias set gives only its target, minus one trailing dot; any other set gives each of its values in order, each minus one trailing dot. |
| Route53.AppendValues | route53.go:65-73 | The inner loop appends one record per value of the set, in order. |
| Route53.FetchZoneRecords | route53.go:48-77 | The zone's records are, set by set in order, one record per value of each set whose type passes the filter. |
| Route53.ZoneRecordsFromSets | route53.go:59-74 | A record is in the zone's output exactly when a record set passing the filter contributes it. |
| Route53.ZoneRecordsMembers | route53.go:48-77 | A record is in the zone's output exactly when it is some value of a set passing the filter, with the zone name and set name minus one trailing dot and source "route53". |
| Route53.ZoneRecordsCount | route53.go:59-74 | The zone's output has as many records as the passing sets have values. |
| Route53.FirstZoneNamed | route53.go:92-94 | Finds the first stored zone whose name minus one trailing dot is the domain, or reports that none has it. |
| Route53.Claims | route53.go:91-103 | IsRoute53Registrar holds exactly when the first matching zone's comment contains "Route53 Registrar"; a missing configuration or comment counts as ""; with no matching zone it is false. |
| Route53.HostsZone | route53.go:105-112 | HasZone holds exactly when some stored zone's name minus one trailing dot is the domain. |
| Route53.ClaimsImpliesHostsZone | route53.go:91-112 | Route 53 claims to be the registrar only of domains it hosts. |
| Route53.NewRoute53Client | route53.go:18-27 | An error and no client when the AWS configuration cannot be loaded; otherwise a fresh client with no zones. |
| Route53.Route53Client.constructor | route53.go:24-26 | A new client holds no zones. |
| Route53.Route53Client.FetchRecords | route53.go:29-46 | A failed hosted-zone listing is an error and keeps the old zones; a successful one is stored. The result is a success exactly when every zone's record sets could be listed, and then it is all zones' records in zone order. |
| Whois.LeadingRegexSpace | whois.go:22 | Greedy `\s*` takes the longest prefix of regex white space. |
| Whois.RegistrarCapture | whois.go:22 | A line matches if and only if it starts with "Registrar:" in any case and has at least one more character. The capture is then non-empty and trims to the trimmed text after the label. |
| Whois.FirstRegistrar | whois.go:47-53 | The first matching line gives the registrar, trimmed and lower-cased; no matching line gives "unknown". |
| Whois.FetchRegistrar | whois.go:41-54 | A failed query gives "unknown"; whatever the response, the registrar holds no upper-case letter. |
| Whois.FetchRegistrarAnswer | whois.go:41-54 | A failed query gives "unknown". Otherwise the first matching line of the response, split at "\n", decides: its text after the label, trimmed and lower-cased. No matching line gives "unknown". |
| Whois.BlankRegistrarLine | whois.go:47-50 | A "Registrar:" line followed only by white space still matches and yields the empty registrar, not "unknown". |
| Whois.WhoisClient.constructor | whois.go:16-20 | A new client has an empty cache, has queried nothing, and resolves each domain by parsing its WHOIS answer. |
| Whois.WhoisClient.LookupRegistrar | whois.go:24-39 | The answer is always the domain's fetched registrar. A cached domain is answered without a query. Any other domain is queried once and added to the cache, and no other entry changes. |
| Whois.LookupTwice | whois.go:24-39 | Two lookups of a domain agree and cause at most one query. |
| Cert.IssuerName | cert.go:83-92 | The issuer is the first Organization entry, else a non-empty CommonName, else "unknown". |
| Cert.LookupCert | cert.go:67-98 | A failed dial reports only its error, and a connection without certificates reports "no certificate". Otherwise the leaf certificate's issuer and expiry are reported with no error. |
| Cert.ShouldCheckCert | cert.go:58-65 | A record is probed exactly when its type is "A", "AAAA" or "CNAME", compared case-sensitively. |
| Cert.Enriched | cert.go:44-55 | Enrichment changes only the certificate fields. An eligible record takes its name's probe result: issuer, expiry and error. Any other record gets "n/a" as issuer and expiry and keeps its error. |
| Cert.GroupTargets | cert.go:18-25 | The grouping has a key exactly for each name of an A, AAAA or CNAME record; each key lists exactly the positions of those records, in increasing order. |
| Cert.GroupEligible | cert.go:21-24 | Appending an eligible record's position to its name keeps the grouping exact. |
| Cert.GroupIneligible | cert.go:21 | Skipping an ineligible record keeps the grouping exact. |
| Cert.AppendTarget | cert.go:23 | Appending the next eligible position keeps a name's position list increasing and exact. |
| Cert.ProbeAll | cert.go:27-42 | Every name is probed exactly once and its result kept; there is a result for exactly the given names. |
| Cert.ApplyResults | cert.go:44-55 | Every eligible record takes its name's probe result from the results map; every other record gets "n/a" as issuer and expiry and keeps its error. The loop never probes: it sees the probe only as a ghost value. |
| Cert.FetchCertificates | cert.go:17-56 | Every record is enriched as above; the probe runs exactly once for each distinct eligible name and for no other name (its one call site is ProbeAll); eligible records sharing a name end with identical certificate fields. |
| Sorting.RecordLess | main.go:91-96 | Records compare by domain; the name decides only between equal domains; a record is never before one with the same domain and name. |
| Sorting.RecordLessAsymmetric | main.go:91-96 | The ordering never puts two records each before the other. |
| Sorting.NotAfterTransitive | main.go:91-96 | "Not before" is transitive for the ordering by domain, then name. |
| Sorting.SwapStep | main.go:91-96 | Swapping an out-of-order neighbour pair moves the sorted split one place left. |
| Sorting.InsertDone | main.go:91-96 | Once the inserted record is not before its left neighbour, the prefix is sorted. |
| Sorting.SortRecords | main.go:91-96 | Afterwards no record comes after one that orders after it (by domain, then name), and the array holds the same records as before. |
| Strings.SplitJoin | output.go:13-14 | Joining parts that do not contain the separator and splitting again gives the parts back. |
| Strings.SplitAtFirst | whois.go:47 | Splitting stops at the first separator. |
| Strings.LessTrichotomy | main.go:93-95 | Go's string `<` is a strict total order: exactly one of a < b, a == b, b < a holds. |
| Strings.LessTransitive | main.go:93-95 | Go's string `<` is transitive. |
| Strings.EqualFoldToUpper | cloudflare.go:107 | Comparing with an upper-cased string ignoring case is the same as comparing with the original. |
| Pipeline.ExpectedRegistrar | main.go:127-137 | Cloudflare when its client claims the domain; else Route 53 when its client claims it; else the WHOIS answer. A nil client claims nothing. |
| Pipeline.UnhostedGoesToWhois | main.go:127-137 | A domain neither provider hosts is always decided by WHOIS. |
| Pipeline.ResolveRegistrar | main.go:127-137 | The result is the expected registrar, and the call is logged. When a provider claims the domain, WHOIS is not consulted and the cache is untouched. Otherwise at most this one domain is queried, and only if it was not cached. |
| Pipeline.ResolveLoopRecords | main.go:110-125 | After i passes, the first i records carry their domain's registrar and the rest are untouched. |
| Pipeline.ResolveLoopDone | main.go:110-125 | After i passes, the memo map holds exactly the domains of the first i records, each with its registrar. |
| Pipeline.ResolveLoopResolved | main.go:110-125 | The domains resolved so far are exactly the memo map's keys, each resolved once. |
| Pipeline.ResolveFinal | main.go:110-125 | After the loop, every record carries its domain's registrar, and each distinct domain was resolved exactly once. |
| Pipeline.ResolveAt | main.go:114-123 | One pass: a remembered domain copies its value, with no resolveRegistrar call and no query. A new domain causes exactly one resolveRegistrar call; it is remembered and queried at most once. |
| Pipeline.ResolveStep | main.go:113-124 | One pass keeps the loop invariant, including that the resolveRegistrar calls so far are exactly the domains resolved so far. |
| Pipeline.ResolveRegistrars | main.go:110-125 | Each record gets its domain's expected registrar, and nothing else about it changes. resolveRegistrar is called exactly once per distinct domain of the records (the call log has no repeats and holds exactly those domains), and WHOIS is queried only for those domains. |
| Pipeline.RecordsOf | main.go:40-77 | A provider contributes records only when it has a client and its fetch succeeded. |
| Pipeline.Aggregate | main.go:81-86 | An error exactly when neither provider has a client. Otherwise the Cloudflare records followed by the Route 53 records, with nothing dropped or merged. |
| Pipeline.FetchSources | main.go:40-86 | Clients hold the zones their listings gave, and the combined records are the aggregation of both providers' outcomes. |
| Pipeline.ResolveCopy | main.go:88-89 | A fresh WHOIS client and resolveRegistrars turn the combined records into the resolved records. |
| Pipeline.SortedRegistrars | main.go:89-96 | Reordering resolved records keeps every record's registrar its domain's. |
| Pipeline.EnrichSorted | main.go:98-100 | Enriching sorted, resolved records keeps them sorted and keeps their registrars, and gives exactly the finished records. |
| Pipeline.Complete | main.go:88-100 | The output is sorted and holds exactly the finished records, with each record's registrar its domain's. |
| Pipeline.Run | main.go:34-108 | An error exactly when configuration fails or neither provider has a client. Otherwise: every fetched record, resolved and (if asked) enriched, sorted by domain then name, each carrying its domain's registrar. |

## Left out

- Goroutines, the wait group and the mutexes of run, FetchCertificates and WhoisClient: the model is sequential. The two provider fetches are independent, and the probes write distinct keys.
- The provider SDK calls (ListZones, ListDNSRecords, ListHostedZones, ListResourceRecordSets) are inputs given as data. A missing per-zone entry stands for a failed call. Each listing is what one call returns; the code follows no pagination, and neither does the model.
- The TLS dial is an input function from host name to handshake outcome. formatCertError is not part of this model: a failed dial carries its already-formatted error text.
- The expiry date is taken already formatted; `time.Format("2006-01-02")` is not modelled.
- The WHOIS query is an input function that answers the same way for the same domain during a run.
- config.go (LoadConfig and the config file path) is not part of this model. Whether configuration loads, and the Cloudflare credentials, are inputs of Run.
- Run returns the sorted records instead of writing them. The output-format switch of run (main.go:102-107), OutputJSON, and the warnings run prints to stderr when a provider is not configured or fails (main.go:53-75) are left out. main() (flag parsing and the version flag) is not part of this model.
- CloudflareClient.Zones is not modelled; the getter has no caller in the core.
- Go's Unicode case folding and white space are left out. Upper-casing, EqualFold, TrimSpace and the `(?i)` and `\s` of the registrar pattern are modelled over ASCII.
- Sorting.SortRecords: promises sortedness and a permutation, not the particular order `sort.Slice` leaves records with equal domain and name in, since `sort.Slice` is not stable.
- Cert.FetchCertificates: the order in which names are probed is left open, as Go's map iteration order is.
- The ghost state (the client's `fetched` list, the `ResolveLog` of resolveRegistrar calls, and the `probed` result) is model-only bookkeeping that counts WHOIS queries, resolveRegistrar calls and TLS probes; the Go code keeps no such record. Each log is kept at the single call site it counts: `Whois.WhoisClient.LookupRegistrar` for WHOIS queries, `Pipeline.ResolveRegistrar` for resolveRegistrar calls, and `Cert.ProbeAll` for probes, where `Cert.ApplyResults` receives the probe only as a ghost value and so cannot call it. The contracts do not exclude an unlogged evaluation of the pure `probe` or `registrarOf` functions elsewhere in the model; the counts are about these call sites.
