/**
  The WHOIS registrar oracle (whois.go): a memo table from domain to registrar, and the scan
  of a WHOIS response for its "Registrar:" line. The WHOIS query itself is a function given
  to the client (None when the query fails).
 */
module Whois {
  import opened Wrappers
  import opened Strings

  const Unknown := "unknown"

  /** The literal part of the pattern (?i)^Registrar:\s*(.+)$ */
  const Label := "Registrar:"

  /** \s in Go's regular expressions: '\t', '\n', '\f', '\r' and ' '. */
  predicate RegexSpace(c: char)
  {
    c == ' ' || c == '\t' || c == '\n' || c as int == 12 || c == '\r'
  }

  /** How many characters greedy \s* takes from the front of s. */
  function LeadingRegexSpace(s: string): (w: nat)
    ensures w <= |s|
    ensures forall j :: 0 <= j < w ==> RegexSpace(s[j])
    ensures w < |s| ==> !RegexSpace(s[w])
  {
    if s != [] && RegexSpace(s[0]) then 1 + LeadingRegexSpace(s[1..]) else 0
  }

  /** The line starts with "Registrar:" in any case and has at least one more character. */
  predicate IsRegistrarLine(line: string)
  {
    |line| > |Label| && EqualFold(line[..|Label|], Label)
  }

  /** Line k is the first line of the response that matches. */
  predicate FirstRegistrarLineAt(lines: seq<string>, k: int)
  {
    0 <= k < |lines| && IsRegistrarLine(lines[k]) && forall j :: 0 <= j < k ==> !IsRegistrarLine(lines[j])
  }

  predicate NoRegistrarLine(lines: seq<string>)
  {
    forall i :: 0 <= i < |lines| ==> !IsRegistrarLine(lines[i])
  }

  /**
    The capture group of (?i)^Registrar:\s*(.+)$ on one line of the response. \s* is greedy
    but gives back one character when nothing else is left, because (.+) needs at least one;
    so "Registrar:" with any text at all after it matches, even white space only. Trimmed,
    the capture is the trimmed text after the label.
   */
  function RegistrarCapture(line: string): (c: Option<string>)
    requires '\n' !in line
    ensures c.Some? <==> IsRegistrarLine(line)
    ensures c.Some? ==> c.value != [] && TrimSpace(c.value) == TrimSpace(line[|Label|..])
  {
    if IsRegistrarLine(line) then
      var rest := line[|Label|..];
      var w := LeadingRegexSpace(rest);
      if w < |rest| then
        TrimSpaceSkipsLeading(rest, w);
        Some(rest[w..])
      else
        TrimAllSpace(rest);
        TrimAllSpace(rest[|rest| - 1..]);
        Some(rest[|rest| - 1..])
    else None
  }

  /** The loop of fetchRegistrar over the response's lines: the first line that matches gives
      the registrar, lower-cased and trimmed. */
  function FirstRegistrar(lines: seq<string>): (r: string)
    requires forall i :: 0 <= i < |lines| ==> '\n' !in lines[i]
    ensures NoRegistrarLine(lines) ==> r == Unknown
    ensures NoUpper(r)
    ensures forall k :: FirstRegistrarLineAt(lines, k) ==> r == ToLower(TrimSpace(lines[k][|Label|..]))
  {
    if lines == [] then Unknown
    else match RegistrarCapture(lines[0])
      case Some(c) => ToLower(TrimSpace(c))
      case None =>
        var r := FirstRegistrar(lines[1..]);
        assert forall k :: FirstRegistrarLineAt(lines, k) ==> k >= 1 && FirstRegistrarLineAt(lines[1..], k - 1);
        assert NoRegistrarLine(lines) ==> NoRegistrarLine(lines[1..]);
        r
  }

  /** fetchRegistrar given the WHOIS answer (None when the query fails): "unknown" for a
      failed query, and never a registrar with an upper-case letter. */
  function FetchRegistrar(answer: Option<string>): (r: string)
    ensures answer.None? ==> r == Unknown
    ensures NoUpper(r)
  {
    match answer
    case None => Unknown
    case Some(response) => FirstRegistrar(Split(response, '\n'))
  }

  /**
    What fetchRegistrar answers: a failed query gives "unknown"; otherwise the response is
    split at "\n" and the first line that starts with "Registrar:" (any case) and has more
    text gives that text, trimmed and lower-cased; no such line gives "unknown".
   */
  lemma FetchRegistrarAnswer(answer: Option<string>)
    ensures answer.None? ==> FetchRegistrar(answer) == Unknown
    ensures answer.Some? ==>
      var lines := Split(answer.value, '\n');
      && (NoRegistrarLine(lines) ==> FetchRegistrar(answer) == Unknown)
      && (forall k :: FirstRegistrarLineAt(lines, k) ==> FetchRegistrar(answer) == ToLower(TrimSpace(lines[k][|Label|..])))
  {
    if answer.Some? {
      var lines := Split(answer.value, '\n');
      var r := FirstRegistrar(lines);
    }
  }

  /** The registrar a WHOIS lookup ends in, for each domain, given the WHOIS service. */
  function Registrars(whois: string -> Option<string>): string -> string
  {
    d => FetchRegistrar(whois(d))
  }

  /** A response made of one "Registrar:" line with only white space after the label still
      matches, and its registrar is the empty string, not "unknown". */
  lemma BlankRegistrarLine(line: string)
    requires '\n' !in line && IsRegistrarLine(line)
    requires forall j :: |Label| <= j < |line| ==> IsSpace(line[j])
    ensures FetchRegistrar(Some(line)) == ""
  {
    SplitNoSeparator(line, '\n');
    assert FirstRegistrarLineAt([line], 0);
    TrimAllSpace(line[|Label|..]);
  }

  class WhoisClient {
    /** whois.Whois: the response for a domain, None when the query fails. */
    const whois: string -> Option<string>

    /** fetchRegistrar: the registrar a query for a domain ends in, that is, the answer
        parsed by FetchRegistrar (fixed by the constructor). */
    const registrarOf: string -> string

    /** Registrars already looked up, by domain. */
    var cache: map<string, string>

    /** The domains queried so far, in order. */
    ghost var fetched: seq<string>

    /** The cache holds the fetched answer for exactly the domains queried, each queried once. */
    ghost predicate Valid()
      reads this
    {
      && (forall d :: d in cache ==> cache[d] == registrarOf(d))
      && (forall d :: d in cache <==> d in fetched)
      && NoDuplicates(fetched)
    }

    /** NewWhoisClient: an empty cache. */
    constructor (whois: string -> Option<string>)
      ensures Valid()
      ensures this.whois == whois && cache == map[] && fetched == []
      ensures registrarOf == Registrars(whois)
    {
      this.whois := whois;
      registrarOf := Registrars(whois);
      cache := map[];
      fetched := [];
    }

    /**
      LookupRegistrar: a cached domain is answered from the cache without a query; any other
      domain is queried once and its answer stored, leaving every other entry as it was.
     */
    method LookupRegistrar(domain: string) returns (registrar: string)
      requires Valid()
      modifies this
      ensures Valid()
      ensures registrar == registrarOf(domain)
      ensures domain in old(cache) ==> registrar == old(cache)[domain] && cache == old(cache) && fetched == old(fetched)
      ensures domain !in old(cache) ==> cache == old(cache)[domain := registrar] && fetched == old(fetched) + [domain]
    {
      if domain in cache {
        return cache[domain];
      }
      registrar := registrarOf(domain);
      cache := cache[domain := registrar];
      fetched := fetched + [domain];
    }
  }

  /** Two lookups of one domain give the same answer and query WHOIS at most once between them. */
  method LookupTwice(client: WhoisClient, domain: string) returns (first: string, second: string)
    requires client.Valid()
    modifies client
    ensures client.Valid()
    ensures first == second
    ensures |client.fetched| <= |old(client.fetched)| + 1
  {
    first := client.LookupRegistrar(domain);
    second := client.LookupRegistrar(domain);
  }
}
