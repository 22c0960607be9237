/** Type-filter normalisation and the TSV report (output.go). */
module Output {
  import opened Strings
  import opened Records
  import opened Wrappers
  import Cloudflare

  /** NormalizeTypes: the command-line type filters, upper-cased one by one, in order. */
  method NormalizeTypes(args: seq<string>) returns (types: seq<string>)
    ensures |types| == |args|
    ensures forall i :: 0 <= i < |args| ==> types[i] == ToUpper(args[i])
  {
    types := [];
    for k := 0 to |args|
      invariant |types| == k
      invariant forall i :: 0 <= i < k ==> types[i] == ToUpper(args[i])
    {
      types := types + [ToUpper(args[k])];
    }
  }

  /** Upper-casing the filters does not change which record types pass them, since the
      comparison ignores case. */
  lemma NormalizedFilterMatches(recordType: string, args: seq<string>, types: seq<string>)
    requires |types| == |args| && forall i :: 0 <= i < |args| ==> types[i] == ToUpper(args[i])
    ensures Cloudflare.MatchesType(recordType, types) == Cloudflare.MatchesType(recordType, args)
  {
    forall i | 0 <= i < |args|
      ensures EqualFold(recordType, types[i]) == EqualFold(recordType, args[i])
    {
      EqualFoldToUpper(recordType, args[i]);
    }
  }

  /** The column names of the header line. */
  const HeaderFields: seq<string> := ["domain", "record", "value", "type", "source", "registrar"]

  /** The six columns of a record's line; the certificate fields are not among them. */
  function Fields(r: Record): seq<string>
  {
    [r.domain, r.name, r.value, r.recordType, r.source, r.registrar]
  }

  /** A record's line: its six columns separated by tabs. */
  function Line(r: Record): string
  {
    Join(Fields(r), '\t')
  }

  /** The report's lines, without their line terminators. */
  function TsvLines(records: seq<Record>): (lines: seq<string>)
    ensures |lines| == |records| + 1
  {
    [Join(HeaderFields, '\t')] + seq(|records|, i requires 0 <= i < |records| => Line(records[i]))
  }

  /** Each line followed by "\n". */
  function Terminated(lines: seq<string>): string
  {
    if lines == [] then [] else lines[0] + "\n" + Terminated(lines[1..])
  }

  lemma {:induction false} TerminatedAppend(lines: seq<string>, line: string)
    ensures Terminated(lines + [line]) == Terminated(lines) + line + "\n"
  {
    if lines != [] {
      assert (lines + [line])[1..] == lines[1..] + [line];
      TerminatedAppend(lines[1..], line);
    }
  }

  /** One more record adds its line at the end. */
  lemma TsvLinesAppend(records: seq<Record>, k: int)
    requires 0 <= k < |records|
    ensures TsvLines(records[..k + 1]) == TsvLines(records[..k]) + [Line(records[k])]
  {
    var longer, expected := TsvLines(records[..k + 1]), TsvLines(records[..k]) + [Line(records[k])];
    forall j | 0 <= j < |longer|
      ensures longer[j] == expected[j]
    {
      if 1 <= j {
        assert records[..k + 1][j - 1] == records[j - 1];
        if j <= k {
          assert records[..k][j - 1] == records[j - 1];
        }
      }
    }
  }

  /** The text OutputTSV writes. */
  function TsvText(records: seq<Record>): string
  {
    Terminated(TsvLines(records))
  }

  /**
    OutputTSV: the header line, then one tab-separated line per record in slice order. The
    writer is modelled by the text it receives; the returned error is always nil (None).
   */
  method OutputTSV(records: seq<Record>) returns (written: string, err: Option<string>)
    ensures written == TsvText(records)
    ensures err == None
  {
    written := Join(HeaderFields, '\t') + "\n";
    for k := 0 to |records|
      invariant written == Terminated(TsvLines(records[..k]))
    {
      var line := Line(records[k]);
      TsvLinesAppend(records, k);
      TerminatedAppend(TsvLines(records[..k]), line);
      written := written + line + "\n";
    }
    assert records[..|records|] == records;
    err := None;
  }

  /** Reading a report back: split into lines, drop the empty piece after the final "\n",
      and split each line at the tabs. */
  function ParseTsv(text: string): seq<seq<string>>
  {
    var lines := Split(text, '\n');
    seq(|lines| - 1, i requires 0 <= i < |lines| - 1 => Split(lines[i], '\t'))
  }

  /** No field of the record's line holds a tab or a newline. */
  predicate CleanRecord(r: Record)
  {
    forall f :: 0 <= f < 6 ==> '\t' !in Fields(r)[f] && '\n' !in Fields(r)[f]
  }

  /** No field of any record holds a tab or a newline. */
  predicate Clean(records: seq<Record>)
  {
    forall i :: 0 <= i < |records| ==> CleanRecord(records[i])
  }

  lemma {:induction false} SplitTerminated(lines: seq<string>)
    requires forall i :: 0 <= i < |lines| ==> '\n' !in lines[i]
    ensures Split(Terminated(lines), '\n') == lines + [[]]
  {
    if lines != [] {
      SplitTerminated(lines[1..]);
      SplitAtFirst(lines[0], Terminated(lines[1..]), '\n');
      assert lines[0] + "\n" + Terminated(lines[1..]) == lines[0] + ['\n'] + Terminated(lines[1..]);
      assert [lines[0]] + lines[1..] == lines;
    }
  }

  lemma {:induction false} JoinHasNo(parts: seq<string>, c: char, sep: char)
    requires c != sep
    requires forall i :: 0 <= i < |parts| ==> c !in parts[i]
    ensures c !in Join(parts, sep)
  {
    if |parts| > 1 {
      JoinHasNo(parts[1..], c, sep);
    }
  }

  /** The header line has no newline and splits back into the column names. */
  lemma HeaderSplits()
    ensures '\n' !in Join(HeaderFields, '\t')
    ensures Split(Join(HeaderFields, '\t'), '\t') == HeaderFields
  {
    JoinHasNo(HeaderFields, '\n', '\t');
    SplitJoin(HeaderFields, '\t');
  }

  /** The line of a record whose fields hold no newline holds none either. */
  lemma LineWithoutNewline(r: Record)
    requires CleanRecord(r)
    ensures '\n' !in Line(r)
  {
    JoinHasNo(Fields(r), '\n', '\t');
  }

  /** No line of a report on clean records holds a newline. */
  lemma LinesWithoutNewline(records: seq<Record>)
    requires Clean(records)
    ensures forall i :: 0 <= i < |TsvLines(records)| ==> '\n' !in TsvLines(records)[i]
  {
    var lines := TsvLines(records);
    forall i | 0 <= i < |lines|
      ensures '\n' !in lines[i]
    {
      if i == 0 {
        HeaderSplits();
      } else {
        var r := records[i - 1];
        assert lines[i] == Line(r);
        LineWithoutNewline(r);
      }
    }
  }

  /** A record's line splits back into its six columns. */
  lemma LineFields(r: Record)
    requires CleanRecord(r)
    ensures Split(Line(r), '\t') == Fields(r)
  {
    SplitJoin(Fields(r), '\t');
  }

  /** The rows a report should read back as: the header, then the six columns of each record. */
  function Rows(records: seq<Record>): (rows: seq<seq<string>>)
    ensures |rows| == |records| + 1
  {
    [HeaderFields] + seq(|records|, i requires 0 <= i < |records| => Fields(records[i]))
  }

  /** Every line of a report on clean records splits at the tabs into its row. */
  lemma LinesSplit(records: seq<Record>)
    requires Clean(records)
    ensures forall i :: 0 <= i <= |records| ==> Split(TsvLines(records)[i], '\t') == Rows(records)[i]
  {
    forall i | 0 <= i <= |records|
      ensures Split(TsvLines(records)[i], '\t') == Rows(records)[i]
    {
      if i == 0 {
        HeaderSplits();
      } else {
        var r := records[i - 1];
        assert TsvLines(records)[i] == Line(r) && Rows(records)[i] == Fields(r);
        LineFields(r);
      }
    }
  }

  /**
    The report reads back as the header row followed by the six columns of every record, in
    order: one line per record plus the header, and nothing of the certificate fields.
   */
  lemma TsvRoundTrip(records: seq<Record>)
    requires Clean(records)
    ensures ParseTsv(TsvText(records)) == Rows(records)
  {
    LinesWithoutNewline(records);
    SplitTerminated(TsvLines(records));
    LinesSplit(records);
  }
}
