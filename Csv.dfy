/** The CSV text both pages export: a header line with the eight field names, then one
    line per record holding its fields in header order, joined with commas, the lines
    joined with a line feed. Fields are written as they are, without quoting, and
    there is no trailing line break, so the text is not RFC 4180 CSV (section 2 of
    RFC 4180 asks for CRLF and for quoting fields that hold commas or breaks).

    JavaScript renders an integer cell as its decimal numeral; a real cell goes
    through `show`, which stands for JavaScript's number-to-string conversion. */
module Csv {
  import opened Wrappers
  import opened Text
  import opened Logs

  const Headers: seq<string> := ["timestamp", "ip", "url", "request_count", "error_rate",
                                 "response_size", "label", "risk_score"]

  /** The header line. */
  function HeaderLine(): (r: string)
    ensures Split(r, ',') == Headers
    ensures '\n' !in r
  {
    HeadersFree();
    SplitJoin(Headers, ',');
    JoinFree(Headers, ',', '\n');
    Join(Headers, ',')
  }

  /** No field name holds a separator. */
  lemma {:induction false} HeadersFree()
    ensures FreeOf(Headers, '\n') && FreeOf(Headers, ',')
  {
  }

  /** `headers.map(h => row[h])`: the record's fields in header order. */
  function Cells(e: LogEntry, show: real -> string): (r: seq<string>)
    ensures |r| == |Headers|
  {
    [e.timestamp, e.ip, e.url, IntToString(e.requestCount), show(e.errorRate),
     IntToString(e.responseSize), e.tag, show(e.riskScore)]
  }

  /** `r.join(",")` for one record. */
  function Line(e: LogEntry, show: real -> string): (r: string)
    ensures Occurrences(r, ',') == |Headers| - 1 + SumOccurrences(Cells(e, show), ',')
  {
    OccurrencesJoin(Cells(e, show), ',');
    Join(Cells(e, show), ',')
  }

  function Lines(rows: seq<LogEntry>, show: real -> string): (r: seq<string>)
    ensures |r| == |rows|
    ensures forall i :: 0 <= i < |rows| ==> r[i] == Line(rows[i], show)
  {
    if rows == [] then [] else [Line(rows[0], show)] + Lines(rows[1..], show)
  }

  /** `[headers.join(","), ...rows.map(r => r.join(","))].join("\n")` */
  function CsvText(rows: seq<LogEntry>, show: real -> string): (r: string)
    ensures |HeaderLine()| <= |r| && r[..|HeaderLine()|] == HeaderLine()
  {
    Join([HeaderLine()] + Lines(rows, show), '\n')
  }

  /** The export handlers: nothing to export when no row is shown. */
  function Export(rows: seq<LogEntry>, show: real -> string): (r: Option<string>)
    ensures r.None? <==> rows == []
    ensures r.Some? ==> r.value == CsvText(rows, show)
  {
    if rows == [] then None else Some(CsvText(rows, show))
  }

  /** JavaScript's number-to-text never writes a comma or a line feed. */
  ghost predicate Plain(show: real -> string)
  {
    forall x :: ',' !in show(x) && '\n' !in show(x)
  }

  /** `c` occurs in none of the record's four text fields. */
  predicate TextFree(e: LogEntry, c: char)
  {
    c !in e.timestamp && c !in e.ip && c !in e.url && c !in e.tag
  }

  /** The numeric cells never hold a separator, so a record's cells are free of one
      exactly when its text fields are. */
  lemma {:induction false} CellsFree(e: LogEntry, show: real -> string, c: char)
    requires Plain(show) && (c == ',' || c == '\n')
    ensures FreeOf(Cells(e, show), c) <==> TextFree(e, c)
  {
    IntToStringFree(e.requestCount);
    IntToStringFree(e.responseSize);
    var cells := Cells(e, show);
    assert cells[0] == e.timestamp && cells[1] == e.ip && cells[2] == e.url;
    assert cells[6] == e.tag;
  }

  /** When no text field holds a line feed, the text splits back into the header line
      and one line per row, in row order. */
  lemma {:induction false} TextLines(rows: seq<LogEntry>, show: real -> string)
    requires Plain(show)
    requires forall i :: 0 <= i < |rows| ==> TextFree(rows[i], '\n')
    ensures Split(CsvText(rows, show), '\n') == [HeaderLine()] + Lines(rows, show)
    ensures |Split(CsvText(rows, show), '\n')| == |rows| + 1
  {
    TextFreeOfFeeds(rows, show);
    SplitJoin([HeaderLine()] + Lines(rows, show), '\n');
  }

  lemma {:induction false} TextFreeOfFeeds(rows: seq<LogEntry>, show: real -> string)
    requires Plain(show)
    requires forall i :: 0 <= i < |rows| ==> TextFree(rows[i], '\n')
    ensures FreeOf([HeaderLine()] + Lines(rows, show), '\n')
  {
    LinesFree(rows, show);
    FreeOfCons(HeaderLine(), Lines(rows, show), '\n');
  }

  lemma {:induction false} LinesFree(rows: seq<LogEntry>, show: real -> string)
    requires Plain(show)
    requires forall i :: 0 <= i < |rows| ==> TextFree(rows[i], '\n')
    ensures FreeOf(Lines(rows, show), '\n')
  {
    forall i | 0 <= i < |rows| ensures '\n' !in Lines(rows, show)[i] {
      CellsFree(rows[i], show, '\n');
      JoinFree(Cells(rows[i], show), ',', '\n');
    }
  }

  /** When no text field holds a comma, a line splits back into the record's eight
      cells. */
  lemma {:induction false} LineFields(e: LogEntry, show: real -> string)
    requires Plain(show) && TextFree(e, ',')
    ensures Split(Line(e, show), ',') == Cells(e, show)
  {
    CellsFree(e, show, ',');
    SplitJoin(Cells(e, show), ',');
  }

  /** Because nothing is quoted, every comma inside a cell starts one more field: a line
      has eight fields plus one for each comma its cells hold. */
  lemma {:induction false} FieldCount(e: LogEntry, show: real -> string)
    ensures |Split(Line(e, show), ',')| == |Headers| + SumOccurrences(Cells(e, show), ',')
  {
    SplitCount(Line(e, show), ',');
    OccurrencesJoin(Cells(e, show), ',');
  }
}
