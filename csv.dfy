/**
 * The dashboard's CSV export (dashboard.js `downloadCsv`): a header line of ten column
 * names, then one line per log entry with every field in double quotes. Beside the
 * writer stands a reader for the same format (section 2 of RFC 4180: quoted fields,
 * doubled quotes inside them, fields separated by commas and records by line breaks),
 * and the round trip between the two.
 */
module Csv {
  import opened Wrappers
  import opened Text
  import opened Js

  /** The exported columns, in order. */
  const Headers: seq<string> := [
    "timestamp", "type", "aiToolName", "domain", "userName",
    "userRole", "approved", "action", "detectedTypes", "severity"
  ]

  // ---- writer ----

  /** The text of one field: an array is joined with "; ", then `String(val || "")`. */
  function CellText(v: Value): string {
    match v
    case StrList(items) => Join(items, "; ")
    case _ => if Truthy(v) then ToJsString(v) else ""
  }

  /** `.replace(/"/g, '""')`. */
  function Escape(s: string): (r: string)
    ensures |r| >= |s|
    decreases |s|
  {
    if s == [] then ""
    else (if s[0] == '"' then "\"\"" else [s[0]]) + Escape(s[1..])
  }

  /** One exported field: the escaped text in double quotes. */
  function Cell(v: Value): string {
    "\"" + Escape(CellText(v)) + "\""
  }

  /** The exported cells of one log entry, one per header. */
  function Cells(log: Object): seq<string> {
    seq(|Headers|, j requires 0 <= j < |Headers| => Cell(Get(log, Headers[j])))
  }

  /** The texts the cells of one log entry carry. */
  function RowTexts(log: Object): seq<string> {
    seq(|Headers|, j requires 0 <= j < |Headers| => CellText(Get(log, Headers[j])))
  }

  /** The lines of an export after the header line: one per log entry. */
  function LogLines(logs: seq<Object>): seq<string> {
    seq(|logs|, i requires 0 <= i < |logs| => Join(Cells(logs[i]), ","))
  }

  /** The file `downloadCsv(logs)` saves; `None` when there are no logs and nothing is saved. */
  function Document(logs: seq<Object>): Option<string> {
    if logs == [] then None else Some(Join([Join(Headers, ",")] + LogLines(logs), "\n"))
  }

  /** A falsy value other than an array exports as an empty field: `approved: false` reads back as "". */
  lemma FalsyExportsEmpty(v: Value)
    requires !Truthy(v)
    ensures CellText(v) == "" && Cell(v) == "\"\""
  {
  }

  // ---- reader ----

  /** The rest of a quoted field after its opening quote: the unescaped text and what follows the closing quote. */
  function QuotedRest(s: string): (r: Option<(string, string)>)
    ensures r.Some? ==> |r.value.1| < |s|
    decreases |s|
  {
    if s == [] then None
    else if s[0] == '"' then
      if |s| >= 2 && s[1] == '"' then
        match QuotedRest(s[2..])
        case None => None
        case Some((t, rest)) => Some(("\"" + t, rest))
      else Some(("", s[1..]))
    else
      match QuotedRest(s[1..])
      case None => None
      case Some((t, rest)) => Some(([s[0]] + t, rest))
  }

  /** An unquoted field: everything up to the next comma or line break. */
  function Unquoted(s: string): (r: (string, string))
    ensures |r.1| <= |s|
    decreases |s|
  {
    if s == [] || s[0] == ',' || s[0] == '\n' then ("", s)
    else
      var (t, rest) := Unquoted(s[1..]);
      ([s[0]] + t, rest)
  }

  /** One field, quoted or not, and the text after it. */
  function Field(s: string): (r: Option<(string, string)>)
    ensures r.Some? ==> |r.value.1| <= |s|
  {
    if s != [] && s[0] == '"' then QuotedRest(s[1..]) else Some(Unquoted(s))
  }

  /** One record: its fields, and the text after its line break (`None` at the end of the input). */
  function Record(s: string): (r: Option<(seq<string>, Option<string>)>)
    ensures r.Some? && r.value.1.Some? ==> |r.value.1.value| < |s|
    decreases |s|
  {
    match Field(s)
    case None => None
    case Some((f, rest)) =>
      if rest == [] then Some(([f], None))
      else if rest[0] == ',' then
        match Record(rest[1..])
        case None => None
        case Some((fs, next)) => Some(([f] + fs, next))
      else if rest[0] == '\n' then Some(([f], Some(rest[1..])))
      else None
  }

  /** All records of a document; `None` when it is malformed. */
  function Records(s: string): Option<seq<seq<string>>>
    decreases |s|
  {
    match Record(s)
    case None => None
    case Some((fs, None)) => Some([fs])
    case Some((fs, Some(rest))) =>
      match Records(rest)
      case None => None
      case Some(rs) => Some([fs] + rs)
  }

  // ---- round trip ----

  /** What may follow a field: the end of the input, a comma or a line break. */
  predicate Boundary(rest: string) {
    rest == [] || rest[0] == ',' || rest[0] == '\n'
  }

  lemma {:induction false} QuotedRoundTrip(t: string, rest: string)
    requires rest == [] || rest[0] != '"'
    ensures QuotedRest(Escape(t) + "\"" + rest) == Some((t, rest))
    decreases |t|
  {
    var s := Escape(t) + "\"" + rest;
    if t == [] {
      assert s == ['"'] + rest;
      assert s[1..] == rest;
    } else {
      QuotedRoundTrip(t[1..], rest);
      var tail := Escape(t[1..]) + "\"" + rest;
      if t[0] == '"' {
        assert s == "\"\"" + tail;
        assert s[2..] == tail;
        assert "\"" + t[1..] == t;
      } else {
        assert s == [t[0]] + tail;
        assert s[1..] == tail;
        assert [t[0]] + t[1..] == t;
      }
    }
  }

  /** Every exported field reads back as its text. */
  lemma CellRoundTrip(v: Value, rest: string)
    requires Boundary(rest)
    ensures Field(Cell(v) + rest) == Some((CellText(v), rest))
  {
    var t := CellText(v);
    QuotedRoundTrip(t, rest);
    assert Cell(v) + rest == "\"" + (Escape(t) + "\"" + rest);
  }

  /** A header name, free of quotes, commas and line breaks, reads back unchanged. */
  lemma {:induction false} PlainRoundTrip(h: string, rest: string)
    requires '"' !in h && ',' !in h && '\n' !in h
    requires Boundary(rest)
    ensures Field(h + rest) == Some((h, rest))
    ensures Unquoted(h + rest) == (h, rest)
    decreases |h|
  {
    if h == [] {
      assert h + rest == rest;
    } else {
      PlainRoundTrip(h[1..], rest);
      assert (h + rest)[1..] == h[1..] + rest;
      assert [h[0]] + h[1..] == h;
    }
  }

  /** The fields `encs` are written as, each read back as the corresponding entry of `fs`. */
  ghost predicate ReadsAs(encs: seq<string>, fs: seq<string>) {
    |encs| == |fs| &&
    forall i, rest :: 0 <= i < |encs| && Boundary(rest) ==> Field(encs[i] + rest) == Some((fs[i], rest))
  }

  /** The text that ends a record: nothing at the end of the input, else a line break and what follows. */
  function Ending(tail: Option<string>): string {
    if tail.None? then "" else "\n" + tail.value
  }

  lemma {:induction false} RecordOfJoin(encs: seq<string>, fs: seq<string>, tail: Option<string>)
    requires |encs| >= 1 && ReadsAs(encs, fs)
    ensures Record(Join(encs, ",") + Ending(tail)) == Some((fs, tail))
    decreases |encs|
  {
    var e := Ending(tail);
    assert Boundary(e);
    if |encs| == 1 {
      assert Field(encs[0] + e) == Some((fs[0], e));
      if tail.Some? {
        assert e[1..] == tail.value;
      }
      assert [fs[0]] == fs;
    } else {
      var later := Join(encs[1..], ",") + e;
      assert Join(encs, ",") + e == encs[0] + ("," + later);
      assert Boundary("," + later);
      assert Field(encs[0] + ("," + later)) == Some((fs[0], "," + later));
      assert ReadsAs(encs[1..], fs[1..]) by {
        forall i, rest | 0 <= i < |encs[1..]| && Boundary(rest)
          ensures Field(encs[1..][i] + rest) == Some((fs[1..][i], rest))
        {
          assert Field(encs[i + 1] + rest) == Some((fs[i + 1], rest));
        }
      }
      RecordOfJoin(encs[1..], fs[1..], tail);
      assert ("," + later)[1..] == later;
      assert [fs[0]] + fs[1..] == fs;
    }
  }

  /** A line read back as the record `rec`, whatever follows it. */
  ghost predicate LineReadsAs(line: string, rec: seq<string>) {
    forall tail :: Record(line + Ending(tail)) == Some((rec, tail))
  }

  lemma JoinedLineReadsAs(encs: seq<string>, fs: seq<string>)
    requires |encs| >= 1 && ReadsAs(encs, fs)
    ensures LineReadsAs(Join(encs, ","), fs)
  {
    forall tail: Option<string>
      ensures Record(Join(encs, ",") + Ending(tail)) == Some((fs, tail))
    {
      RecordOfJoin(encs, fs, tail);
    }
  }

  lemma {:induction false} RecordsOfJoin(lines: seq<string>, recs: seq<seq<string>>)
    requires |lines| == |recs| >= 1
    requires forall i :: 0 <= i < |lines| ==> LineReadsAs(lines[i], recs[i])
    ensures Records(Join(lines, "\n")) == Some(recs)
    decreases |lines|
  {
    if |lines| == 1 {
      assert Record(lines[0] + Ending(None)) == Some((recs[0], None));
      assert lines[0] + Ending(None) == lines[0];
      assert [recs[0]] == recs;
    } else {
      var rest := Join(lines[1..], "\n");
      assert Record(lines[0] + Ending(Some(rest))) == Some((recs[0], Some(rest)));
      assert Join(lines, "\n") == lines[0] + Ending(Some(rest));
      RecordsOfJoin(lines[1..], recs[1..]);
      assert [recs[0]] + recs[1..] == recs;
    }
  }

  lemma HeaderLineReadsBack()
    ensures LineReadsAs(Join(Headers, ","), Headers)
  {
    forall i, rest | 0 <= i < |Headers| && Boundary(rest)
      ensures Field(Headers[i] + rest) == Some((Headers[i], rest))
    {
      PlainRoundTrip(Headers[i], rest);
    }
    JoinedLineReadsAs(Headers, Headers);
  }

  lemma RowReadsBack(log: Object)
    ensures LineReadsAs(Join(Cells(log), ","), RowTexts(log))
  {
    forall i, rest | 0 <= i < |Cells(log)| && Boundary(rest)
      ensures Field(Cells(log)[i] + rest) == Some((RowTexts(log)[i], rest))
    {
      CellRoundTrip(Get(log, Headers[i]), rest);
    }
    JoinedLineReadsAs(Cells(log), RowTexts(log));
  }

  /** The records the log lines of an export should read back as. */
  function LogRecords(logs: seq<Object>): seq<seq<string>> {
    seq(|logs|, i requires 0 <= i < |logs| => RowTexts(logs[i]))
  }

  lemma LogLinesReadBack(logs: seq<Object>)
    ensures |LogLines(logs)| == |LogRecords(logs)| == |logs|
    ensures forall i :: 0 <= i < |logs| ==> LineReadsAs(LogLines(logs)[i], LogRecords(logs)[i])
  {
    forall i | 0 <= i < |logs|
      ensures LineReadsAs(LogLines(logs)[i], LogRecords(logs)[i])
    {
      RowReadsBack(logs[i]);
    }
  }

  /** A first line in front of further lines adds its record in front of theirs. */
  lemma RecordsOfCons(first: string, rec: seq<string>, lines: seq<string>, recs: seq<seq<string>>)
    requires LineReadsAs(first, rec)
    requires |lines| == |recs|
    requires forall i :: 0 <= i < |lines| ==> LineReadsAs(lines[i], recs[i])
    ensures Records(Join([first] + lines, "\n")) == Some([rec] + recs)
  {
    var all := [first] + lines;
    var allRecs := [rec] + recs;
    forall i | 0 <= i < |all|
      ensures LineReadsAs(all[i], allRecs[i])
    {
      if i > 0 {
        assert all[i] == lines[i - 1] && allRecs[i] == recs[i - 1];
      }
    }
    RecordsOfJoin(all, allRecs);
  }

  /**
   * Round trip: an export is written exactly when there are logs, and reading it back
   * gives the header record followed by one record per log, in order, whose fields are the
   * texts of that log's columns, whatever quotes, commas or line breaks they contain.
   */
  lemma DocumentRoundTrip(logs: seq<Object>)
    ensures Document(logs).None? <==> logs == []
    ensures logs != [] ==>
              Records(Document(logs).value) ==
                Some([Headers] + LogRecords(logs))
  {
    if logs != [] {
      HeaderLineReadsBack();
      LogLinesReadBack(logs);
      RecordsOfCons(Join(Headers, ","), Headers, LogLines(logs), LogRecords(logs));
    }
  }
}
