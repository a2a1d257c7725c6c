/**
 * CSV export of activity logs and a reference parser for the quoting rules of
 * section 2 of RFC 4180 (rules 5-7), with a line feed as record separator.
 */
module Csv {
  import opened Common
  import opened AuditLogs
  import Text

  /** A field must be quoted when it holds a comma, a double quote or a line feed. */
  predicate NeedsQuoting(s: string) {
    ',' in s || '"' in s || '\n' in s
  }

  /** `str.replace(/"/g, '""')`. */
  function DoubleQuotes(s: string): string {
    if s == [] then []
    else (if s[0] == '"' then "\"\"" else [s[0]]) + DoubleQuotes(s[1..])
  }

  /** `escapeCsvField`: null becomes empty, plain text stays, the rest is quoted. */
  function EscapeField(field: Option<string>): string {
    match field
    case None => ""
    case Some(s) => if NeedsQuoting(s) then "\"" + DoubleQuotes(s) + "\"" else s
  }

  /** `parts.join(sep)`. */
  function Join(parts: seq<string>, sep: char): string {
    if |parts| == 0 then ""
    else if |parts| == 1 then parts[0]
    else parts[0] + [sep] + Join(parts[1..], sep)
  }

  /** Header fields of the exported file. */
  const Header: seq<string> := ["Timestamp", "User", "Action", "Entity Type", "Entity ID", "Status", "Details"]

  /** The timestamp column: the row's ISO time, or empty when it has none. */
  function TimestampText(log: AuditLog): IsoTimestamp {
    match log.timestamp
    case Some(t) => t
    case None => ""
  }

  /** One data line: the timestamp as is, the six other columns escaped. */
  function RowLine(log: AuditLog): string {
    Join([TimestampText(log), EscapeField(log.userEmail), EscapeField(Some(log.action)),
          EscapeField(log.entityType), EscapeField(log.entityId), EscapeField(log.status),
          EscapeField(log.details)], ',')
  }

  /** `exportLogsToCSV`: nothing for no logs, else the header line and one line per log. */
  function ExportLogsToCsv(logs: seq<AuditLog>): string {
    if |logs| == 0 then ""
    else Join([Join(Header, ',')] + seq(|logs|, i requires 0 <= i < |logs| => RowLine(logs[i])), '\n')
  }

  /** The values a reader should recover from one exported data line. */
  function RowValues(log: AuditLog): seq<string> {
    [TimestampText(log), log.userEmail.GetOr(""), log.action, log.entityType.GetOr(""),
     log.entityId.GetOr(""), log.status.GetOr(""), log.details.GetOr("")]
  }

  // ---------------------------------------------------------------------------
  // Reference parser (RFC 4180 section 2, LF-separated records)
  // ---------------------------------------------------------------------------

  datatype Parsed<T> = Parsed(value: T, rest: string)

  /** A non-escaped field: the characters before the next comma, quote or line feed. */
  function ParseBare(s: string): (r: Parsed<string>)
    ensures r.value + r.rest == s
    ensures r.rest == [] || r.rest[0] == ',' || r.rest[0] == '"' || r.rest[0] == '\n'
  {
    if s == [] || s[0] == ',' || s[0] == '"' || s[0] == '\n' then Parsed([], s)
    else
      var t := ParseBare(s[1..]);
      Parsed([s[0]] + t.value, t.rest)
  }

  /** The body of an escaped field after its opening quote, up to the closing quote. */
  function ParseQuoted(s: string): (r: Option<Parsed<string>>)
    ensures r.Some? ==> |r.value.rest| < |s|
  {
    if s == [] then None
    else if s[0] == '"' then
      if |s| > 1 && s[1] == '"' then
        match ParseQuoted(s[2..])
        case None => None
        case Some(t) => Some(Parsed("\"" + t.value, t.rest))
      else Some(Parsed([], s[1..]))
    else
      match ParseQuoted(s[1..])
      case None => None
      case Some(t) => Some(Parsed([s[0]] + t.value, t.rest))
  }

  /** One field, escaped or not. */
  function ParseField(s: string): (r: Option<Parsed<string>>)
    ensures r.Some? ==> |r.value.rest| <= |s|
  {
    if |s| > 0 && s[0] == '"' then ParseQuoted(s[1..]) else Some(ParseBare(s))
  }

  /** One record: fields separated by commas, up to a line feed (left unread) or the end. */
  function ParseRecord(s: string): (r: Option<Parsed<seq<string>>>)
    ensures r.Some? ==> |r.value.rest| <= |s| && |r.value.value| >= 1
    ensures r.Some? ==> r.value.rest == [] || r.value.rest[0] == '\n'
    decreases |s|
  {
    match ParseField(s)
    case None => None
    case Some(f) =>
      if f.rest == [] || f.rest[0] == '\n' then Some(Parsed([f.value], f.rest))
      else if f.rest[0] == ',' then
        match ParseRecord(f.rest[1..])
        case None => None
        case Some(t) => Some(Parsed([f.value] + t.value, t.rest))
      else None
  }

  /** A whole document: records separated by line feeds. */
  function ParseDocument(s: string): (r: Option<seq<seq<string>>>)
    decreases |s|
  {
    match ParseRecord(s)
    case None => None
    case Some(rec) =>
      if rec.rest == [] then Some([rec.value])
      else
        match ParseDocument(rec.rest[1..])
        case None => None
        case Some(t) => Some([rec.value] + t)
  }

  // ---------------------------------------------------------------------------
  // Properties of the escaping
  // ---------------------------------------------------------------------------

  /** Text that needs no quoting is written unchanged, and null is written empty. */
  lemma EscapePlain(field: Option<string>)
    requires field.Some? ==> !NeedsQuoting(field.value)
    ensures EscapeField(field) == field.GetOr("")
  {
  }

  /** The documented example: `a,"b"` is written as `"a,""b"""`. */
  lemma EscapeExample()
    ensures EscapeField(Some("a,\"b\"")) == "\"a,\"\"b\"\"\""
  {
    assert NeedsQuoting("a,\"b\"") by { assert "a,\"b\""[1] == ','; }
    calc {
      DoubleQuotes("a,\"b\"");
      "a" + DoubleQuotes(",\"b\"");
      "a," + DoubleQuotes("\"b\"");
      "a,\"\"" + DoubleQuotes("b\"");
      "a,\"\"b" + DoubleQuotes("\"");
      "a,\"\"b\"\"" + DoubleQuotes("");
    }
  }

  /** A bare field is read back up to the separator that follows it. */
  lemma {:induction false} ParseBarePlain(x: string, rest: string)
    requires !NeedsQuoting(x)
    requires rest == [] || rest[0] == ',' || rest[0] == '\n'
    ensures ParseBare(x + rest) == Parsed(x, rest)
    decreases |x|
  {
    if x == [] {
      assert x + rest == rest;
    } else {
      assert x[0] != ',' && x[0] != '"' && x[0] != '\n' by { assert x[0] in x; }
      assert !NeedsQuoting(x[1..]) by {
        forall c | c in x[1..] ensures c in x { }
      }
      ParseBarePlain(x[1..], rest);
      assert (x + rest)[1..] == x[1..] + rest;
      assert [x[0]] + x[1..] == x;
    }
  }

  /** The body of a quoted field, quotes doubled and closed, is read back as the text. */
  lemma {:induction false} ParseQuotedDoubled(x: string, rest: string)
    requires rest == [] || rest[0] == ',' || rest[0] == '\n'
    ensures ParseQuoted(DoubleQuotes(x) + "\"" + rest) == Some(Parsed(x, rest))
    decreases |x|
  {
    var s := DoubleQuotes(x) + "\"" + rest;
    if x == [] {
      assert s == "\"" + rest;
      assert s[1..] == rest;
    } else {
      ParseQuotedDoubled(x[1..], rest);
      var tail := DoubleQuotes(x[1..]) + "\"" + rest;
      assert [x[0]] + x[1..] == x;
      if x[0] == '"' {
        assert s == "\"\"" + tail;
        assert s[2..] == tail;
      } else {
        assert s == [x[0]] + tail;
        assert s[1..] == tail;
      }
    }
  }

  /** Round trip of one field: parsing an escaped field recovers its text (null as empty). */
  lemma ParseEscapedField(field: Option<string>, rest: string)
    requires rest == [] || rest[0] == ',' || rest[0] == '\n'
    ensures ParseField(EscapeField(field) + rest) == Some(Parsed(field.GetOr(""), rest))
  {
    match field
    case None =>
      assert EscapeField(field) + rest == rest;
      ParseBarePlain("", rest);
      assert "" + rest == rest;
    case Some(x) =>
      if NeedsQuoting(x) {
        var s := EscapeField(field) + rest;
        assert s == "\"" + (DoubleQuotes(x) + "\"" + rest);
        assert s[1..] == DoubleQuotes(x) + "\"" + rest;
        ParseQuotedDoubled(x, rest);
      } else {
        if x != [] {
          assert x[0] != '"' by { assert x[0] in x; }
        }
        ParseBarePlain(x, rest);
      }
  }

  /** Escapes each field of a record. */
  function EscapeAll(fields: seq<Option<string>>): (r: seq<string>)
    ensures |r| == |fields|
  {
    seq(|fields|, i requires 0 <= i < |fields| => EscapeField(fields[i]))
  }

  /** The texts a reader recovers from escaped fields: null reads back as empty. */
  function Unescaped(fields: seq<Option<string>>): (r: seq<string>)
    ensures |r| == |fields|
  {
    seq(|fields|, i requires 0 <= i < |fields| => fields[i].GetOr(""))
  }

  /** Round trip of one record: a comma-joined line of escaped fields parses to its field texts. */
  lemma {:induction false} ParseEscapedRecord(fields: seq<Option<string>>, rest: string)
    requires |fields| >= 1
    requires rest == [] || rest[0] == '\n'
    ensures ParseRecord(Join(EscapeAll(fields), ',') + rest) == Some(Parsed(Unescaped(fields), rest))
    decreases |fields|
  {
    var esc := EscapeAll(fields);
    if |fields| == 1 {
      assert Join(esc, ',') == EscapeField(fields[0]);
      ParseEscapedField(fields[0], rest);
      ParseRecordEnd(Join(esc, ',') + rest, Parsed(fields[0].GetOr(""), rest));
      assert Unescaped(fields) == [fields[0].GetOr("")];
    } else {
      ParseEscapedRecord(fields[1..], rest);
      RecordCons(fields, rest);
    }
  }

  /** The inductive step of the record round trip: one more escaped field in front. */
  lemma RecordCons(fields: seq<Option<string>>, rest: string)
    requires |fields| >= 2
    requires rest == [] || rest[0] == '\n'
    requires ParseRecord(Join(EscapeAll(fields[1..]), ',') + rest) == Some(Parsed(Unescaped(fields[1..]), rest))
    ensures ParseRecord(Join(EscapeAll(fields), ',') + rest) == Some(Parsed(Unescaped(fields), rest))
  {
    var esc := EscapeAll(fields);
    var e0 := EscapeField(fields[0]);
    var tail := Join(EscapeAll(fields[1..]), ',') + rest;
    var after := [','] + tail;
    SplitFirst(fields);
    JoinCons(esc, rest);
    ParseEscapedField(fields[0], after);
    assert after[1..] == tail;
    RecordStep(e0 + after, fields[0].GetOr(""), after, tail, rest, Unescaped(fields[1..]));
  }

  /** Escaping and unescaping both work field by field from the front. */
  lemma SplitFirst(fields: seq<Option<string>>)
    requires |fields| >= 1
    ensures EscapeAll(fields)[0] == EscapeField(fields[0]) && EscapeAll(fields)[1..] == EscapeAll(fields[1..])
    ensures Unescaped(fields) == [fields[0].GetOr("")] + Unescaped(fields[1..])
  {
    assert EscapeAll(fields)[1..] == EscapeAll(fields[1..]);
    assert Unescaped(fields) == [fields[0].GetOr("")] + Unescaped(fields[1..]);
  }

  /** A join of two or more parts, followed by more text, is the first part, a separator and the rest. */
  lemma JoinCons(parts: seq<string>, rest: string)
    requires |parts| >= 2
    ensures Join(parts, ',') + rest == parts[0] + ([','] + (Join(parts[1..], ',') + rest))
  {
    var j := Join(parts[1..], ',');
    assert Join(parts, ',') == parts[0] + [','] + j;
    Associative(parts[0] + [','], j, rest);
    Associative(parts[0], [','], j + rest);
  }

  lemma Associative<T>(a: seq<T>, b: seq<T>, c: seq<T>)
    ensures (a + b) + c == a + (b + c)
  {
  }

  /** Unfolds `ParseRecord` at a field that ends the record. */
  lemma ParseRecordEnd(s: string, f: Parsed<string>)
    requires ParseField(s) == Some(f)
    requires f.rest == [] || f.rest[0] == '\n'
    ensures ParseRecord(s) == Some(Parsed([f.value], f.rest))
  {
  }

  /** A field followed by a comma and a well-formed remainder reads as one more field. */
  lemma RecordStep(s: string, x: string, after: string, tail: string, rest: string, tailFields: seq<string>)
    requires ParseField(s) == Some(Parsed(x, after))
    requires |after| > 0 && after[0] == ',' && after[1..] == tail
    requires ParseRecord(tail) == Some(Parsed(tailFields, rest))
    ensures ParseRecord(s) == Some(Parsed([x] + tailFields, rest))
  {
  }

  /** The columns of one log, as written: the timestamp, then the six escaped columns. */
  function RowFields(log: AuditLog): seq<Option<string>> {
    [Some(TimestampText(log)), log.userEmail, Some(log.action), log.entityType,
     log.entityId, log.status, log.details]
  }

  /** An ISO timestamp never needs quoting, so the raw timestamp column is also a valid field. */
  lemma RowLineEscaped(log: AuditLog)
    ensures RowLine(log) == Join(EscapeAll(RowFields(log)), ',')
    ensures Unescaped(RowFields(log)) == RowValues(log)
  {
    var t := TimestampText(log);
    var fs := RowFields(log);
    assert !NeedsQuoting(t) by {
      if ',' in t || '"' in t || '\n' in t {
        var i :| 0 <= i < |t| && (t[i] == ',' || t[i] == '"' || t[i] == '\n');
        assert IsIsoChar(t[i]);
      }
    }
    assert EscapeField(fs[0]) == t;
    assert EscapeAll(fs) == [t, EscapeField(log.userEmail), EscapeField(Some(log.action)),
          EscapeField(log.entityType), EscapeField(log.entityId), EscapeField(log.status),
          EscapeField(log.details)];
  }

  /** The lines of a document whose records are the given fields, escaped and comma-joined. */
  function RecordLines(records: seq<seq<Option<string>>>): (r: seq<string>)
    ensures |r| == |records|
  {
    seq(|records|, i requires 0 <= i < |records| => Join(EscapeAll(records[i]), ','))
  }

  /** The field texts a reader should recover from those records. */
  function RecordTexts(records: seq<seq<Option<string>>>): (r: seq<seq<string>>)
    ensures |r| == |records|
  {
    seq(|records|, i requires 0 <= i < |records| => Unescaped(records[i]))
  }

  /** A record followed by a line feed and a well-formed remainder reads as one more record. */
  lemma DocumentStep(line: string, tail: string, fields: seq<string>, tailRecords: seq<seq<string>>)
    requires ParseRecord(line + (['\n'] + tail)) == Some(Parsed(fields, ['\n'] + tail))
    requires ParseDocument(tail) == Some(tailRecords)
    ensures ParseDocument(line + ['\n'] + tail) == Some([fields] + tailRecords)
  {
    assert line + ['\n'] + tail == line + (['\n'] + tail);
    assert (['\n'] + tail)[1..] == tail;
  }

  /** Round trip of a document: line-feed-joined records of escaped fields parse to their texts. */
  lemma {:induction false} ParseEscapedDocument(records: seq<seq<Option<string>>>)
    requires |records| >= 1
    requires forall i :: 0 <= i < |records| ==> |records[i]| >= 1
    ensures ParseDocument(Join(RecordLines(records), '\n')) == Some(RecordTexts(records))
    decreases |records|
  {
    var lines := RecordLines(records);
    if |records| == 1 {
      ParseEscapedRecord(records[0], []);
      assert lines[0] + [] == lines[0];
      assert RecordTexts(records) == [Unescaped(records[0])];
    } else {
      var tail := Join(RecordLines(records[1..]), '\n');
      assert lines[1..] == RecordLines(records[1..]);
      assert Join(lines, '\n') == lines[0] + ['\n'] + tail;
      ParseEscapedRecord(records[0], ['\n'] + tail);
      ParseEscapedDocument(records[1..]);
      assert RecordTexts(records) == [Unescaped(records[0])] + RecordTexts(records[1..]);
      DocumentStep(lines[0], tail, Unescaped(records[0]), RecordTexts(records[1..]));
    }
  }


  /** The header as a record of present fields. */
  function HeaderFields(): seq<Option<string>> {
    seq(7, i requires 0 <= i < 7 => Some(Header[i]))
  }

  /** The header line needs no quoting. */
  lemma HeaderEscaped()
    ensures EscapeAll(HeaderFields()) == Header
    ensures Unescaped(HeaderFields()) == Header
  {
    var hs := HeaderFields();
    forall i | 0 <= i < 7 ensures EscapeField(hs[i]) == Header[i] {
      HeaderPlain(i);
    }
    assert EscapeAll(hs) == Header;
  }

  /** No header name holds a comma, a quote or a line feed. */
  lemma HeaderPlain(i: int)
    requires 0 <= i < 7
    ensures !NeedsQuoting(Header[i])
  {
    if i == 0 { assert Header[0] == "Timestamp"; }
    else if i == 1 { assert Header[1] == "User"; }
    else if i == 2 { assert Header[2] == "Action"; }
    else if i == 3 { assert Header[3] == "Entity Type"; }
    else if i == 4 { assert Header[4] == "Entity ID"; }
    else if i == 5 { assert Header[5] == "Status"; }
    else { assert Header[6] == "Details"; }
  }

  /** The records behind an export: the header, then the columns of each log. */
  function ExportRecords(logs: seq<AuditLog>): (r: seq<seq<Option<string>>>)
    ensures |r| == |logs| + 1
    ensures forall i :: 0 <= i < |r| ==> |r[i]| == 7
  {
    [HeaderFields()] + RowRecords(logs)
  }

  /** The columns of each log, one record per log. */
  function RowRecords(logs: seq<AuditLog>): (r: seq<seq<Option<string>>>)
    ensures |r| == |logs|
    ensures forall i :: 0 <= i < |r| ==> |r[i]| == 7
  {
    seq(|logs|, i requires 0 <= i < |logs| => RowFields(logs[i]))
  }

  /** The lines of an export: the header line, then one line per log. */
  function ExportLines(logs: seq<AuditLog>): seq<string> {
    [Join(Header, ',')] + RowLines(logs)
  }

  /** One exported line per log. */
  function RowLines(logs: seq<AuditLog>): seq<string> {
    seq(|logs|, i requires 0 <= i < |logs| => RowLine(logs[i]))
  }

  /** The escaped export records are exactly the export lines. */
  lemma ExportLinesEscaped(logs: seq<AuditLog>)
    ensures RecordLines(ExportRecords(logs)) == ExportLines(logs)
  {
    var hs := HeaderFields();
    RecordLinesAppend([hs], RowRecords(logs));
    RowLinesEscaped(logs);
    HeaderEscaped();
    assert RecordLines([hs]) == [Join(EscapeAll(hs), ',')];
  }

  /** Escaping and joining works record by record. */
  lemma RecordLinesAppend(a: seq<seq<Option<string>>>, b: seq<seq<Option<string>>>)
    ensures RecordLines(a + b) == RecordLines(a) + RecordLines(b)
  {
    var r := RecordLines(a + b);
    forall i | 0 <= i < |r| ensures r[i] == (RecordLines(a) + RecordLines(b))[i] {
      if i >= |a| { assert (a + b)[i] == b[i - |a|]; }
    }
  }

  /** Each log's line is the escaped join of its columns. */
  lemma RowLinesEscaped(logs: seq<AuditLog>)
    ensures RecordLines(RowRecords(logs)) == RowLines(logs)
  {
    var r := RecordLines(RowRecords(logs));
    forall i | 0 <= i < |logs| ensures r[i] == RowLines(logs)[i] {
      RowLineEscaped(logs[i]);
    }
  }

  /** The texts read back from the export records are the header and each log's values. */
  lemma ExportTextsUnescaped(logs: seq<AuditLog>)
    ensures RecordTexts(ExportRecords(logs)) == [Header] + seq(|logs|, i requires 0 <= i < |logs| => RowValues(logs[i]))
  {
    var records := ExportRecords(logs);
    var texts := [Header] + seq(|logs|, i requires 0 <= i < |logs| => RowValues(logs[i]));
    forall i | 0 <= i < |texts| ensures RecordTexts(records)[i] == texts[i] {
      if i == 0 {
        HeaderEscaped();
      } else {
        RowLineEscaped(logs[i - 1]);
      }
    }
  }

  /**
   * `exportLogsToCSV` round trip: the exported text of a non-empty log list parses back
   * to the header followed by one record of seven field texts per log, in order.
   */
  lemma ExportRoundTrip(logs: seq<AuditLog>)
    requires |logs| > 0
    ensures ParseDocument(ExportLogsToCsv(logs)) == Some([Header] + seq(|logs|, i requires 0 <= i < |logs| => RowValues(logs[i])))
  {
    var records := ExportRecords(logs);
    assert ExportLogsToCsv(logs) == Join(ExportLines(logs), '\n');
    ExportLinesEscaped(logs);
    ParseEscapedDocument(records);
    ExportTextsUnescaped(logs);
  }

  /** A join of two or more parts starts with the first part and the separator. */
  lemma JoinHead(parts: seq<string>, sep: char)
    requires |parts| >= 2
    ensures Text.IsPrefix(parts[0] + [sep], Join(parts, sep))
  {
    var j := Join(parts, sep);
    assert j == (parts[0] + [sep]) + Join(parts[1..], sep);
  }

  /** `exportLogsToCSV([])` is empty; otherwise the text starts with the header line and a line feed. */
  lemma ExportHeader(logs: seq<AuditLog>)
    ensures |logs| == 0 <==> ExportLogsToCsv(logs) == ""
    ensures |logs| > 0 ==> Text.IsPrefix(Join(Header, ',') + "\n", ExportLogsToCsv(logs))
  {
    if |logs| > 0 {
      var lines := ExportLines(logs);
      assert ExportLogsToCsv(logs) == Join(lines, '\n');
      JoinHead(lines, '\n');
    }
  }
}
