/**
 * The CSV text `exportToCSV` (app.js) builds: a header line of the first
 * row's keys, then one line per row with one cell per header, cells joined
 * by commas and lines by newlines; a string cell holding a comma or a double
 * quote is quoted with its quotes doubled.
 *
 * To say what the escaping is for, the module also reads CSV back the way
 * spreadsheet programs do (fields split on commas and records on newlines
 * outside quotes, `""` inside quotes standing for one quote). Read back,
 * the export gives the rows it came from; as written it does not when a
 * string cell holds a newline, which is left unquoted.
 */
module Csv {
  import opened Common

  /** A row's value for a key: a string, another JSON value shown by its text, or null/undefined. */
  datatype Value = Text(s: string) | Shown(repr: string) | Missing

  /** A JSON object of the exported list: its keys in `Object.keys` order and their values. */
  datatype Row = Row(keys: seq<string>, fields: map<string, Value>)

  /** `row[header]`: `undefined` for a key the row does not have. */
  function Lookup(row: Row, header: string): Value
  {
    if header in row.fields then row.fields[header] else Missing
  }

  /** `parts.join(sep)`; the empty list joins to the empty string. */
  function Join(parts: seq<string>, sep: char): (r: string)
  {
    if parts == [] then ""
    else if |parts| == 1 then parts[0]
    else parts[0] + [sep] + Join(parts[1..], sep)
  }

  /** `s.replace(/"/g, '""')`. */
  function DoubleQuotes(s: string): (r: string)
    ensures |r| >= |s|
  {
    if s == [] then ""
    else (if s[0] == '"' then "\"\"" else [s[0]]) + DoubleQuotes(s[1..])
  }

  function Quoted(s: string): string
  {
    "\"" + DoubleQuotes(s) + "\""
  }

  /** The escaping as written: quote a string holding a comma or a double quote. */
  function EscapeAsWritten(s: string): (r: string)
    ensures (',' in s || '"' in s) ==> r == Quoted(s)
    ensures !(',' in s || '"' in s) ==> r == s
  {
    if ',' in s || '"' in s then Quoted(s) else s
  }

  /** A character that cannot stand unquoted in a field. */
  predicate Special(c: char)
  {
    c == ',' || c == '"' || c == '\n' || c == '\r'
  }

  /** Text that can stand unquoted: no separator, quote or line break in it. */
  predicate Plain(s: string)
  {
    forall i :: 0 <= i < |s| ==> !Special(s[i])
  }

  /** The escaping with line breaks quoted as well. */
  function Escape(s: string): (r: string)
    ensures Plain(s) ==> r == s
    ensures !Plain(s) ==> r == Quoted(s)
  {
    if Plain(s) then s else Quoted(s)
  }

  /** The text a cell's value stands for. */
  function Content(v: Value): string
  {
    match v
    case Text(s) => s
    case Shown(r) => r
    case Missing => ""
  }

  /** A cell as exported: strings escaped, other values by their text, null and undefined empty. */
  function Cell(v: Value): string
  {
    match v
    case Text(s) => Escape(s)
    case Shown(r) => r
    case Missing => ""
  }

  /** The cells of one data row, one per header. */
  function Cells(row: Row, headers: seq<string>): (cs: seq<string>)
    ensures |cs| == |headers| && forall j :: 0 <= j < |headers| ==> cs[j] == Cell(Lookup(row, headers[j]))
  {
    seq(|headers|, j requires 0 <= j < |headers| => Cell(Lookup(row, headers[j])))
  }

  /** The lines of the export: the header line, then one per row. */
  function Lines(data: seq<Row>, headers: seq<string>): (ls: seq<string>)
    ensures |ls| == |data| + 1 && ls[0] == Join(headers, ',')
    ensures forall i :: 0 <= i < |data| ==> ls[i + 1] == Join(Cells(data[i], headers), ',')
  {
    [Join(headers, ',')] + seq(|data|, i requires 0 <= i < |data| => Join(Cells(data[i], headers), ','))
  }

  /** `exportToCSV`: nothing for absent or empty data, else the lines joined by newlines. */
  function Export(data: Option<seq<Row>>): (r: Option<string>)
    ensures r.None? <==> data.None? || data.value == []
    ensures r.Some? ==> r.value == Join(Lines(data.value, data.value[0].keys), '\n')
  {
    if data.None? || data.value == [] then None
    else Some(Join(Lines(data.value, data.value[0].keys), '\n'))
  }

  // ----- reading CSV back -----

  /** An unquoted field: up to the next comma or newline. */
  function ReadUnquoted(s: string): (r: (string, string))
    ensures |r.1| <= |s|
    ensures r.1 == [] || r.1[0] == ',' || r.1[0] == '\n'
  {
    if s == [] || s[0] == ',' || s[0] == '\n' then ([], s)
    else
      var (f, rest) := ReadUnquoted(s[1..]);
      ([s[0]] + f, rest)
  }

  /** The rest of a quoted field after its opening quote; `None` if the closing quote is missing. */
  function ReadQuoted(s: string): (r: Option<(string, string)>)
    ensures r.Some? ==> |r.value.1| < |s|
  {
    if s == [] then None
    else if s[0] == '"' then
      if |s| > 1 && s[1] == '"' then
        match ReadQuoted(s[2..])
        case None => None
        case Some((f, rest)) => Some(("\"" + f, rest))
      else Some(([], s[1..]))
    else
      match ReadQuoted(s[1..])
      case None => None
      case Some((f, rest)) => Some(([s[0]] + f, rest))
  }

  function ReadField(s: string): (r: Option<(string, string)>)
    ensures r.Some? ==> |r.value.1| <= |s|
  {
    if s != [] && s[0] == '"' then ReadQuoted(s[1..]) else Some(ReadUnquoted(s))
  }

  function Prepend(record: seq<string>, rest: Option<seq<seq<string>>>): Option<seq<seq<string>>>
  {
    if rest.Some? then Some([record] + rest.value) else None
  }

  /** The records of `s`, the current one begun with the fields `record`; `None` for malformed text. */
  function ParseFrom(s: string, record: seq<string>): Option<seq<seq<string>>>
    decreases |s|
  {
    match ReadField(s)
    case None => None
    case Some((f, rest)) =>
      if rest == [] then Some([record + [f]])
      else if rest[0] == ',' then ParseFrom(rest[1..], record + [f])
      else if rest[0] == '\n' then Prepend(record + [f], ParseFrom(rest[1..], []))
      else None
  }

  function Parse(s: string): Option<seq<seq<string>>>
  {
    ParseFrom(s, [])
  }

  // ----- the round trip -----

  /** What may follow a field: nothing, or a separator. */
  predicate FieldEnd(rest: string)
  {
    rest == [] || rest[0] == ',' || rest[0] == '\n'
  }

  lemma {:induction false} UnquotedRoundTrip(s: string, rest: string)
    requires Plain(s) && FieldEnd(rest)
    ensures ReadUnquoted(s + rest) == (s, rest)
  {
    if s == [] {
      assert s + rest == rest;
    } else {
      assert (s + rest)[0] == s[0] && !Special(s[0]);
      assert (s + rest)[1..] == s[1..] + rest;
      UnquotedRoundTrip(s[1..], rest);
      assert [s[0]] + s[1..] == s;
    }
  }

  lemma {:induction false} QuotedRoundTrip(s: string, rest: string)
    requires FieldEnd(rest)
    ensures ReadQuoted(DoubleQuotes(s) + "\"" + rest) == Some((s, rest))
  {
    var t := DoubleQuotes(s) + "\"" + rest;
    if s == [] {
      assert t == "\"" + rest;
      assert t[1..] == rest;
    } else if s[0] == '"' {
      QuotedRoundTrip(s[1..], rest);
      assert t == "\"\"" + (DoubleQuotes(s[1..]) + "\"" + rest);
      assert t[2..] == DoubleQuotes(s[1..]) + "\"" + rest;
      assert "\"" + s[1..] == s;
    } else {
      QuotedRoundTrip(s[1..], rest);
      assert t == [s[0]] + (DoubleQuotes(s[1..]) + "\"" + rest);
      assert t[1..] == DoubleQuotes(s[1..]) + "\"" + rest;
      assert [s[0]] + s[1..] == s;
    }
  }

  /** Any string, escaped, reads back as itself, whatever separator follows. */
  lemma EscapeRoundTrip(s: string, rest: string)
    requires FieldEnd(rest)
    ensures ReadField(Escape(s) + rest) == Some((s, rest))
  {
    if Plain(s) {
      UnquotedRoundTrip(s, rest);
      if s == [] {
      } else {
        assert (s + rest)[0] == s[0];
      }
    } else {
      var t := Quoted(s) + rest;
      assert t == "\"" + (DoubleQuotes(s) + "\"" + rest);
      assert t[1..] == DoubleQuotes(s) + "\"" + rest;
      QuotedRoundTrip(s, rest);
    }
  }

  /** `enc` is how the export writes the text `val`: escaped, or as it is when nothing in it needs quoting. */
  predicate Encodes(enc: string, val: string)
  {
    enc == Escape(val) || (enc == val && Plain(val))
  }

  lemma FieldRoundTrip(enc: string, val: string, rest: string)
    requires Encodes(enc, val) && FieldEnd(rest)
    ensures ReadField(enc + rest) == Some((val, rest))
  {
    EscapeRoundTrip(val, rest);
  }

  /** One line of cells, each encoding the value in the same place. */
  predicate EncodesLine(enc: seq<string>, vals: seq<string>)
  {
    |enc| == |vals| >= 1 && forall j :: 0 <= j < |enc| ==> Encodes(enc[j], vals[j])
  }

  /** The cells of one line read back as their values, ending the record where the line ends. */
  lemma {:induction false} RecordRoundTrip(enc: seq<string>, vals: seq<string>, record: seq<string>, after: string)
    requires |enc| == |vals| >= 1 && forall j :: 0 <= j < |enc| ==> Encodes(enc[j], vals[j])
    requires after == [] || after[0] == '\n'
    ensures ParseFrom(Join(enc, ',') + after, record) ==
      if after == [] then Some([record + vals]) else Prepend(record + vals, ParseFrom(after[1..], []))
    decreases |enc|
  {
    if |enc| == 1 {
      FieldRoundTrip(enc[0], vals[0], after);
      assert vals == [vals[0]];
    } else {
      var tail := Join(enc[1..], ',') + after;
      assert Join(enc, ',') + after == enc[0] + ("," + tail);
      FieldRoundTrip(enc[0], vals[0], "," + tail);
      assert ("," + tail)[1..] == tail;
      RecordRoundTrip(enc[1..], vals[1..], record + [vals[0]], after);
      assert record + [vals[0]] + vals[1..] == record + vals;
    }
  }

  /** Joining two or more parts puts the first, then the separator, then the rest joined. */
  lemma JoinCons(parts: seq<string>, sep: char)
    requires |parts| >= 2
    ensures Join(parts, sep) == parts[0] + ([sep] + Join(parts[1..], sep))
  {
  }

  /** Each line of cells joined by commas. */
  function Texts(lines: seq<seq<string>>): (r: seq<string>)
    ensures |r| == |lines| && forall i :: 0 <= i < |lines| ==> r[i] == Join(lines[i], ',')
  {
    seq(|lines|, i requires 0 <= i < |lines| => Join(lines[i], ','))
  }

  /** Lines of encoded cells, joined by newlines, read back as the records of their values. */
  lemma {:induction false} DocumentRoundTrip(lines: seq<seq<string>>, records: seq<seq<string>>)
    requires |lines| == |records| >= 1
    requires forall i :: 0 <= i < |lines| ==> EncodesLine(lines[i], records[i])
    ensures Parse(Join(Texts(lines), '\n')) == Some(records)
    decreases |lines|
  {
    var texts := Texts(lines);
    if |lines| == 1 {
      RecordRoundTrip(lines[0], records[0], [], []);
      assert texts == [Join(lines[0], ',')];
      assert Join(lines[0], ',') + [] == Join(lines[0], ',');
      assert [] + records[0] == records[0];
      assert records == [records[0]];
    } else {
      var first, rest := Join(lines[0], ','), Join(Texts(lines[1..]), '\n');
      TextsTail(lines);
      JoinCons(texts, '\n');
      assert Join(texts, '\n') == first + ("\n" + rest);
      RecordRoundTrip(lines[0], records[0], [], "\n" + rest);
      DocumentRoundTrip(lines[1..], records[1..]);
      DocumentStep(first, rest, records[0], records[1..]);
      assert [records[0]] + records[1..] == records;
    }
  }

  /** A first line, a line break and the rest read back as the first line's record before the rest's. */
  lemma DocumentStep(first: string, rest: string, record: seq<string>, records: seq<seq<string>>)
    requires ParseFrom(first + ("\n" + rest), []) == Prepend([] + record, ParseFrom(("\n" + rest)[1..], []))
    requires Parse(rest) == Some(records)
    ensures Parse(first + ("\n" + rest)) == Some([record] + records)
  {
    assert ("\n" + rest)[1..] == rest;
    assert [] + record == record;
  }

  /** The joined lines after the first are the joined lines of the rest. */
  lemma TextsTail(lines: seq<seq<string>>)
    requires |lines| >= 1
    ensures Texts(lines[1..]) == Texts(lines)[1..]
  {
  }

  /** The values of one row, one per header, as the text they stand for. */
  function Contents(row: Row, headers: seq<string>): (vs: seq<string>)
    ensures |vs| == |headers| && forall j :: 0 <= j < |headers| ==> vs[j] == Content(Lookup(row, headers[j]))
  {
    seq(|headers|, j requires 0 <= j < |headers| => Content(Lookup(row, headers[j])))
  }

  /** Non-string values show as text with nothing to escape, as numbers and booleans do. */
  predicate ShownPlain(data: seq<Row>)
  {
    forall i, h :: 0 <= i < |data| && h in data[i].fields && data[i].fields[h].Shown? ==> Plain(data[i].fields[h].repr)
  }

  /**
   * Read back, the export is the header line and then, for each row, its
   * values under those headers, in order: one record per row, one field per
   * header. Headers are object keys and hold no separators.
   */
  lemma ExportRoundTrip(data: seq<Row>)
    requires data != [] && |data[0].keys| >= 1
    requires forall j :: 0 <= j < |data[0].keys| ==> Plain(data[0].keys[j])
    requires ShownPlain(data)
    ensures Export(Some(data)).Some?
    ensures var headers := data[0].keys;
      Parse(Export(Some(data)).value) ==
        Some([headers] + seq(|data|, i requires 0 <= i < |data| => Contents(data[i], headers)))
  {
    var headers := data[0].keys;
    var lines := [headers] + seq(|data|, i requires 0 <= i < |data| => Cells(data[i], headers));
    var records := [headers] + seq(|data|, i requires 0 <= i < |data| => Contents(data[i], headers));
    forall i, j | 0 <= i < |lines| && 0 <= j < |lines[i]|
      ensures Encodes(lines[i][j], records[i][j])
    {
      if i > 0 {
        assert lines[i] == Cells(data[i - 1], headers) && records[i] == Contents(data[i - 1], headers);
        CellEncodes(data, headers, i - 1, j);
      }
    }
    DocumentRoundTrip(lines, records);
    ExportText(data, lines);
  }

  /** The export text is the header line and the cell lines, each joined by commas, joined by newlines. */
  lemma ExportText(data: seq<Row>, lines: seq<seq<string>>)
    requires data != []
    requires lines == [data[0].keys] + seq(|data|, i requires 0 <= i < |data| => Cells(data[i], data[0].keys))
    ensures Export(Some(data)) == Some(Join(Texts(lines), '\n'))
  {
    var headers := data[0].keys;
    var texts := Texts(lines);
    forall i | 0 <= i < |texts|
      ensures texts[i] == Lines(data, headers)[i]
    {
      if i > 0 {
        assert lines[i] == Cells(data[i - 1], headers);
      }
    }
    assert texts == Lines(data, headers);
  }

  /** A cell of the export encodes the text its value stands for. */
  lemma CellEncodes(data: seq<Row>, headers: seq<string>, i: int, j: int)
    requires ShownPlain(data) && 0 <= i < |data| && 0 <= j < |headers|
    ensures Encodes(Cell(Lookup(data[i], headers[j])), Content(Lookup(data[i], headers[j])))
  {
    var v := Lookup(data[i], headers[j]);
    if v.Shown? {
      assert headers[j] in data[i].fields;
    }
  }

  // ----- the newline in a cell -----

  /** The export as written, which leaves a line break in a string cell unquoted. */
  function ExportAsWritten(data: Option<seq<Row>>): (r: Option<string>)
    ensures r.None? <==> data.None? || data.value == []
  {
    if data.None? || data.value == [] then None
    else
      var headers := data.value[0].keys;
      var rows := seq(|data.value|, i requires 0 <= i < |data.value| =>
        Join(seq(|headers|, j requires 0 <= j < |headers| =>
          match Lookup(data.value[i], headers[j])
          case Text(s) => EscapeAsWritten(s)
          case Shown(r) => r
          case Missing => ""), ','));
      Some(Join([Join(headers, ',')] + rows, '\n'))
  }

  /** The one-row list whose `note` reads "a", line break, "b". */
  function NoteRow(): seq<Row>
  {
    [Row(["note"], map["note" := Text("a\nb")])]
  }

  /** As written, its export leaves the line break bare. */
  lemma NoteExportAsWritten()
    ensures ExportAsWritten(Some(NoteRow())) == Some("note\na\nb")
  {
    var data := NoteRow();
    assert EscapeAsWritten("a\nb") == "a\nb";
    var headers := data[0].keys;
    var rows := seq(|data|, i requires 0 <= i < |data| =>
      Join(seq(|headers|, j requires 0 <= j < |headers| =>
        match Lookup(data[i], headers[j])
        case Text(s) => EscapeAsWritten(s)
        case Shown(r) => r
        case Missing => ""), ','));
    assert Lookup(data[0], "note") == Text("a\nb");
    assert rows == ["a\nb"];
    assert Join(["note"] + ["a\nb"], '\n') == "note\na\nb";
  }

  /** That text reads back as a header and two rows. */
  lemma NoteTextReadsAsTwoRows()
    ensures Parse("note\na\nb") == Some([["note"], ["a"], ["b"]])
  {
    assert Plain("b") && Plain("a") && Plain("note");
    PlainLastLine("b");
    PlainLineThen("a", "b");
    var ab := "a" + "\n" + "b";
    assert ab == "a\nb";
    assert ParseFrom(ab, []) == Some([["a"], ["b"]]) by {
      assert [["a"]] + [["b"]] == [["a"], ["b"]];
    }
    PlainLineThen("note", ab);
    var all := "note" + "\n" + ab;
    assert all == "note\na\nb";
    assert [["note"]] + [["a"], ["b"]] == [["note"], ["a"], ["b"]];
    assert ParseFrom(all, []) == Some([["note"], ["a"], ["b"]]);
  }

  /** A plain one-field line followed by a line break starts a record of its own. */
  lemma PlainLineThen(w: string, rest: string)
    requires Plain(w)
    ensures ParseFrom(w + "\n" + rest, []) == Prepend([w], ParseFrom(rest, []))
  {
    FieldRoundTrip(w, w, "\n" + rest);
    assert w + "\n" + rest == w + ("\n" + rest);
    assert ("\n" + rest)[1..] == rest;
    assert [] + [w] == [w];
  }

  /** A plain one-field text is one record. */
  lemma PlainLastLine(w: string)
    requires Plain(w)
    ensures ParseFrom(w, []) == Some([[w]])
  {
    FieldRoundTrip(w, w, "");
    assert w + "" == w;
    assert [] + [w] == [w];
  }

  /** Escaped, the line break is quoted and the row reads back whole. */
  lemma NoteExportReadsAsOneRow()
    ensures Parse(Export(Some(NoteRow())).value) == Some([["note"], ["a\nb"]])
  {
    var data := NoteRow();
    var headers := data[0].keys;
    assert headers == ["note"];
    assert Plain("note");
    assert forall h :: h in data[0].fields ==> data[0].fields[h] == Text("a\nb");
    assert ShownPlain(data);
    ExportRoundTrip(data);
    assert Lookup(data[0], "note") == Text("a\nb");
    assert Contents(data[0], headers) == ["a\nb"];
    var recs := seq(|data|, i requires 0 <= i < |data| => Contents(data[i], headers));
    assert recs == [["a\nb"]];
    assert [headers] + recs == [["note"], ["a\nb"]];
  }

  /** One exported row reads back as two when a string cell holds a line break; escaping it too keeps one. */
  lemma NewlineSplitsRow()
    ensures ExportAsWritten(Some(NoteRow())) == Some("note\na\nb")
    ensures Parse("note\na\nb") == Some([["note"], ["a"], ["b"]])
    ensures Parse(Export(Some(NoteRow())).value) == Some([["note"], ["a\nb"]])
  {
    NoteExportAsWritten();
    NoteTextReadsAsTwoRows();
    NoteExportReadsAsOneRow();
  }
}
