/** Guest list CSV: the printer used by the exports and the hand-written parser used by imports
    (packages/persistence/src/guests.ts, section 2 of RFC 4180). */
module Csv {
  import opened Seqs

  datatype Error = CsvInvalid | CsvTooLarge

  datatype Result = Parsed(rows: seq<seq<string>>) | Rejected(error: Error)

  const MAX_ROWS: nat := 1001

  // ---------- printing ----------

  /** The characters a script regular expression calls white space. */
  predicate IsSpace(c: char) {
    c in "\t\n\r \U{000B}\U{000C}\U{00A0}\U{1680}\U{2028}\U{2029}\U{202F}\U{205F}\U{3000}\U{FEFF}"
    || '\U{2000}' <= c <= '\U{200A}'
  }

  /** Optional white space, then a character a spreadsheet would read as a formula. */
  predicate LooksLikeFormula(text: string) {
    text != [] && (text[0] in "=+-@" || (IsSpace(text[0]) && LooksLikeFormula(text[1..])))
  }

  function Guarded(text: string): string {
    if LooksLikeFormula(text) then "'" + text else text
  }

  function DoubleQuotes(text: string): string {
    if text == [] then []
    else (if text[0] == '"' then "\"\"" else [text[0]]) + DoubleQuotes(text[1..])
  }

  function CsvCell(text: string): string {
    "\"" + DoubleQuotes(Guarded(text)) + "\""
  }

  function JoinCells(cells: seq<string>): string {
    if cells == [] then ""
    else if |cells| == 1 then cells[0]
    else cells[0] + "," + JoinCells(cells[1..])
  }

  function PrintRow(row: seq<string>): string {
    JoinCells(seq(|row|, i requires 0 <= i < |row| => CsvCell(row[i])))
  }

  function PrintRows(rows: seq<seq<string>>): string {
    if rows == [] then ""
    else if |rows| == 1 then PrintRow(rows[0])
    else PrintRow(rows[0]) + "\r\n" + PrintRows(rows[1..])
  }

  // ---------- parsing ----------

  /** What the parser remembers between characters. */
  datatype State = State(rows: seq<seq<string>>, row: seq<string>, cell: string, quoted: bool) {
    function Push(text: string): State { this.(cell := cell + text) }
    function EndCell(): State { this.(row := row + [cell], cell := "") }
    function EndRow(): State {
      State(Keep(rows, row + [cell]), [], "", quoted)
    }
  }

  /** A row counts only if it says something. */
  predicate Blank(row: seq<string>) {
    forall i :: 0 <= i < |row| ==> row[i] == ""
  }

  function Keep(rows: seq<seq<string>>, row: seq<string>): seq<seq<string>> {
    if Blank(row) then rows else rows + [row]
  }

  /** The parser's verdict on the characters still to come. */
  function Scan(s: string, st: State): Result
    decreases |s|
  {
    if s == "" then
      if st.quoted then Rejected(CsvInvalid)
      else
        var rows := Keep(st.rows, st.row + [st.cell]);
        if |rows| > MAX_ROWS then Rejected(CsvTooLarge) else Parsed(rows)
    else if s[0] == '"' then
      if st.quoted && |s| > 1 && s[1] == '"' then Scan(s[2..], st.Push("\""))
      else if st.cell == "" || st.quoted then Scan(s[1..], st.(quoted := !st.quoted))
      else Rejected(CsvInvalid)
    else if s[0] == ',' && !st.quoted then Scan(s[1..], st.EndCell())
    else if (s[0] == '\n' || s[0] == '\r') && !st.quoted then
      Scan(s[if s[0] == '\r' && |s| > 1 && s[1] == '\n' then 2 else 1..], st.EndRow())
    else Scan(s[1..], st.Push([s[0]]))
  }

  const START := State([], [], "", false)

  function Parse(csv: string): Result { Scan(csv, START) }

  /** The import parser: one pass over the text, looking one character ahead. */
  method ParseCsv(csv: string) returns (result: Result)
    ensures result == Parse(csv)
  {
    var rows: seq<seq<string>>, row: seq<string>, cell: string, quoted := [], [], "", false;
    var i := 0;
    while i < |csv|
      invariant 0 <= i <= |csv|
      invariant Parse(csv) == Scan(csv[i..], State(rows, row, cell, quoted))
    {
      var ch := csv[i];
      assert csv[i..][0] == ch;
      assert i + 1 < |csv| ==> csv[i..][1] == csv[i + 1];
      assert csv[i..][1..] == csv[i + 1..];
      assert i + 1 < |csv| ==> csv[i..][2..] == csv[i + 2..];
      if ch == '"' {
        if quoted && i + 1 < |csv| && csv[i + 1] == '"' {
          cell := cell + "\"";
          i := i + 1;
        } else if cell == "" || quoted {
          quoted := !quoted;
        } else {
          return Rejected(CsvInvalid);
        }
      } else if ch == ',' && !quoted {
        row := row + [cell];
        cell := "";
      } else if (ch == '\n' || ch == '\r') && !quoted {
        if ch == '\r' && i + 1 < |csv| && csv[i + 1] == '\n' {
          i := i + 1;
        }
        row := row + [cell];
        if exists k :: 0 <= k < |row| && row[k] != "" {
          rows := rows + [row];
        }
        row, cell := [], "";
      } else {
        cell := cell + [ch];
      }
      i := i + 1;
    }
    if quoted {
      return Rejected(CsvInvalid);
    }
    row := row + [cell];
    if exists k :: 0 <= k < |row| && row[k] != "" {
      rows := rows + [row];
    }
    if |rows| > MAX_ROWS {
      return Rejected(CsvTooLarge);
    }
    return Parsed(rows);
  }

  // ---------- documents: what a CSV text means ----------

  /** No quote, comma or line break. */
  predicate Plain(text: string) {
    forall i :: 0 <= i < |text| ==> text[i] !in "\",\r\n"
  }

  /** A field is written bare, or between quotes and then perhaps goes on bare. */
  datatype Field = Bare(text: string) | Quoted(text: string, tail: string) {
    predicate Legal() { Plain(if Bare? then text else tail) }
    function Value(): string { if Bare? then text else text + tail }
    function Written(): string {
      if Bare? then text else "\"" + DoubleQuotes(text) + "\"" + tail
    }
  }

  datatype Break = LF | CR | CRLF {
    function Written(): string {
      match this case LF => "\n" case CR => "\r" case CRLF => "\r\n"
    }
  }

  function WrittenRow(fields: seq<Field>): string
    requires fields != []
  {
    if |fields| == 1 then fields[0].Written()
    else fields[0].Written() + "," + WrittenRow(fields[1..])
  }

  function RowText(fields: seq<Field>): (texts: seq<string>)
    ensures |texts| == |fields|
  {
    seq(|fields|, i requires 0 <= i < |fields| => fields[i].Value())
  }

  /** Rows, each followed by its line break, then the text after the last break. */
  function Written(lines: seq<(seq<Field>, Break)>, tail: string): string
    requires forall i :: 0 <= i < |lines| ==> lines[i].0 != []
  {
    if lines == [] then tail
    else WrittenRow(lines[0].0) + lines[0].1.Written() + Written(lines[1..], tail)
  }

  predicate LegalRow(fields: seq<Field>) {
    fields != [] && forall i :: 0 <= i < |fields| ==> fields[i].Legal()
  }

  /** A lone carriage return is only told from CR LF by what follows it. */
  predicate LegalLines(lines: seq<(seq<Field>, Break)>, tail: string)
    decreases |lines|
  {
    lines != [] ==>
      && (forall i :: 0 <= i < |lines| ==> LegalRow(lines[i].0))
      && LegalLines(lines[1..], tail)
      && (lines[0].1 == CR ==> !StartsWith(Written(lines[1..], tail), '\n'))
  }

  predicate StartsWith(s: string, c: char) { s != "" && s[0] == c }

  function KeepAll(rows: seq<seq<string>>, lines: seq<(seq<Field>, Break)>): seq<seq<string>>
    decreases |lines|
  {
    if lines == [] then rows else KeepAll(Keep(rows, RowText(lines[0].0)), lines[1..])
  }

  // ---------- one field, one row, many rows ----------

  lemma PushBoth(st: State, a: string, b: string)
    ensures st.Push(a).Push(b) == st.Push(a + b)
  {
    Assoc(st.cell, a, b);
  }

  lemma {:induction false} ScanBare(text: string, rest: string, st: State)
    requires Bare(text).Legal() && !st.quoted
    ensures Scan(text + rest, st) == Scan(rest, st.Push(text))
  {
    if text == "" {
      assert text + rest == rest;
      assert st.Push(text) == st;
    } else {
      var s := text + rest;
      assert s[0] == text[0] && s[1..] == text[1..] + rest;
      ScanBare(text[1..], rest, st.Push([text[0]]));
      PushBoth(st, [text[0]], text[1..]);
      assert [text[0]] + text[1..] == text;
    }
  }

  /** Inside quotes everything is text until a quote that is not doubled. */
  lemma {:induction false} ScanInsideQuotes(text: string, rest: string, st: State)
    requires st.quoted && !StartsWith(rest, '"')
    ensures Scan(DoubleQuotes(text) + "\"" + rest, st) == Scan(rest, st.Push(text).(quoted := false))
  {
    if text == "" {
      var s := DoubleQuotes(text) + "\"" + rest;
      assert s == "\"" + rest && s[1..] == rest;
      assert st.Push(text) == st;
    } else {
      ScanQuotedChar(text, "\"" + rest, st);
      Assoc(DoubleQuotes(text), "\"", rest);
      Assoc(DoubleQuotes(text[1..]), "\"", rest);
      hide Scan, DoubleQuotes;
      ScanInsideQuotes(text[1..], rest, st.Push([text[0]]));
      PushBoth(st, [text[0]], text[1..]);
      assert [text[0]] + text[1..] == text;
    }
  }

  lemma ScanQuotedChar(text: string, rest: string, st: State)
    requires st.quoted && text != ""
    ensures Scan(DoubleQuotes(text) + rest, st) == Scan(DoubleQuotes(text[1..]) + rest, st.Push([text[0]]))
  {
    var s, more := DoubleQuotes(text) + rest, DoubleQuotes(text[1..]) + rest;
    if text[0] == '"' {
      assert s == "\"\"" + more && s[2..] == more;
    } else {
      assert s == [text[0]] + more && s[1..] == more;
    }
  }

  lemma ScanOpening(more: string, st: State)
    requires !st.quoted && st.cell == ""
    ensures Scan("\"" + more, st) == Scan(more, st.(quoted := true))
  {
    assert ("\"" + more)[0] == '"' && ("\"" + more)[1..] == more;
  }

  lemma ScanField(field: Field, rest: string, st: State)
    requires field.Legal() && !st.quoted && st.cell == ""
    requires field.Quoted? && field.tail == "" ==> !StartsWith(rest, '"')
    ensures Scan(field.Written() + rest, st) == Scan(rest, st.(cell := field.Value()))
  {
    hide Scan, DoubleQuotes;
    assert st.cell + field.text == field.text;
    if field.Bare? {
      ScanBare(field.text, rest, st);
    } else {
      var inside, after := DoubleQuotes(field.text), field.tail + rest;
      assert field.Written() + rest == "\"" + (inside + "\"" + after);
      ScanOpening(inside + "\"" + after, st);
      ScanInsideQuotes(field.text, after, st.(quoted := true));
      ScanBare(field.tail, rest, st.(cell := field.text));
    }
  }

  lemma ScanComma(more: string, st: State)
    requires !st.quoted
    ensures Scan("," + more, st) == Scan(more, st.EndCell())
  {
    assert ("," + more)[0] == ',' && ("," + more)[1..] == more;
  }

  /** The state once a row's last field is read: everything before it is closed by its comma. */
  function AtLast(st: State, texts: seq<string>): State
    requires texts != []
  {
    st.(row := st.row + texts[..|texts| - 1], cell := texts[|texts| - 1])
  }

  lemma AtLastSteps(st: State, texts: seq<string>)
    requires |texts| > 1 && st.cell == ""
    ensures AtLast(st.(cell := texts[0]).EndCell(), texts[1..]) == AtLast(st, texts)
  {
    var rest := texts[1..];
    assert (st.row + [texts[0]]) + rest[..|rest| - 1] == st.row + texts[..|texts| - 1];
  }

  lemma AtLastOnly(st: State, text: string)
    ensures AtLast(st, [text]) == st.(cell := text)
  {
    assert st.row + [text][..0] == st.row;
  }

  /** From an empty row the row read is the whole row. */
  lemma AtLastEnds(st: State, texts: seq<string>)
    requires texts != [] && st.row == []
    ensures AtLast(st, texts).row + [AtLast(st, texts).cell] == texts
  {
    assert [] + texts[..|texts| - 1] == texts[..|texts| - 1];
  }

  lemma RowTextSteps(fields: seq<Field>)
    requires |fields| > 0
    ensures RowText(fields)[0] == fields[0].Value() && RowText(fields)[1..] == RowText(fields[1..])
  {
  }

  lemma {:induction false} ScanRow(fields: seq<Field>, rest: string, st: State)
    requires LegalRow(fields) && !st.quoted && st.cell == "" && !StartsWith(rest, '"')
    ensures Scan(WrittenRow(fields) + rest, st) == Scan(rest, AtLast(st, RowText(fields)))
  {
    hide Scan, AtLast;
    var texts := RowText(fields);
    RowTextSteps(fields);
    if |fields| == 1 {
      ScanField(fields[0], rest, st);
      assert texts == [fields[0].Value()];
      AtLastOnly(st, fields[0].Value());
    } else {
      var more := WrittenRow(fields[1..]) + rest;
      Assoc(fields[0].Written() + ",", WrittenRow(fields[1..]), rest);
      Assoc(fields[0].Written(), ",", more);
      ScanField(fields[0], "," + more, st);
      ScanComma(more, st.(cell := fields[0].Value()));
      AtLastSteps(st, texts);
      ScanRow(fields[1..], rest, st.(cell := fields[0].Value()).EndCell());
    }
  }

  lemma ScanBreak(end: Break, rest: string, st: State)
    requires !st.quoted && (end == CR ==> !StartsWith(rest, '\n'))
    ensures Scan(end.Written() + rest, st) == Scan(rest, st.EndRow())
  {
    var s := end.Written() + rest;
    assert s[|end.Written()|..] == rest;
  }

  lemma {:induction false} ScanLines(lines: seq<(seq<Field>, Break)>, tail: string, st: State)
    requires LegalLines(lines, tail) && !st.quoted && st.row == [] && st.cell == ""
    ensures Scan(Written(lines, tail), st) == Scan(tail, st.(rows := KeepAll(st.rows, lines)))
    decreases |lines|
  {
    if lines != [] {
      var fields, more := lines[0].0, Written(lines[1..], tail);
      ScanLine(fields, lines[0].1, more, st);
      ScanLines(lines[1..], tail, st.(rows := Keep(st.rows, RowText(fields))));
    }
  }

  lemma ScanLine(fields: seq<Field>, end: Break, rest: string, st: State)
    requires LegalRow(fields) && !st.quoted && st.row == [] && st.cell == ""
    requires end == CR ==> !StartsWith(rest, '\n')
    ensures Scan(WrittenRow(fields) + end.Written() + rest, st)
            == Scan(rest, st.(rows := Keep(st.rows, RowText(fields))))
  {
    assert fields != [];
    hide Scan, WrittenRow, LegalRow, Keep, RowText, AtLast;
    var texts, after := RowText(fields), end.Written() + rest;
    assert !StartsWith(after, '"');
    Assoc(WrittenRow(fields), end.Written(), rest);
    ScanRow(fields, after, st);
    AtLastKeeps(st, texts);
    ScanBreak(end, rest, AtLast(st, texts));
    AtLastEnds(st, texts);
  }

  lemma AtLastKeeps(st: State, texts: seq<string>)
    requires texts != []
    ensures AtLast(st, texts).rows == st.rows && AtLast(st, texts).quoted == st.quoted
  {
  }

  lemma ScanEnd(st: State)
    requires !st.quoted
    ensures var rows := Keep(st.rows, st.row + [st.cell]);
            Scan("", st) == if |rows| > MAX_ROWS then Rejected(CsvTooLarge) else Parsed(rows)
  {
  }

  // ---------- main results ----------

  /** The rows in which some cell says something. */
  ghost function Saying(rows: seq<seq<string>>): seq<seq<string>> {
    if rows == [] then []
    else
      var row := rows[|rows| - 1];
      Saying(rows[..|rows| - 1]) + if exists cell | cell in row :: cell != "" then [row] else []
  }

  function Texts(lines: seq<(seq<Field>, Break)>): (rows: seq<seq<string>>)
    ensures |rows| == |lines|
  {
    seq(|lines|, i requires 0 <= i < |lines| => RowText(lines[i].0))
  }

  lemma SayingMore(rows: seq<seq<string>>, row: seq<string>)
    ensures Saying(rows + [row]) == Keep(Saying(rows), row)
  {
    assert (rows + [row])[..|rows|] == rows;
    if !Blank(row) {
      var i :| 0 <= i < |row| && row[i] != "";
      assert row[i] in row;
    }
  }

  lemma {:induction false} KeepAllMeans(seen: seq<seq<string>>, lines: seq<(seq<Field>, Break)>)
    ensures KeepAll(Saying(seen), lines) == Saying(seen + Texts(lines))
    decreases |lines|
  {
    if lines == [] {
      assert seen + Texts(lines) == seen;
    } else {
      SayingMore(seen, RowText(lines[0].0));
      KeepAllMeans(seen + [RowText(lines[0].0)], lines[1..]);
      assert seen + [RowText(lines[0].0)] + Texts(lines[1..]) == seen + Texts(lines);
    }
  }

  /** Every document, however its fields are quoted and its lines are broken, parses to its texts:
      rows that say nothing are dropped, and more than 1001 others are refused. */
  lemma ParseReadsDocuments(lines: seq<(seq<Field>, Break)>, last: seq<Field>)
    requires LegalRow(last) && LegalLines(lines, WrittenRow(last))
    ensures var rows := Saying(Texts(lines) + [RowText(last)]);
            Parse(Written(lines, WrittenRow(last))) == if |rows| > 1001 then Rejected(CsvTooLarge) else Parsed(rows)
    ensures Saying(Texts(lines) + [RowText(last)]) == Keep(KeepAll([], lines), RowText(last))
  {
    assert last != [];
    hide LegalRow, WrittenRow, Keep, KeepAll, Scan;
    ScanLines(lines, WrittenRow(last), START);
    ScanLast(last, START.(rows := KeepAll([], lines)));
    KeepAllMeans([], lines);
    assert [] + Texts(lines) == Texts(lines);
    SayingMore(Texts(lines), RowText(last));
  }

  lemma ScanLast(last: seq<Field>, st: State)
    requires LegalRow(last) && !st.quoted && st.row == [] && st.cell == ""
    ensures var rows := Keep(st.rows, RowText(last));
            Scan(WrittenRow(last), st) == if |rows| > MAX_ROWS then Rejected(CsvTooLarge) else Parsed(rows)
  {
    assert last != [];
    hide LegalRow, WrittenRow, Keep, Scan, RowText, AtLast;
    assert WrittenRow(last) + "" == WrittenRow(last);
    ScanRow(last, "", st);
    AtLastKeeps(st, RowText(last));
    AtLastEnds(st, RowText(last));
    ScanEnd(AtLast(st, RowText(last)));
  }

  /** The fields of a row that are closed by their commas. */
  function Before(fields: seq<Field>): string {
    if fields == [] then "" else WrittenRow(fields) + ","
  }

  lemma ScanBefore(fields: seq<Field>, rest: string, st: State)
    requires (fields != [] ==> LegalRow(fields)) && !st.quoted && st.row == [] && st.cell == ""
    ensures Scan(Before(fields) + rest, st) == Scan(rest, st.(row := RowText(fields)))
  {
    hide Scan, LegalRow, AtLast;
    if fields == [] {
      assert Before(fields) + rest == rest;
      assert RowText(fields) == [];
    } else {
      Assoc(WrittenRow(fields), ",", rest);
      ScanRow(fields, "," + rest, st);
      AtLastKeeps(st, RowText(fields));
      ScanComma(rest, AtLast(st, RowText(fields)));
      AtLastEnds(st, RowText(fields));
    }
  }

  /** A quote opened in any field and never closed is refused. */
  lemma ParseRefusesOpenQuote(lines: seq<(seq<Field>, Break)>, before: seq<Field>, text: string)
    requires before != [] ==> LegalRow(before)
    requires LegalLines(lines, Before(before) + "\"" + DoubleQuotes(text))
    ensures Parse(Written(lines, Before(before) + "\"" + DoubleQuotes(text))) == Rejected(CsvInvalid)
  {
    hide Scan, LegalLines, LegalRow;
    var tail, st := Before(before) + "\"" + DoubleQuotes(text), START.(rows := KeepAll([], lines));
    ScanLines(lines, tail, START);
    Assoc(Before(before), "\"", DoubleQuotes(text));
    ScanBefore(before, "\"" + DoubleQuotes(text), st);
    ScanOpening(DoubleQuotes(text), st.(row := RowText(before)));
    ScanUnclosed(text, st.(row := RowText(before), quoted := true));
  }

  lemma {:induction false} ScanUnclosed(text: string, st: State)
    requires st.quoted
    ensures Scan(DoubleQuotes(text), st) == Rejected(CsvInvalid)
  {
    if text != "" {
      var s, more := DoubleQuotes(text), DoubleQuotes(text[1..]);
      assert s[|s| - |more|..] == more;
      ScanUnclosed(text[1..], st.Push([text[0]]));
    }
  }

  /** A quote in a field's bare part is refused, whatever follows. */
  lemma ParseRefusesStrayQuote(lines: seq<(seq<Field>, Break)>, before: seq<Field>, field: Field, rest: string)
    requires field.Legal() && (if field.Bare? then field.text != "" else field.tail != "")
    requires before != [] ==> LegalRow(before)
    requires LegalLines(lines, Before(before) + field.Written() + "\"" + rest)
    ensures Parse(Written(lines, Before(before) + field.Written() + "\"" + rest)) == Rejected(CsvInvalid)
  {
    hide Scan, LegalLines, LegalRow, Field.Written, Field.Legal, DoubleQuotes, Before, Written, RowText;
    var st := START.(rows := KeepAll([], lines));
    ScanLines(lines, Before(before) + field.Written() + "\"" + rest, START);
    Assoc(Before(before) + field.Written(), "\"", rest);
    Assoc(Before(before), field.Written(), "\"" + rest);
    ScanBefore(before, field.Written() + ("\"" + rest), st);
    var at := st.(row := RowText(before));
    ScanField(field, "\"" + rest, at);
    ScanStray(rest, at.(cell := field.Value()));
  }

  lemma ScanStray(rest: string, st: State)
    requires !st.quoted && st.cell != ""
    ensures Scan("\"" + rest, st) == Rejected(CsvInvalid)
  {
    assert ("\"" + rest)[0] == '"';
  }

  // ---------- every text is one of these ----------

  /** How a text goes on after its last line break. */
  datatype Shape =
    | Ends(last: seq<Field>)
    | OpenQuote(before: seq<Field>, text: string)
    | StrayQuote(before: seq<Field>, field: Field, rest: string)

  function ShapeText(shape: Shape): string
    requires shape.Ends? ==> shape.last != []
  {
    match shape
    case Ends(last) => WrittenRow(last)
    case OpenQuote(before, text) => Before(before) + "\"" + DoubleQuotes(text)
    case StrayQuote(before, field, rest) => Before(before) + field.Written() + "\"" + rest
  }

  predicate LegalShape(shape: Shape) {
    match shape
    case Ends(last) => LegalRow(last)
    case OpenQuote(before, text) => before != [] ==> LegalRow(before)
    case StrayQuote(before, field, rest) =>
      (before != [] ==> LegalRow(before)) && field.Legal() && (if field.Bare? then field.text != "" else field.tail != "")
  }

  /** The text is these lines and then this. */
  ghost predicate Fits(s: string, lines: seq<(seq<Field>, Break)>, shape: Shape) {
    LegalShape(shape) && LegalLines(lines, ShapeText(shape)) && s == Written(lines, ShapeText(shape))
  }

  lemma LexBare(s: string) returns (text: string, rest: string)
    ensures s == text + rest && Plain(text) && (rest != "" ==> rest[0] in "\",\r\n")
  {
    if s == "" || s[0] in "\",\r\n" {
      text, rest := "", s;
    } else {
      text, rest := LexBare(s[1..]);
      text := [s[0]] + text;
    }
  }

  lemma LexQuoted(s: string) returns (text: string, rest: string, closed: bool)
    ensures closed ==> s == DoubleQuotes(text) + "\"" + rest && !StartsWith(rest, '"')
    ensures !closed ==> s == DoubleQuotes(text)
    decreases |s|
  {
    if s == "" {
      text, rest, closed := "", "", false;
    } else if s[0] == '"' && (|s| == 1 || s[1] != '"') {
      text, rest, closed := "", s[1..], true;
    } else {
      var n := if s[0] == '"' then 2 else 1;
      text, rest, closed := LexQuoted(s[n..]);
      var more := [s[0]] + text;
      assert more[1..] == text;
      assert s[..n] == if s[0] == '"' then "\"\"" else [s[0]];
      assert DoubleQuotes(more) == s[..n] + DoubleQuotes(text);
      assert s == s[..n] + s[n..];
      if closed {
        assert s == DoubleQuotes(more) + "\"" + rest;
      }
      text := more;
    }
  }

  /** A field at the front of a text, and what follows it: nothing, a separator or a stray quote. */
  lemma LexField(s: string) returns (field: Field, rest: string, closed: bool)
    ensures closed ==> field.Legal() && s == field.Written() + rest && (rest != "" ==> rest[0] in "\",\r\n")
    ensures closed && StartsWith(rest, '"') ==> if field.Bare? then field.text != "" else field.tail != ""
    ensures !closed ==> s == "\"" + DoubleQuotes(field.text)
  {
    if StartsWith(s, '"') {
      var text, after;
      text, after, closed := LexQuoted(s[1..]);
      field, rest := Quoted(text, ""), "";
      if closed {
        var tail;
        tail, rest := LexBare(after);
        field := Quoted(text, tail);
        assert s == "\"" + (DoubleQuotes(text) + "\"" + (tail + rest));
      }
    } else {
      var text;
      text, rest := LexBare(s);
      field, closed := Bare(text), true;
    }
  }

  function Prepended(field: Field, shape: Shape): Shape {
    match shape
    case Ends(last) => Ends([field] + last)
    case OpenQuote(before, text) => OpenQuote([field] + before, text)
    case StrayQuote(before, f, rest) => StrayQuote([field] + before, f, rest)
  }

  lemma RowPrepended(field: Field, fields: seq<Field>)
    requires fields != []
    ensures WrittenRow([field] + fields) == field.Written() + "," + WrittenRow(fields)
  {
    assert ([field] + fields)[1..] == fields;
  }

  lemma BeforePrepended(field: Field, before: seq<Field>)
    ensures Before([field] + before) == field.Written() + "," + Before(before)
  {
    if before == [] {
      assert [field] + before == [field];
      assert field.Written() + "," + "" == field.Written() + ",";
    } else {
      RowPrepended(field, before);
      hide WrittenRow;
    }
  }

  lemma Regroup(a: string, b: string, c: string, d: string, e: string)
    ensures (a + b + c) + d + e == a + b + (c + d + e)
  {
  }

  lemma ShapePrepended(field: Field, shape: Shape)
    requires LegalShape(shape) && field.Legal()
    ensures LegalShape(Prepended(field, shape))
    ensures ShapeText(Prepended(field, shape)) == field.Written() + "," + ShapeText(shape)
  {
    hide DoubleQuotes, Before, Field.Written, Field.Legal, WrittenRow;
    match shape
    case Ends(last) =>
      RowPrepended(field, last);
    case OpenQuote(before, text) =>
      BeforePrepended(field, before);
      Regroup(field.Written(), ",", Before(before), "\"", DoubleQuotes(text));
    case StrayQuote(before, f, rest) =>
      BeforePrepended(field, before);
      Regroup(field.Written(), ",", Before(before), f.Written(), "\"" + rest);
      Assoc(Before(before) + f.Written(), "\"", rest);
      Assoc(Before([field] + before) + f.Written(), "\"", rest);
  }

  /** A field more at the front of the first line. */
  lemma FitsPrepended(field: Field, s: string, lines: seq<(seq<Field>, Break)>, shape: Shape) returns (more: seq<(seq<Field>, Break)>, last: Shape)
    requires field.Legal() && Fits(s, lines, shape)
    ensures Fits(field.Written() + "," + s, more, last)
  {
    if lines == [] {
      ShapePrepended(field, shape);
      more, last := [], Prepended(field, shape);
    } else {
      more, last := [([field] + lines[0].0, lines[0].1)] + lines[1..], shape;
      LinePrepended(field, lines, ShapeText(shape));
    }
    hide WrittenRow, LegalRow, ShapeText, Field.Written, LegalShape;
  }

  lemma LinePrepended(field: Field, lines: seq<(seq<Field>, Break)>, tail: string)
    requires field.Legal() && lines != [] && LegalLines(lines, tail)
    ensures var more := [([field] + lines[0].0, lines[0].1)] + lines[1..];
      LegalLines(more, tail) && Written(more, tail) == field.Written() + "," + Written(lines, tail)
  {
    var more := [([field] + lines[0].0, lines[0].1)] + lines[1..];
    RowPrepended(field, lines[0].0);
    assert LegalRow([field] + lines[0].0);
    assert more[1..] == lines[1..];
    assert forall i :: 0 < i < |more| ==> more[i] == lines[i];
    Regroup(field.Written(), ",", WrittenRow(lines[0].0), lines[0].1.Written(), Written(lines[1..], tail));
    hide WrittenRow, LegalRow, Field.Written, Break.Written;
  }

  /** A line more in front. */
  lemma FitsLine(field: Field, end: Break, s: string, lines: seq<(seq<Field>, Break)>, shape: Shape)
    requires field.Legal() && Fits(s, lines, shape) && (end == CR ==> !StartsWith(s, '\n'))
    ensures Fits(field.Written() + end.Written() + s, [([field], end)] + lines, shape)
  {
    var more := [([field], end)] + lines;
    hide ShapeText;
    assert more[1..] == lines;
    assert WrittenRow([field]) == field.Written() && LegalRow([field]);
    assert forall i :: 0 < i < |more| ==> more[i] == lines[i - 1];
  }

  lemma FitsLast(field: Field, s: string)
    requires field.Legal() && s == field.Written()
    ensures Fits(s, [], Ends([field]))
  {
    assert LegalRow([field]);
    hide Field.Written;
  }

  lemma FitsOpen(text: string)
    ensures Fits("\"" + DoubleQuotes(text), [], OpenQuote([], text))
  {
    assert "" + "\"" == "\"";
  }

  lemma FitsStray(field: Field, rest: string)
    requires field.Legal() && StartsWith(rest, '"') && (if field.Bare? then field.text != "" else field.tail != "")
    ensures Fits(field.Written() + rest, [], StrayQuote([], field, rest[1..]))
  {
    assert rest == "\"" + rest[1..];
    assert "" + field.Written() == field.Written();
    Assoc(field.Written(), "\"", rest[1..]);
    hide Field.Written;
  }

  /** The break at the front of a text, and what follows it. */
  lemma LexBreak(s: string) returns (end: Break, after: string)
    requires StartsWith(s, '\n') || StartsWith(s, '\r')
    ensures s == end.Written() + after && |after| < |s| && (end == CR ==> !StartsWith(after, '\n'))
  {
    end := if s[0] == '\n' then LF else if |s| > 1 && s[1] == '\n' then CRLF else CR;
    after := s[|end.Written()|..];
  }

  /** Every text is a document, or has a quote that is never closed, or one where no quote may be. */
  lemma {:induction false} EveryText(s: string) returns (lines: seq<(seq<Field>, Break)>, shape: Shape)
    ensures Fits(s, lines, shape)
    decreases |s|
  {
    hide Fits, Field.Written, Field.Legal, DoubleQuotes, Break.Written;
    var field, rest, closed := LexField(s);
    lines := [];
    if !closed {
      FitsOpen(field.text);
      shape := OpenQuote([], field.text);
    } else if rest == "" {
      assert field.Written() + rest == field.Written();
      FitsLast(field, s);
      shape := Ends([field]);
    } else if rest[0] == '"' {
      FitsStray(field, rest);
      shape := StrayQuote([], field, rest[1..]);
    } else if rest[0] == ',' {
      lines, shape := EveryText(rest[1..]);
      lines, shape := FitsPrepended(field, rest[1..], lines, shape);
      assert rest == "," + rest[1..];
      Assoc(field.Written(), ",", rest[1..]);
    } else {
      var end, after := LexBreak(rest);
      lines, shape := EveryText(after);
      FitsLine(field, end, after, lines, shape);
      Assoc(field.Written(), end.Written(), after);
      lines := [([field], end)] + lines;
    }
  }

  /** So the parser's verdict is the document's rows, too many rows, or a quote out of place. */
  lemma ParseDecides(s: string) returns (lines: seq<(seq<Field>, Break)>, shape: Shape)
    ensures Fits(s, lines, shape)
    ensures Parse(s) ==
      if !shape.Ends? then Rejected(CsvInvalid)
      else
        var rows := Saying(Texts(lines) + [RowText(shape.last)]);
        if |rows| > 1001 then Rejected(CsvTooLarge) else Parsed(rows)
  {
    lines, shape := EveryText(s);
    hide Parse, Written, LegalLines, LegalRow, Saying;
    match shape
    case Ends(last) => ParseReadsDocuments(lines, last);
    case OpenQuote(before, text) => ParseRefusesOpenQuote(lines, before, text);
    case StrayQuote(before, field, rest) => ParseRefusesStrayQuote(lines, before, field, rest);
  }

  // ---------- round trip ----------

  function GuardedRow(row: seq<string>): seq<string> {
    seq(|row|, i requires 0 <= i < |row| => Guarded(row[i]))
  }

  function NonBlank(rows: seq<seq<string>>): seq<seq<string>> {
    if rows == [] then []
    else (if Blank(rows[0]) then [] else [GuardedRow(rows[0])]) + NonBlank(rows[1..])
  }

  function QuotedRow(row: seq<string>): (fields: seq<Field>)
    ensures fields != []
  {
    if row == [] then [Bare("")]
    else seq(|row|, i requires 0 <= i < |row| => Quoted(Guarded(row[i]), ""))
  }

  function Lines(rows: seq<seq<string>>): (lines: seq<(seq<Field>, Break)>)
    ensures |lines| == |rows|
    ensures forall i :: 0 <= i < |lines| ==> lines[i] == (QuotedRow(rows[i]), CRLF)
  {
    seq(|rows|, i requires 0 <= i < |rows| => (QuotedRow(rows[i]), CRLF))
  }

  lemma {:induction false} PrintRowIsWritten(row: seq<string>)
    ensures PrintRow(row) == WrittenRow(QuotedRow(row))
  {
    var cells := seq(|row|, i requires 0 <= i < |row| => CsvCell(row[i]));
    if |row| > 1 {
      PrintRowIsWritten(row[1..]);
      assert cells[1..] == seq(|row[1..]|, i requires 0 <= i < |row[1..]| => CsvCell(row[1..][i]));
      assert QuotedRow(row)[1..] == QuotedRow(row[1..]);
    }
  }

  lemma {:induction false} PrintRowsIsWritten(rows: seq<seq<string>>)
    requires rows != []
    ensures PrintRows(rows)
            == Written(Lines(rows[..|rows| - 1]), WrittenRow(QuotedRow(rows[|rows| - 1])))
  {
    PrintRowIsWritten(rows[0]);
    if |rows| > 1 {
      PrintRowsIsWritten(rows[1..]);
      var front, last := rows[..|rows| - 1], rows[|rows| - 1];
      assert rows[1..][..|rows| - 2] == front[1..] && rows[1..][|rows| - 2] == last;
      assert Lines(front)[1..] == Lines(front[1..]);
    }
  }

  lemma {:induction false} QuotedLinesAreLegal(rows: seq<seq<string>>, tail: string)
    ensures LegalLines(Lines(rows), tail)
  {
    if rows != [] {
      QuotedLinesAreLegal(rows[1..], tail);
      assert Lines(rows)[1..] == Lines(rows[1..]);
    }
  }

  lemma GuardKeepsBlank(row: seq<string>)
    ensures Blank(RowText(QuotedRow(row))) == Blank(row)
    ensures !Blank(row) ==> RowText(QuotedRow(row)) == GuardedRow(row)
  {
    if row != [] {
      assert forall i :: 0 <= i < |row| ==> (Guarded(row[i]) == "" <==> row[i] == "");
      assert forall i :: 0 <= i < |row| ==> RowText(QuotedRow(row))[i] == Guarded(row[i]);
    }
  }

  lemma {:induction false} KeepAllIsNonBlank(kept: seq<seq<string>>, rows: seq<seq<string>>)
    ensures KeepAll(kept, Lines(rows)) == kept + NonBlank(rows)
    decreases |rows|
  {
    if rows != [] {
      GuardKeepsBlank(rows[0]);
      assert Lines(rows)[1..] == Lines(rows[1..]);
      KeepAllIsNonBlank(Keep(kept, RowText(QuotedRow(rows[0]))), rows[1..]);
    }
  }

  lemma {:induction false} NonBlankConcat(a: seq<seq<string>>, b: seq<seq<string>>)
    ensures NonBlank(a + b) == NonBlank(a) + NonBlank(b)
  {
    if a == [] {
      assert a + b == b;
    } else {
      NonBlankConcat(a[1..], b);
      assert (a + b)[1..] == a[1..] + b && (a + b)[0] == a[0];
      hide Blank, GuardedRow;
      Assoc(if Blank(a[0]) then [] else [GuardedRow(a[0])], NonBlank(a[1..]), NonBlank(b));
    }
  }

  function Verdict(rows: seq<seq<string>>): Result {
    if |rows| > MAX_ROWS then Rejected(CsvTooLarge) else Parsed(rows)
  }

  lemma ParsePrinted(front: seq<seq<string>>, last: seq<string>)
    ensures Parse(Written(Lines(front), WrittenRow(QuotedRow(last)))) == Verdict(NonBlank(front) + NonBlank([last]))
  {
    hide Scan, Parse, LegalLines, LegalRow, WrittenRow, Written, Keep, Lines, QuotedRow, GuardedRow, NonBlank, KeepAll, RowText, Blank;
    QuotedLinesAreLegal(front, WrittenRow(QuotedRow(last)));
    QuotedRowIsLegal(last);
    ParseReadsDocuments(Lines(front), QuotedRow(last));
    KeepAllIsNonBlank([], front);
    assert [] + NonBlank(front) == NonBlank(front);
    KeptLast(NonBlank(front), last);
  }

  /** Exporting any rows and importing the text gives the rows back: only the apostrophe guard is
      added, only rows without any text are lost, and only more than 1001 rows are refused. */
  lemma ParseInvertsPrint(rows: seq<seq<string>>)
    ensures Parse(PrintRows(rows)) == Verdict(NonBlank(rows))
  {
    if rows == [] {
      ParseNothing();
    } else {
      hide Scan, Parse, PrintRows, LegalLines, LegalRow, WrittenRow, Written, Lines, QuotedRow, GuardedRow, NonBlank, Verdict;
      var front, last := rows[..|rows| - 1], rows[|rows| - 1];
      PrintRowsIsWritten(rows);
      ParsePrinted(front, last);
      NonBlankConcat(front, [last]);
      assert front + [last] == rows;
    }
  }

  lemma ParseNothing()
    ensures Parse(PrintRows([])) == Parsed([])
  {
    assert Blank([] + [""]);
  }

  lemma QuotedRowIsLegal(row: seq<string>)
    ensures LegalRow(QuotedRow(row))
  {
  }

  lemma KeptLast(kept: seq<seq<string>>, last: seq<string>)
    ensures Keep(kept, RowText(QuotedRow(last))) == kept + NonBlank([last])
  {
    GuardKeepsBlank(last);
    assert NonBlank([last]) == if Blank(last) then [] else [GuardedRow(last)];
  }

  /** The shape promised for an export: at most 1001 rows, each with some text in it. */
  lemma {:induction false} CsvRoundTrip(rows: seq<seq<string>>)
    requires |rows| <= MAX_ROWS && forall i :: 0 <= i < |rows| ==> !Blank(rows[i])
    ensures Parse(PrintRows(rows))
            == Parsed(seq(|rows|, i requires 0 <= i < |rows| => GuardedRow(rows[i])))
  {
    ParseInvertsPrint(rows);
    NoneBlank(rows);
  }

  lemma {:induction false} NoneBlank(rows: seq<seq<string>>)
    requires forall i :: 0 <= i < |rows| ==> !Blank(rows[i])
    ensures NonBlank(rows) == seq(|rows|, i requires 0 <= i < |rows| => GuardedRow(rows[i]))
  {
    if rows != [] {
      NoneBlank(rows[1..]);
    }
  }

  /** The guard does its job: no exported field starts a formula, and guarding twice adds nothing. */
  lemma GuardDisarms(text: string)
    ensures !LooksLikeFormula(Guarded(text))
    ensures Guarded(Guarded(text)) == Guarded(text)
    ensures Guarded(text) != text ==> Guarded(text) == "'" + text
  {
  }

  /** An apostrophe goes in front of exactly the texts whose first character that is not white space is =, +, - or @. */
  lemma GuardMeans(text: string)
    ensures Guarded(text) ==
      if exists k | 0 <= k < |text| :: (text[k] == '=' || text[k] == '+' || text[k] == '-' || text[k] == '@') && forall i | 0 <= i < k :: IsSpace(text[i])
      then "'" + text else text
  {
    FormulaMeans(text);
  }

  lemma {:induction false} FormulaMeans(text: string)
    ensures LooksLikeFormula(text) <==>
      exists k | 0 <= k < |text| :: (text[k] == '=' || text[k] == '+' || text[k] == '-' || text[k] == '@') && forall i | 0 <= i < k :: IsSpace(text[i])
  {
    hide IsSpace;
    if text != [] {
      FormulaMeans(text[1..]);
      if LooksLikeFormula(text) && !(text[0] in "=+-@") {
        var k :| 0 <= k < |text[1..]| && text[1..][k] in "=+-@" && forall i | 0 <= i < k :: IsSpace(text[1..][i]);
        assert text[k + 1] == text[1..][k];
        forall i | 0 <= i < k + 1 ensures IsSpace(text[i]) {
          if i > 0 {
            assert text[1..][i - 1] == text[i];
          }
        }
      }
      if k :| 0 < k < |text| && text[k] in "=+-@" && forall i | 0 <= i < k :: IsSpace(text[i]) {
        assert text[1..][k - 1] == text[k];
        forall i | 0 <= i < k - 1 ensures IsSpace(text[1..][i]) {
          assert text[1..][i] == text[i + 1];
        }
      }
    }
  }

  /** What was imported once is exported and imported unchanged from then on, and none of it starts a formula. */
  lemma ReimportIsIdentity(rows: seq<seq<string>>)
    requires Parse(PrintRows(rows)).Parsed?
    ensures var imported := Parse(PrintRows(rows)).rows;
      Parse(PrintRows(imported)) == Parsed(imported) && Disarmed(imported)
  {
    var imported := NonBlank(rows);
    ParseInvertsPrint(rows);
    ParseInvertsPrint(imported);
    hide Parse, PrintRows;
    GuardedRows(rows);
    GuardedAgain(imported);
  }

  /** Rows of cells that need no guard. */
  predicate Disarmed(rows: seq<seq<string>>) {
    forall i, j :: 0 <= i < |rows| && 0 <= j < |rows[i]| ==> !LooksLikeFormula(rows[i][j])
  }

  lemma {:induction false} GuardedRows(rows: seq<seq<string>>)
    ensures Disarmed(NonBlank(rows)) && forall i :: 0 <= i < |NonBlank(rows)| ==> !Blank(NonBlank(rows)[i])
  {
    if rows != [] {
      GuardedRows(rows[1..]);
      GuardKeepsBlank(rows[0]);
      forall j | 0 <= j < |rows[0]| ensures !LooksLikeFormula(GuardedRow(rows[0])[j]) {
        GuardDisarms(rows[0][j]);
      }
    }
  }

  lemma {:induction false} GuardedAgain(rows: seq<seq<string>>)
    requires Disarmed(rows) && forall i :: 0 <= i < |rows| ==> !Blank(rows[i])
    ensures NonBlank(rows) == rows
  {
    if rows != [] {
      forall i, j | 0 <= i < |rows[1..]| && 0 <= j < |rows[1..][i]| ensures !LooksLikeFormula(rows[1..][i][j]) {
        assert rows[1..][i] == rows[i + 1];
      }
      GuardedAgain(rows[1..]);
      assert GuardedRow(rows[0]) == rows[0];
      assert [rows[0]] + rows[1..] == rows;
    }
  }
}
