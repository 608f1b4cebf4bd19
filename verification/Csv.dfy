/** The results file (frontend/lib/export.ts), and a reader for section 2 of
    RFC 4180 that serves as its specification. */
module Csv {
  import opened Basics

  predicate Special(c: char) {
    c == '"' || c == ',' || c == '\n' || c == '\r'
  }

  predicate NeedsQuotes(text: string) {
    exists i :: 0 <= i < |text| && Special(text[i])
  }

  function DoubleQuotes(text: string): string {
    if text == "" then ""
    else (if text[0] == '"' then "\"\"" else [text[0]]) + DoubleQuotes(text[1..])
  }

  function CsvField(text: string): string {
    if NeedsQuotes(text) then "\"" + DoubleQuotes(text) + "\"" else text
  }

  function Join(parts: seq<string>, separator: char): string {
    if parts == [] then ""
    else if |parts| == 1 then parts[0]
    else parts[0] + [separator] + Join(parts[1..], separator)
  }

  function CsvLine(fields: seq<string>): string {
    Join(seq(|fields|, i requires 0 <= i < |fields| => CsvField(fields[i])), ',')
  }

  function CsvFile(rows: seq<seq<string>>): string {
    Join(seq(|rows|, i requires 0 <= i < |rows| => CsvLine(rows[i])), '\n')
  }

  // ---- the reader ----

  /** Where the reader stands inside the current field. */
  datatype Mode = FieldStart | Bare | Quoted | AfterQuote

  /** Reads `text`, having already read `rows`, then the fields `row` of the current
      record, then `field` of the current field. Records end at LF or CRLF; the last
      record may or may not have a line break after it. */
  function Read(text: string, mode: Mode, field: string, row: seq<string>, rows: seq<seq<string>>)
    : Option<seq<seq<string>>>
    decreases |text|
  {
    if text == "" then
      if mode == Quoted then None
      else if mode == FieldStart && row == [] && rows != [] then Some(rows)
      else Some(rows + [row + [field]])
    else if mode == Quoted then
      if text[0] == '"' then Read(text[1..], AfterQuote, field, row, rows)
      else Read(text[1..], Quoted, field + [text[0]], row, rows)
    else if text[0] == ',' then Read(text[1..], FieldStart, "", row + [field], rows)
    else if text[0] == '\n' then Read(text[1..], FieldStart, "", [], rows + [row + [field]])
    else if text[0] == '\r' then
      if |text| > 1 && text[1] == '\n' then Read(text[2..], FieldStart, "", [], rows + [row + [field]])
      else None
    else if text[0] == '"' then
      if mode == FieldStart then Read(text[1..], Quoted, "", row, rows)
      else if mode == AfterQuote then Read(text[1..], Quoted, field + "\"", row, rows)
      else None
    else if mode == AfterQuote then None
    else Read(text[1..], Bare, field + [text[0]], row, rows)
  }

  function ReadCsv(text: string): Option<seq<seq<string>>> {
    Read(text, FieldStart, "", [], [])
  }

  // ---- one field ----

  predicate EndsField(rest: string) {
    rest == "" || rest[0] == ',' || rest[0] == '\n'
  }

  lemma {:induction false} ReadQuotedBody(body: string, rest: string, field: string, row: seq<string>, rows: seq<seq<string>>)
    requires EndsField(rest)
    ensures Read(DoubleQuotes(body) + "\"" + rest, Quoted, field, row, rows)
         == Read(rest, AfterQuote, field + body, row, rows)
  {
    var text := DoubleQuotes(body) + "\"" + rest;
    if body == "" {
      assert text[1..] == rest;
      assert field + body == field;
    } else {
      ReadQuotedBody(body[1..], rest, field + [body[0]], row, rows);
      var tail := DoubleQuotes(body[1..]) + "\"" + rest;
      assert field + body == field + [body[0]] + body[1..];
      if body[0] == '"' {
        assert text[1..][1..] == tail;
        assert text[0] == '"' && text[1..][0] == '"';
      } else {
        assert text[1..] == tail;
      }
    }
  }

  lemma {:induction false} ReadBareBody(body: string, rest: string, mode: Mode, field: string, row: seq<string>, rows: seq<seq<string>>)
    requires !NeedsQuotes(body) && body != ""
    requires mode == FieldStart || mode == Bare
    ensures Read(body + rest, mode, field, row, rows) == Read(rest, Bare, field + body, row, rows)
  {
    var text := body + rest;
    assert !Special(body[0]);
    assert text[1..] == body[1..] + rest;
    assert field + body == field + [body[0]] + body[1..];
    if |body| > 1 {
      assert !NeedsQuotes(body[1..]) by {
        forall i | 0 <= i < |body[1..]| ensures !Special(body[1..][i]) {
          assert body[1..][i] == body[i + 1];
        }
      }
      ReadBareBody(body[1..], rest, Bare, field + [body[0]], row, rows);
    } else {
      assert body[1..] + rest == rest;
      assert field + body == field + [body[0]];
    }
  }

  /** Once a field is complete, it no longer matters whether it was quoted. */
  lemma {:induction false} ModeForgotten(rest: string, field: string, row: seq<string>, rows: seq<seq<string>>)
    requires EndsField(rest)
    ensures Read(rest, AfterQuote, field, row, rows) == Read(rest, Bare, field, row, rows)
    ensures rest != "" || row != [] || rows == [] ==>
              Read(rest, FieldStart, field, row, rows) == Read(rest, Bare, field, row, rows)
  {
  }

  lemma ReadOpening(tail: string, row: seq<string>, rows: seq<seq<string>>)
    ensures Read("\"" + tail, FieldStart, "", row, rows) == Read(tail, Quoted, "", row, rows)
  {
    assert ("\"" + tail)[1..] == tail;
  }

  lemma {:induction false} ReadField(text: string, rest: string, row: seq<string>, rows: seq<seq<string>>)
    requires EndsField(rest)
    requires text != "" || rest != "" || row != [] || rows == []
    ensures Read(CsvField(text) + rest, FieldStart, "", row, rows) == Read(rest, Bare, text, row, rows)
  {
    ModeForgotten(rest, text, row, rows);
    assert "" + text == text;
    hide Read;
    if NeedsQuotes(text) {
      ReadQuotedBody(text, rest, "", row, rows);
      ReadOpening(DoubleQuotes(text) + "\"" + rest, row, rows);
      assert CsvField(text) + rest == "\"" + (DoubleQuotes(text) + "\"" + rest);
    } else if text == "" {
      assert CsvField(text) + rest == rest;
    } else {
      ReadBareBody(text, rest, FieldStart, "", row, rows);
    }
  }

  // ---- one record, and the file ----

  lemma CsvLineSingle(fields: seq<string>)
    requires |fields| == 1
    ensures CsvLine(fields) == CsvField(fields[0])
  {
    assert seq(|fields|, i requires 0 <= i < |fields| => CsvField(fields[i])) == [CsvField(fields[0])];
  }

  lemma {:induction false} CsvLineCons(fields: seq<string>)
    requires |fields| > 1
    ensures CsvLine(fields) == CsvField(fields[0]) + "," + CsvLine(fields[1..])
  {
    var quoted := seq(|fields|, i requires 0 <= i < |fields| => CsvField(fields[i]));
    assert quoted[1..] == seq(|fields[1..]|, i requires 0 <= i < |fields[1..]| => CsvField(fields[1..][i]));
  }

  lemma {:induction false} CsvFileCons(rows: seq<seq<string>>)
    requires |rows| > 1
    ensures CsvFile(rows) == CsvLine(rows[0]) + "\n" + CsvFile(rows[1..])
  {
    var lines := seq(|rows|, i requires 0 <= i < |rows| => CsvLine(rows[i]));
    assert lines[1..] == seq(|rows[1..]|, i requires 0 <= i < |rows[1..]| => CsvLine(rows[1..][i]));
  }

  lemma ReadComma(tail: string, field: string, row: seq<string>, rows: seq<seq<string>>)
    ensures Read("," + tail, Bare, field, row, rows) == Read(tail, FieldStart, "", row + [field], rows)
  {
    assert ("," + tail)[1..] == tail;
  }

  lemma ReadBreak(tail: string, field: string, row: seq<string>, rows: seq<seq<string>>)
    ensures Read("\n" + tail, Bare, field, row, rows) == Read(tail, FieldStart, "", [], rows + [row + [field]])
  {
    assert ("\n" + tail)[1..] == tail;
  }

  lemma {:induction false} ReadLine(fields: seq<string>, rest: string, row: seq<string>, rows: seq<seq<string>>)
    requires fields != []
    requires rest == "" || rest[0] == '\n'
    requires fields != [""] || rest != "" || row != [] || rows == []
    ensures Read(CsvLine(fields) + rest, FieldStart, "", row, rows)
         == Read(rest, Bare, fields[|fields| - 1], row + fields[..|fields| - 1], rows)
  {
    hide Read, CsvField, CsvLine;
    if |fields| == 1 {
      CsvLineSingle(fields);
      assert row + fields[..0] == row;
      ReadField(fields[0], rest, row, rows);
    } else {
      CsvLineCons(fields);
      var tail := CsvLine(fields[1..]) + rest;
      assert CsvLine(fields) + rest == CsvField(fields[0]) + ("," + tail);
      ReadField(fields[0], "," + tail, row, rows);
      ReadComma(tail, fields[0], row, rows);
      ReadLine(fields[1..], rest, row + [fields[0]], rows);
      assert row + [fields[0]] + fields[1..][..|fields| - 2] == row + fields[..|fields| - 1];
    }
  }

  /** A table the file format can carry: there are rows, each row has fields, and the
      file does not end in a row that is one empty field (that row would read as the
      optional final line break). */
  ghost predicate Representable(rows: seq<seq<string>>) {
    && rows != []
    && (forall i :: 0 <= i < |rows| ==> rows[i] != [])
    && (|rows| > 1 ==> rows[|rows| - 1] != [""])
  }

  /** Reading one whole record and the line break after it. */
  lemma ReadRecord(line: seq<string>, tail: string, before: seq<seq<string>>)
    requires line != []
    ensures Read(CsvLine(line) + "\n" + tail, FieldStart, "", [], before)
         == Read(tail, FieldStart, "", [], before + [line])
  {
    var last := |line| - 1;
    assert CsvLine(line) + "\n" + tail == CsvLine(line) + ("\n" + tail);
    ReadLine(line, "\n" + tail, [], before);
    ReadBreak(tail, line[last], [] + line[..last], before);
    assert [] + line[..last] + [line[last]] == line;
  }

  lemma CsvFileSingle(line: seq<string>)
    ensures CsvFile([line]) == CsvLine(line)
  {
    var rows := [line];
    assert seq(|rows|, i requires 0 <= i < |rows| => CsvLine(rows[i])) == [CsvLine(line)];
  }

  lemma {:induction false} ReadRows(rows: seq<seq<string>>, before: seq<seq<string>>)
    requires rows != [] && forall i :: 0 <= i < |rows| ==> rows[i] != []
    requires before != [] || |rows| > 1 ==> rows[|rows| - 1] != [""]
    ensures Read(CsvFile(rows), FieldStart, "", [], before) == Some(before + rows)
  {
    var line := rows[0];
    if |rows| == 1 {
      assert rows == [line];
      CsvFileSingle(line);
      assert CsvLine(line) + "" == CsvLine(line);
      ReadLine(line, "", [], before);
      assert [] + line[..|line| - 1] + [line[|line| - 1]] == line;
    } else {
      CsvFileCons(rows);
      ReadRecord(line, CsvFile(rows[1..]), before);
      ReadRows(rows[1..], before + [line]);
      assert before + [line] + rows[1..] == before + rows;
    }
  }

  lemma {:induction false} ReadShape(text: string, mode: Mode, field: string, row: seq<string>, rows: seq<seq<string>>)
    requires forall i :: 0 <= i < |rows| ==> rows[i] != []
    ensures var r := Read(text, mode, field, row, rows);
            r.Some? ==> r.value != [] && forall i :: 0 <= i < |r.value| ==> r.value[i] != []
    decreases |text|
  {
    if text == "" {
    } else if mode == Quoted {
      if text[0] == '"' { ReadShape(text[1..], AfterQuote, field, row, rows); }
      else { ReadShape(text[1..], Quoted, field + [text[0]], row, rows); }
    } else if text[0] == ',' {
      ReadShape(text[1..], FieldStart, "", row + [field], rows);
    } else if text[0] == '\n' {
      ReadShape(text[1..], FieldStart, "", [], rows + [row + [field]]);
    } else if text[0] == '\r' {
      if |text| > 1 && text[1] == '\n' { ReadShape(text[2..], FieldStart, "", [], rows + [row + [field]]); }
    } else if text[0] == '"' {
      if mode == FieldStart { ReadShape(text[1..], Quoted, "", row, rows); }
      else if mode == AfterQuote { ReadShape(text[1..], Quoted, field + "\"", row, rows); }
    } else if mode != AfterQuote {
      ReadShape(text[1..], Bare, field + [text[0]], row, rows);
    }
  }

  lemma ReadNothing(before: seq<seq<string>>)
    requires before != []
    ensures Read("", FieldStart, "", [], before) == Some(before)
  {
  }

  /** A last row of one empty field, after other rows, is lost. */
  lemma {:induction false} FinalEmptyRowLost(rows: seq<seq<string>>, before: seq<seq<string>>)
    requires rows != [] && rows[|rows| - 1] == [""]
    requires forall i :: 0 <= i < |rows| ==> rows[i] != []
    requires before != [] || |rows| > 1
    ensures Read(CsvFile(rows), FieldStart, "", [], before) == Some(before + rows[..|rows| - 1])
  {
    hide Read, CsvLine, CsvFile;
    if |rows| == 1 {
      assert rows == [[""]];
      CsvFileSingle([""]);
      CsvLineSingle([""]);
      assert before + rows[..0] == before;
      ReadNothing(before);
    } else {
      var line := rows[0];
      CsvFileCons(rows);
      ReadRecord(line, CsvFile(rows[1..]), before);
      FinalEmptyRowLost(rows[1..], before + [line]);
      assert before + [line] + rows[1..][..|rows| - 2] == before + rows[..|rows| - 1];
    }
  }

  /** Reading back what was written gives the table, exactly when the format can carry it. */
  lemma {:induction false} RoundTrip(rows: seq<seq<string>>)
    ensures ReadCsv(CsvFile(rows)) == Some(rows) <==> Representable(rows)
  {
    if Representable(rows) {
      ReadRows(rows, []);
      assert [] + rows == rows;
    } else {
      ReadShape(CsvFile(rows), FieldStart, "", [], []);
      if rows != [] && forall i :: 0 <= i < |rows| ==> rows[i] != [] {
        FinalEmptyRowLost(rows, []);
        assert [] + rows[..|rows| - 1] == rows[..|rows| - 1];
        assert |rows[..|rows| - 1]| != |rows|;
      }
    }
  }

  // ---- the results file ----

  datatype Student = Student(id: nat, registrationNo: string, name: string)
  datatype Test = Test(id: nat, title: string)

  /** A released mark, its numbers and date already rendered by `String`, `percentage`
      and `formatDateTime`. */
  datatype Ranked = Ranked(
    rank: string, studentId: nat, testId: nat, score: string, total: string,
    percentage: string, submittedAt: string, automatic: bool)

  const RESULT_COLUMNS: seq<string> :=
    ["Rank", "Roll number", "Candidate", "Assessment", "Score", "Out of", "Percentage", "Submitted", "Status"]

  function FindStudent(students: seq<Student>, id: nat): Option<Student> {
    if students == [] then None
    else if students[0].id == id then Some(students[0])
    else FindStudent(students[1..], id)
  }

  function FindTest(tests: seq<Test>, id: nat): Option<Test> {
    if tests == [] then None
    else if tests[0].id == id then Some(tests[0])
    else FindTest(tests[1..], id)
  }

  /** The nine values of one candidate's line, before any quoting. */
  function ResultFields(entry: Ranked, students: seq<Student>, tests: seq<Test>): seq<string> {
    var student := FindStudent(students, entry.studentId);
    var test := FindTest(tests, entry.testId);
    [ entry.rank,
      if student.Some? then student.value.registrationNo else "",
      if student.Some? then student.value.name else "",
      if test.Some? then test.value.title else "",
      entry.score,
      entry.total,
      entry.percentage,
      entry.submittedAt,
      if entry.automatic then "Auto-submitted" else "Submitted" ]
  }

  function ResultsToCsv(ranked: seq<Ranked>, students: seq<Student>, tests: seq<Test>): string {
    Join([Join(RESULT_COLUMNS, ',')]
         + seq(|ranked|, i requires 0 <= i < |ranked| => CsvLine(ResultFields(ranked[i], students, tests))),
         '\n')
  }

  function ResultTable(ranked: seq<Ranked>, students: seq<Student>, tests: seq<Test>): seq<seq<string>> {
    [RESULT_COLUMNS] + seq(|ranked|, i requires 0 <= i < |ranked| => ResultFields(ranked[i], students, tests))
  }

  /** The column names are written without `csvField`, and none of them needs it. */
  lemma HeaderNeedsNoQuotes()
    ensures Join(RESULT_COLUMNS, ',') == CsvLine(RESULT_COLUMNS)
  {
    assert forall i :: 0 <= i < |RESULT_COLUMNS| ==> !NeedsQuotes(RESULT_COLUMNS[i]);
    assert seq(|RESULT_COLUMNS|, i requires 0 <= i < |RESULT_COLUMNS| => CsvField(RESULT_COLUMNS[i])) == RESULT_COLUMNS;
  }

  lemma NineColumns(ranked: seq<Ranked>, students: seq<Student>, tests: seq<Test>)
    ensures forall i :: 0 <= i < |ResultTable(ranked, students, tests)| ==> |ResultTable(ranked, students, tests)[i]| == 9
  {
  }

  /** Whatever the names hold, a reader of the exported file gets back the header and
      every candidate's nine fields, each in its own column and row. */
  lemma ResultsRoundTrip(ranked: seq<Ranked>, students: seq<Student>, tests: seq<Test>)
    ensures ReadCsv(ResultsToCsv(ranked, students, tests)) == Some(ResultTable(ranked, students, tests))
  {
    HeaderNeedsNoQuotes();
    hide CsvLine, ReadCsv, ResultFields;
    var table := ResultTable(ranked, students, tests);
    var lines := [Join(RESULT_COLUMNS, ',')]
      + seq(|ranked|, i requires 0 <= i < |ranked| => CsvLine(ResultFields(ranked[i], students, tests)));
    assert lines == seq(|table|, i requires 0 <= i < |table| => CsvLine(table[i]));
    NineColumns(ranked, students, tests);
    RoundTrip(table);
  }

  /** So two exports can only be the same file if they list the same fields. */
  lemma ResultsInjective(a: seq<Ranked>, b: seq<Ranked>, students: seq<Student>, tests: seq<Test>)
    requires ResultsToCsv(a, students, tests) == ResultsToCsv(b, students, tests)
    ensures ResultTable(a, students, tests) == ResultTable(b, students, tests)
  {
    ResultsRoundTrip(a, students, tests);
    ResultsRoundTrip(b, students, tests);
  }
}
