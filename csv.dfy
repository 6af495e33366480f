/** `generateCSV`: a header line, then one line per test case holding the
    id unquoted and the title, the steps joined with ` | ` and the expected
    result, each inside double quotes with every quote doubled. A reader
    for that format is modelled alongside, to state that the export loses
    nothing but the step boundaries. */
module CsvExport {
  import opened Text
  import opened Cases
  import opened Wrappers

  const CsvHeader := "ID,Title,Steps,Expected Result\n"

  /** The number of double quotes in `s`. */
  function Quotes(s: string): nat
    decreases |s|
  {
    if s == [] then 0 else (if s[0] == '"' then 1 else 0) + Quotes(s[1..])
  }

  /** `s.replace(/"/g, '""')`: one character added per quote, and
      quote-free text left alone. */
  function Escape(s: string): (r: string)
    ensures |r| == |s| + Quotes(s)
    ensures Quotes(s) == 0 ==> r == s
    decreases |s|
  {
    if s == [] then ""
    else
      assert s == [s[0]] + s[1..];
      (if s[0] == '"' then "\"\"" else [s[0]]) + Escape(s[1..])
  }

  function JoinedSteps(steps: seq<string>): string
  {
    Join(steps, " | ")
  }

  /** The line of one test case. */
  function Row(tc: TestCase): string
  {
    IntText(tc.id) + ",\"" + Escape(tc.title) + "\",\"" + Escape(JoinedSteps(tc.steps)) + "\",\""
    + Escape(tc.expected) + "\"\n"
  }

  function Rows(cases: seq<TestCase>): seq<string>
  {
    Map(Row, cases)
  }

  /** The whole export. */
  function Csv(cases: seq<TestCase>): string
  {
    CsvHeader + Flatten(Rows(cases))
  }

  /** The line of one case, as the loop body builds it. A CSV reader
      reads it back to the case's record, whatever text follows it. */
  method RenderRow(tc: TestCase) returns (row: string)
    ensures row == Row(tc)
    ensures forall rest :: ParseRow(row + rest) == Some((RecordOf(tc), rest))
  {
    var steps := Join(tc.steps, " | ");
    var title := Escape(tc.title);
    var stepsEscaped := Escape(steps);
    var expected := Escape(tc.expected);
    row := IntText(tc.id) + ",\"" + title + "\",\"" + stepsEscaped + "\",\"" + expected + "\"\n";
    forall rest
      ensures ParseRow(row + rest) == Some((RecordOf(tc), rest))
    {
      ParseRowRoundTrip(tc, rest);
    }
  }

  /** `generateCSV`. */
  method RenderCsv(cases: seq<TestCase>) returns (csv: string)
    ensures csv == Csv(cases)
  {
    csv := CsvHeader;
    ghost var head := csv;
    assert cases[..0] == [];
    var i := 0;
    while i < |cases|
      invariant 0 <= i <= |cases|
      invariant csv == head + Flatten(Rows(cases[..i]))
    {
      var row := RenderRow(cases[i]);
      MapStep(Row, cases, i);
      AppendAssoc(head, Flatten(Rows(cases[..i])), row);
      csv := csv + row;
      i := i + 1;
    }
    assert cases[..i] == cases;
  }

  // ---------------------------------------------------------------------
  // Reading the export back
  // ---------------------------------------------------------------------

  /** What a line of the export holds. */
  datatype Record = Record(id: int, title: string, steps: string, expected: string)

  function RecordOf(tc: TestCase): Record
  {
    Record(tc.id, tc.title, JoinedSteps(tc.steps), tc.expected)
  }

  /** Undo the quote doubling of a field's inner text. */
  function Unescape(s: string): string
    decreases |s|
  {
    if s == [] then ""
    else if |s| >= 2 && s[0] == '"' && s[1] == '"' then "\"" + Unescape(s[2..])
    else [s[0]] + Unescape(s[1..])
  }

  /** The inside of a quoted field, up to the first quote that is not
      doubled; returns the unescaped text and what follows the closing
      quote. */
  function FieldBody(s: string): (r: Option<(string, string)>)
    ensures r.Some? ==> |r.value.1| < |s|
    decreases |s|
  {
    if s == [] then None
    else if s[0] == '"' then
      if |s| >= 2 && s[1] == '"' then
        match FieldBody(s[2..])
        case None => None
        case Some((f, rest)) => Some(("\"" + f, rest))
      else Some(("", s[1..]))
    else
      match FieldBody(s[1..])
      case None => None
      case Some((f, rest)) => Some(([s[0]] + f, rest))
  }

  /** A quoted field followed by `end`. */
  function QuotedField(s: string, end: char): (r: Option<(string, string)>)
    ensures r.Some? ==> |r.value.1| < |s|
  {
    if s == [] || s[0] != '"' then None
    else
      match FieldBody(s[1..])
      case None => None
      case Some((f, rest)) => if rest != [] && rest[0] == end then Some((f, rest[1..])) else None
  }

  /** The text before the first comma, and what follows the comma. */
  function UpToComma(s: string): (r: Option<(string, string)>)
    ensures r.Some? ==> |r.value.1| < |s|
    decreases |s|
  {
    if s == [] then None
    else if s[0] == ',' then Some(("", s[1..]))
    else
      match UpToComma(s[1..])
      case None => None
      case Some((p, rest)) => Some(([s[0]] + p, rest))
  }

  /** One line of the export, and the text after it. */
  function ParseRow(s: string): (r: Option<(Record, string)>)
    ensures r.Some? ==> |r.value.1| < |s|
  {
    match UpToComma(s)
    case None => None
    case Some((idText, s1)) =>
      if !IntChars(idText) then None
      else match QuotedField(s1, ',')
      case None => None
      case Some((title, s2)) =>
        match QuotedField(s2, ',')
        case None => None
        case Some((steps, s3)) =>
          match QuotedField(s3, '\n')
          case None => None
          case Some((expected, s4)) => Some((Record(IntValue(idText), title, steps, expected), s4))
  }

  function ParseRows(s: string): Option<seq<Record>>
    decreases |s|
  {
    if s == [] then Some([])
    else match ParseRow(s)
      case None => None
      case Some((rec, rest)) =>
        match ParseRows(rest)
        case None => None
        case Some(recs) => Some([rec] + recs)
  }

  /** Read an export back: the header, then the lines. */
  function Decode(s: string): Option<seq<Record>>
  {
    if |s| >= |CsvHeader| && s[..|CsvHeader|] == CsvHeader then ParseRows(s[|CsvHeader|..])
    else None
  }

  // ---------------------------------------------------------------------
  // Properties
  // ---------------------------------------------------------------------

  /** Un-doubling the quotes recovers the original text. */
  lemma {:induction false} UnescapeEscape(s: string)
    ensures Unescape(Escape(s)) == s
    decreases |s|
  {
    if s != [] {
      UnescapeEscape(s[1..]);
      var e := Escape(s);
      if s[0] == '"' {
        assert e[2..] == Escape(s[1..]);
      } else {
        assert e[1..] == Escape(s[1..]);
      }
    }
  }

  /** The body of an escaped field reads back up to its closing quote. */
  lemma {:induction false} FieldBodyEscape(x: string, rest: string)
    requires rest == [] || rest[0] != '"'
    ensures FieldBody(Escape(x) + "\"" + rest) == Some((x, rest))
    decreases |x|
  {
    var s := Escape(x) + "\"" + rest;
    if x == [] {
      assert s == "\"" + rest;
      assert s[1..] == rest;
    } else {
      FieldBodyEscape(x[1..], rest);
      var e1 := Escape(x[1..]);
      var head := if x[0] == '"' then "\"\"" else [x[0]];
      var tail := e1 + "\"" + rest;
      assert Escape(x) == head + e1;
      AppendAssoc(head, e1, "\"");
      AppendAssoc(head, e1 + "\"", rest);
      assert s == head + tail;
      assert s[|head|..] == tail;
      assert x == [x[0]] + x[1..];
    }
  }

  /** A quoted field reads back as the text that was escaped into it. */
  lemma QuotedFieldEscape(x: string, end: char, rest: string)
    requires end != '"'
    ensures QuotedField("\"" + Escape(x) + "\"" + [end] + rest, end) == Some((x, rest))
  {
    var s := "\"" + Escape(x) + "\"" + [end] + rest;
    assert s[1..] == Escape(x) + "\"" + ([end] + rest);
    FieldBodyEscape(x, [end] + rest);
    assert ([end] + rest)[1..] == rest;
  }

  /** The text before a comma-free prefix's comma. */
  lemma {:induction false} UpToCommaPrefix(p: string, rest: string)
    requires forall i :: 0 <= i < |p| ==> p[i] != ','
    ensures UpToComma(p + "," + rest) == Some((p, rest))
    decreases |p|
  {
    var s := p + "," + rest;
    if p == [] {
      assert s == "," + rest;
      assert s[1..] == rest;
    } else {
      UpToCommaPrefix(p[1..], rest);
      assert s[1..] == p[1..] + "," + rest;
      assert p == [p[0]] + p[1..];
    }
  }

  lemma RowShape(a: string, e1: string, e2: string, e3: string, rest: string)
    ensures a + ",\"" + e1 + "\",\"" + e2 + "\",\"" + e3 + "\"\n" + rest
            == a + "," + ("\"" + e1 + "\"" + [','] + ("\"" + e2 + "\"" + [','] + ("\"" + e3 + "\"" + ['\n'] + rest)))
  {
  }

  /** A line of the export reads back as the case's id, title, joined
      steps and expected result, and leaves the text after it. */
  lemma ParseRowRoundTrip(tc: TestCase, rest: string)
    ensures ParseRow(Row(tc) + rest) == Some((RecordOf(tc), rest))
  {
    var j := JoinedSteps(tc.steps);
    var t3 := "\"" + Escape(tc.expected) + "\"" + ['\n'] + rest;
    var t2 := "\"" + Escape(j) + "\"" + [','] + t3;
    var t1 := "\"" + Escape(tc.title) + "\"" + [','] + t2;
    RowShape(IntText(tc.id), Escape(tc.title), Escape(j), Escape(tc.expected), rest);
    assert Row(tc) + rest == IntText(tc.id) + "," + t1;
    UpToCommaPrefix(IntText(tc.id), t1);
    QuotedFieldEscape(tc.title, ',', t2);
    QuotedFieldEscape(j, ',', t3);
    QuotedFieldEscape(tc.expected, '\n', rest);
    IntTextRoundTrip(tc.id);
  }

  function Records(cases: seq<TestCase>): seq<Record>
  {
    seq(|cases|, i requires 0 <= i < |cases| => RecordOf(cases[i]))
  }

  lemma {:induction false} ParseRowsRoundTrip(cases: seq<TestCase>)
    ensures ParseRows(Flatten(Rows(cases))) == Some(Records(cases))
    decreases |cases|
  {
    if cases == [] {
      assert Rows(cases) == [];
      assert Records(cases) == [];
    } else {
      var tail := cases[1..];
      var first := Row(cases[0]);
      var after := Flatten(Rows(tail));
      RowsCons(cases);
      ParseRowRoundTrip(cases[0], after);
      ParseRowsRoundTrip(tail);
      ParseRowsCons(first + after, RecordOf(cases[0]), after, Records(tail));
      RecordsCons(cases);
    }
  }

  lemma RecordsCons(cases: seq<TestCase>)
    requires cases != []
    ensures Records(cases) == [RecordOf(cases[0])] + Records(cases[1..])
  {
    var r := [RecordOf(cases[0])] + Records(cases[1..]);
    forall k | 0 <= k < |cases|
      ensures Records(cases)[k] == r[k]
    {
      if k > 0 {
        assert cases[1..][k - 1] == cases[k];
      }
    }
  }

  lemma RowsCons(cases: seq<TestCase>)
    requires cases != []
    ensures Flatten(Rows(cases)) == Row(cases[0]) + Flatten(Rows(cases[1..]))
  {
    MapCons(Row, cases);
  }

  lemma ParseRowsCons(s: string, rec: Record, rest: string, recs: seq<Record>)
    requires ParseRow(s) == Some((rec, rest))
    requires ParseRows(rest) == Some(recs)
    ensures ParseRows(s) == Some([rec] + recs)
  {
  }

  /** Reading the export back yields, case by case and in order, the id,
      the title, the steps joined with ` | ` and the expected result: the
      quote doubling loses nothing, and neither commas, quotes nor line
      breaks inside a field break the line structure. */
  lemma CsvRoundTrip(cases: seq<TestCase>)
    ensures Decode(Csv(cases)) == Some(Records(cases))
  {
    var s := Csv(cases);
    assert s[..|CsvHeader|] == CsvHeader;
    assert s[|CsvHeader|..] == Flatten(Rows(cases));
    ParseRowsRoundTrip(cases);
  }
}
