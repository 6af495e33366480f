/** `generateMarkdown`: a title, the generation time, then one entry per
    test case with its id and title as a heading, its steps as a numbered
    list counted from one, its expected result and a horizontal rule. The
    generation time comes from the clock; here it is a parameter. */
module Markdown {
  import opened Text
  import opened Cases

  const Title := "# Test Cases\n\n"
  const StampLabel := "Generated on: "

  /** The two lines before the entries. */
  function Preamble(generatedOn: string): string
  {
    Title + StampLabel + generatedOn + "\n\n"
  }

  function EntryHeading(tc: TestCase): string
  {
    "## " + IntText(tc.id) + ". " + tc.title + "\n\n"
  }

  const StepsHeading := "### Steps\n\n"

  /** Item `index` of the numbered list, counted from one. */
  function NumberedLine(index: nat, step: string): string
  {
    NatText(index + 1) + ". " + step + "\n"
  }

  function NumberedLines(steps: seq<string>): seq<string>
  {
    seq(|steps|, i requires 0 <= i < |steps| => NumberedLine(i, steps[i]))
  }

  const ExpectedHeading := "\n### Expected Result\n\n"

  function ExpectedLine(expected: string): string
  {
    expected + "\n\n"
  }

  const Rule := "---\n\n"

  /** The expected result and the rule that closes an entry. */
  function Closing(expected: string): string
  {
    ExpectedHeading + ExpectedLine(expected) + Rule
  }

  /** The entry of one test case. */
  function Entry(tc: TestCase): string
  {
    Flatten([EntryHeading(tc), StepsHeading] + NumberedLines(tc.steps) + [Closing(tc.expected)])
  }

  function Entries(cases: seq<TestCase>): seq<string>
  {
    Map(Entry, cases)
  }

  /** The whole document. */
  function Document(generatedOn: string, cases: seq<TestCase>): string
  {
    Preamble(generatedOn) + Flatten(Entries(cases))
  }

  // ---------------------------------------------------------------------
  // The generator
  // ---------------------------------------------------------------------

  /** One entry, list item by list item. */
  method RenderEntry(tc: TestCase) returns (markdown: string)
    ensures markdown == Entry(tc)
  {
    markdown := EntryHeading(tc);
    markdown := markdown + StepsHeading;
    ghost var head := markdown;
    ghost var lines := NumberedLines(tc.steps);
    var index := 0;
    while index < |tc.steps|
      invariant 0 <= index <= |tc.steps|
      invariant markdown == head + Flatten(lines[..index])
    {
      FlattenStep(lines, index);
      AppendAssoc(head, Flatten(lines[..index]), lines[index]);
      markdown := markdown + NumberedLine(index, tc.steps[index]);
      index := index + 1;
    }
    assert lines[..index] == lines;
    ghost var body := markdown;
    markdown := markdown + ExpectedHeading;
    markdown := markdown + ExpectedLine(tc.expected);
    markdown := markdown + Rule;
    ClosingAppend(body, tc.expected);
    EntryLayout(tc);
  }

  lemma ClosingAppend(body: string, expected: string)
    ensures body + ExpectedHeading + ExpectedLine(expected) + Rule == body + Closing(expected)
  {
  }

  /** `generateMarkdown`, with the clock reading passed in. */
  method RenderMarkdown(cases: seq<TestCase>, generatedOn: string) returns (markdown: string)
    ensures markdown == Document(generatedOn, cases)
  {
    markdown := Title;
    markdown := markdown + StampLabel + generatedOn + "\n\n";
    ghost var head := markdown;
    assert cases[..0] == [];
    var i := 0;
    while i < |cases|
      invariant 0 <= i <= |cases|
      invariant markdown == head + Flatten(Entries(cases[..i]))
    {
      var entry := RenderEntry(cases[i]);
      MapStep(Entry, cases, i);
      AppendAssoc(head, Flatten(Entries(cases[..i])), entry);
      markdown := markdown + entry;
      i := i + 1;
    }
    assert cases[..i] == cases;
  }

  // ---------------------------------------------------------------------
  // Properties
  // ---------------------------------------------------------------------

  lemma SameOutside(p: string, t1: string, t2: string, r: string)
    requires |t1| == |t2|
    ensures forall i :: 0 <= i < |p + t1 + r| && !(|p| <= i < |p| + |t1|) ==> (p + t1 + r)[i] == (p + t2 + r)[i]
  {
  }

  /** The clock reading is the only thing that varies: two documents
      stamped with readings of equal length agree everywhere outside the
      reading. */
  lemma OnlyTheStampVaries(t1: string, t2: string, cases: seq<TestCase>)
    requires |t1| == |t2|
    ensures |Document(t1, cases)| == |Document(t2, cases)|
    ensures forall i :: 0 <= i < |Document(t1, cases)| && !(|Title + StampLabel| <= i < |Title + StampLabel| + |t1|)
              ==> Document(t1, cases)[i] == Document(t2, cases)[i]
  {
    var p := Title + StampLabel;
    var rest := "\n\n" + Flatten(Entries(cases));
    assert Document(t1, cases) == p + t1 + rest;
    assert Document(t2, cases) == p + t2 + rest;
    SameOutside(p, t1, t2, rest);
  }

  /** The stamp line reads `Generated on: ` followed by the reading. */
  lemma StampLine(generatedOn: string, cases: seq<TestCase>)
    ensures var d := Document(generatedOn, cases);
      var k := |Title + StampLabel|;
      |d| >= k + |generatedOn| + 2 && d[..|Title|] == Title
      && d[|Title|..k] == StampLabel
      && d[k..k + |generatedOn|] == generatedOn
      && d[k + |generatedOn|..k + |generatedOn| + 2] == "\n\n"
  {
    LeadingSlices(Title, StampLabel, generatedOn, "\n\n", Flatten(Entries(cases)));
  }

  /** An entry is its heading, the steps heading, the numbered list and
      the closing lines, in that order. */
  lemma EntryLayout(tc: TestCase)
    ensures Entry(tc) == EntryHeading(tc) + StepsHeading + Flatten(NumberedLines(tc.steps)) + Closing(tc.expected)
  {
    var mid := [StepsHeading] + NumberedLines(tc.steps);
    assert [EntryHeading(tc), StepsHeading] + NumberedLines(tc.steps) + [Closing(tc.expected)]
           == [EntryHeading(tc)] + mid + [Closing(tc.expected)];
    FlattenFramed(EntryHeading(tc), mid, Closing(tc.expected));
    FlattenAppend([StepsHeading], NumberedLines(tc.steps));
    FlattenOne(StepsHeading);
  }

  /** One entry per case, in input order. */
  lemma EntriesInOrder(cases: seq<TestCase>, i: nat)
    requires i < |cases|
    ensures |Entries(cases)| == |cases|
    ensures Flatten(Entries(cases))
            == Flatten(Entries(cases[..i])) + Entry(cases[i]) + Flatten(Entries(cases[i + 1..]))
  {
    MapAround(Entry, cases, i);
  }

  /** Item `index` of the list starts with the decimal digits of
      `index + 1`, followed by `. ` and the step itself. */
  lemma NumberedFromOne(steps: seq<string>, index: nat)
    requires index < |steps|
    ensures var line := NumberedLines(steps)[index];
      var n := NatText(index + 1);
      |n| < |line| && line[..|n|] == n && DigitsValue(line[..|n|]) == index + 1
      && line[|n|..] == ". " + steps[index] + "\n"
  {
    var n := NatText(index + 1);
    var line := NumberedLines(steps)[index];
    assert line == n + (". " + steps[index] + "\n");
    NatTextRoundTrip(index + 1);
  }

  /** The list has one item per step, in order. */
  lemma ItemsInOrder(steps: seq<string>, index: nat)
    requires index < |steps|
    ensures Flatten(NumberedLines(steps))
            == Flatten(NumberedLines(steps[..index])) + NumberedLine(index, steps[index])
               + Flatten(NumberedLines(steps)[index + 1..])
  {
    var s := NumberedLines(steps);
    FlattenAround(s, index);
    assert s[..index] == NumberedLines(steps[..index]);
  }

  /** A case without steps has an empty list: the steps heading is
      directly followed by the expected-result heading. */
  lemma NoStepsEntry(tc: TestCase)
    requires tc.steps == []
    ensures OccursAt(Entry(tc), StepsHeading + ExpectedHeading, |EntryHeading(tc)|)
  {
    EntryLayout(tc);
    assert NumberedLines(tc.steps) == [];
    var h := EntryHeading(tc);
    var tail := ExpectedLine(tc.expected) + Rule;
    assert Entry(tc) == h + (StepsHeading + ExpectedHeading) + tail;
  }
}
