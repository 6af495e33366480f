/** The shape shared by the sixteen text generators of testGenerator.js.

    Each of them builds its source text the same way: a fixed header, then
    for every test case, in input order, one test unit (declaration lines,
    the `Test ID` line, optional title lines, one `Step k` line per step,
    the `Expected` line, fixed closing lines), then a fixed footer. What
    differs between frameworks is only the text, collected in a Template
    (module Frameworks holds the sixteen templates). */
module Skeletons {
  import opened Text
  import opened Cases
  import opened Naming

  /** How a declaration line writes the title. */
  datatype NameStyle =
    | Verbatim    // pasted as is, no escaping, inside a quoted literal
    | PythonStyle // PythonName(title)
    | JavaStyle   // JavaName(title)

  /** One emitted line that may contain the title. */
  datatype Line =
    | Fixed(text: string)
    | WithTitle(before: string, style: NameStyle, after: string)

  /** The text of one framework's generator, one field per group of
      `code += ...` statements. */
  datatype Template = Template(
    prelude: seq<string>,       // imports and suite opening
    setup: seq<string>,         // driver set-up fixture (no lines when none)
    teardown: seq<string>,      // driver teardown fixture (no lines when none)
    declaration: seq<Line>,     // lines that open a test unit
    idPrefix: string,           // what precedes "Test ID: "
    titleNote: seq<Line>,       // lines between the id and the steps
    stepPrefix: string,         // what precedes "Step k: " and "Expected: "
    expectedEnd: string,        // what follows the expected text
    trailer: seq<string>,       // fixed lines that close a test unit
    footer: string)             // what follows the last unit

  function Named(style: NameStyle, title: string): string
  {
    match style
    case Verbatim => title
    case PythonStyle => PythonName(title)
    case JavaStyle => JavaName(title)
  }

  function Fill(line: Line, title: string): string
  {
    match line
    case Fixed(text) => text
    case WithTitle(before, style, after) => before + Named(style, title) + after
  }

  function FillAll(lines: seq<Line>, title: string): seq<string>
  {
    seq(|lines|, j requires 0 <= j < |lines| => Fill(lines[j], title))
  }

  /** Everything emitted before the first test unit. */
  function Header(t: Template): string
  {
    Flatten(t.prelude) + Flatten(t.setup) + Flatten(t.teardown)
  }

  function IdLine(t: Template, id: int): string
  {
    t.idPrefix + "Test ID: " + IntText(id) + "\n"
  }

  /** The line for step number `k` (counted from 1). */
  function StepLine(t: Template, k: nat, step: string): string
  {
    t.stepPrefix + "Step " + NatText(k) + ": " + step + "\n"
  }

  function StepLines(t: Template, steps: seq<string>): seq<string>
  {
    seq(|steps|, k requires 0 <= k < |steps| => StepLine(t, k + 1, steps[k]))
  }

  function ExpectedLine(t: Template, expected: string): string
  {
    t.stepPrefix + "Expected: " + expected + t.expectedEnd
  }

  /** The pieces of one test unit, in the order the generator appends them. */
  function UnitPieces(t: Template, tc: TestCase): seq<string>
  {
    FillAll(t.declaration, tc.title) + [IdLine(t, tc.id)] + FillAll(t.titleNote, tc.title)
    + StepLines(t, tc.steps) + [ExpectedLine(t, tc.expected)] + t.trailer
  }

  function Unit(t: Template, tc: TestCase): string
  {
    Flatten(UnitPieces(t, tc))
  }

  /** The unit renderer of template `t`. */
  function UnitOf(t: Template): TestCase -> string
  {
    tc => Unit(t, tc)
  }

  function Units(t: Template, cases: seq<TestCase>): seq<string>
  {
    Map(UnitOf(t), cases)
  }

  /** The complete output of a generator with template `t`. */
  function Skeleton(t: Template, cases: seq<TestCase>): string
  {
    Header(t) + Flatten(Units(t, cases)) + t.footer
  }

  // ---------------------------------------------------------------------
  // The generator loop
  // ---------------------------------------------------------------------

  /** The text of pieces laid out as a unit's groups is the groups' texts
      appended in the same order. */
  lemma FlattenUnitShape(a: seq<string>, x: string, b: seq<string>, c: seq<string>,
                         y: string, e: seq<string>)
    ensures Flatten(a + [x] + b + c + [y] + e)
            == Flatten(a) + x + Flatten(b) + Flatten(c) + y + Flatten(e)
  {
    FlattenAppend(a, [x]);
    assert Flatten([x]) == x by { assert [x][..0] == []; }
    FlattenAppend(a + [x], b);
    FlattenAppend(a + [x] + b, c);
    FlattenAppend(a + [x] + b + c, [y]);
    assert Flatten([y]) == y by { assert [y][..0] == []; }
    FlattenAppend(a + [x] + b + c + [y], e);
  }

  /** One test unit, appended piece by piece as the generator does. */
  method RenderUnit(t: Template, tc: TestCase) returns (code: string)
    ensures code == Unit(t, tc)
  {
    code := Flatten(FillAll(t.declaration, tc.title));
    code := code + IdLine(t, tc.id);
    code := code + Flatten(FillAll(t.titleNote, tc.title));
    ghost var before := code;
    ghost var lines := StepLines(t, tc.steps);
    var k := 0;
    while k < |tc.steps|
      invariant 0 <= k <= |tc.steps|
      invariant code == before + Flatten(lines[..k])
    {
      FlattenStep(lines, k);
      AppendAssoc(before, Flatten(lines[..k]), lines[k]);
      code := code + StepLine(t, k + 1, tc.steps[k]);
      k := k + 1;
    }
    assert lines[..k] == lines;
    code := code + ExpectedLine(t, tc.expected);
    code := code + Flatten(t.trailer);
    FlattenUnitShape(FillAll(t.declaration, tc.title), IdLine(t, tc.id),
                     FillAll(t.titleNote, tc.title), lines,
                     ExpectedLine(t, tc.expected), t.trailer);
  }

  /** The body of each text generator: start from the header, append one
      unit per test case, in order, then the footer. */
  method RenderSkeleton(t: Template, cases: seq<TestCase>) returns (code: string)
    ensures code == Skeleton(t, cases)
  {
    code := Header(t);
    ghost var head := code;
    assert cases[..0] == [];
    var i := 0;
    while i < |cases|
      invariant 0 <= i <= |cases|
      invariant code == head + Flatten(Units(t, cases[..i]))
    {
      var unit := RenderUnit(t, cases[i]);
      MapStep(UnitOf(t), cases, i);
      AppendAssoc(head, Flatten(Units(t, cases[..i])), unit);
      code := code + unit;
      i := i + 1;
    }
    assert cases[..i] == cases;
    code := code + t.footer;
  }

  // ---------------------------------------------------------------------
  // Properties
  // ---------------------------------------------------------------------

  /** One unit per test case, in input order: whatever `i` is, the units
      between the header and the footer are the units of the cases before
      `i`, then the unit of case `i`, then the units of the cases after it. */
  lemma UnitsInOrder(t: Template, cases: seq<TestCase>, i: nat)
    requires i < |cases|
    ensures |Units(t, cases)| == |cases|
    ensures Flatten(Units(t, cases))
            == Flatten(Units(t, cases[..i])) + Unit(t, cases[i]) + Flatten(Units(t, cases[i + 1..]))
  {
    MapAround(UnitOf(t), cases, i);
  }

  /** The lines of a unit come in a fixed order: the declaration lines, the
      `Test ID` line, the title lines, the step lines, the `Expected` line
      and the closing lines. */
  lemma UnitLayout(t: Template, tc: TestCase)
    ensures Unit(t, tc)
            == Flatten(FillAll(t.declaration, tc.title))
               + IdLine(t, tc.id)
               + Flatten(FillAll(t.titleNote, tc.title))
               + Flatten(StepLines(t, tc.steps))
               + ExpectedLine(t, tc.expected)
               + Flatten(t.trailer)
  {
    FlattenUnitShape(FillAll(t.declaration, tc.title), IdLine(t, tc.id),
                     FillAll(t.titleNote, tc.title), StepLines(t, tc.steps),
                     ExpectedLine(t, tc.expected), t.trailer);
  }

  /** `Step k: steps[k-1]` for k = 1..n, in order: the line of step `k` is
      preceded by the lines of the steps before it and followed by the lines
      of the steps after it, each numbered by its position in the whole
      list. */
  lemma StepsInOrder(t: Template, steps: seq<string>, k: nat)
    requires k < |steps|
    ensures Flatten(StepLines(t, steps))
            == Flatten(StepLines(t, steps)[..k])
               + StepLine(t, k + 1, steps[k])
               + Flatten(StepLines(t, steps)[k + 1..])
  {
    FlattenAround(StepLines(t, steps), k);
  }

  /** Every skeleton starts with its template's header, whatever the test
      cases: the driver fixtures in it are emitted once, before the first
      test unit, and do not depend on the input. */
  lemma HeaderFirst(t: Template, cases: seq<TestCase>)
    ensures |Header(t)| <= |Skeleton(t, cases)|
    ensures Skeleton(t, cases)[..|Header(t)|] == Header(t)
  {
    AppendAssoc(Header(t), Flatten(Units(t, cases)), t.footer);
  }

  /** The header is the prelude, then the driver set-up, then the driver
      teardown. */
  lemma HeaderLayout(t: Template)
    ensures |Header(t)| == |Flatten(t.prelude)| + |Flatten(t.setup)| + |Flatten(t.teardown)|
    ensures Header(t)[..|Flatten(t.prelude)|] == Flatten(t.prelude)
    ensures Header(t)[|Flatten(t.prelude)|..|Flatten(t.prelude)| + |Flatten(t.setup)|] == Flatten(t.setup)
    ensures Header(t)[|Flatten(t.prelude)| + |Flatten(t.setup)|..] == Flatten(t.teardown)
  {
    LeadingSlices(Flatten(t.prelude), Flatten(t.setup), Flatten(t.teardown), "", "");
  }

  /** Appending cases appends units: the body for `a + b` is the body for
      `a` followed by the body for `b`, so no case is moved or merged. */
  lemma BodyAppend(t: Template, a: seq<TestCase>, b: seq<TestCase>)
    ensures Flatten(Units(t, a + b)) == Flatten(Units(t, a)) + Flatten(Units(t, b))
  {
    MapAppend(UnitOf(t), a, b);
  }
}
