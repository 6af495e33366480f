/** `generateCucumber`: a Gherkin feature with one scenario per test case.
    The keyword of a step depends on its position: the first step is a
    `Given`, the last one (when it is not also the first) a `When`, every
    other one an `And`; the expected result becomes the `Then` line. */
module Gherkin {
  import opened Text
  import opened Cases

  const FeatureHeader: seq<string> := [
    "Feature: Test Suite\n",
    "  As a QA engineer\n",
    "  I want to execute comprehensive test scenarios\n",
    "  So that I can ensure the application works correctly\n\n"]

  /** The keyword of step `index` among `n` steps: `Given` for the first
      step (even when it is also the last), `When` for a later last step,
      `And` for the steps in between. */
  function Keyword(index: nat, n: nat): (r: string)
    requires index < n
    ensures r == "Given" <==> index == 0
    ensures r == "When" <==> 0 < index == n - 1
    ensures r == "And" <==> 0 < index < n - 1
  {
    if index == 0 then "Given"
    else if index == n - 1 then "When"
    else "And"
  }

  function Keywords(n: nat): seq<string>
  {
    seq(n, i requires 0 <= i < n => Keyword(i, n))
  }

  function TitleLine(title: string): string
  {
    "  Scenario: " + title + "\n"
  }

  function StepLine(keyword: string, step: string): string
  {
    "    " + keyword + " " + step + "\n"
  }

  function ThenLine(expected: string): string
  {
    "    Then " + expected + "\n\n"
  }

  function StepLines(steps: seq<string>): seq<string>
  {
    seq(|steps|, i requires 0 <= i < |steps| => StepLine(Keyword(i, |steps|), steps[i]))
  }

  /** The scenario of one test case. */
  function Scenario(tc: TestCase): string
  {
    Flatten([TitleLine(tc.title)] + StepLines(tc.steps) + [ThenLine(tc.expected)])
  }

  function Scenarios(cases: seq<TestCase>): seq<string>
  {
    Map(Scenario, cases)
  }

  /** The whole feature text. */
  function Feature(cases: seq<TestCase>): string
  {
    Flatten(FeatureHeader) + Flatten(Scenarios(cases))
  }

  // ---------------------------------------------------------------------
  // The generator
  // ---------------------------------------------------------------------

  /** One scenario, step line by step line. */
  method RenderScenario(tc: TestCase) returns (feature: string)
    ensures feature == Scenario(tc)
  {
    feature := TitleLine(tc.title);
    ghost var head := feature;
    ghost var lines := StepLines(tc.steps);
    var index := 0;
    while index < |tc.steps|
      invariant 0 <= index <= |tc.steps|
      invariant feature == head + Flatten(lines[..index])
    {
      var keyword := "And";
      if index == 0 {
        keyword := "Given";
      } else if index == |tc.steps| - 1 {
        keyword := "When";
      }
      FlattenStep(lines, index);
      AppendAssoc(head, Flatten(lines[..index]), lines[index]);
      feature := feature + StepLine(keyword, tc.steps[index]);
      index := index + 1;
    }
    assert lines[..index] == lines;
    feature := feature + ThenLine(tc.expected);
    FlattenFramed(TitleLine(tc.title), lines, ThenLine(tc.expected));
  }

  lemma FlattenFour(h: seq<string>)
    requires |h| == 4
    ensures Flatten(h) == h[0] + h[1] + h[2] + h[3]
  {
    assert h[..1] == [h[0]];
    FlattenOne(h[0]);
    FlattenStep(h, 1);
    FlattenStep(h, 2);
    FlattenStep(h, 3);
    assert h[..4] == h;
  }

  /** `generateCucumber`: the header, then one scenario per case. */
  method RenderFeature(cases: seq<TestCase>) returns (feature: string)
    ensures feature == Feature(cases)
  {
    var header := FeatureHeader;
    feature := header[0];
    feature := feature + header[1];
    feature := feature + header[2];
    feature := feature + header[3];
    ghost var head := feature;
    FlattenFour(header);
    assert cases[..0] == [];
    var i := 0;
    while i < |cases|
      invariant 0 <= i <= |cases|
      invariant feature == head + Flatten(Scenarios(cases[..i]))
    {
      var scenario := RenderScenario(cases[i]);
      MapStep(Scenario, cases, i);
      AppendAssoc(head, Flatten(Scenarios(cases[..i])), scenario);
      feature := feature + scenario;
      i := i + 1;
    }
    assert cases[..i] == cases;
  }

  // ---------------------------------------------------------------------
  // Properties
  // ---------------------------------------------------------------------

  /** The keywords in closed form: none for no steps, a lone `Given` for
      one step, and otherwise `Given`, then `And` for every middle step,
      then `When`. */
  lemma KeywordsClosedForm(n: nat)
    ensures n == 0 ==> Keywords(n) == []
    ensures n == 1 ==> Keywords(n) == ["Given"]
    ensures n >= 2 ==> Keywords(n) == ["Given"] + seq(n - 2, _ => "And") + ["When"]
  {
    if n >= 2 {
      var k := ["Given"] + seq(n - 2, _ => "And") + ["When"];
      assert |k| == n;
      forall i | 0 <= i < n
        ensures Keywords(n)[i] == k[i]
      {
        if 0 < i < n - 1 {
          assert k[i] == seq(n - 2, _ => "And")[i - 1];
        }
      }
    }
  }

  /** The lines of a scenario: the title line, one line per step with its
      keyword, in order, and the `Then` line. */
  lemma ScenarioLayout(tc: TestCase)
    ensures Scenario(tc) == TitleLine(tc.title) + Flatten(StepLines(tc.steps)) + ThenLine(tc.expected)
  {
    FlattenFramed(TitleLine(tc.title), StepLines(tc.steps), ThenLine(tc.expected));
  }

  /** A case without steps yields only the title and `Then` lines. */
  lemma NoStepsScenario(tc: TestCase)
    requires tc.steps == []
    ensures Scenario(tc) == "  Scenario: " + tc.title + "\n" + "    Then " + tc.expected + "\n\n"
  {
    ScenarioLayout(tc);
  }

  /** A one-step case yields a single `Given` line and no `When`. */
  lemma OneStepScenario(tc: TestCase)
    requires |tc.steps| == 1
    ensures Scenario(tc)
            == TitleLine(tc.title) + "    Given " + tc.steps[0] + "\n" + ThenLine(tc.expected)
  {
    ScenarioLayout(tc);
    FlattenOne(StepLine("Given", tc.steps[0]));
    assert StepLines(tc.steps) == [StepLine("Given", tc.steps[0])];
  }

  /** Every scenario ends with `Then expected` and a blank line. */
  lemma ScenarioEndsWithThen(tc: TestCase)
    ensures var s := Scenario(tc);
      var t := "    Then " + tc.expected + "\n\n";
      |t| <= |s| && s[|s| - |t|..] == t
  {
    ScenarioLayout(tc);
  }

  /** One scenario per case, in input order. */
  lemma ScenariosInOrder(cases: seq<TestCase>, i: nat)
    requires i < |cases|
    ensures |Scenarios(cases)| == |cases|
    ensures Flatten(Scenarios(cases))
            == Flatten(Scenarios(cases[..i])) + Scenario(cases[i]) + Flatten(Scenarios(cases[i + 1..]))
  {
    MapAround(Scenario, cases, i);
  }
}
