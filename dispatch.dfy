/** `generateAutomationSkeleton`: a table from framework keys to the
    seventeen generators, with Playwright for every other key. */
module Dispatch {
  import opened Cases
  import opened Skeletons
  import opened Frameworks
  import opened Postman

  /** What a generator returns: source text, or the Postman collection
      (which the source then serialises to JSON). */
  datatype Artifact =
    | SourceText(text: string)
    | CollectionJson(collection: Collection)

  /** The `generators` object. */
  const Generators: map<string, Framework> := map[
    "playwright" := Playwright,
    "cypress" := Cypress,
    "jest" := Jest,
    "mocha" := Mocha,
    "jasmine" := Jasmine,
    "pytest" := Pytest,
    "selenium-python" := SeleniumPython,
    "selenium-java" := SeleniumJava,
    "junit" := JUnit,
    "testng" := TestNG,
    "nunit" := NUnit,
    "xunit" := XUnit,
    "selenium-csharp" := SeleniumCSharp,
    "rspec" := RSpec,
    "capybara" := Capybara,
    "rest-assured" := RestAssured,
    "postman" := Postman]

  /** `generators[framework] || generatePlaywrightSkeleton`. */
  function Select(key: string): Framework
  {
    if key in Generators then Generators[key] else Playwright
  }

  /** The key under which the table lists a generator. */
  function KeyOf(fw: Framework): string
  {
    match fw
    case Playwright => "playwright"
    case Cypress => "cypress"
    case Jest => "jest"
    case Mocha => "mocha"
    case Jasmine => "jasmine"
    case Pytest => "pytest"
    case SeleniumPython => "selenium-python"
    case SeleniumJava => "selenium-java"
    case JUnit => "junit"
    case TestNG => "testng"
    case NUnit => "nunit"
    case XUnit => "xunit"
    case SeleniumCSharp => "selenium-csharp"
    case RSpec => "rspec"
    case Capybara => "capybara"
    case RestAssured => "rest-assured"
    case Postman => "postman"
  }

  /** What the selected generator returns for `cases`. */
  function ArtifactOf(fw: Framework, cases: seq<TestCase>): Artifact
  {
    if fw == Postman then CollectionJson(PostmanCollection(cases))
    else SourceText(Skeleton(TemplateOf(fw), cases))
  }

  /** The dispatcher: look the key up, run the generator it selects. */
  method GenerateAutomationSkeleton(cases: seq<TestCase>, framework: string) returns (a: Artifact)
    ensures a == ArtifactOf(Select(framework), cases)
    ensures framework !in Generators ==> a == ArtifactOf(Playwright, cases)
  {
    var fw := if framework in Generators then Generators[framework] else Playwright;
    if fw == Postman {
      a := CollectionJson(PostmanCollection(cases));
    } else {
      var code := RenderSkeleton(TemplateOf(fw), cases);
      a := SourceText(code);
    }
  }

  // ---------------------------------------------------------------------
  // Properties
  // ---------------------------------------------------------------------

  /** Every listed key selects its own generator, and the table lists each
      generator under exactly one key. */
  lemma SelectKeyOf(fw: Framework)
    ensures KeyOf(fw) in Generators
    ensures Select(KeyOf(fw)) == fw
  {
  }

  /** The table holds exactly the seventeen keys. */
  lemma TableKeys(key: string)
    ensures key in Generators <==> exists fw: Framework :: KeyOf(fw) == key
  {
    if key in Generators {
      assert KeyOf(Generators[key]) == key;
    }
  }

  /** Any key outside the table behaves as `playwright`. */
  lemma Fallback(key: string, cases: seq<TestCase>)
    requires key !in Generators
    ensures Select(key) == Select("playwright") == Playwright
    ensures ArtifactOf(Select(key), cases) == ArtifactOf(Select("playwright"), cases)
  {
    SelectKeyOf(Playwright);
  }

  /** Only the `postman` key yields a collection; every other key, listed
      or not, yields source text. */
  lemma CollectionOnlyForPostman(key: string, cases: seq<TestCase>)
    ensures ArtifactOf(Select(key), cases).CollectionJson? <==> key == "postman"
  {
  }
}
