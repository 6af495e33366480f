# Test-case renderers of the story-to-tests generator

This project models the deterministic core of `netlify/functions/utils/testGenerator.js`.
That core takes a list of test cases, each with an id, a title, a list of steps and an
expected result, and renders them as text. It does not call the language model.

The renderers covered are:

- the seventeen automation skeletons behind `generateAutomationSkeleton`. Each is
  selected by a framework key, and any unknown key falls back to Playwright.
- the Cucumber feature file (`generateCucumber`).
- the CSV export (`generateCSV`).
- the Markdown export (`generateMarkdown`).
- the Postman collection.

The project also models two other parts of the same file:

- the canned test cases that `generateMockTestCases` chooses by looking for keywords in the
  story;
- the extraction of the bracketed JSON span from a model response.

The renderers are written as the source writes them: methods that append to a string inside
loops. Each method is proved equal to a specification function. The rendered text is
`Text.Flatten` of the pieces in order. The lemmas then state what that text means:

- the order and layout of the units;
- numbering from one;
- the Gherkin keyword rule;
- the CSV round trip through a reader;
- the id reading back from the text;
- that the Markdown clock stamp is the only varying part;
- the identifier-naming rules;
- the dispatcher's table and fallback.

Modules:

- `Cases`: the test-case record, the one entity of the core.
- `Wrappers`: `Option`, for the readers that can fail.
- `Text`: concatenation (`Flatten`, `Map`, `Join`), decimal rendering of integers, ASCII
  lower-casing and substring search.
- `Naming`: method names derived from titles, in the Python rule and the Java/C# rule.
- `Skeletons`: a generic template renderer for the sixteen text skeletons.
- `Frameworks`: the literal text of each of those sixteen templates, with the source lines
  of each generator.
- `Postman`: the collection object.
- `Dispatch`: the generator table.
- `Gherkin`, `CsvExport`, `Markdown`: the three export formats.
- `MockCases`: the canned test cases.
- `ResponseExtract`: the span extraction.

## Model

| member | source | states |
|---|---|---|
| Skeletons.RenderSkeleton | netlify/functions/utils/testGenerator.js:219-237 | The loop over the cases builds the header, then one unit per case, then the footer. This equals `Skeleton(t, cases)` for every template. |
| Skeletons.RenderUnit | netlify/functions/utils/testGenerator.js:222-234 | The body of one `forEach` round builds the declaration, the id line, the title lines (if any), one step line per step, the expected line and the trailer. This equals `Unit(t, tc)`. |
| Skeletons.UnitsInOrder | netlify/functions/utils/testGenerator.js:222-234 | There is one unit per case. Case `i`'s unit comes after the units of the cases before it and before those of the cases after it. |
| Skeletons.UnitLayout | netlify/functions/utils/testGenerator.js:224-233 | A unit is its declaration, id line, title lines (if any), step lines, expected line and trailer, in that order. Title lines are written by Pytest, Selenium-Python, Selenium-Java, xUnit, Selenium-C# and REST-Assured (lines 389, 421-422, 459, 552, 588, 618). |
| Skeletons.StepsInOrder | netlify/functions/utils/testGenerator.js:226-228 | Step `k` is rendered after steps `0..k-1` and before the remaining steps. |
| Skeletons.HeaderFirst | netlify/functions/utils/testGenerator.js:402-433 | Every skeleton opens with its header (imports, then fixtures) before any test unit. |
| Skeletons.HeaderLayout | netlify/functions/utils/testGenerator.js:402-414 | The header is the prelude, then the set-up fixture, then the teardown fixture, each at its own offset. |
| Skeletons.BodyAppend | netlify/functions/utils/testGenerator.js:222-234 | Rendering `a + b` gives the units of `a` followed by the units of `b`. Cases are neither merged nor dropped. |
| Frameworks.TemplateOf | netlify/functions/utils/testGenerator.js:219-719 | The template of each text generator: the text each group of its appends writes (imports, fixtures, declaration lines, id/step/expected prefixes, title lines, trailer, footer), with each generator's lines cited on its cases. Its driver fixtures are non-empty exactly for the three Selenium generators. Its declaration uses the Python naming rule exactly for Pytest and Selenium-Python, and the strip rule exactly for the seven Java and C# generators. Its footer is empty exactly for Playwright, Pytest and Selenium-Python. |
| Frameworks.Footer | netlify/functions/utils/testGenerator.js:323-340 | Only Playwright, Pytest and Selenium-Python end without closing text. Every other text generator closes its suite. |
| Frameworks.FixturesIffDriver | netlify/functions/utils/testGenerator.js:403-414 | A generator has driver set-up and teardown lines exactly when it is one of the three Selenium generators (lines 403-414, 436-452, 566-581). |
| Frameworks.NamingRuleIff | netlify/functions/utils/testGenerator.js:385 | Exactly Pytest and Selenium-Python (lines 385, 417) use the Python naming rule. Exactly the seven Java and C# generators (lines 455, 479, 502, 525, 548, 584, 614) use the strip-everything rule. |
| Naming.Snake | netlify/functions/utils/testGenerator.js:385 | The text with each run of non-`[a-z0-9]` characters replaced by one `_` (lower-casing is done by `PythonName`). The result has only `[a-z0-9_]`, no `__`, and ends in `_` exactly when the text ends in such a character. |
| Naming.PythonName | netlify/functions/utils/testGenerator.js:417 | The Python method name uses only `[a-z0-9_]` and never holds `__`. |
| Naming.JavaName | netlify/functions/utils/testGenerator.js:455 | The Java/C# method name uses only ASCII letters and digits and is never longer than the title. |
| Naming.NamesAgree | netlify/functions/utils/testGenerator.js:385 | Deleting the underscores from the Python name gives the lower-cased Java name: the two rules keep the same characters. |
| Naming.NoAlphanumerics | netlify/functions/utils/testGenerator.js:455 | A title without letters or digits gets an empty Java name. Its Python name is `_`, or empty for an empty title. |
| Naming.SnakeKeepsWord | netlify/functions/utils/testGenerator.js:385 | Appending a run of lower-case letters and digits appends it unchanged. |
| Naming.SnakeCollapsesGap | netlify/functions/utils/testGenerator.js:385 | After a word, a run of separator characters, whatever its length, adds exactly one `_`. |
| Naming.JavaNameAppend | netlify/functions/utils/testGenerator.js:479 | Stripping distributes over concatenation. |
| Naming.JavaNameKeepsAlnum | netlify/functions/utils/testGenerator.js:502 | A title made only of letters and digits is its own Java name. |
| Dispatch.GenerateAutomationSkeleton | netlify/functions/utils/testGenerator.js:194-217 | Returns the selected generator's output. An unknown key gives Playwright's. |
| Dispatch.SelectKeyOf | netlify/functions/utils/testGenerator.js:195-213 | Each generator is listed under its key, and that key selects it. |
| Dispatch.TableKeys | netlify/functions/utils/testGenerator.js:195-213 | A key is in the table exactly when it is the key of one of the seventeen generators. |
| Dispatch.Fallback | netlify/functions/utils/testGenerator.js:215 | Any key outside the table behaves exactly as `playwright`. |
| Dispatch.CollectionOnlyForPostman | netlify/functions/utils/testGenerator.js:212 | A collection is returned exactly for the `postman` key. Every other key, listed or not, returns source text. |
| Postman.PostmanCollection | netlify/functions/utils/testGenerator.js:637-674 | The collection has the fixed info block and one item per case, in order. Each item is named after the title and is a GET with no headers. It carries the case's description and one `test` event whose script is the case's `exec` lines. |
| Postman.CollectionAppend | netlify/functions/utils/testGenerator.js:643 | The items of `a + b` are the items of `a` followed by the items of `b`. |
| Postman.DescriptionFrame | netlify/functions/utils/testGenerator.js:653 | The description opens with `Test ID: ` and the id's digits, and these read back to the id. It closes with `\n\nExpected: ` and the expected result. |
| Postman.StepListAppend | netlify/functions/utils/testGenerator.js:653 | The step list numbers the steps from 1, one per line, in order. |
| Postman.NoStepsDescription | netlify/functions/utils/testGenerator.js:653 | With no steps, the `Steps:` heading is followed directly by the expected-result tail. |
| Postman.ExecNamesCase | netlify/functions/utils/testGenerator.js:659-665 | The script's first line reads back to the case id, its second holds the title, and its third checks status 200. |
| Gherkin.RenderScenario | netlify/functions/utils/testGenerator.js:300-316 | The loop body builds exactly `Scenario(tc)`. |
| Gherkin.RenderFeature | netlify/functions/utils/testGenerator.js:293-319 | The feature header is followed by one scenario per case. The result equals `Feature(cases)`. |
| Gherkin.Keyword | netlify/functions/utils/testGenerator.js:305-310 | A step gets `Given` exactly when it is the first one, even if it is also the last. It gets `When` exactly when it is a later last step, and `And` exactly when it lies strictly between the first and the last. |
| Gherkin.KeywordsClosedForm | netlify/functions/utils/testGenerator.js:304-310 | No steps gives no keywords. One step gives `Given`. Otherwise the keywords are `Given`, then `And` for every middle step, then `When` for the last step. |
| Gherkin.ScenarioLayout | netlify/functions/utils/testGenerator.js:300-316 | A scenario is the title line, the keyword lines and the `Then` line, in that order. |
| Gherkin.NoStepsScenario | netlify/functions/utils/testGenerator.js:303-316 | A case without steps yields only the title and `Then` lines. |
| Gherkin.OneStepScenario | netlify/functions/utils/testGenerator.js:305-307 | A single step is a `Given` line, with no `When`. |
| Gherkin.ScenarioEndsWithThen | netlify/functions/utils/testGenerator.js:315 | Every scenario ends with `    Then <expected>` and a blank line. |
| Gherkin.ScenariosInOrder | netlify/functions/utils/testGenerator.js:299-316 | There is one scenario per case, in input order. |
| CsvExport.RenderRow | netlify/functions/utils/testGenerator.js:282-287 | A CSV reader reads the produced line back to the case's id, title, ` \| `-joined steps and expected result, whatever text follows the line. The line is `Row(tc)`, the piece `RenderCsv` appends for the case. |
| CsvExport.RenderCsv | netlify/functions/utils/testGenerator.js:278-291 | The header line is followed by one row per case. The result equals `Csv(cases)`. |
| CsvExport.UnescapeEscape | netlify/functions/utils/testGenerator.js:283-285 | Doubling the quotes can be undone. |
| CsvExport.Escape | netlify/functions/utils/testGenerator.js:283-285 | Escaping adds exactly one character per double quote and leaves quote-free text unchanged. `UnescapeEscape` shows that every quote is doubled and nothing else changes. |
| CsvExport.ParseRowRoundTrip | netlify/functions/utils/testGenerator.js:287 | A CSV reader reads a rendered row back to the id, the title, the joined steps and the expected result, whatever text follows. |
| CsvExport.CsvRoundTrip | netlify/functions/utils/testGenerator.js:278-291 | Reading the whole export returns one record per case, in order. Only the step boundaries are lost, by the ` \| ` join. |
| Markdown.RenderEntry | netlify/functions/utils/testGenerator.js:265-272 | The loop body builds exactly `Entry(tc)`. |
| Markdown.RenderMarkdown | netlify/functions/utils/testGenerator.js:260-276 | The title and stamp lines are followed by one entry per case. The result equals `Document(generatedOn, cases)`. |
| Markdown.OnlyTheStampVaries | netlify/functions/utils/testGenerator.js:262 | Two documents whose clock readings have equal length agree everywhere outside the reading. |
| Markdown.StampLine | netlify/functions/utils/testGenerator.js:261-262 | The document opens with the title, then `Generated on: `, the reading and a blank line. |
| Markdown.EntryLayout | netlify/functions/utils/testGenerator.js:265-272 | An entry is its heading, the steps heading, the numbered list and the closing lines, in that order. |
| Markdown.EntriesInOrder | netlify/functions/utils/testGenerator.js:264-273 | There is one entry per case, in input order. |
| Markdown.NumberedFromOne | netlify/functions/utils/testGenerator.js:268 | Item `index` starts with digits reading `index + 1`, followed by `. ` and the step. |
| Markdown.ItemsInOrder | netlify/functions/utils/testGenerator.js:267-269 | The list has one item per step, in order. |
| Markdown.NoStepsEntry | netlify/functions/utils/testGenerator.js:266-270 | With no steps, the steps heading is followed directly by the expected-result heading. |
| MockCases.TopicChoice | netlify/functions/utils/testGenerator.js:56-104 | Login cases are returned exactly when the lower-cased story contains `login` or `sign in`. Reset cases are returned exactly when it contains neither of those but contains `reset` or `password`. Generic cases are returned otherwise. |
| MockCases.SetSizes | netlify/functions/utils/testGenerator.js:59-191 | The three sets hold 4, 3 and 5 cases. |
| MockCases.CaseInsensitive | netlify/functions/utils/testGenerator.js:56 | Stories that lower-case alike get the same set. Lower-casing the story first changes nothing. |
| MockCases.MockTestCases | netlify/functions/utils/testGenerator.js:54-192 | Every returned set has 3 to 5 cases, numbered 1, 2, ... in order, and each case has at least one step. |
| ResponseExtract.FirstIndex | netlify/functions/utils/testGenerator.js:46 | The first position of a character, or none when it does not occur. |
| ResponseExtract.LastIndex | netlify/functions/utils/testGenerator.js:46 | The last position of a character, or none when it does not occur. |
| ResponseExtract.ExtractArray | netlify/functions/utils/testGenerator.js:46-47 | The pattern matches exactly when some `[` comes before some `]`. A match is at least two characters long, opens with `[` and closes with `]`. |
| ResponseExtract.MatchIsGreedy | netlify/functions/utils/testGenerator.js:46 | The match opens at the first `[` and closes at the last `]`. |
| Text.IntTextRoundTrip | netlify/functions/utils/testGenerator.js:225 | The decimal text interpolated for an id reads back to the id. |
| Text.NatTextRoundTrip | netlify/functions/utils/testGenerator.js:227 | The step number `index + 1` is written in decimal digits that read back to it. |
| Text.ToLowerIdempotent | netlify/functions/utils/testGenerator.js:56 | Lower-casing twice is lower-casing once. |

## Left out

- `generateTestCases` is not modelled: the language-model call, its prompt, the API-key environment variable and `JSON.parse` are I/O or foreign code. Only the bracket-span extraction at :46 and the mock fallback are modelled.
- The Postman generator's final `JSON.stringify(collection, null, 2)` is not modelled. The collection is modelled as a datatype, because serialisation is library code.
- `new Date().toISOString()` in the Markdown export is a clock read. It is a `generatedOn` parameter.
- The generator lookup is modelled as a map over the seventeen keys. Keys that JavaScript resolves through the object prototype (such as `constructor` or `toString`) are not modelled as the source handles them. In the model they fall back to Playwright like any other unknown key. In the source such a key selects the inherited property instead: `constructor` selects `Object`, so `generators['constructor'](testCases)` returns the input array unchanged.
- Lower-casing (`toLowerCase`) is modelled for ASCII only, because the model has no Unicode case tables. The Python naming rule (`Naming.PythonName`) therefore differs from the code on non-ASCII characters that lower-case to ASCII letters. U+212A KELVIN SIGN lower-cases to `k`, so the code names `\u212Aelvin` as `kelvin` where the model gives `_elvin`. U+0130 lower-cases to `i` followed by U+0307, so the code keeps the `i` where the model gives `_`. The keyword test of the mock cases (`MockCases.TopicOf`) is unaffected: none of its keywords contains `k`, and no keyword has an `i` followed by U+0307. The Java/C# rule does not lower-case and is unaffected.
- Test-case ids are modelled as integers and rendered in plain decimal by `Text.IntText`. The source interpolates a JavaScript Number, which prints in exponent form (`1e+21`) once its magnitude reaches 10^21. The model does not capture this, so for such ids every id text differs from the source: the `Test ID` lines, the Markdown heading, the CSV id and the Postman description and script. Non-integer ids are not modelled either.
- The Python naming rule keeps a trailing `_` when a title ends in punctuation (for example, `Login fails!` gives `login_fails_`). A title without letters or digits gives `test_` or `test__` in Python, `test` in the Java generators and `Test` in the C# generators (which write `Test${methodName}`), with no fallback name. The model follows the code for both.
- The HTTP handlers, the download helper, the React front end, the storage client and the build scripts are not part of this model.
- The regular-expression engine is not modelled. The `[\s\S]*` pattern is modelled by the span it matches, which runs greedily from the first `[` to the last `]`.
