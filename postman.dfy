/** The Postman generator: one request item per test case, inside a
    collection object. The object is modelled as a datatype; its
    serialisation with `JSON.stringify(collection, null, 2)` is not part of
    this model. */
module Postman {
  import opened Text
  import opened Cases

  datatype Info = Info(name: string, schema: string)

  datatype Url = Url(raw: string, host: seq<string>, path: seq<string>)

  /** An HTTP header entry; the generator emits none. */
  datatype HeaderField = HeaderField(key: string, value: string)

  datatype Request = Request(httpMethod: string, header: seq<HeaderField>, url: Url, description: string)

  datatype Script = Script(exec: seq<string>, kind: string)

  datatype Event = Event(listen: string, script: Script)

  datatype Item = Item(name: string, request: Request, event: seq<Event>)

  datatype Collection = Collection(info: Info, item: seq<Item>)

  const SchemaUrl := "https://schema.getpostman.com/json/collection/v2.1.0/collection.json"

  /** `steps.map((s, i) => `${i + 1}. ${s}`)`. */
  function Numbered(steps: seq<string>): seq<string>
  {
    seq(|steps|, i requires 0 <= i < |steps| => NatText(i + 1) + ". " + steps[i])
  }

  /** The numbered steps joined with newlines. */
  function StepList(steps: seq<string>): string
  {
    Join(Numbered(steps), "\n")
  }

  function IdHead(id: int): string
  {
    "Test ID: " + IntText(id)
  }

  const StepsHeading := "Steps:\n"

  function ExpectedTail(expected: string): string
  {
    "\n\nExpected: " + expected
  }

  /** The request description. */
  function Description(tc: TestCase): string
  {
    IdHead(tc.id) + "\n\n" + StepsHeading + StepList(tc.steps) + ExpectedTail(tc.expected)
  }

  /** The lines of the test script. */
  function Exec(tc: TestCase): seq<string>
  {
    ["// Test ID: " + IntText(tc.id),
     "pm.test(\"" + tc.title + "\", function () {",
     "    pm.response.to.have.status(200);",
     "    // TODO: Add your test assertions here",
     "});"]
  }

  function ItemOf(tc: TestCase): Item
  {
    Item(tc.title,
         Request("GET", [], Url("{{baseUrl}}/endpoint", ["{{baseUrl}}"], ["endpoint"]), Description(tc)),
         [Event("test", Script(Exec(tc), "text/javascript"))])
  }

  /** `generatePostmanSkeleton` before serialisation: one item per test
      case, in order; each item is a GET request named after the case, and
      its test script checks for status 200. */
  function PostmanCollection(cases: seq<TestCase>): (c: Collection)
    ensures c.info == Info("Test Suite", SchemaUrl)
    ensures |c.item| == |cases|
    ensures forall i :: 0 <= i < |cases| ==>
              c.item[i].name == cases[i].title
              && c.item[i].request.httpMethod == "GET"
              && c.item[i].request.header == []
              && c.item[i].request.description == Description(cases[i])
              && |c.item[i].event| == 1
              && c.item[i].event[0].listen == "test"
              && c.item[i].event[0].script.exec == Exec(cases[i])
  {
    Collection(Info("Test Suite", SchemaUrl),
               seq(|cases|, i requires 0 <= i < |cases| => ItemOf(cases[i])))
  }

  // ---------------------------------------------------------------------
  // Properties
  // ---------------------------------------------------------------------

  /** The collection of a concatenation is the concatenation of the item
      lists: items keep the input order and no case is merged or dropped. */
  lemma CollectionAppend(a: seq<TestCase>, b: seq<TestCase>)
    ensures PostmanCollection(a + b).item == PostmanCollection(a).item + PostmanCollection(b).item
  {
    var all := PostmanCollection(a + b).item;
    var joined := PostmanCollection(a).item + PostmanCollection(b).item;
    forall k | 0 <= k < |all|
      ensures all[k] == joined[k]
    {
      if k < |a| {
        assert (a + b)[k] == a[k];
      } else {
        assert (a + b)[k] == b[k - |a|];
      }
    }
  }

  /** The description opens with the `Test ID` line, from which the id
      reads back, and closes with the expected result. */
  lemma DescriptionFrame(tc: TestCase)
    ensures var d := Description(tc);
      var n := |"Test ID: "|;
      n + |IntText(tc.id)| <= |d|
      && d[..n] == "Test ID: "
      && IntChars(d[n..n + |IntText(tc.id)|])
      && IntValue(d[n..n + |IntText(tc.id)|]) == tc.id
      && |ExpectedTail(tc.expected)| <= |d|
      && d[|d| - |ExpectedTail(tc.expected)|..] == "\n\nExpected: " + tc.expected
  {
    var d := Description(tc);
    var n := |"Test ID: "|;
    var mid := "\n\n" + StepsHeading + StepList(tc.steps);
    assert d == IdHead(tc.id) + mid + ExpectedTail(tc.expected);
    assert d[n..n + |IntText(tc.id)|] == IntText(tc.id);
    IntTextRoundTrip(tc.id);
  }

  /** The step list numbers the steps from 1 in order: adding a step adds
      one line, numbered after the ones before it. */
  lemma {:induction false} StepListAppend(steps: seq<string>, s: string)
    ensures StepList(steps + [s])
            == (if steps == [] then "" else StepList(steps) + "\n") + NatText(|steps| + 1) + ". " + s
  {
    var all := Numbered(steps + [s]);
    assert all == Numbered(steps) + [NatText(|steps| + 1) + ". " + s];
    if steps != [] {
      JoinAppend(Numbered(steps), [NatText(|steps| + 1) + ". " + s], "\n");
    }
  }

  /** A case without steps still gets the `Steps:` heading, followed
      directly by the expected-result tail: the list is empty. */
  lemma NoStepsDescription(tc: TestCase)
    requires tc.steps == []
    ensures OccursAt(Description(tc), StepsHeading + ExpectedTail(tc.expected), |IdHead(tc.id)| + 2)
  {
    var h := IdHead(tc.id) + "\n\n";
    assert StepList(tc.steps) == "";
    assert Description(tc) == h + (StepsHeading + ExpectedTail(tc.expected)) + "";
    OccursAfter(h, StepsHeading + ExpectedTail(tc.expected), "");
  }

  /** The script names the test after the case and reads the id back. */
  lemma ExecNamesCase(tc: TestCase)
    ensures var e := Exec(tc);
      e[0][..|"// Test ID: "|] == "// Test ID: "
      && IntValue(e[0][|"// Test ID: "|..]) == tc.id
      && Contains(e[1], tc.title)
      && Contains(e[2], "status(200)")
  {
    var e := Exec(tc);
    assert e[0][|"// Test ID: "|..] == IntText(tc.id);
    IntTextRoundTrip(tc.id);
    assert OccursAt(e[1], tc.title, |"pm.test(\""|);
    ContainsIff(e[1], tc.title);
    assert OccursAt(e[2], "status(200)", 24);
    ContainsIff(e[2], "status(200)");
  }
}
