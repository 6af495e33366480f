/** The one entity of the core: an abstract test case. */
module Cases {

  /** `{ id, title, steps, expected }` as produced by the generator or the
      fallback set. The id is interpolated into text as a decimal integer. */
  datatype TestCase = TestCase(id: int, title: string, steps: seq<string>, expected: string)
}
