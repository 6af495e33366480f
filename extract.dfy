/** The extraction of the JSON array from a model response,
    `text.match(/\[[\s\S]*\]/m)`: the greedy span from the first `[` to the
    last `]` that follows it, or no match. Parsing the span as JSON is not
    part of this model. */
module ResponseExtract {
  import opened Wrappers

  /** The position of the first `c` in `s`. */
  function FirstIndex(s: string, c: char): (r: Option<nat>)
    ensures r.Some? ==> r.value < |s| && s[r.value] == c && c !in s[..r.value]
    ensures r.None? ==> c !in s
    decreases |s|
  {
    if s == [] then None
    else if s[0] == c then Some(0)
    else match FirstIndex(s[1..], c)
      case None => None
      case Some(i) => Some(i + 1)
  }

  /** The position of the last `c` in `s`. */
  function LastIndex(s: string, c: char): (r: Option<nat>)
    ensures r.Some? ==> r.value < |s| && s[r.value] == c && c !in s[r.value + 1..]
    ensures r.None? ==> c !in s
    decreases |s|
  {
    if s == [] then None
    else if s[|s| - 1] == c then Some(|s| - 1)
    else LastIndex(s[..|s| - 1], c)
  }

  /** The matched text, if any: there is one exactly when some `[` comes
      before some `]`, and it opens with `[` and closes with `]`. */
  function ExtractArray(text: string): (r: Option<string>)
    ensures r.Some? <==> exists i, j :: 0 <= i < j < |text| && text[i] == '[' && text[j] == ']'
    ensures r.Some? ==> 2 <= |r.value| <= |text| && r.value[0] == '[' && r.value[|r.value| - 1] == ']'
  {
    match (FirstIndex(text, '['), LastIndex(text, ']'))
    case (Some(i), Some(j)) => if i < j then Some(text[i..j + 1]) else None
    case _ => None
  }

  // ---------------------------------------------------------------------
  // Properties
  // ---------------------------------------------------------------------

  /** The match is the longest one: it opens at the first `[` of the text
      and closes at the last `]`, so it holds every bracket pair. */
  lemma MatchIsGreedy(text: string)
    requires ExtractArray(text).Some?
    ensures var m := ExtractArray(text).value;
      exists i :: 0 <= i && i + |m| <= |text| && text[i..i + |m|] == m
        && '[' !in text[..i] && ']' !in text[i + |m|..]
    ensures var m := ExtractArray(text).value;
      |m| >= 2 && m[0] == '[' && m[|m| - 1] == ']'
  {
    var i := FirstIndex(text, '[').value;
    var j := LastIndex(text, ']').value;
    var m := ExtractArray(text).value;
    assert m == text[i..j + 1];
    assert text[i + |m|..] == text[j + 1..];
  }
}
