/** Method names derived from a test title.
    Python renderers: `title.toLowerCase().replace(/[^a-z0-9]+/g, '_')`.
    Java and C# renderers: `title.replace(/[^a-zA-Z0-9]+/g, '')`. */
module Naming {
  import opened Text

  /** No two neighbouring underscores. */
  predicate NoDoubleUnderscore(s: string)
  {
    forall i :: 0 <= i < |s| - 1 ==> !(s[i] == '_' && s[i + 1] == '_')
  }

  predicate SnakeChars(s: string)
  {
    forall i :: 0 <= i < |s| ==> IsLowerAlnum(s[i]) || s[i] == '_'
  }

  /** `s.replace(/[^a-z0-9]+/g, '_')`: every maximal run of characters
      outside `[a-z0-9]` becomes one `_`. A character outside the class
      opens a new run exactly when the character before it is inside the
      class (or it is the first one). */
  function Snake(s: string): (r: string)
    ensures SnakeChars(r) && NoDoubleUnderscore(r)
    ensures |s| > 0 ==> |r| > 0 && (r[|r| - 1] == '_' <==> !IsLowerAlnum(s[|s| - 1]))
    ensures |s| == 0 ==> r == ""
    decreases |s|
  {
    if s == [] then ""
    else
      var p := Snake(s[..|s| - 1]);
      var c := s[|s| - 1];
      if IsLowerAlnum(c) then p + [c]
      else if |s| >= 2 && !IsLowerAlnum(s[|s| - 2]) then p
      else p + "_"
  }

  /** The Python method-name suffix used by the Pytest and Selenium-Python
      renderers. */
  function PythonName(title: string): (r: string)
    ensures SnakeChars(r) && NoDoubleUnderscore(r)
  {
    Snake(ToLower(title))
  }

  /** `s.replace(/[^a-zA-Z0-9]+/g, '')`: removing each maximal run of
      non-alphanumerics removes every non-alphanumeric. */
  function JavaName(title: string): (r: string)
    ensures forall i :: 0 <= i < |r| ==> IsAsciiAlnum(r[i])
    ensures |r| <= |title|
    decreases |title|
  {
    if title == [] then ""
    else
      var p := JavaName(title[..|title| - 1]);
      var c := title[|title| - 1];
      if IsAsciiAlnum(c) then p + [c] else p
  }

  /** The text with its underscores removed. */
  function DropUnderscores(s: string): string
    decreases |s|
  {
    if s == [] then ""
    else DropUnderscores(s[..|s| - 1]) + (if s[|s| - 1] == '_' then "" else [s[|s| - 1]])
  }

  /** The two naming schemes keep the same alphanumerics in the same order:
      the Python name without its separators is the lower-cased Java name. */
  lemma {:induction false} NamesAgree(title: string)
    ensures DropUnderscores(PythonName(title)) == ToLower(JavaName(title))
    decreases |title|
  {
    if title != [] {
      var t' := title[..|title| - 1];
      var c := title[|title| - 1];
      var l := ToLower(title);
      assert l[..|l| - 1] == ToLower(t');
      assert l[|l| - 1] == LowerChar(c);
      NamesAgree(t');
      var p := Snake(ToLower(t'));
      if IsAsciiAlnum(c) {
        assert Snake(l) == p + [LowerChar(c)];
        assert (p + [LowerChar(c)])[..|p|] == p;
        var j := JavaName(t');
        assert JavaName(title) == j + [c];
        assert ToLower(j + [c])[..|j|] == ToLower(j) by {
          assert (j + [c])[..|j|] == j;
        }
      } else {
        assert Snake(l) == p || Snake(l) == p + "_";
        assert (p + "_")[..|p|] == p;
      }
    }
  }

  /** A title with no alphanumerics leaves no name: nothing for Java and
      C#, and for Python nothing when the title is empty, `_` otherwise. */
  lemma {:induction false} NoAlphanumerics(title: string)
    requires forall i :: 0 <= i < |title| ==> !IsAsciiAlnum(title[i])
    ensures JavaName(title) == ""
    ensures PythonName(title) == (if title == "" then "" else "_")
    decreases |title|
  {
    if title != [] {
      var t' := title[..|title| - 1];
      NoAlphanumerics(t');
      var l := ToLower(title);
      assert l[..|l| - 1] == ToLower(t');
      ToLowerAt(title, |title| - 1);
      if |title| >= 2 {
        ToLowerAt(title, |title| - 2);
      }
    }
  }

  predicate IsWord(w: string) { forall i :: 0 <= i < |w| ==> IsLowerAlnum(w[i]) }

  predicate IsGap(g: string) { forall i :: 0 <= i < |g| ==> !IsLowerAlnum(g[i]) }

  /** A text that is empty or ends inside a word. */
  predicate EndsInWord(a: string) { a == [] || IsLowerAlnum(a[|a| - 1]) }

  /** Characters of `[a-z0-9]` are copied through unchanged. */
  lemma {:induction false} SnakeKeepsWord(a: string, w: string)
    requires IsWord(w)
    ensures Snake(a + w) == Snake(a) + w
    decreases |w|
  {
    if w == [] {
      assert a + w == a;
    } else {
      var w' := w[..|w| - 1];
      assert (a + w)[..|a + w| - 1] == a + w';
      SnakeKeepsWord(a, w');
    }
  }

  /** A maximal run of other characters, following a word or the start of
      the text, becomes exactly one `_`. */
  lemma {:induction false} SnakeCollapsesGap(a: string, g: string)
    requires EndsInWord(a) && g != [] && IsGap(g)
    ensures Snake(a + g) == Snake(a) + "_"
    decreases |g|
  {
    var g' := g[..|g| - 1];
    assert (a + g)[..|a + g| - 1] == a + g';
    if g' != [] {
      SnakeCollapsesGap(a, g');
      assert (a + g)[|a + g| - 2] == g'[|g'| - 1];
    }
  }

  /** Removing the runs of non-alphanumerics distributes over concatenation. */
  lemma {:induction false} JavaNameAppend(a: string, b: string)
    ensures JavaName(a + b) == JavaName(a) + JavaName(b)
    decreases |b|
  {
    if b == [] {
      assert a + b == a;
    } else {
      var b' := b[..|b| - 1];
      assert (a + b)[..|a + b| - 1] == a + b';
      JavaNameAppend(a, b');
    }
  }

  /** A title made of `[A-Za-z0-9]` only is its own Java name. */
  lemma {:induction false} JavaNameKeepsAlnum(w: string)
    requires forall i :: 0 <= i < |w| ==> IsAsciiAlnum(w[i])
    ensures JavaName(w) == w
    decreases |w|
  {
    if w != [] {
      JavaNameKeepsAlnum(w[..|w| - 1]);
      assert w[..|w| - 1] + [w[|w| - 1]] == w;
    }
  }
}
