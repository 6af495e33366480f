/** String building blocks shared by every renderer: the concatenation of
    appended pieces, `Array.prototype.join`, decimal rendering of ids,
    ASCII lower-casing and substring search (`String.prototype.includes`). */
module Text {

  // ---------------------------------------------------------------------
  // Pieces appended one after another (`code += ...`)
  // ---------------------------------------------------------------------

  /** Regrouping an append. */
  lemma AppendAssoc(a: string, b: string, c: string)
    ensures (a + b) + c == a + (b + c)
  {
  }

  /** The text obtained by appending the pieces of `ss` in order. */
  function Flatten(ss: seq<string>): string
    decreases |ss|
  {
    if ss == [] then "" else Flatten(ss[..|ss| - 1]) + ss[|ss| - 1]
  }

  /** Appending one more piece, as a loop body does. */
  lemma FlattenStep(ss: seq<string>, j: nat)
    requires j < |ss|
    ensures Flatten(ss[..j + 1]) == Flatten(ss[..j]) + ss[j]
  {
    assert ss[..j + 1][..j] == ss[..j];
  }

  lemma {:induction false} FlattenAppend(a: seq<string>, b: seq<string>)
    ensures Flatten(a + b) == Flatten(a) + Flatten(b)
    decreases |b|
  {
    if b == [] {
      assert a + b == a;
    } else {
      var b' := b[..|b| - 1];
      assert (a + b)[..|a + b| - 1] == a + b';
      FlattenAppend(a, b');
      AppendAssoc(Flatten(a), Flatten(b'), b[|b| - 1]);
    }
  }

  /** Piece `j` sits between the pieces before it and the pieces after it. */
  lemma FlattenAround(ss: seq<string>, j: nat)
    requires j < |ss|
    ensures Flatten(ss) == Flatten(ss[..j]) + ss[j] + Flatten(ss[j + 1..])
  {
    var before := ss[..j + 1];
    var after := ss[j + 1..];
    assert before + after == ss;
    FlattenAppend(before, after);
    FlattenStep(ss, j);
  }

  /** A single piece flattens to itself. */
  lemma FlattenOne(x: string)
    ensures Flatten([x]) == x
  {
    assert [x][..0] == [];
  }

  /** Pieces framed by an opening and a closing piece. */
  lemma FlattenFramed(first: string, mid: seq<string>, last: string)
    ensures Flatten([first] + mid + [last]) == first + Flatten(mid) + last
  {
    FlattenAppend([first], mid);
    FlattenAppend([first] + mid, [last]);
    FlattenOne(first);
    FlattenOne(last);
  }

  /** The pieces rendered from `xs` one by one with `f`. */
  function Map<T>(f: T -> string, xs: seq<T>): seq<string>
  {
    seq(|xs|, i requires 0 <= i < |xs| => f(xs[i]))
  }

  /** The first rendered piece, then the rest. */
  lemma MapCons<T>(f: T -> string, xs: seq<T>)
    requires xs != []
    ensures Flatten(Map(f, xs)) == f(xs[0]) + Flatten(Map(f, xs[1..]))
  {
    var m := Map(f, xs);
    assert m == [f(xs[0])] + Map(f, xs[1..]);
    FlattenAppend([f(xs[0])], Map(f, xs[1..]));
    FlattenOne(f(xs[0]));
  }

  /** Rendering one more element, as one round of a loop over `xs`. */
  lemma MapStep<T>(f: T -> string, xs: seq<T>, i: nat)
    requires i < |xs|
    ensures Flatten(Map(f, xs[..i + 1])) == Flatten(Map(f, xs[..i])) + f(xs[i])
  {
    var m := Map(f, xs[..i + 1]);
    FlattenStep(m, i);
    assert m[..i + 1] == m;
    assert m[..i] == Map(f, xs[..i]);
  }

  lemma MapSlices<T>(f: T -> string, xs: seq<T>, i: nat)
    requires i < |xs|
    ensures Map(f, xs)[..i] == Map(f, xs[..i])
    ensures Map(f, xs)[i + 1..] == Map(f, xs[i + 1..])
  {
  }

  /** The piece of element `i` sits between the pieces of the elements
      before it and those of the elements after it. */
  lemma MapAround<T>(f: T -> string, xs: seq<T>, i: nat)
    requires i < |xs|
    ensures Flatten(Map(f, xs)) == Flatten(Map(f, xs[..i])) + f(xs[i]) + Flatten(Map(f, xs[i + 1..]))
  {
    FlattenAround(Map(f, xs), i);
    MapSlices(f, xs, i);
  }

  /** Rendering a concatenation renders each part. */
  lemma MapAppend<T>(f: T -> string, a: seq<T>, b: seq<T>)
    ensures Flatten(Map(f, a + b)) == Flatten(Map(f, a)) + Flatten(Map(f, b))
  {
    assert Map(f, a + b) == Map(f, a) + Map(f, b);
    FlattenAppend(Map(f, a), Map(f, b));
  }

  /** Where the first four of five appended pieces sit. */
  lemma LeadingSlices(a: string, b: string, c: string, d: string, e: string)
    ensures var x := a + b + c + d + e;
      |a| + |b| + |c| + |d| <= |x|
      && x[..|a|] == a && x[|a|..|a| + |b|] == b && x[|a| + |b|..|a| + |b| + |c|] == c
      && x[|a| + |b| + |c|..|a| + |b| + |c| + |d|] == d
  {
  }

  // ---------------------------------------------------------------------
  // Array.prototype.join
  // ---------------------------------------------------------------------

  /** `ss.join(sep)`: the elements with `sep` between neighbours. */
  function Join(ss: seq<string>, sep: string): string
    decreases |ss|
  {
    if |ss| == 0 then ""
    else if |ss| == 1 then ss[0]
    else Join(ss[..|ss| - 1], sep) + sep + ss[|ss| - 1]
  }

  lemma {:induction false} JoinAppend(a: seq<string>, b: seq<string>, sep: string)
    requires |a| > 0 && |b| > 0
    ensures Join(a + b, sep) == Join(a, sep) + sep + Join(b, sep)
    decreases |b|
  {
    if |b| == 1 {
      assert (a + b)[..|a + b| - 1] == a;
    } else {
      var b' := b[..|b| - 1];
      assert (a + b)[..|a + b| - 1] == a + b';
      JoinAppend(a, b', sep);
    }
  }

  // ---------------------------------------------------------------------
  // Decimal rendering of integers (template-literal interpolation)
  // ---------------------------------------------------------------------

  predicate IsDigit(c: char) { '0' <= c <= '9' }

  predicate AllDigits(s: string) { forall i :: 0 <= i < |s| ==> IsDigit(s[i]) }

  function Digit(d: nat): (c: char)
    requires d < 10
    ensures IsDigit(c) && DigitValue(c) == d
  {
    ('0' as int + d) as char
  }

  /** Decimal text of a natural number, most significant digit first. */
  function NatText(n: nat): (r: string)
    ensures |r| > 0 && AllDigits(r)
  {
    if n < 10 then [Digit(n)] else NatText(n / 10) + [Digit(n % 10)]
  }

  function DigitValue(c: char): nat
    requires IsDigit(c)
  {
    (c as int) - ('0' as int)
  }

  /** The value of a string of decimal digits: the reading of `NatText`. */
  function DigitsValue(s: string): nat
    requires AllDigits(s)
    decreases |s|
  {
    if s == [] then 0
    else 10 * DigitsValue(s[..|s| - 1]) + DigitValue(s[|s| - 1])
  }

  lemma {:induction false} NatTextRoundTrip(n: nat)
    ensures DigitsValue(NatText(n)) == n
  {
    if n >= 10 {
      var s := NatText(n);
      assert s[..|s| - 1] == NatText(n / 10);
      NatTextRoundTrip(n / 10);
    }
  }

  predicate IntChars(s: string) { forall i :: 0 <= i < |s| ==> s[i] == '-' || IsDigit(s[i]) }

  /** `${n}` for an integer `n`. */
  function IntText(i: int): (r: string)
    ensures |r| > 0 && IntChars(r)
  {
    if i < 0 then "-" + NatText(-i) else NatText(i)
  }

  /** Reads back what `IntText` writes. */
  function IntValue(s: string): int
    requires IntChars(s)
  {
    if |s| > 0 && s[0] == '-' && AllDigits(s[1..]) then -(DigitsValue(s[1..]) as int)
    else if AllDigits(s) then DigitsValue(s)
    else 0
  }

  lemma IntTextRoundTrip(i: int)
    ensures IntValue(IntText(i)) == i
  {
    if i < 0 {
      assert IntText(i)[1..] == NatText(-i);
      NatTextRoundTrip(-i);
    } else {
      NatTextRoundTrip(i);
    }
  }

  // ---------------------------------------------------------------------
  // Characters and lower-casing
  // ---------------------------------------------------------------------

  predicate IsLowerAlnum(c: char) { 'a' <= c <= 'z' || IsDigit(c) }

  predicate IsAsciiAlnum(c: char) { 'A' <= c <= 'Z' || IsLowerAlnum(c) }

  function LowerChar(c: char): char
  {
    if 'A' <= c <= 'Z' then ((c as int) + 32) as char else c
  }

  /** `s.toLowerCase()`, restricted to the ASCII letters. */
  function ToLower(s: string): (r: string)
    ensures |r| == |s|
    decreases |s|
  {
    if s == [] then "" else ToLower(s[..|s| - 1]) + [LowerChar(s[|s| - 1])]
  }

  lemma {:induction false} ToLowerAt(s: string, i: nat)
    requires i < |s|
    ensures ToLower(s)[i] == LowerChar(s[i])
    decreases |s|
  {
    if i < |s| - 1 {
      ToLowerAt(s[..|s| - 1], i);
    }
  }

  /** Lower-casing twice is lower-casing once. */
  lemma ToLowerIdempotent(s: string)
    ensures ToLower(ToLower(s)) == ToLower(s)
  {
    var l := ToLower(s);
    forall i | 0 <= i < |s|
      ensures ToLower(l)[i] == l[i]
    {
      ToLowerAt(l, i);
      ToLowerAt(s, i);
    }
  }

  // ---------------------------------------------------------------------
  // String.prototype.includes
  // ---------------------------------------------------------------------

  /** `sub` occurs in `s` starting at position `i`. */
  predicate OccursAt(s: string, sub: string, i: int)
  {
    0 <= i && i + |sub| <= |s| && s[i..i + |sub|] == sub
  }

  lemma OccursAfter(a: string, sub: string, b: string)
    ensures OccursAt(a + sub + b, sub, |a|)
  {
    assert (a + sub + b)[|a|..|a| + |sub|] == sub;
  }

  /** `s.includes(sub)`. */
  function Contains(s: string, sub: string): bool
    decreases |s|
  {
    if |s| < |sub| then false
    else if s[..|sub|] == sub then true
    else |s| > 0 && Contains(s[1..], sub)
  }

  /** `Contains` holds exactly when `sub` occurs at some position of `s`. */
  lemma {:induction false} ContainsIff(s: string, sub: string)
    ensures Contains(s, sub) <==> exists i :: OccursAt(s, sub, i)
    decreases |s|
  {
    if |s| >= |sub| && s[..|sub|] == sub {
      assert OccursAt(s, sub, 0);
    } else if |s| >= |sub| {
      assert |s| > 0;
      ContainsIff(s[1..], sub);
      if exists i :: OccursAt(s, sub, i) {
        var i :| OccursAt(s, sub, i);
        assert i > 0;
        assert OccursAt(s[1..], sub, i - 1);
      }
      if exists i :: OccursAt(s[1..], sub, i) {
        var i :| OccursAt(s[1..], sub, i);
        assert OccursAt(s, sub, i + 1);
      }
    }
  }
}
