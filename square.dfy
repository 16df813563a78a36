/**
 * One board square's class attribute (`Square`): the base class, the light or
 * dark class and the three highlight classes, blanks dropped, joined by single
 * spaces. Class names are the style-module keys.
 */
module Square {
  import opened ChessRules

  /** The candidate list, '' where a flag is off. */
  function Candidates(isLight: bool, isSelected: bool, isPossibleMove: bool, isLastMove: bool): seq<string>
  {
    ["square",
     if isLight then "light" else "dark",
     if isSelected then "selected" else "",
     if isPossibleMove then "possibleMove" else "",
     if isLastMove then "lastMove" else ""]
  }

  /**
   * `filter(Boolean)` on strings: drop the empty ones, keep every other one
   * as often as it occurs (and, by `NonEmptyDistributes`, in order).
   */
  function NonEmpty(xs: seq<string>): (ys: seq<string>)
    ensures forall y :: y in ys <==> y in xs && y != ""
    ensures forall y :: multiset(ys)[y] == if y == "" then 0 else multiset(xs)[y]
    ensures |ys| <= |xs|
  {
    if xs == [] then []
    else
      assert xs == [xs[0]] + xs[1..];
      (if xs[0] != "" then [xs[0]] else []) + NonEmpty(xs[1..])
  }

  /**
   * Filtering a concatenation filters each part and concatenates the
   * results, so the kept strings stay in their original order.
   */
  lemma {:induction false} NonEmptyDistributes(a: seq<string>, b: seq<string>)
    ensures NonEmpty(a + b) == NonEmpty(a) + NonEmpty(b)
  {
    if a == [] {
      assert a + b == b;
    } else {
      var head := if a[0] != "" then [a[0]] else [];
      assert (a + b)[0] == a[0];
      assert (a + b)[1..] == a[1..] + b;
      NonEmptyDistributes(a[1..], b);
      assert NonEmpty(a + b) == head + (NonEmpty(a[1..]) + NonEmpty(b));
      assert head + (NonEmpty(a[1..]) + NonEmpty(b)) == (head + NonEmpty(a[1..])) + NonEmpty(b);
    }
  }

  /** `join(' ')`. */
  function Join(xs: seq<string>): string
  {
    if xs == [] then "" else if |xs| == 1 then xs[0] else xs[0] + " " + Join(xs[1..])
  }

  function IndexOfSpace(s: string): (i: nat)
    requires ' ' in s
    ensures i < |s| && s[i] == ' ' && ' ' !in s[..i]
  {
    if s[0] == ' ' then 0
    else
      var i := IndexOfSpace(s[1..]) + 1;
      assert s[..i] == [s[0]] + s[1..][..i - 1];
      i
  }

  /** `split(' ')`: the pieces between single spaces. */
  function Split(s: string): seq<string>
    decreases |s|
  {
    if ' ' in s then
      var i := IndexOfSpace(s);
      [s[..i]] + Split(s[i + 1..])
    else [s]
  }

  predicate Token(x: string)
  {
    x != "" && ' ' !in x
  }

  /** Splitting a join of space-free tokens gives the tokens back. */
  lemma {:induction false} SplitJoin(xs: seq<string>)
    requires |xs| >= 1 && forall k :: 0 <= k < |xs| ==> Token(xs[k])
    ensures Split(Join(xs)) == xs
  {
    if |xs| > 1 {
      var a, rest := xs[0], Join(xs[1..]);
      var s := a + " " + rest;
      assert s[|a|] == ' ' && s[..|a|] == a;
      var i := IndexOfSpace(s);
      assert i == |a|;
      assert s[i + 1..] == rest;
      SplitJoin(xs[1..]);
    }
  }

  /** The class attribute; an omitted `isLastMove` counts as false. */
  function SquareClasses(isLight: bool, isSelected: bool, isPossibleMove: bool, isLastMove: Option<bool>): string
  {
    Join(NonEmpty(Candidates(isLight, isSelected, isPossibleMove, isLastMove.Some? && isLastMove.value)))
  }

  /** The classes of the attribute, as a reader splitting it on spaces sees them. */
  function Classes(isLight: bool, isSelected: bool, isPossibleMove: bool, isLastMove: Option<bool>): seq<string>
  {
    Split(SquareClasses(isLight, isSelected, isPossibleMove, isLastMove))
  }

  /**
   * The attribute always starts with `square`, has exactly one of `light` and
   * `dark` as `isLight` says, has each highlight class exactly when its flag
   * is set (an omitted last-move flag counts as unset), and has no empty token.
   */
  lemma ClassesCorrect(isLight: bool, isSelected: bool, isPossibleMove: bool, isLastMove: Option<bool>)
    ensures var cs := Classes(isLight, isSelected, isPossibleMove, isLastMove);
      && |cs| >= 2 && cs[0] == "square"
      && ("light" in cs <==> isLight) && ("dark" in cs <==> !isLight)
      && ("selected" in cs <==> isSelected)
      && ("possibleMove" in cs <==> isPossibleMove)
      && ("lastMove" in cs <==> isLastMove == Some(true))
      && "" !in cs
  {
    var last := isLastMove.Some? && isLastMove.value;
    CandidateFacts(isLight, isSelected, isPossibleMove, last);
    SplitJoin(NonEmpty(Candidates(isLight, isSelected, isPossibleMove, last)));
  }

  lemma CandidateFacts(isLight: bool, isSelected: bool, isPossibleMove: bool, isLastMove: bool)
    ensures var cs := NonEmpty(Candidates(isLight, isSelected, isPossibleMove, isLastMove));
      && |cs| >= 2 && cs[0] == "square"
      && (forall k :: 0 <= k < |cs| ==> Token(cs[k]))
      && ("light" in cs <==> isLight) && ("dark" in cs <==> !isLight)
      && ("selected" in cs <==> isSelected)
      && ("possibleMove" in cs <==> isPossibleMove)
      && ("lastMove" in cs <==> isLastMove)
      && "" !in cs
  {
    var c := Candidates(isLight, isSelected, isPossibleMove, isLastMove);
    assert forall k :: 0 <= k < 5 ==> ' ' !in c[k];
    CandidateTokens(c);
    CandidateMembership(isLight, isSelected, isPossibleMove, isLastMove);
  }

  lemma CandidateMembership(isLight: bool, isSelected: bool, isPossibleMove: bool, isLastMove: bool)
    ensures var c := Candidates(isLight, isSelected, isPossibleMove, isLastMove);
      && ("light" in c <==> isLight) && ("dark" in c <==> !isLight)
      && ("selected" in c <==> isSelected)
      && ("possibleMove" in c <==> isPossibleMove)
      && ("lastMove" in c <==> isLastMove)
  {
  }

  lemma CandidateTokens(c: seq<string>)
    requires |c| == 5 && c[0] == "square" && c[1] != ""
    requires forall k :: 0 <= k < 5 ==> ' ' !in c[k]
    ensures |NonEmpty(c)| >= 2 && NonEmpty(c)[0] == "square"
    ensures forall k :: 0 <= k < |NonEmpty(c)| ==> Token(NonEmpty(c)[k])
  {
    assert NonEmpty(c) == [c[0]] + NonEmpty(c[1..]);
    assert NonEmpty(c[1..]) == [c[1]] + NonEmpty(c[2..]);
    forall k | 0 <= k < |NonEmpty(c)| ensures Token(NonEmpty(c)[k]) {
      assert NonEmpty(c)[k] in NonEmpty(c);
    }
  }
}
