/**
 * The move-hint panel: every legal move is scored by a one-ply heuristic on a
 * private copy of the game, the list is sorted by descending score (the sort
 * is stable) and the first three are shown with a coarse label.
 */
module MoveHint {
  import opened ChessRules
  import Evaluator

  /** The panel's own piece values: pawn 1, minor pieces 3, rook 5, queen 9, king 0. */
  function HintValue(k: PieceKind): (v: nat)
    ensures v <= 9 && (v == 0 <==> k == King)
  {
    match k
    case Pawn => 1
    case Knight => 3
    case Bishop => 3
    case Rook => 5
    case Queen => 9
    case King => 0
  }

  predicate Applies<P>(rules: Rules<P>, game: P, m: Move)
  {
    PlayOnCopy(rules, game, m).Some?
  }

  /** The library accepts every move it lists; otherwise the panel's `move` call would throw. */
  predicate AllApply<P>(rules: Rules<P>, game: P)
  {
    forall i :: 0 <= i < |rules.moves(game)| ==> Applies(rules, game, rules.moves(game)[i])
  }

  /**
   * The heuristic: 1000 for a mate; otherwise 50 for a check, ten times the
   * value of a captured piece and 5 for landing on d4, d5, e4 or e5.
   */
  function HintScore<P>(rules: Rules<P>, game: P, m: Move): (score: nat)
    requires Applies(rules, game, m)
    ensures var after := PlayOnCopy(rules, game, m).value.position;
      && (rules.isCheckmate(after) ==> score == 1000)
      && (!rules.isCheckmate(after) ==> score <= 145 && score % 5 == 0)
      && (!rules.isCheckmate(after) ==> (score % 10 == 5 <==> m.to in Evaluator.CentralSquares))
      && (!rules.isCheckmate(after) && !rules.isCheck(after) ==> score < 100)
      && (!rules.isCheckmate(after) && rules.isCheck(after) ==> score >= 50)
      && (!rules.isCheckmate(after) && !rules.isCheck(after) && (m.captured.None? || m.captured == Some(King)) ==> score <= 5)
  {
    var after := PlayOnCopy(rules, game, m).value.position;
    if rules.isCheckmate(after) then 1000
    else
      (if rules.isCheck(after) then 50 else 0)
        + (if m.captured.Some? then HintValue(m.captured.value) * 10 else 0)
        + (if m.to in Evaluator.CentralSquares then 5 else 0)
  }

  /** A mate outranks any other move the heuristic can see. */
  lemma MateOutranks<P>(rules: Rules<P>, game: P, mate: Move, other: Move)
    requires Applies(rules, game, mate) && Applies(rules, game, other)
    requires rules.isCheckmate(PlayOnCopy(rules, game, mate).value.position)
    requires !rules.isCheckmate(PlayOnCopy(rules, game, other).value.position)
    ensures HintScore(rules, game, other) < HintScore(rules, game, mate)
  {
  }

  datatype Rated = Rated(move: Move, score: int)

  function Rate<P>(rules: Rules<P>, game: P, ms: seq<Move>): (rated: seq<Rated>)
    requires forall i :: 0 <= i < |ms| ==> Applies(rules, game, ms[i])
    ensures |rated| == |ms|
    ensures forall i :: 0 <= i < |ms| ==> rated[i].move == ms[i]
  {
    seq(|ms|, i requires 0 <= i < |ms| => Rated(ms[i], HintScore(rules, game, ms[i])))
  }

  predicate SortedDescending(s: seq<Rated>)
  {
    forall i, j :: 0 <= i < j < |s| ==> s[i].score >= s[j].score
  }

  /** Place `x` ahead of the first entry scoring no more than it, so equal scores keep their order. */
  function Insert(x: Rated, sorted: seq<Rated>): (r: seq<Rated>)
    ensures multiset(r) == multiset(sorted) + multiset{x}
    ensures |r| == |sorted| + 1
  {
    if sorted == [] || sorted[0].score <= x.score then [x] + sorted
    else
      assert sorted == [sorted[0]] + sorted[1..];
      [sorted[0]] + Insert(x, sorted[1..])
  }

  /** The comparator sort `(a, b) => b.score - a.score`, stable as the language requires. */
  function SortByScore(s: seq<Rated>): (r: seq<Rated>)
    ensures multiset(r) == multiset(s)
    ensures |r| == |s|
  {
    if s == [] then []
    else
      assert s == [s[0]] + s[1..];
      Insert(s[0], SortByScore(s[1..]))
  }

  /** The entries of one score, in order. */
  function WithScore(s: seq<Rated>, v: int): seq<Rated>
  {
    if s == [] then []
    else (if s[0].score == v then [s[0]] else []) + WithScore(s[1..], v)
  }

  lemma {:induction false} InsertBounded(x: Rated, sorted: seq<Rated>, bound: int)
    requires x.score <= bound
    requires forall k :: 0 <= k < |sorted| ==> sorted[k].score <= bound
    ensures forall k :: 0 <= k < |Insert(x, sorted)| ==> Insert(x, sorted)[k].score <= bound
  {
    if sorted != [] && sorted[0].score > x.score {
      InsertBounded(x, sorted[1..], bound);
    }
  }

  lemma {:induction false} InsertSorted(x: Rated, sorted: seq<Rated>)
    requires SortedDescending(sorted)
    ensures SortedDescending(Insert(x, sorted))
  {
    if sorted != [] && sorted[0].score > x.score {
      var rest := sorted[1..];
      InsertSorted(x, rest);
      InsertBounded(x, rest, sorted[0].score);
      assert Insert(x, sorted) == [sorted[0]] + Insert(x, rest);
    }
  }

  lemma {:induction false} InsertStable(x: Rated, sorted: seq<Rated>, v: int)
    ensures WithScore(Insert(x, sorted), v) ==
      (if v == x.score then [x] + WithScore(sorted, v) else WithScore(sorted, v))
  {
    if sorted == [] || sorted[0].score <= x.score {
      assert ([x] + sorted)[1..] == sorted;
      if sorted != [] && v == x.score && sorted[0].score != v {
        assert WithScore(sorted, v) == WithScore(sorted[1..], v);
      }
    } else {
      var ins := Insert(x, sorted[1..]);
      InsertStable(x, sorted[1..], v);
      assert ([sorted[0]] + ins)[1..] == ins;
    }
  }

  /**
   * The ranked list is sorted by descending score, is a permutation of the
   * input, and keeps the input order among equal scores (stability).
   */
  lemma {:induction false} SortByScoreCorrect(s: seq<Rated>)
    ensures SortedDescending(SortByScore(s))
    ensures multiset(SortByScore(s)) == multiset(s)
    ensures forall v :: WithScore(SortByScore(s), v) == WithScore(s, v)
  {
    if s != [] {
      SortByScoreCorrect(s[1..]);
      InsertSorted(s[0], SortByScore(s[1..]));
      forall v ensures WithScore(SortByScore(s), v) == WithScore(s, v) {
        InsertStable(s[0], SortByScore(s[1..]), v);
      }
    }
  }

  /** `score > 100 ? '++' : score > 50 ? '+' : '='`. */
  function Label(score: int): (mark: string)
    ensures mark == "++" <==> score > 100
    ensures mark == "+" <==> 50 < score <= 100
    ensures mark == "=" <==> score <= 50
  {
    if score > 100 then "++" else if score > 50 then "+" else "="
  }

  function Min(a: int, b: int): int
  {
    if a < b then a else b
  }

  /** Every legal move, rated and sorted by descending score. */
  function Ranked<P>(rules: Rules<P>, game: P): (ranked: seq<Rated>)
    requires AllApply(rules, game)
    ensures |ranked| == |rules.moves(game)|
  {
    SortByScore(Rate(rules, game, rules.moves(game)))
  }

  /** The ranked moves cut to the best three. */
  function BestMoves<P>(rules: Rules<P>, game: P): seq<Rated>
    requires AllApply(rules, game)
  {
    var ranked := Ranked(rules, game);
    ranked[..Min(3, |ranked|)]
  }

  datatype HintRow = HintRow(rank: nat, san: string, mark: string, from: string, to: string)

  datatype Panel = NoLegalMoves | Suggested(rows: seq<HintRow>)

  /** What the panel renders. */
  function Render<P>(rules: Rules<P>, game: P): Panel
    requires AllApply(rules, game)
  {
    var best := BestMoves(rules, game);
    if |best| > 0 then
      Suggested(seq(|best|, i requires 0 <= i < |best| =>
        HintRow(i + 1, best[i].move.san, Label(best[i].score), best[i].move.from, best[i].move.to)))
    else NoLegalMoves
  }

  /**
   * With no legal move the panel says so. Otherwise it shows min(3, n) rows
   * ranked 1, 2, 3 in descending score; row i is the i-th entry of the ranked
   * list, which is a legal move paired with its own heuristic score; the shown
   * entries are drawn from the rated moves without repetition (as a
   * sub-multiset); and no ranked move left out scores more than one shown.
   */
  lemma RenderCorrect<P>(rules: Rules<P>, game: P)
    requires AllApply(rules, game)
    ensures Render(rules, game).NoLegalMoves? <==> |rules.moves(game)| == 0
    ensures Render(rules, game).Suggested? ==>
      var rows := Render(rules, game).rows;
      var ms := rules.moves(game);
      var rated := Rate(rules, game, ms);
      var ranked := Ranked(rules, game);
      && |rows| == Min(3, |ms|)
      && SortedDescending(ranked)
      && multiset(ranked) == multiset(rated)
      && multiset(ranked[..|rows|]) <= multiset(rated)
      && (forall i :: 0 <= i < |rows| ==>
            && rows[i].rank == i + 1
            && rows[i].san == ranked[i].move.san
            && rows[i].from == ranked[i].move.from
            && rows[i].to == ranked[i].move.to
            && rows[i].mark == Label(ranked[i].score))
      && (forall i :: 0 <= i < |ranked| ==>
            exists j :: 0 <= j < |ms| && ranked[i] == Rated(ms[j], HintScore(rules, game, ms[j])))
      && (forall i, j :: 0 <= i < |rows| <= j < |ranked| ==> ranked[j].score <= ranked[i].score)
  {
    var ranked := Ranked(rules, game);
    var best := BestMoves(rules, game);
    RankedCorrect(rules, game);
    PrefixWithin(ranked, |best|);
    if |best| > 0 {
      var rows := Render(rules, game).rows;
      assert |rows| == |best|;
      forall i | 0 <= i < |rows|
        ensures rows[i] == HintRow(i + 1, ranked[i].move.san, Label(ranked[i].score), ranked[i].move.from, ranked[i].move.to)
      {
        assert best[i] == ranked[i];
      }
    }
  }

  /** The ranked list is sorted, a permutation of the rated moves, and each entry a legal move with its score. */
  lemma RankedCorrect<P>(rules: Rules<P>, game: P)
    requires AllApply(rules, game)
    ensures var ms := rules.moves(game);
      var ranked := Ranked(rules, game);
      && SortedDescending(ranked)
      && multiset(ranked) == multiset(Rate(rules, game, ms))
      && (forall i :: 0 <= i < |ranked| ==>
            exists j :: 0 <= j < |ms| && ranked[i] == Rated(ms[j], HintScore(rules, game, ms[j])))
  {
    var ms := rules.moves(game);
    var rated := Rate(rules, game, ms);
    var ranked := Ranked(rules, game);
    SortByScoreCorrect(rated);
    forall i | 0 <= i < |ranked|
      ensures exists j :: 0 <= j < |ms| && ranked[i] == Rated(ms[j], HintScore(rules, game, ms[j]))
    {
      assert ranked[i] in multiset(rated);
      var j :| 0 <= j < |rated| && rated[j] == ranked[i];
    }
  }

  lemma PrefixWithin(s: seq<Rated>, n: nat)
    requires n <= |s|
    ensures multiset(s[..n]) <= multiset(s)
  {
    assert s == s[..n] + s[n..];
  }
}
