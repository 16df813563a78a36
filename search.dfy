/**
 * The computer opponent's depth-limited minimax (`evaluateMove` in the AI hook).
 * Scores are reals extended with the two infinities the code starts its
 * running best from, so that a position with no replies is scored as the code
 * scores it.
 */
module Search {
  import opened ChessRules
  import opened Evaluator

  datatype Score = NegInf | Fin(value: real) | PosInf

  predicate Less(a: Score, b: Score)
  {
    match (a, b)
    case (NegInf, NegInf) => false
    case (NegInf, _) => true
    case (Fin(x), Fin(y)) => x < y
    case (Fin(_), PosInf) => true
    case _ => false
  }

  predicate AtMost(a: Score, b: Score)
  {
    a == b || Less(a, b)
  }

  /** `Math.max` on the extended reals. */
  function Max(a: Score, b: Score): (m: Score)
    ensures AtMost(a, m) && AtMost(b, m) && (m == a || m == b)
  {
    if Less(a, b) then b else a
  }

  /** `Math.min` on the extended reals. */
  function Min(a: Score, b: Score): (m: Score)
    ensures AtMost(m, a) && AtMost(m, b) && (m == a || m == b)
  {
    if Less(b, a) then b else a
  }

  const MateScore: real := 10000.0
  const FaultScore: real := 100.0

  /** The score the code falls back on when the library refuses the move. */
  function FaultFallback<P>(rules: Rules<P>, ai: Color, game: P): Score
  {
    if rules.turn(game) == ai then Fin(-FaultScore) else Fin(FaultScore)
  }

  /**
   * The score of playing `m` from `game`, searched `depth` plies below it:
   * the leaf is evaluated before any mate or draw test, so depth 0 never looks
   * at terminal status.
   */
  function SearchScore<P>(rules: Rules<P>, ai: Color, m: Move, depth: nat, game: P): Score
    decreases depth, 0, 0
  {
    match PlayOnCopy(rules, game, m)
    case None => FaultFallback(rules, ai, game)
    case Some(applied) =>
      var next := applied.position;
      if depth == 0 then Fin(Evaluation(rules, ai, next))
      else if rules.isCheckmate(next) then
        (if rules.turn(next) == ai then Fin(-MateScore) else Fin(MateScore))
      else if rules.isDraw(next) then Fin(0.0)
      else Best(rules, ai, rules.turn(next) == ai, rules.moves(next), depth - 1, next)
  }

  /**
   * The running best over the replies `ms` from `position`, each scored at
   * `depth`: a maximum when the computer is to move, else a minimum, starting
   * from the matching infinity.
   */
  function Best<P>(rules: Rules<P>, ai: Color, maximize: bool, ms: seq<Move>, depth: nat, position: P): Score
    decreases depth, 1, |ms|
  {
    if ms == [] then (if maximize then NegInf else PosInf)
    else
      var acc := Best(rules, ai, maximize, ms[..|ms| - 1], depth, position);
      var s := SearchScore(rules, ai, ms[|ms| - 1], depth, position);
      if maximize then Max(acc, s) else Min(acc, s)
  }

  /**
   * With at least one reply, the running best is the score of one of the
   * replies and is at least (maximizing) or at most (minimizing) every other.
   */
  lemma {:induction false} BestIsExtreme<P>(rules: Rules<P>, ai: Color, maximize: bool, ms: seq<Move>, depth: nat, position: P)
    requires |ms| > 0
    ensures var b := Best(rules, ai, maximize, ms, depth, position);
      && (exists k :: 0 <= k < |ms| && b == SearchScore(rules, ai, ms[k], depth, position))
      && (forall k :: 0 <= k < |ms| ==>
            if maximize then AtMost(SearchScore(rules, ai, ms[k], depth, position), b)
            else AtMost(b, SearchScore(rules, ai, ms[k], depth, position)))
  {
    var n := |ms|;
    var b := Best(rules, ai, maximize, ms, depth, position);
    var last := SearchScore(rules, ai, ms[n - 1], depth, position);
    if n == 1 {
      assert ms[..n - 1] == [];
      assert Best(rules, ai, maximize, ms[..n - 1], depth, position) == if maximize then NegInf else PosInf;
      assert b == last;
    } else {
      var init := ms[..n - 1];
      BestIsExtreme(rules, ai, maximize, init, depth, position);
      var acc := Best(rules, ai, maximize, init, depth, position);
      var j :| 0 <= j < |init| && acc == SearchScore(rules, ai, init[j], depth, position);
      assert init[j] == ms[j];
      if b == acc {
        assert b == SearchScore(rules, ai, ms[j], depth, position);
      } else {
        assert b == SearchScore(rules, ai, ms[n - 1], depth, position);
      }
      forall k | 0 <= k < n
        ensures if maximize then AtMost(SearchScore(rules, ai, ms[k], depth, position), b)
                else AtMost(b, SearchScore(rules, ai, ms[k], depth, position))
      {
        if k < n - 1 {
          assert ms[k] == init[k];
          AtMostTransitive(maximize, SearchScore(rules, ai, ms[k], depth, position), acc, b);
        }
      }
    }
  }

  lemma AtMostTransitive(maximize: bool, x: Score, acc: Score, b: Score)
    requires maximize ==> AtMost(x, acc) && AtMost(acc, b)
    requires !maximize ==> AtMost(acc, x) && AtMost(b, acc)
    ensures if maximize then AtMost(x, b) else AtMost(b, x)
  {
  }

  /**
   * At depth 2 (Hard's search) a mate in one scores exactly the mate score and
   * strictly more than every move that does not mate: the opponent's best
   * answer to any other move holds the computer below the mate score, as long
   * as every leaf evaluation is below it and the turns alternate. Mating is
   * judged, as the search judges it, on the position's FEN copy.
   */
  lemma MateInOneOutranks<P(!new)>(rules: Rules<P>, ai: Color, game: P, mate: Move, other: Move)
    requires NonTerminalHasMoves(rules) && AlternatesTurns(rules) && CopyKeepsTurn(rules)
    requires forall p: P :: Evaluation(rules, ai, p) < MateScore
    requires rules.turn(game) == ai
    requires PlayOnCopy(rules, game, mate).Some?
    requires rules.isCheckmate(PlayOnCopy(rules, game, mate).value.position)
    requires !(PlayOnCopy(rules, game, other).Some? && rules.isCheckmate(PlayOnCopy(rules, game, other).value.position))
    ensures SearchScore(rules, ai, mate, 2, game) == Fin(MateScore)
    ensures Less(SearchScore(rules, ai, other, 2, game), Fin(MateScore))
  {
    var after := PlayOnCopy(rules, game, mate).value.position;
    assert rules.turn(after) == Opponent(ai);
    match PlayOnCopy(rules, game, other)
    case None =>
    case Some(applied) =>
      var next := applied.position;
      assert rules.turn(next) == Opponent(ai);
      if !rules.isDraw(next) {
        var replies := rules.moves(next);
        BestIsExtreme(rules, ai, false, replies, 1, next);
        ReplyBelowMate(rules, ai, replies[0], next);
      }
  }

  /** An opponent's reply searched one ply deeper never reaches the mate score. */
  lemma ReplyBelowMate<P(!new)>(rules: Rules<P>, ai: Color, reply: Move, position: P)
    requires AlternatesTurns(rules) && CopyKeepsTurn(rules)
    requires forall p: P :: Evaluation(rules, ai, p) < MateScore
    requires rules.turn(position) != ai
    ensures Less(SearchScore(rules, ai, reply, 1, position), Fin(MateScore))
  {
    match PlayOnCopy(rules, position, reply)
    case None =>
    case Some(applied) =>
      var next := applied.position;
      assert rules.turn(next) == ai by {
        assert rules.turn(next) == Opponent(rules.turn(position));
      }
      if !rules.isCheckmate(next) && !rules.isDraw(next) {
        LeavesBelowMate(rules, ai, rules.moves(next), next);
      }
  }

  /** The computer's best leaf, a refused move's fault score included, is below the mate score. */
  lemma {:induction false} LeavesBelowMate<P(!new)>(rules: Rules<P>, ai: Color, ms: seq<Move>, position: P)
    requires forall p: P :: Evaluation(rules, ai, p) < MateScore
    requires rules.turn(position) == ai
    ensures Less(Best(rules, ai, true, ms, 0, position), Fin(MateScore))
  {
    if ms != [] {
      LeavesBelowMate(rules, ai, ms[..|ms| - 1], position);
      var last := SearchScore(rules, ai, ms[|ms| - 1], 0, position);
      assert last.Fin? && last.value < MateScore by {
        match PlayOnCopy(rules, position, ms[|ms| - 1])
        case None =>
        case Some(applied) =>
          assert last == Fin(Evaluation(rules, ai, applied.position));
      }
    }
  }

  /**
   * Deeper than the leaf and away from mate and draw, the score of a move is
   * the score of one of the replies, no smaller than any (computer to move) or
   * no larger than any (opponent to move).
   */
  lemma SearchScoreIsMinimax<P>(rules: Rules<P>, ai: Color, m: Move, depth: nat, game: P)
    requires depth > 0 && PlayOnCopy(rules, game, m).Some?
    requires var next := PlayOnCopy(rules, game, m).value.position;
      !rules.isCheckmate(next) && !rules.isDraw(next) && |rules.moves(next)| > 0
    ensures var next := PlayOnCopy(rules, game, m).value.position;
      var replies := rules.moves(next);
      var s := SearchScore(rules, ai, m, depth, game);
      && (exists k :: 0 <= k < |replies| && s == SearchScore(rules, ai, replies[k], depth - 1, next))
      && (forall k :: 0 <= k < |replies| ==>
            if rules.turn(next) == ai then AtMost(SearchScore(rules, ai, replies[k], depth - 1, next), s)
            else AtMost(s, SearchScore(rules, ai, replies[k], depth - 1, next)))
  {
    var next := PlayOnCopy(rules, game, m).value.position;
    BestIsExtreme(rules, ai, rules.turn(next) == ai, rules.moves(next), depth - 1, next);
  }

  /** Every leaf evaluation lies in [lo, hi], and so do the mate and fault scores. */
  ghost predicate LeavesWithin<P(!new)>(rules: Rules<P>, ai: Color, lo: real, hi: real)
  {
    && lo <= -MateScore && MateScore <= hi
    && forall p: P :: lo <= Evaluation(rules, ai, p) <= hi
  }

  /**
   * In chess, where a live position always has a move, the search never
   * returns an infinity, and it stays inside any range that holds the leaf
   * evaluations and the mate scores.
   */
  lemma {:induction false} SearchScoreWithin<P(!new)>(rules: Rules<P>, ai: Color, m: Move, depth: nat, game: P, lo: real, hi: real)
    requires NonTerminalHasMoves(rules) && LeavesWithin(rules, ai, lo, hi)
    ensures var s := SearchScore(rules, ai, m, depth, game);
      s.Fin? && lo <= s.value <= hi
    decreases depth, 0, 0
  {
    match PlayOnCopy(rules, game, m)
    case None =>
    case Some(applied) =>
      var next := applied.position;
      if depth > 0 && !rules.isCheckmate(next) && !rules.isDraw(next) {
        BestWithin(rules, ai, rules.turn(next) == ai, rules.moves(next), depth - 1, next, lo, hi);
      }
  }

  lemma {:induction false} BestWithin<P(!new)>(rules: Rules<P>, ai: Color, maximize: bool, ms: seq<Move>, depth: nat, position: P, lo: real, hi: real)
    requires NonTerminalHasMoves(rules) && LeavesWithin(rules, ai, lo, hi)
    requires |ms| > 0
    ensures var b := Best(rules, ai, maximize, ms, depth, position);
      b.Fin? && lo <= b.value <= hi
    decreases depth, 1, |ms|
  {
    SearchScoreWithin(rules, ai, ms[|ms| - 1], depth, position, lo, hi);
    if |ms| > 1 {
      BestWithin(rules, ai, maximize, ms[..|ms| - 1], depth, position, lo, hi);
    } else {
      assert ms[..|ms| - 1] == [];
    }
  }

  /**
   * `evaluateMove`: apply the move to a private copy, score the leaf, test for
   * mate and draw, otherwise recurse over the replies keeping a running best.
   * The position passed in is a value and is never changed.
   */
  method EvaluateMove<P>(rules: Rules<P>, ai: Color, m: Move, depth: nat, game: P) returns (score: Score)
    ensures score == SearchScore(rules, ai, m, depth, game)
    decreases depth
  {
    var copy := rules.copy(game);
    var applied := rules.move(copy, InputOf(m));
    if applied.None? {
      score := if rules.turn(game) == ai then Fin(-FaultScore) else Fin(FaultScore);
      return;
    }
    var next := applied.value.position;
    if depth == 0 {
      var leaf := EvaluatePosition(rules, ai, next);
      score := Fin(leaf);
      return;
    }
    if rules.isCheckmate(next) || rules.isDraw(next) {
      if rules.isCheckmate(next) {
        score := if rules.turn(next) == ai then Fin(-MateScore) else Fin(MateScore);
      } else {
        score := Fin(0.0);
      }
      return;
    }
    var nextMoves := rules.moves(next);
    var best := if rules.turn(next) == ai then NegInf else PosInf;
    for i := 0 to |nextMoves|
      invariant best == Best(rules, ai, rules.turn(next) == ai, nextMoves[..i], depth - 1, next)
    {
      var s := EvaluateMove(rules, ai, nextMoves[i], depth - 1, next);
      assert nextMoves[..i + 1][..i] == nextMoves[..i];
      if rules.turn(next) == ai {
        best := Max(best, s);
      } else {
        best := Min(best, s);
      }
    }
    assert nextMoves[..|nextMoves|] == nextMoves;
    score := best;
  }
}
