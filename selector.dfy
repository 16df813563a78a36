/**
 * The computer opponent's move selector (`findBestMove`, `getThinkingTime` and
 * `makeAIMove` in the AI hook). `Math.random` is replaced by an injected
 * sequence of draws in [0, 1), consumed in the order the code calls it.
 */
module Selector {
  import opened ChessRules
  import opened Evaluator
  import opened Search

  datatype Level = Easy | Medium | Hard

  /** Simulated thinking latency in milliseconds: the slower the stronger. */
  function ThinkingTime(level: Level): (ms: nat)
    ensures 300 <= ms <= 800
    ensures level == Easy <==> ms < 500
    ensures level == Hard <==> ms > 500
  {
    match level
    case Easy => 300
    case Medium => 500
    case Hard => 800
  }

  /** The search depth the code declares per level; only the Hard depth is ever used. */
  function DeclaredDepth(level: Level): nat
  {
    if level == Easy then 1 else if level == Medium then 1 else 2
  }

  /** The flat heuristic of the two fast levels, before jitter. */
  function QuickScore(m: Move): (score: nat)
    ensures score <= 1090
    ensures (m.captured.None? && m.promotion.None? && '+' !in m.san && '#' !in m.san && !IsCastlingFlags(m.flags)) ==> score == 0
  {
    (if m.captured.Some? then PieceValue(m.captured.value) * 10 else 0)
      + (if m.promotion.Some? then 50 else 0)
      + (if '+' in m.san then 10 else 0)
      + (if '#' in m.san then 100 else 0)
      + (if IsCastlingFlags(m.flags) then 30 else 0)
  }

  /** The width of the random jitter: 30 for Easy, 10 for Medium. */
  function JitterSpan(level: Level): real
  {
    if level == Easy then 30.0 else 10.0
  }

  /** A random source the selector can consume: enough draws, each in [0, 1). */
  predicate ValidRandom(rand: seq<real>, n: nat)
  {
    |rand| >= n + 2 && forall i :: 0 <= i < |rand| ==> 0.0 <= rand[i] < 1.0
  }

  /** The score of one candidate: heuristic plus jitter for Easy and Medium, minimax for Hard. */
  function MoveScore<P>(rules: Rules<P>, level: Level, ai: Color, game: P, m: Move, r: real): Score
  {
    if level == Hard then SearchScore(rules, ai, m, DeclaredDepth(level), game)
    else Fin(Jittered(m, level, r))
  }

  /** The Easy and Medium score: the heuristic plus the random draw scaled to the level's span. */
  function Jittered(m: Move, level: Level, r: real): real
  {
    QuickScore(m) as real + r * JitterSpan(level)
  }

  function Scores<P>(rules: Rules<P>, level: Level, ai: Color, game: P, ms: seq<Move>, rand: seq<real>): (s: seq<Score>)
    requires |rand| >= |ms|
    ensures |s| == |ms|
  {
    seq(|ms|, i requires 0 <= i < |ms| => MoveScore(rules, level, ai, game, ms[i], rand[i]))
  }

  /**
   * The scan of the selection loop: the best score so far, starting at -Infinity,
   * replaced only by a strictly greater one, and the index where it was seen.
   */
  function Select(scores: seq<Score>): (r: (Score, Option<nat>))
    ensures r.1.Some? ==> r.1.value < |scores| && r.0 == scores[r.1.value]
    ensures r.1.None? ==> r.0 == NegInf
  {
    if scores == [] then (NegInf, None)
    else
      var prev := Select(scores[..|scores| - 1]);
      var s := scores[|scores| - 1];
      if Less(prev.0, s) then (s, Some(|scores| - 1)) else prev
  }

  /** One more step of the scan. */
  lemma SelectNext(scores: seq<Score>, i: nat)
    requires i < |scores|
    ensures Select(scores[..i + 1]) ==
      if Less(Select(scores[..i]).0, scores[i]) then (scores[i], Some(i)) else Select(scores[..i])
  {
    assert scores[..i + 1][..i] == scores[..i];
  }

  lemma LessAtMost(a: Score, b: Score, c: Score)
    ensures Less(a, b) && AtMost(b, c) ==> Less(a, c)
    ensures AtMost(a, b) && Less(b, c) ==> Less(a, c)
    ensures AtMost(a, b) && AtMost(b, c) ==> AtMost(a, c)
    ensures !Less(a, b) ==> AtMost(b, a)
  {
  }

  /**
   * The scan picks the FIRST index of a maximal score: every score is at most
   * the chosen one and every earlier one strictly less. It picks nothing only
   * when every score is -Infinity.
   */
  lemma {:induction false} SelectIsFirstMaximum(scores: seq<Score>)
    ensures Select(scores).1.None? <==> forall j :: 0 <= j < |scores| ==> scores[j] == NegInf
    ensures Select(scores).1.Some? ==>
      var k := Select(scores).1.value;
      && (forall j :: 0 <= j < |scores| ==> AtMost(scores[j], scores[k]))
      && (forall j :: 0 <= j < k ==> Less(scores[j], scores[k]))
  {
    if scores != [] {
      var n := |scores|;
      var init := scores[..n - 1];
      SelectIsFirstMaximum(init);
      var prev := Select(init);
      var s := scores[n - 1];
      forall j | 0 <= j < n - 1
        ensures scores[j] == init[j]
      {
      }
      if Less(prev.0, s) {
        forall j | 0 <= j < n
          ensures Less(scores[j], s) || j == n - 1
        {
          if j < n - 1 {
            if prev.1.Some? {
              LessAtMost(scores[j], prev.0, s);
            }
          }
        }
      } else {
        LessAtMost(prev.0, s, s);
        if prev.1.Some? {
          var k := prev.1.value;
          forall j | 0 <= j < n
            ensures AtMost(scores[j], scores[k])
          {
            if j == n - 1 {
              LessAtMost(s, prev.0, prev.0);
            }
          }
        } else {
          assert s == NegInf;
        }
      }
    }
  }

  /** `Math.floor(Math.random() * moves.length)`. */
  function RandomIndex(r: real, n: nat): (k: nat)
    requires 0.0 <= r < 1.0 && n > 0
    ensures k < n
    ensures k as real <= r * n as real < k as real + 1.0
  {
    assert r * n as real < n as real by {
      assert (1.0 - r) * n as real > 0.0;
    }
    (r * n as real).Floor
  }

  /** `findBestMove`'s guard: the computer is to move and the game is not over. */
  predicate CanMove<P>(rules: Rules<P>, ai: Color, game: P)
  {
    rules.turn(game) == ai && !rules.isCheckmate(game) && !rules.isDraw(game) && !rules.isStalemate(game)
  }

  /** Whether the Easy level throws the choice away for a random move. */
  predicate Overrides(level: Level, rand: seq<real>, n: nat)
    requires |rand| > n
  {
    level == Easy && rand[n] > 0.7
  }

  /** The index `findBestMove` settles on, before it is reported as a move. */
  function ChosenIndex<P>(rules: Rules<P>, level: Level, ai: Color, game: P, rand: seq<real>): (k: Option<nat>)
    requires ValidRandom(rand, |rules.moves(game)|)
    ensures k.Some? ==> k.value < |rules.moves(game)|
  {
    var ms := rules.moves(game);
    if !CanMove(rules, ai, game) || |ms| == 0 then None
    else if Overrides(level, rand, |ms|) then Some(RandomIndex(rand[|ms| + 1], |ms|))
    else Select(Scores(rules, level, ai, game, ms, rand)).1
  }

  /** What `findBestMove` returns: the from/to/promotion of the chosen legal move, or null. */
  function Choice<P>(rules: Rules<P>, level: Level, ai: Color, game: P, rand: seq<real>): Option<MoveInput>
    requires ValidRandom(rand, |rules.moves(game)|)
  {
    match ChosenIndex(rules, level, ai, game, rand)
    case None => None
    case Some(k) => Some(InputOf(rules.moves(game)[k]))
  }

  /** The selector never fabricates a move: what it returns comes from the legal-move list. */
  lemma ChoiceIsLegal<P>(rules: Rules<P>, level: Level, ai: Color, game: P, rand: seq<real>)
    requires ValidRandom(rand, |rules.moves(game)|)
    ensures Choice(rules, level, ai, game, rand).Some? ==>
      exists k :: 0 <= k < |rules.moves(game)| && Choice(rules, level, ai, game, rand).value == InputOf(rules.moves(game)[k])
  {
    var c := ChosenIndex(rules, level, ai, game, rand);
    if c.Some? {
      assert Choice(rules, level, ai, game, rand).value == InputOf(rules.moves(game)[c.value]);
    }
  }

  /** In chess, no Hard search score is an infinity. */
  lemma {:induction false} SearchScoreFinite<P(!new)>(rules: Rules<P>, ai: Color, m: Move, depth: nat, game: P)
    requires NonTerminalHasMoves(rules)
    ensures SearchScore(rules, ai, m, depth, game).Fin?
    decreases depth, 0, 0
  {
    match PlayOnCopy(rules, game, m)
    case None =>
    case Some(applied) =>
      var next := applied.position;
      if depth > 0 && !rules.isCheckmate(next) && !rules.isDraw(next) {
        BestFinite(rules, ai, rules.turn(next) == ai, rules.moves(next), depth - 1, next);
      }
  }

  lemma {:induction false} BestFinite<P(!new)>(rules: Rules<P>, ai: Color, maximize: bool, ms: seq<Move>, depth: nat, position: P)
    requires NonTerminalHasMoves(rules) && |ms| > 0
    ensures Best(rules, ai, maximize, ms, depth, position).Fin?
    decreases depth, 1, |ms|
  {
    SearchScoreFinite(rules, ai, ms[|ms| - 1], depth, position);
    if |ms| > 1 {
      BestFinite(rules, ai, maximize, ms[..|ms| - 1], depth, position);
    } else {
      assert ms[..|ms| - 1] == [];
    }
  }

  /**
   * `findBestMove` returns null exactly when the computer is not to move, the
   * game is over or there is no legal move. For Hard this rests on the chess
   * fact that a live position has a move, without which a search could score
   * every candidate -Infinity and leave the choice empty.
   */
  lemma ChoiceNoneIff<P(!new)>(rules: Rules<P>, level: Level, ai: Color, game: P, rand: seq<real>)
    requires ValidRandom(rand, |rules.moves(game)|)
    requires level == Hard ==> NonTerminalHasMoves(rules)
    ensures Choice(rules, level, ai, game, rand).None? <==> !CanMove(rules, ai, game) || |rules.moves(game)| == 0
  {
    var ms := rules.moves(game);
    if CanMove(rules, ai, game) && |ms| > 0 && !Overrides(level, rand, |ms|) {
      var scores := Scores(rules, level, ai, game, ms, rand);
      SelectIsFirstMaximum(scores);
      if level == Hard {
        SearchScoreFinite(rules, ai, ms[0], DeclaredDepth(level), game);
      }
      assert scores[0] != NegInf;
    }
  }

  /**
   * Hard plays a mate in one when it has one: if a listed move mates on the
   * search's FEN copy, the move it returns scores at least the mate score of
   * 10000.
   */
  lemma HardFindsMate<P>(rules: Rules<P>, ai: Color, game: P, rand: seq<real>, k: nat)
    requires ValidRandom(rand, |rules.moves(game)|)
    requires CanMove(rules, ai, game) && k < |rules.moves(game)|
    requires var applied := PlayOnCopy(rules, game, rules.moves(game)[k]);
      applied.Some? && rules.isCheckmate(applied.value.position) && rules.turn(applied.value.position) != ai
    ensures var c := ChosenIndex(rules, Hard, ai, game, rand);
      c.Some? && AtMost(Fin(MateScore), SearchScore(rules, ai, rules.moves(game)[c.value], 2, game))
  {
    var ms := rules.moves(game);
    var scores := Scores(rules, Hard, ai, game, ms, rand);
    SelectIsFirstMaximum(scores);
    assert scores[k] == Fin(MateScore);
  }

  /**
   * Hard's chosen move gives mate on the board whenever a mate in one exists:
   * the chosen move scores at least 10000, and every move that does not mate
   * scores less. The search plays on a FEN copy, which accepts and mates as
   * the game does.
   */
  lemma HardPlaysMate<P(!new)>(rules: Rules<P>, ai: Color, game: P, rand: seq<real>, k: nat)
    requires NonTerminalHasMoves(rules) && AlternatesTurns(rules)
    requires CopyKeepsTurn(rules) && CopyPlaysAlike(rules)
    requires forall p: P :: Evaluation(rules, ai, p) < MateScore
    requires ValidRandom(rand, |rules.moves(game)|)
    requires CanMove(rules, ai, game) && k < |rules.moves(game)|
    requires var applied := rules.move(game, InputOf(rules.moves(game)[k]));
      applied.Some? && rules.isCheckmate(applied.value.position)
    ensures var c := ChosenIndex(rules, Hard, ai, game, rand);
      && c.Some?
      && var applied := rules.move(game, InputOf(rules.moves(game)[c.value]));
      applied.Some? && rules.isCheckmate(applied.value.position)
  {
    var ms := rules.moves(game);
    assert rules.turn(PlayOnCopy(rules, game, ms[k]).value.position) == Opponent(ai) by {
      assert rules.turn(rules.copy(game)) == ai;
    }
    HardFindsMate(rules, ai, game, rand, k);
    var c := ChosenIndex(rules, Hard, ai, game, rand).value;
    var chosen := rules.move(game, InputOf(ms[c]));
    if !(chosen.Some? && rules.isCheckmate(chosen.value.position)) {
      assert !(PlayOnCopy(rules, game, ms[c]).Some? && rules.isCheckmate(PlayOnCopy(rules, game, ms[c]).value.position));
      MateInOneOutranks(rules, ai, game, ms[k], ms[c]);
      assert false;
    }
  }

  /**
   * The jitter only ranges over [0, 10) for Medium and [0, 30) for Easy: a move
   * whose heuristic beats every other by at least that much is the one chosen,
   * unless Easy's random override fires.
   */
  lemma ClearWinnerIsChosen<P>(rules: Rules<P>, level: Level, ai: Color, game: P, rand: seq<real>, k: nat)
    requires ValidRandom(rand, |rules.moves(game)|)
    requires level != Hard && CanMove(rules, ai, game) && k < |rules.moves(game)|
    requires !Overrides(level, rand, |rules.moves(game)|)
    requires forall j :: 0 <= j < |rules.moves(game)| && j != k ==>
      QuickScore(rules.moves(game)[j]) as real + JitterSpan(level) <= QuickScore(rules.moves(game)[k]) as real
    ensures ChosenIndex(rules, level, ai, game, rand) == Some(k)
  {
    var ms := rules.moves(game);
    var scores := Scores(rules, level, ai, game, ms, rand);
    assert ChosenIndex(rules, level, ai, game, rand) == Select(scores).1;
    QuickScores(rules, level, ai, game, ms, rand);
    SelectIsFirstMaximum(scores);
    assert scores[0] != NegInf;
    forall j | 0 <= j < |ms| && j != k ensures Less(scores[j], scores[k]) {
      JitterBelowMargin(QuickScore(ms[j]) as real, QuickScore(ms[k]) as real, rand[j], rand[k], level);
    }
  }

  lemma QuickScores<P>(rules: Rules<P>, level: Level, ai: Color, game: P, ms: seq<Move>, rand: seq<real>)
    requires level != Hard && |rand| >= |ms|
    ensures forall j :: 0 <= j < |ms| ==>
      Scores(rules, level, ai, game, ms, rand)[j] == Fin(QuickScore(ms[j]) as real + rand[j] * JitterSpan(level))
  {
  }

  lemma JitterBelowMargin(qi: real, qk: real, ri: real, rk: real, level: Level)
    requires level != Hard && 0.0 <= ri < 1.0 && 0.0 <= rk < 1.0
    requires qi + JitterSpan(level) <= qk
    ensures qi + ri * JitterSpan(level) < qk + rk * JitterSpan(level)
  {
  }

  /** The Easy and Medium score of one move: capture, promotion, check, mate and castling bonuses plus the jitter. */
  method QuickMoveScore(move: Move, level: Level, r: real) returns (score: real)
    requires level != Hard
    ensures score == Jittered(move, level, r)
  {
    score := 0.0;
    if move.captured.Some? {
      score := score + (PieceValue(move.captured.value) * 10) as real;
    }
    if move.promotion.Some? {
      score := score + 50.0;
    }
    if '+' in move.san {
      score := score + 10.0;
    }
    if '#' in move.san {
      score := score + 100.0;
    }
    if IsCastlingFlags(move.flags) {
      score := score + 30.0;
    }
    if level == Easy {
      score := score + r * 30.0;
    } else {
      score := score + r * 10.0;
    }
  }

  /** The score `findBestMove` gives one move at this level: the quick heuristic with jitter, or the search. */
  method ScoreMove<P>(rules: Rules<P>, level: Level, ai: Color, game: P, move: Move, r: real) returns (score: Score)
    ensures score == MoveScore(rules, level, ai, game, move, r)
  {
    var searchDepth := if level == Easy then 1 else if level == Medium then 1 else 2;
    if level == Easy || level == Medium {
      var quick := QuickMoveScore(move, level, r);
      score := Fin(quick);
    } else {
      assert searchDepth == DeclaredDepth(level);
      score := EvaluateMove(rules, ai, move, searchDepth, game);
    }
  }

  /** The scoring loop of `findBestMove`: the first move of the highest score, or none when all are -Infinity. */
  method ScanMoves<P>(rules: Rules<P>, level: Level, ai: Color, game: P, moves: seq<Move>, rand: seq<real>)
    returns (bestMove: Option<Move>)
    requires |rand| >= |moves|
    ensures var picked := Select(Scores(rules, level, ai, game, moves, rand)).1;
      bestMove == if picked.Some? then Some(moves[picked.value]) else None
  {
    ghost var scores := Scores(rules, level, ai, game, moves, rand);
    bestMove := None;
    ghost var bestIndex: Option<nat> := None;
    var bestScore := NegInf;
    for i := 0 to |moves|
      invariant (bestScore, bestIndex) == Select(scores[..i])
      invariant bestIndex.Some? ==> bestIndex.value < i
      invariant bestMove == if bestIndex.Some? then Some(moves[bestIndex.value]) else None
    {
      var move := moves[i];
      SelectNext(scores, i);
      var score := ScoreMove(rules, level, ai, game, move, rand[i]);
      assert score == scores[i];
      if Less(bestScore, score) {
        bestScore := score;
        bestMove := Some(move);
        bestIndex := Some(i);
      }
    }
    assert scores[..|moves|] == scores;
  }

  /**
   * `findBestMove`: validate, scan the legal moves keeping the first strictly
   * best, then for Easy possibly replace the choice by a random legal move.
   */
  method FindBestMove<P>(rules: Rules<P>, level: Level, ai: Color, game: P, rand: seq<real>) returns (best: Option<MoveInput>)
    requires ValidRandom(rand, |rules.moves(game)|)
    ensures best == Choice(rules, level, ai, game, rand)
  {
    if rules.turn(game) != ai || rules.isCheckmate(game) || rules.isDraw(game) || rules.isStalemate(game) {
      return None;
    }
    var moves := rules.moves(game);
    if |moves| == 0 {
      return None;
    }
    var bestMove := ScanMoves(rules, level, ai, game, moves, rand);
    if level == Easy && rand[|moves|] > 0.7 {
      var k := RandomIndex(rand[|moves| + 1], |moves|);
      bestMove := Some(moves[k]);
    }
    best := if bestMove.Some? then Some(InputOf(bestMove.value)) else None;
  }

  /**
   * The hook's state: the configured level and colour, and whether a request
   * is waiting out its thinking delay. `pendingLevel` and `pendingColor` are
   * the level and colour the scheduled search closed over when it was
   * scheduled; a later change of level or colour does not reach it.
   */
  class ChessAI {
    var level: Level
    var computerColor: Color
    var isThinking: bool
    var pendingLevel: Level
    var pendingColor: Color

    constructor (level: Level, aiColor: Color)
      ensures this.level == level && computerColor == aiColor && !isThinking
      ensures pendingLevel == level && pendingColor == aiColor
    {
      this.level := level;
      computerColor := aiColor;
      isThinking := false;
      pendingLevel := level;
      pendingColor := aiColor;
    }

    method SetLevel(level: Level)
      modifies this
      ensures this.level == level
      ensures computerColor == old(computerColor) && isThinking == old(isThinking)
      ensures pendingLevel == old(pendingLevel) && pendingColor == old(pendingColor)
    {
      this.level := level;
    }

    method SetColor(c: Color)
      modifies this
      ensures computerColor == c
      ensures level == old(level) && isThinking == old(isThinking)
      ensures pendingLevel == old(pendingLevel) && pendingColor == old(pendingColor)
    {
      computerColor := c;
    }

    /**
     * The synchronous half of `makeAIMove`: on a failed guard nothing happens;
     * otherwise the hook starts thinking and schedules the search after the
     * level's thinking time, which is returned, capturing the current level
     * and colour for it.
     */
    method MakeAIMove<P>(rules: Rules<P>, game: P) returns (delay: Option<nat>)
      modifies this
      ensures delay.Some? <==> CanMove(rules, old(computerColor), game)
      ensures delay.Some? ==> delay.value == ThinkingTime(old(level)) && isThinking
      ensures delay.Some? ==> pendingLevel == old(level) && pendingColor == old(computerColor)
      ensures delay.None? ==> isThinking == old(isThinking)
      ensures delay.None? ==> pendingLevel == old(pendingLevel) && pendingColor == old(pendingColor)
      ensures level == old(level) && computerColor == old(computerColor)
    {
      if rules.turn(game) != computerColor || rules.isCheckmate(game) || rules.isDraw(game) || rules.isStalemate(game) {
        return None;
      }
      isThinking := true;
      pendingLevel := level;
      pendingColor := computerColor;
      delay := Some(ThinkingTime(level));
    }

    /**
     * The deferred half, run on the position `MakeAIMove` was given: search
     * with the level and colour captured when it was scheduled, hand the move
     * (if any) to the caller, stop thinking.
     */
    method FinishThinking<P>(rules: Rules<P>, game: P, rand: seq<real>) returns (choice: Option<MoveInput>)
      requires ValidRandom(rand, |rules.moves(game)|)
      modifies this
      ensures choice == Choice(rules, old(pendingLevel), old(pendingColor), game, rand)
      ensures !isThinking && level == old(level) && computerColor == old(computerColor)
      ensures pendingLevel == old(pendingLevel) && pendingColor == old(pendingColor)
    {
      choice := FindBestMove(rules, pendingLevel, pendingColor, game, rand);
      isThinking := false;
    }
  }

  /**
   * A level or colour change that lands during the thinking delay does not
   * reach the search already scheduled: it runs with the settings in force
   * when `makeAIMove` was called.
   */
  method RetuneWhileThinking<P>(ai: ChessAI, rules: Rules<P>, game: P, level: Level, c: Color, rand: seq<real>)
      returns (choice: Option<MoveInput>)
    requires ValidRandom(rand, |rules.moves(game)|)
    requires CanMove(rules, ai.computerColor, game)
    modifies ai
    ensures choice == Choice(rules, old(ai.level), old(ai.computerColor), game, rand)
    ensures ai.level == level && ai.computerColor == c && !ai.isThinking
  {
    var delay := ai.MakeAIMove(rules, game);
    ai.SetLevel(level);
    ai.SetColor(c);
    choice := ai.FinishThinking(rules, game, rand);
  }
}
