/**
 * The computer opponent's static evaluator (`evaluatePosition` in the AI hook):
 * a leaf score, seen from the computer's colour, made of material, a bonus for
 * the four centre squares, mobility and a check bonus.
 */
module Evaluator {
  import opened ChessRules

  /** Material value of a piece type; kings are worth nothing. */
  function PieceValue(k: PieceKind): (v: nat)
    ensures v <= 90
    ensures v == 0 <==> k == King
  {
    match k
    case Pawn => 10
    case Knight => 30
    case Bishop => 30
    case Rook => 50
    case Queen => 90
    case King => 0
  }

  /** What one cell adds to the material term: + for the computer's pieces, - for the opponent's. */
  function CellMaterial(cell: Option<Piece>, ai: Color): int
  {
    match cell
    case None => 0
    case Some(p) => if p.color == ai then PieceValue(p.kind) else -(PieceValue(p.kind) as int)
  }

  /** Material of the first `n` cells of a rank. */
  function RowMaterial(row: seq<Option<Piece>>, ai: Color, n: nat): int
    requires n <= |row|
  {
    if n == 0 then 0 else RowMaterial(row, ai, n - 1) + CellMaterial(row[n - 1], ai)
  }

  /** Material of the first `n` ranks. */
  function BoardMaterial(b: seq<Row>, ai: Color, n: nat): int
    requires n <= |b|
  {
    if n == 0 then 0 else BoardMaterial(b, ai, n - 1) + RowMaterial(b[n - 1], ai, 8)
  }

  /** The material term, summed rank by rank and file by file as the evaluator's loops do. */
  function Material(b: Board, ai: Color): int
  {
    BoardMaterial(b, ai, 8)
  }

  /** Reference definition: the total value of the pieces of one colour. */
  function CellWeight(cell: Option<Piece>, c: Color): nat
  {
    if cell.Some? && cell.value.color == c then PieceValue(cell.value.kind) else 0
  }

  function RowWeight(row: seq<Option<Piece>>, c: Color, n: nat): nat
    requires n <= |row|
  {
    if n == 0 then 0 else RowWeight(row, c, n - 1) + CellWeight(row[n - 1], c)
  }

  function BoardWeight(b: seq<Row>, c: Color, n: nat): nat
    requires n <= |b|
  {
    if n == 0 then 0 else BoardWeight(b, c, n - 1) + RowWeight(b[n - 1], c, 8)
  }

  function Weight(b: Board, c: Color): nat
  {
    BoardWeight(b, c, 8)
  }

  lemma {:induction false} RowMaterialIsWeightDifference(row: seq<Option<Piece>>, ai: Color, n: nat)
    requires n <= |row|
    ensures RowMaterial(row, ai, n) == RowWeight(row, ai, n) - RowWeight(row, Opponent(ai), n)
    ensures RowWeight(row, ai, n) <= 90 * n
  {
    if n > 0 {
      RowMaterialIsWeightDifference(row, ai, n - 1);
    }
  }

  lemma {:induction false} BoardMaterialIsWeightDifference(b: seq<Row>, ai: Color, n: nat)
    requires n <= |b|
    ensures BoardMaterial(b, ai, n) == BoardWeight(b, ai, n) - BoardWeight(b, Opponent(ai), n)
    ensures BoardWeight(b, ai, n) <= 720 * n
  {
    if n > 0 {
      BoardMaterialIsWeightDifference(b, ai, n - 1);
      RowMaterialIsWeightDifference(b[n - 1], ai, 8);
      RowMaterialIsWeightDifference(b[n - 1], Opponent(ai), 8);
    }
  }

  /**
   * The material term is the computer's piece value minus the opponent's; so it
   * changes sign when the colours swap, and stays within 64 queens either way.
   */
  lemma MaterialIsWeightDifference(b: Board, ai: Color)
    ensures Material(b, ai) == Weight(b, ai) - Weight(b, Opponent(ai))
    ensures Material(b, Opponent(ai)) == -Material(b, ai)
    ensures -5760 <= Material(b, ai) <= 5760
  {
    BoardMaterialIsWeightDifference(b, ai, 8);
    BoardMaterialIsWeightDifference(b, Opponent(ai), 8);
  }

  predicate KingOrEmpty(cell: Option<Piece>)
  {
    cell.None? || cell.value.kind == King
  }

  /** Cells on which two boards may differ without the material term noticing. */
  predicate SameButKings(x: Option<Piece>, y: Option<Piece>)
  {
    x == y || (KingOrEmpty(x) && KingOrEmpty(y))
  }

  lemma {:induction false} RowMaterialIgnoresKings(row1: seq<Option<Piece>>, row2: seq<Option<Piece>>, ai: Color, n: nat)
    requires n <= |row1| && n <= |row2|
    requires forall f :: 0 <= f < n ==> SameButKings(row1[f], row2[f])
    ensures RowMaterial(row1, ai, n) == RowMaterial(row2, ai, n)
  {
    if n > 0 {
      RowMaterialIgnoresKings(row1, row2, ai, n - 1);
    }
  }

  lemma {:induction false} BoardMaterialIgnoresKings(b1: seq<Row>, b2: seq<Row>, ai: Color, n: nat)
    requires n <= |b1| && n <= |b2|
    requires forall r, f :: 0 <= r < n && 0 <= f < 8 ==> SameButKings(b1[r][f], b2[r][f])
    ensures BoardMaterial(b1, ai, n) == BoardMaterial(b2, ai, n)
  {
    if n > 0 {
      BoardMaterialIgnoresKings(b1, b2, ai, n - 1);
      RowMaterialIgnoresKings(b1[n - 1], b2[n - 1], ai, 8);
    }
  }

  /** Kings never contribute: adding, removing or moving kings leaves the material term as it is. */
  lemma MaterialIgnoresKings(b1: Board, b2: Board, ai: Color)
    requires forall r, f :: 0 <= r < 8 && 0 <= f < 8 ==> SameButKings(b1[r][f], b2[r][f])
    ensures Material(b1, ai) == Material(b2, ai)
  {
    BoardMaterialIgnoresKings(b1, b2, ai, 8);
  }

  const CentralSquares: seq<string> := ["d4", "d5", "e4", "e5"]

  /** How many of the first `n` centre squares hold a piece of the computer's colour. */
  function CentreCount<P>(rules: Rules<P>, position: P, ai: Color, n: nat): (count: nat)
    requires n <= |CentralSquares|
    ensures count <= n
  {
    if n == 0 then 0
    else
      var piece := rules.get(position, CentralSquares[n - 1]);
      CentreCount(rules, position, ai, n - 1) + (if piece.Some? && piece.value.color == ai then 1 else 0)
  }

  /** +5 per computer piece on d4, d5, e4 or e5. */
  function CentreBonus<P>(rules: Rules<P>, position: P, ai: Color): (bonus: nat)
    ensures bonus <= 20 && bonus % 5 == 0
  {
    5 * CentreCount(rules, position, ai, 4)
  }

  /** A tenth of a point per legal move of the side to move, counted for the computer or against it. */
  function Mobility<P>(rules: Rules<P>, position: P, ai: Color): real
  {
    var mobility := |rules.moves(position)| as real;
    if rules.turn(position) == ai then mobility * 0.1 else -mobility * 0.1
  }

  /** +50 when the side to move is in check and it is the opponent. */
  function CheckBonus<P>(rules: Rules<P>, position: P, ai: Color): nat
  {
    if rules.isCheck(position) && rules.turn(position) != ai then 50 else 0
  }

  /** The leaf score: the sum of the four terms, with no normalisation. */
  function Evaluation<P>(rules: Rules<P>, ai: Color, position: P): real
  {
    Material(rules.board(position), ai) as real
      + CentreBonus(rules, position, ai) as real
      + Mobility(rules, position, ai)
      + CheckBonus(rules, position, ai) as real
  }

  /**
   * Material and mobility are antisymmetric in the colour the evaluator plays
   * for; the centre and check bonuses are only ever rewards, and the check
   * bonus goes to exactly one colour when the side to move is in check.
   */
  lemma EvaluationSideSwap<P>(rules: Rules<P>, ai: Color, position: P)
    ensures Evaluation(rules, ai, position) + Evaluation(rules, Opponent(ai), position)
         == (CentreBonus(rules, position, ai) + CentreBonus(rules, position, Opponent(ai))) as real
          + (if rules.isCheck(position) then 50.0 else 0.0)
  {
    MaterialIsWeightDifference(rules.board(position), ai);
  }

  /** `evaluatePosition`: the board loops, the centre loop, then mobility and check. */
  method EvaluatePosition<P>(rules: Rules<P>, ai: Color, position: P) returns (score: real)
    ensures score == Evaluation(rules, ai, position)
  {
    score := 0.0;
    var board := rules.board(position);
    for r := 0 to 8
      invariant score == BoardMaterial(board, ai, r) as real
    {
      for f := 0 to 8
        invariant score == (BoardMaterial(board, ai, r) + RowMaterial(board[r], ai, f)) as real
      {
        var piece := board[r][f];
        if piece.Some? {
          var value := PieceValue(piece.value.kind) as real;
          score := score + if piece.value.color == ai then value else -value;
        }
      }
    }
    for i := 0 to |CentralSquares|
      invariant score == (Material(board, ai) + 5 * CentreCount(rules, position, ai, i)) as real
    {
      var piece := rules.get(position, CentralSquares[i]);
      if piece.Some? && piece.value.color == ai {
        score := score + 5.0;
      }
    }
    var mobility := |rules.moves(position)| as real;
    score := score + if rules.turn(position) == ai then mobility * 0.1 else -mobility * 0.1;
    if rules.isCheck(position) {
      if rules.turn(position) != ai {
        score := score + 50.0;
      }
    }
  }
}
