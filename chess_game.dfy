/**
 * The game ledger (`useChessGame`): one library game, the list of moves played
 * with the square map seen before each of them, and the square map of the
 * current board; plus the small queries the board controller asks of it.
 */
module ChessGame {
  import opened ChessRules

  /** The square-keyed view of a board: only occupied squares have a key. */
  type SquareMap = map<string, Piece>

  /** The map after visiting the first `k` cells in the loops' order (rank 8 first, file a first). */
  function Filled(b: Board, k: nat): SquareMap
    requires k <= 64
  {
    if k == 0 then map[]
    else
      var r, f := (k - 1) / 8, (k - 1) % 8;
      var m := Filled(b, k - 1);
      if b[r][f].Some? then m[SquareName(r, f) := b[r][f].value] else m
  }

  function BoardMap(b: Board): SquareMap
  {
    Filled(b, 64)
  }

  lemma {:induction false} FilledKeys(b: Board, k: nat)
    requires k <= 64
    ensures forall r: nat, f: nat :: r < 8 && f < 8 ==>
      (SquareName(r, f) in Filled(b, k) <==> 8 * r + f < k && b[r][f].Some?)
    ensures forall r: nat, f: nat :: r < 8 && f < 8 && SquareName(r, f) in Filled(b, k) ==>
      Filled(b, k)[SquareName(r, f)] == b[r][f].value
    ensures forall sq :: sq in Filled(b, k) ==> exists r: nat, f: nat :: r < 8 && f < 8 && sq == SquareName(r, f)
  {
    if k > 0 {
      FilledKeys(b, k - 1);
      var r0, f0 := (k - 1) / 8, (k - 1) % 8;
      forall r: nat, f: nat | r < 8 && f < 8
        ensures SquareName(r, f) in Filled(b, k) <==> 8 * r + f < k && b[r][f].Some?
        ensures SquareName(r, f) in Filled(b, k) ==> Filled(b, k)[SquareName(r, f)] == b[r][f].value
      {
        SquareNameInjective(r, f, r0, f0);
      }
    }
  }

  /**
   * `updatePosition`'s map has a key for exactly the occupied cells, the key of
   * cell [r][f] being the file letter 97 + f followed by the rank digit 8 - r,
   * holding that cell's piece; there are no other keys.
   */
  lemma BoardMapCorrect(b: Board)
    ensures forall r: nat, f: nat :: r < 8 && f < 8 ==>
      (SquareName(r, f) in BoardMap(b) <==> b[r][f].Some?)
    ensures forall r: nat, f: nat :: r < 8 && f < 8 && b[r][f].Some? ==>
      BoardMap(b)[SquareName(r, f)] == b[r][f].value
    ensures forall sq :: sq in BoardMap(b) ==> exists r: nat, f: nat :: r < 8 && f < 8 && sq == SquareName(r, f)
  {
    FilledKeys(b, 64);
  }

  /** One entry of the move list: the move record and the square map before it. */
  datatype HistoryItem = HistoryItem(move: Move, position: SquareMap)

  /** `isPromotion`: a pawn of either colour heading for its last rank; neither origin rank nor legality is checked. */
  function IsPromotion<P>(rules: Rules<P>, game: P, from: string, to: string): (promotes: bool)
    ensures promotes <==>
      && rules.get(game, from).Some? && rules.get(game, from).value.kind == Pawn
      && |to| >= 2
      && ((rules.get(game, from).value.color == White && to[1] == '8')
          || (rules.get(game, from).value.color == Black && to[1] == '1'))
  {
    match rules.get(game, from)
    case None => false
    case Some(piece) =>
      if piece.kind != Pawn then false
      else
        var toRank := if |to| >= 2 then [to[1]] else "";
        (piece.color == White && toRank == "8") || (piece.color == Black && toRank == "1")
  }

  predicate Connects(m: Move, from: string, to: string)
  {
    m.from == from && m.to == to
  }

  /** Index `i` holds the first move from `from` to `to`. */
  predicate FirstMatch(ms: seq<Move>, from: string, to: string, i: nat)
  {
    i < |ms| && Connects(ms[i], from, to) && forall j :: 0 <= j < i ==> !Connects(ms[j], from, to)
  }

  /** `moves.find(m => m.from === from && m.to === to)`, as an index. */
  function FindMove(ms: seq<Move>, from: string, to: string): (found: Option<nat>)
    ensures found.Some? ==> FirstMatch(ms, from, to, found.value)
    ensures found.None? <==> forall j :: 0 <= j < |ms| ==> !Connects(ms[j], from, to)
  {
    if ms == [] then None
    else if Connects(ms[0], from, to) then Some(0)
    else match FindMove(ms[1..], from, to)
      case None => None
      case Some(i) => Some(i + 1)
  }

  /** `isEnPassant`: the first matching legal move has flag 'e'; false when there is none. */
  function IsEnPassant<P>(rules: Rules<P>, game: P, from: string, to: string): (enPassant: bool)
    ensures enPassant <==> exists i: nat :: FirstMatch(rules.moves(game), from, to, i) && 'e' in rules.moves(game)[i].flags
  {
    var ms := rules.moves(game);
    match FindMove(ms, from, to)
    case None => false
    case Some(i) =>
      assert forall k: nat :: FirstMatch(ms, from, to, k) ==> k == i;
      'e' in ms[i].flags
  }

  /** `isCastling`: the first matching legal move has flag 'k' or 'q'; false when there is none. */
  function IsCastling<P>(rules: Rules<P>, game: P, from: string, to: string): (castles: bool)
    ensures castles <==> exists i: nat :: FirstMatch(rules.moves(game), from, to, i) && IsCastlingFlags(rules.moves(game)[i].flags)
  {
    var ms := rules.moves(game);
    match FindMove(ms, from, to)
    case None => false
    case Some(i) =>
      assert forall k: nat :: FirstMatch(ms, from, to, k) ==> k == i;
      IsCastlingFlags(ms[i].flags)
  }

  /** `getLegalMovesForSquare`: the destinations of the square's legal moves, in the library's order. */
  function LegalMovesForSquare<P>(rules: Rules<P>, game: P, square: string): (targets: seq<string>)
    ensures |targets| == |rules.movesFrom(game, square)|
    ensures forall i :: 0 <= i < |targets| ==> targets[i] == rules.movesFrom(game, square)[i].to
  {
    var ms := rules.movesFrom(game, square);
    seq(|ms|, i requires 0 <= i < |ms| => ms[i].to)
  }

  /** `isFiftyMoveDraw` as written: a draw that is neither mate, stalemate nor repetition. */
  predicate IsFiftyMoveDraw<P>(rules: Rules<P>, game: P)
  {
    rules.isDraw(game) && !rules.isCheckmate(game) && !rules.isStalemate(game) && !rules.isThreefoldRepetition(game)
  }

  /** `isInsufficientMaterial` as written: the same conditions, and not `isFiftyMoveDraw`. */
  predicate IsInsufficientMaterialAsWritten<P>(rules: Rules<P>, game: P)
  {
    rules.isDraw(game) && !rules.isCheckmate(game) && !rules.isStalemate(game)
      && !rules.isThreefoldRepetition(game) && !IsFiftyMoveDraw(rules, game)
  }

  /** The predicate as written can never hold, whatever the position. */
  lemma InsufficientMaterialNeverReported<P>(rules: Rules<P>, game: P)
    ensures !IsInsufficientMaterialAsWritten(rules, game)
  {
  }

  /**
   * A rules bundle whose position 0 the library reports drawn for insufficient
   * material only, as with king against king: the as-written predicate
   * denies it and the fifty-move predicate claims it.
   */
  lemma BareKingsMisclassified()
    ensures var rules := BareKings();
      && rules.isInsufficientMaterial(0) && rules.isDraw(0)
      && !IsInsufficientMaterialAsWritten(rules, 0)
      && IsFiftyMoveDraw(rules, 0)
  {
  }

  function BareKings(): (rules: Rules<int>)
    ensures rules.isDraw(0) && rules.isInsufficientMaterial(0)
  {
    Rules(0, _ => White, _ => EmptyBoard, (_, _) => None, _ => [], (_, _) => [],
      (_, _) => None, p => p, p => p, _ => false, _ => false, _ => true, _ => false, _ => false, _ => true)
  }

  /** The evident intent: the library's own insufficient-material test. */
  predicate InsufficientMaterialDraw<P>(rules: Rules<P>, game: P)
  {
    rules.isDraw(game) && rules.isInsufficientMaterial(game)
  }

  /** The evident intent of `isFiftyMoveDraw`: a draw for none of the other three reasons. */
  predicate FiftyMoveDraw<P>(rules: Rules<P>, game: P)
  {
    IsFiftyMoveDraw(rules, game) && !rules.isInsufficientMaterial(game)
  }

  /**
   * The corrected classification: a drawn, unmated position is a stalemate, a
   * repetition, an insufficient-material draw or a fifty-move draw; the last
   * two never both hold, and the insufficient-material draw is reported
   * exactly when the library reports it.
   */
  lemma DrawClassification<P>(rules: Rules<P>, game: P)
    ensures rules.isDraw(game) && !rules.isCheckmate(game) ==>
      rules.isStalemate(game) || rules.isThreefoldRepetition(game)
        || InsufficientMaterialDraw(rules, game) || FiftyMoveDraw(rules, game)
    ensures !(InsufficientMaterialDraw(rules, game) && FiftyMoveDraw(rules, game))
    ensures rules.isDraw(game) ==> (InsufficientMaterialDraw(rules, game) <==> rules.isInsufficientMaterial(game))
  {
  }

  /** `isGameOver`. */
  predicate IsGameOver<P>(rules: Rules<P>, game: P)
  {
    rules.isCheckmate(game) || rules.isDraw(game) || rules.isStalemate(game) || rules.isThreefoldRepetition(game)
  }

  /** The game is over exactly when it is mate or the library calls it drawn for some reason. */
  lemma GameOverCases<P>(rules: Rules<P>, game: P)
    requires rules.isStalemate(game) ==> rules.isDraw(game)
    requires rules.isThreefoldRepetition(game) ==> rules.isDraw(game)
    ensures IsGameOver(rules, game) <==> rules.isCheckmate(game) || rules.isDraw(game)
  {
  }

  /** The ledger: the library game it mutates, the move list and the current square map. */
  class Ledger<P> {
    const rules: Rules<P>
    var game: P
    var history: seq<HistoryItem>
    var currentPosition: SquareMap

    /** The square map shows the game's current board. */
    ghost predicate Valid()
      reads this
    {
      currentPosition == BoardMap(rules.board(game))
    }

    constructor(rules: Rules<P>)
      ensures this.rules == rules && game == rules.initial && history == []
      ensures Valid()
    {
      this.rules := rules;
      game := rules.initial;
      history := [];
      currentPosition := BoardMap(rules.board(rules.initial));
    }

    /** `updatePosition`: rebuild the square map from the board, rank by rank and file by file. */
    method UpdatePosition()
      modifies this
      ensures game == old(game) && history == old(history)
      ensures Valid()
    {
      var boardMap: SquareMap := map[];
      var board := rules.board(game);
      for r := 0 to 8
        invariant boardMap == Filled(board, 8 * r)
      {
        for f := 0 to 8
          invariant boardMap == Filled(board, 8 * r + f)
        {
          var piece := board[r][f];
          if piece.Some? {
            boardMap := boardMap[SquareName(r, f) := piece.value];
          }
        }
      }
      currentPosition := boardMap;
    }

    /**
     * `makeMove`: when the library accepts the move, append one entry holding
     * the move and the square map from before it, and show the new board;
     * when it refuses, change nothing and answer no move.
     */
    method MakeMove(from: string, to: string, promotion: Option<PieceKind>) returns (result: Option<Move>)
      modifies this
      ensures match rules.move(old(game), MoveInput(from, to, promotion))
        case None =>
          result.None? && game == old(game) && history == old(history) && currentPosition == old(currentPosition)
        case Some(applied) =>
          && result == Some(applied.move)
          && game == applied.position
          && history == old(history) + [HistoryItem(applied.move, old(currentPosition))]
          && Valid()
    {
      var moveResult := rules.move(game, MoveInput(from, to, promotion));
      if moveResult.None? {
        return None;
      }
      game := moveResult.value.position;
      history := history + [HistoryItem(moveResult.value.move, currentPosition)];
      UpdatePosition();
      result := Some(moveResult.value.move);
    }

    /** `undo`: take the move back in the library, drop the last entry (none to drop leaves the list empty). */
    method Undo() returns (ok: bool)
      modifies this
      ensures ok
      ensures game == rules.undo(old(game))
      ensures history == if old(history) == [] then [] else old(history)[..|old(history)| - 1]
      ensures Valid()
    {
      game := rules.undo(game);
      history := if history == [] then [] else history[..|history| - 1];
      UpdatePosition();
      ok := true;
    }

    /** `reset`: a fresh game and an empty list. */
    method Reset()
      modifies this
      ensures game == rules.initial && history == []
      ensures Valid()
    {
      game := rules.initial;
      history := [];
      currentPosition := BoardMap(rules.board(rules.initial));
    }
  }

  /**
   * A move the library accepts, followed by an undo, leaves the move list as it
   * was; when `undo` takes back the move just made, the game and the square
   * map are restored too. A refused move leaves the undo to act on the
   * position before it.
   */
  method MoveThenUndo<P(!new)>(ledger: Ledger<P>, from: string, to: string, promotion: Option<PieceKind>)
      returns (result: Option<Move>)
    requires ledger.Valid()
    modifies ledger
    ensures result.Some? <==> ledger.rules.move(old(ledger.game), MoveInput(from, to, promotion)).Some?
    ensures result.Some? ==> ledger.history == old(ledger.history)
    ensures result.None? ==>
      ledger.history == if old(ledger.history) == [] then [] else old(ledger.history)[..|old(ledger.history)| - 1]
    ensures result.None? ==> ledger.game == ledger.rules.undo(old(ledger.game))
    ensures UndoReverts(ledger.rules) && result.Some? ==>
      ledger.game == old(ledger.game) && ledger.currentPosition == old(ledger.currentPosition)
    ensures ledger.Valid()
  {
    result := ledger.MakeMove(from, to, promotion);
    ghost var moved := ledger.history;
    var ok := ledger.Undo();
    if result.Some? {
      assert moved[..|moved| - 1] == old(ledger.history);
    }
  }
}
