/**
 * The rules engine the application delegates to (the chess.js library), as the
 * application sees it through its declared interface. Nothing of chess legality
 * is re-implemented: a `Rules<P>` value bundles the library's queries over an
 * opaque position type `P`, and every statement about the application holds for
 * every such bundle.
 */
module ChessRules {

  datatype Option<+T> = None | Some(value: T)

  datatype Color = White | Black

  function Opponent(c: Color): (r: Color)
    ensures r != c
  {
    if c == White then Black else White
  }

  datatype PieceKind = Pawn | Knight | Bishop | Rook | Queen | King

  /** The lower-case letter chess.js uses for a piece type. */
  function KindLetter(k: PieceKind): char
  {
    match k
    case Pawn => 'p'
    case Knight => 'n'
    case Bishop => 'b'
    case Rook => 'r'
    case Queen => 'q'
    case King => 'k'
  }

  datatype Piece = Piece(kind: PieceKind, color: Color)

  const EmptyRow: seq<Option<Piece>> := seq(8, _ => None)

  /** One rank of `board()`: eight cells, file a first. */
  type Row = r: seq<Option<Piece>> | |r| == 8 witness EmptyRow

  const EmptyBoard: seq<Row> := seq(8, _ => EmptyRow)

  /** The result of `board()`: eight ranks, rank 8 first. */
  type Board = b: seq<Row> | |b| == 8 witness EmptyBoard

  /** A verbose move record as the library reports it. */
  datatype Move = Move(
    color: Color,
    from: string,
    to: string,
    flags: string,
    piece: PieceKind,
    san: string,
    promotion: Option<PieceKind>,
    captured: Option<PieceKind>)

  /** The `{ from, to, promotion }` object the application hands to `move`. */
  datatype MoveInput = MoveInput(from: string, to: string, promotion: Option<PieceKind>)

  function InputOf(m: Move): MoveInput
  {
    MoveInput(m.from, m.to, m.promotion)
  }

  /** What a successful `move` call leaves behind: the new position and the move record. */
  datatype Applied<!P> = Applied(position: P, move: Move)

  /**
   * The library's queries. `move` yields `None` where the library refuses the
   * move by throwing (and, for `makeMove`, which tests the answer, also where
   * it answers null); otherwise the position it moves to and the move record
   * it returns. `copy` is `new Chess(game.fen())`: a game in the same position
   * that keeps no move history.
   */
  datatype Rules<!P> = Rules(
    initial: P,
    turn: P -> Color,
    board: P -> Board,
    get: (P, string) -> Option<Piece>,
    moves: P -> seq<Move>,
    movesFrom: (P, string) -> seq<Move>,
    move: (P, MoveInput) -> Option<Applied<P>>,
    undo: P -> P,
    copy: P -> P,
    isCheck: P -> bool,
    isCheckmate: P -> bool,
    isDraw: P -> bool,
    isStalemate: P -> bool,
    isThreefoldRepetition: P -> bool,
    isInsufficientMaterial: P -> bool)

  /** The library's castling flags: 'k' for king side, 'q' for queen side. */
  predicate IsCastlingFlags(flags: string)
  {
    'k' in flags || 'q' in flags
  }

  /**
   * A fact of chess the engine's search relies on: a position that is neither
   * checkmate nor drawn has a legal move (no moves means mate or stalemate,
   * and the library counts stalemate as a draw).
   */
  ghost predicate NonTerminalHasMoves<P(!new)>(rules: Rules<P>)
  {
    forall p: P :: !rules.isCheckmate(p) && !rules.isDraw(p) ==> |rules.moves(p)| > 0
  }

  /** A fact of chess: every accepted move hands the turn to the other side. */
  ghost predicate AlternatesTurns<P(!new)>(rules: Rules<P>)
  {
    forall p: P, input: MoveInput :: rules.move(p, input).Some? ==>
      rules.turn(rules.move(p, input).value.position) == Opponent(rules.turn(p))
  }

  /** Play a listed move on a FEN copy of the game, as the search and the hint panel do. */
  function PlayOnCopy<P>(rules: Rules<P>, game: P, m: Move): Option<Applied<P>>
  {
    rules.move(rules.copy(game), InputOf(m))
  }

  /** A FEN copy has the same side to move. */
  ghost predicate CopyKeepsTurn<P(!new)>(rules: Rules<P>)
  {
    forall p: P :: rules.turn(rules.copy(p)) == rules.turn(p)
  }

  /**
   * A fact of chess: whether a move is accepted, and whether it mates, does not
   * depend on the move history, so a FEN copy answers as the game does.
   */
  ghost predicate CopyPlaysAlike<P(!new)>(rules: Rules<P>)
  {
    forall p: P, input: MoveInput ::
      && rules.move(rules.copy(p), input).Some? == rules.move(p, input).Some?
      && (rules.move(p, input).Some? ==>
            rules.isCheckmate(rules.move(rules.copy(p), input).value.position)
              == rules.isCheckmate(rules.move(p, input).value.position))
  }

  /** The library's `undo` takes back the move just made, restoring the position before it. */
  ghost predicate UndoReverts<P(!new)>(rules: Rules<P>)
  {
    forall p: P, input: MoveInput :: rules.move(p, input).Some? ==>
      rules.undo(rules.move(p, input).value.position) == p
  }

  /** The algebraic name of board cell [r][f]: file letter a..h, then rank digit 8..1. */
  function SquareName(r: nat, f: nat): (name: string)
    requires r < 8 && f < 8
    ensures |name| == 2 && 'a' <= name[0] <= 'h' && '1' <= name[1] <= '8'
    ensures name[0] as int == 97 + f && name[1] as int == 56 - r
  {
    [(97 + f) as char, (56 - r) as char]
  }

  lemma SquareNameInjective(r1: nat, f1: nat, r2: nat, f2: nat)
    requires r1 < 8 && f1 < 8 && r2 < 8 && f2 < 8
    ensures SquareName(r1, f1) == SquareName(r2, f2) <==> r1 == r2 && f1 == f2
  {
    if SquareName(r1, f1) == SquareName(r2, f2) {
      assert SquareName(r1, f1)[0] == SquareName(r2, f2)[0];
      assert SquareName(r1, f1)[1] == SquareName(r2, f2)[1];
    }
  }
}
