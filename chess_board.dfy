/**
 * The board controller (`ChessBoard`): the SETUP / PLAYING / PAUSED / ENDED
 * state machine, the game mode, square selection and move entry, captured
 * pieces and the move count, the clocks' on/off rule, and the 64 squares it
 * draws. The controller plays moves through the game ledger.
 */
module ChessBoard {
  import opened ChessRules
  import opened ChessGame
  import ChessTheme

  datatype GameState = Setup | Playing | Paused | Ended

  datatype GameMode = SinglePlayer | TwoPlayers

  datatype SquarePair = SquarePair(from: string, to: string)

  /** The controller's own state (everything but the ledger). */
  datatype Ui = Ui(
    gameState: GameState,
    gameMode: GameMode,
    aiColor: Color,
    selectedSquare: Option<string>,
    possibleMoves: seq<string>,
    showPromotionModal: bool,
    pendingMove: Option<SquarePair>,
    lastMove: Option<SquarePair>,
    moveCount: nat,
    capturedWhite: seq<PieceKind>,
    capturedBlack: seq<PieceKind>,
    initialTime: nat,
    whiteTime: nat,
    blackTime: nat)

  /** What a handler does to the ledger. */
  datatype LedgerEffect<!P> = Untouched | Played(applied: Applied<P>) | Restarted

  datatype Outcome<!P> = Outcome(ui: Ui, effect: LedgerEffect<P>)

  /**
   * The bookkeeping every handler keeps: no more captures than moves, no move
   * targets without a selected square, and the promotion dialog open exactly
   * when a promotion is pending.
   */
  predicate Coherent(ui: Ui)
  {
    && |ui.capturedWhite| + |ui.capturedBlack| <= ui.moveCount
    && (ui.selectedSquare.None? ==> ui.possibleMoves == [])
    && (ui.showPromotionModal <==> ui.pendingMove.Some?)
  }

  /** The state before any button is pressed: set-up, two players, computer on black, ten minutes each. */
  function InitialUi(): (ui: Ui)
    ensures Coherent(ui) && ui.gameState == Setup && ui.gameMode == TwoPlayers
  {
    Ui(Setup, TwoPlayers, Black, None, [], false, None, None, 0, [], [], 600, 600, 600)
  }

  /** `toggleGameMode`: only in set-up; switching to one player puts the computer on the side not to move. */
  function ToggleGameMode<P>(ui: Ui, rules: Rules<P>, game: P): (next: Ui)
    ensures ui.gameState != Setup ==> next == ui
    ensures ui.gameState == Setup ==> next.gameMode != ui.gameMode
    ensures ui.gameState == Setup && next.gameMode == SinglePlayer ==> next.aiColor == Opponent(rules.turn(game))
    ensures next.(gameMode := ui.gameMode, aiColor := ui.aiColor) == ui
  {
    if ui.gameState != Setup then ui
    else
      var newMode := if ui.gameMode == SinglePlayer then TwoPlayers else SinglePlayer;
      if newMode == SinglePlayer then ui.(gameMode := newMode, aiColor := Opponent(rules.turn(game)))
      else ui.(gameMode := newMode)
  }

  /** The fields Start and New Game both clear: clocks back to the initial time, no moves, no captures, no selection. */
  function Cleared(ui: Ui): (next: Ui)
    ensures next.moveCount == 0 && next.capturedWhite == [] && next.capturedBlack == []
    ensures next.whiteTime == ui.initialTime && next.blackTime == ui.initialTime
    ensures next.lastMove.None? && next.selectedSquare.None? && next.possibleMoves == []
  {
    ui.(whiteTime := ui.initialTime, blackTime := ui.initialTime, moveCount := 0,
        capturedWhite := [], capturedBlack := [], lastMove := None, selectedSquare := None, possibleMoves := [])
  }

  /** `handleStartGame`: playing, with the board's counters cleared; `aiFirst` says whether the computer opens. */
  function StartGame<P>(ui: Ui, rules: Rules<P>, game: P): (r: (Ui, bool))
    ensures r.0 == Cleared(ui).(gameState := Playing)
    ensures r.1 <==> ui.gameMode == SinglePlayer && rules.turn(game) == ui.aiColor
  {
    (Cleared(ui).(gameState := Playing), ui.gameMode == SinglePlayer && rules.turn(game) == ui.aiColor)
  }

  /** `handlePauseGame`: playing and paused swap; in set-up or after the end nothing happens. */
  function PauseGame(ui: Ui): (next: Ui)
    ensures ui.gameState == Playing ==> next == ui.(gameState := Paused)
    ensures ui.gameState == Paused ==> next == ui.(gameState := Playing)
    ensures ui.gameState != Playing && ui.gameState != Paused ==> next == ui
  {
    if ui.gameState == Playing then ui.(gameState := Paused)
    else if ui.gameState == Paused then ui.(gameState := Playing)
    else ui
  }

  /** A captured piece goes to the list of the colour `mover`; no capture leaves both lists. */
  function RecordCapture(ui: Ui, mover: Color, captured: Option<PieceKind>): (next: Ui)
    ensures captured.None? ==> next == ui
    ensures captured.Some? && mover == White ==> next == ui.(capturedWhite := ui.capturedWhite + [captured.value])
    ensures captured.Some? && mover == Black ==> next == ui.(capturedBlack := ui.capturedBlack + [captured.value])
  {
    match captured
    case None => ui
    case Some(k) =>
      if mover == White then ui.(capturedWhite := ui.capturedWhite + [k])
      else ui.(capturedBlack := ui.capturedBlack + [k])
  }

  /** After a move the game ends on checkmate or a draw. */
  function EndIfOver<P>(ui: Ui, rules: Rules<P>, position: P): (next: Ui)
    ensures next.gameState == if rules.isCheckmate(position) || rules.isDraw(position) then Ended else ui.gameState
    ensures next.(gameState := ui.gameState) == ui
  {
    if rules.isCheckmate(position) || rules.isDraw(position) then ui.(gameState := Ended) else ui
  }

  /**
   * A click on `square` with `from` selected that is not a promotion: try the
   * move; if it is played, file its capture under the side that moved, record
   * it as the last move and count it, and end the game on checkmate or a draw;
   * either way clear the selection.
   */
  function PlayClicked<P>(ui: Ui, rules: Rules<P>, game: P, from: string, square: string): Outcome<P>
  {
    match rules.move(game, MoveInput(from, square, None))
    case None => Outcome(ui.(selectedSquare := None, possibleMoves := []), Untouched)
    case Some(applied) =>
      var recorded := RecordCapture(ui, rules.turn(game), applied.move.captured);
      var counted := recorded.(lastMove := Some(SquarePair(from, square)), moveCount := ui.moveCount + 1);
      Outcome(EndIfOver(counted, rules, applied.position).(selectedSquare := None, possibleMoves := []), Played(applied))
  }

  /** `handleSquareClick`, the ledger's side included. */
  function SquareClick<P>(ui: Ui, rules: Rules<P>, game: P, square: string): Outcome<P>
  {
    var turn := rules.turn(game);
    var piece := rules.get(game, square);
    if ui.gameState != Playing then Outcome(ui, Untouched)
    else if ui.gameMode == SinglePlayer && ui.selectedSquare.None? && piece.Some? && piece.value.color == ui.aiColor then
      Outcome(ui, Untouched)
    else if ui.selectedSquare.Some? then
      var from := ui.selectedSquare.value;
      if IsPromotion(rules, game, from, square) then
        Outcome(ui.(pendingMove := Some(SquarePair(from, square)), showPromotionModal := true), Untouched)
      else PlayClicked(ui, rules, game, from, square)
    else if piece.Some? && piece.value.color == turn then
      Outcome(ui.(selectedSquare := Some(square), possibleMoves := LegalMovesForSquare(rules, game, square)), Untouched)
    else Outcome(ui, Untouched)
  }

  /** `handlePromotionSelect`: play the pending move with the chosen piece, then close the dialog and clear the selection. */
  function PromotionSelect<P>(ui: Ui, rules: Rules<P>, game: P, kind: PieceKind): Outcome<P>
  {
    match ui.pendingMove
    case None => Outcome(ui, Untouched)
    case Some(pending) =>
      var closed := ui.(showPromotionModal := false, pendingMove := None, selectedSquare := None, possibleMoves := []);
      match rules.move(game, MoveInput(pending.from, pending.to, Some(kind)))
      case None => Outcome(closed, Untouched)
      case Some(applied) => Outcome(closed.(lastMove := Some(pending), moveCount := ui.moveCount + 1), Played(applied))
  }

  /** `handleTimeUp`: the game ends and the side not to move wins. */
  function TimeUp<P>(ui: Ui, rules: Rules<P>, game: P): (r: (Ui, Color))
    ensures r.0 == ui.(gameState := Ended)
    ensures r.1 != rules.turn(game)
  {
    (ui.(gameState := Ended), Opponent(rules.turn(game)))
  }

  /** `handleNewGame`: a fresh ledger game, back to set-up with the counters cleared. */
  function NewGame<P>(ui: Ui): Outcome<P>
  {
    Outcome(Cleared(ui).(gameState := Setup), Restarted)
  }

  /**
   * The computer's `onMove`: only while playing; a refused move changes
   * nothing; a capture goes to the colour opposite the side to move after
   * the move, and the game ends on checkmate or a draw.
   */
  function AIMove<P>(ui: Ui, rules: Rules<P>, game: P, from: string, to: string, promotion: Option<PieceKind>): Outcome<P>
  {
    if ui.gameState != Playing then Outcome(ui, Untouched)
    else
      match rules.move(game, MoveInput(from, to, promotion))
      case None => Outcome(ui, Untouched)
      case Some(applied) =>
        var counted := ui.(lastMove := Some(SquarePair(from, to)), moveCount := ui.moveCount + 1);
        var recorded := RecordCapture(counted, Opponent(rules.turn(applied.position)), applied.move.captured);
        Outcome(EndIfOver(recorded, rules, applied.position), Played(applied))
  }

  datatype Event =
    | ToggleMode
    | Start
    | Pause
    | Click(square: string)
    | Promote(kind: PieceKind)
    | Timeout
    | Restart
    | ComputerMove(from: string, to: string, promotion: Option<PieceKind>)

  /** Every handler as one transition. */
  function Step<P>(ui: Ui, rules: Rules<P>, game: P, e: Event): Outcome<P>
  {
    match e
    case ToggleMode => Outcome(ToggleGameMode(ui, rules, game), Untouched)
    case Start => Outcome(StartGame(ui, rules, game).0, Untouched)
    case Pause => Outcome(PauseGame(ui), Untouched)
    case Click(square) => SquareClick(ui, rules, game, square)
    case Promote(kind) => PromotionSelect(ui, rules, game, kind)
    case Timeout => Outcome(TimeUp(ui, rules, game).0, Untouched)
    case Restart => NewGame(ui)
    case ComputerMove(from, to, promotion) => AIMove(ui, rules, game, from, to, promotion)
  }

  /** Every handler keeps the bookkeeping coherent. */
  lemma StepKeepsCoherent<P>(ui: Ui, rules: Rules<P>, game: P, e: Event)
    requires Coherent(ui)
    ensures Coherent(Step(ui, rules, game, e).ui)
  {
    match e
    case Click(square) => ClickKeepsCoherent(ui, rules, game, square);
    case ComputerMove(from, to, promotion) => AIMoveKeepsCoherent(ui, rules, game, from, to, promotion);
    case _ =>
  }

  lemma ClickKeepsCoherent<P>(ui: Ui, rules: Rules<P>, game: P, square: string)
    requires Coherent(ui)
    ensures Coherent(SquareClick(ui, rules, game, square).ui)
  {
    LegalMovesCoherent(rules, game, square);
  }

  lemma AIMoveKeepsCoherent<P>(ui: Ui, rules: Rules<P>, game: P, from: string, to: string, promotion: Option<PieceKind>)
    requires Coherent(ui)
    ensures Coherent(AIMove(ui, rules, game, from, to, promotion).ui)
  {
  }

  lemma LegalMovesCoherent<P>(rules: Rules<P>, game: P, square: string)
    ensures |LegalMovesForSquare(rules, game, square)| == |rules.movesFrom(game, square)|
  {
  }

  /**
   * Start and Pause move the game between set-up, playing and paused; once
   * ended, only Start and New Game leave that state; New Game always returns
   * to set-up; a time-out always ends the game.
   */
  lemma StateMachine<P>(ui: Ui, rules: Rules<P>, game: P, e: Event)
    ensures var next := Step(ui, rules, game, e).ui.gameState;
      && (e.Start? ==> next == Playing)
      && (e.Restart? ==> next == Setup)
      && (e.Timeout? ==> next == Ended)
      && (e.Pause? && ui.gameState == Playing ==> next == Paused)
      && (e.Pause? && ui.gameState == Paused ==> next == Playing)
      && (ui.gameState == Ended && !e.Start? && !e.Restart? ==> next == Ended)
      && (ui.gameState == Setup && !e.Start? && !e.Timeout? ==> next == Setup)
  {
  }

  /**
   * Start and New Game both put the clocks back to the initial time and clear
   * the move count, both captured lists, the last move and the selection.
   */
  lemma StartAndNewGameReset<P>(ui: Ui, rules: Rules<P>, game: P, e: Event)
    requires e.Start? || e.Restart?
    ensures var next := Step(ui, rules, game, e).ui;
      && next.moveCount == 0 && next.capturedWhite == [] && next.capturedBlack == []
      && next.whiteTime == ui.initialTime && next.blackTime == ui.initialTime
      && next.lastMove.None? && next.selectedSquare.None? && next.possibleMoves == []
      && next.gameMode == ui.gameMode && next.aiColor == ui.aiColor
  {
  }

  /** Pausing twice gives back the same state, whatever it was. */
  lemma PauseTwiceRestores(ui: Ui)
    ensures PauseGame(PauseGame(ui)) == ui
  {
  }

  /**
   * Among the board's events, the mode changes only by the toggle and only in
   * set-up, and the computer's colour only with it. The settings dialog's Save,
   * which also sets the colour, is not one of these events.
   */
  lemma ModeOnlyInSetup<P>(ui: Ui, rules: Rules<P>, game: P, e: Event)
    ensures var next := Step(ui, rules, game, e).ui;
      && (next.gameMode != ui.gameMode ==> e.ToggleMode? && ui.gameState == Setup)
      && (next.aiColor != ui.aiColor ==>
            e.ToggleMode? && ui.gameState == Setup && next.gameMode == SinglePlayer && next.aiColor == Opponent(rules.turn(game)))
  {
  }

  /** Clicks do nothing unless the game is being played, nor on the computer's pieces when nothing is selected. */
  lemma ClickIgnored<P>(ui: Ui, rules: Rules<P>, game: P, square: string)
    requires ui.gameState != Playing
      || (ui.gameMode == SinglePlayer && ui.selectedSquare.None?
          && rules.get(game, square).Some? && rules.get(game, square).value.color == ui.aiColor)
    ensures SquareClick(ui, rules, game, square) == Outcome(ui, Untouched)
  {
  }

  /** With nothing selected, clicking a piece of the side to move selects it and shows exactly its legal destinations. */
  lemma ClickSelects<P>(ui: Ui, rules: Rules<P>, game: P, square: string)
    requires ui.gameState == Playing && ui.selectedSquare.None?
    requires rules.get(game, square).Some? && rules.get(game, square).value.color == rules.turn(game)
    requires ui.gameMode == SinglePlayer ==> rules.turn(game) != ui.aiColor
    ensures var out := SquareClick(ui, rules, game, square);
      && out.effect.Untouched?
      && out.ui == ui.(selectedSquare := Some(square), possibleMoves := LegalMovesForSquare(rules, game, square))
      && |out.ui.possibleMoves| == |rules.movesFrom(game, square)|
      && forall i :: 0 <= i < |out.ui.possibleMoves| ==> out.ui.possibleMoves[i] == rules.movesFrom(game, square)[i].to
  {
  }

  /**
   * With a square selected: a promotion target only stores the pending move
   * and opens the dialog; any other target tries the move and, played or
   * not, clears the selection and the destinations. A played move counts
   * once, is the last move, and its capture goes to the side that moved.
   */
  lemma ClickWithSelection<P>(ui: Ui, rules: Rules<P>, game: P, square: string)
    requires ui.gameState == Playing && ui.selectedSquare.Some?
    ensures var from := ui.selectedSquare.value;
      var out := SquareClick(ui, rules, game, square);
      && (IsPromotion(rules, game, from, square) ==>
            out == Outcome(ui.(pendingMove := Some(SquarePair(from, square)), showPromotionModal := true), Untouched))
      && (!IsPromotion(rules, game, from, square) ==>
            && out.ui.selectedSquare.None? && out.ui.possibleMoves == []
            && (out.effect.Played? <==> rules.move(game, MoveInput(from, square, None)).Some?)
            && (out.effect.Untouched? <==> rules.move(game, MoveInput(from, square, None)).None?)
            && (out.effect.Played? ==>
                  && out.effect.applied == rules.move(game, MoveInput(from, square, None)).value
                  && out.ui.moveCount == ui.moveCount + 1
                  && out.ui.lastMove == Some(SquarePair(from, square))
                  && (out.ui.gameState == Ended <==>
                        rules.isCheckmate(out.effect.applied.position) || rules.isDraw(out.effect.applied.position))
                  && CapturedByMover(ui, out.ui, rules.turn(game), out.effect.applied.move.captured))
            && (out.effect.Untouched? ==> out.ui == ui.(selectedSquare := None, possibleMoves := [])))
  {
  }

  /** `mover`'s list gained exactly the captured piece (if any) and the other list is as it was. */
  predicate CapturedByMover(before: Ui, after: Ui, mover: Color, captured: Option<PieceKind>)
  {
    var extra := if captured.Some? then [captured.value] else [];
    if mover == White then after.capturedWhite == before.capturedWhite + extra && after.capturedBlack == before.capturedBlack
    else after.capturedBlack == before.capturedBlack + extra && after.capturedWhite == before.capturedWhite
  }

  /**
   * The computer's captures are filed by the side to move after its move;
   * with the library alternating turns that is again the side that moved.
   */
  lemma AICaptureGoesToMover<P>(ui: Ui, rules: Rules<P>, game: P, from: string, to: string, promotion: Option<PieceKind>)
    requires ui.gameState == Playing
    requires rules.move(game, MoveInput(from, to, promotion)).Some?
    requires rules.turn(rules.move(game, MoveInput(from, to, promotion)).value.position) == Opponent(rules.turn(game))
    ensures var out := AIMove(ui, rules, game, from, to, promotion);
      var applied := rules.move(game, MoveInput(from, to, promotion)).value;
      && out.effect == Played(applied)
      && out.ui.moveCount == ui.moveCount + 1
      && CapturedByMover(ui, out.ui, rules.turn(game), applied.move.captured)
  {
  }

  /** A promotion move counts and becomes the last move, but records no capture and never ends the game. */
  lemma PromotionBookkeeping<P>(ui: Ui, rules: Rules<P>, game: P, kind: PieceKind)
    requires ui.pendingMove.Some?
    ensures var out := PromotionSelect(ui, rules, game, kind);
      var attempt := rules.move(game, MoveInput(ui.pendingMove.value.from, ui.pendingMove.value.to, Some(kind)));
      && !out.ui.showPromotionModal && out.ui.pendingMove.None? && out.ui.selectedSquare.None?
      && out.ui.gameState == ui.gameState
      && out.ui.capturedWhite == ui.capturedWhite && out.ui.capturedBlack == ui.capturedBlack
      && (out.ui.moveCount == ui.moveCount + 1 <==> attempt.Some?)
      && (attempt.None? ==> out.ui.moveCount == ui.moveCount)
  {
  }

  /** Each clock runs exactly while the game is being played and its colour is to move. */
  function TimerActive(state: GameState, turn: Color, c: Color): bool
  {
    state == Playing && turn == c
  }

  /** So the two clocks never run at once, and at most one runs in any state. */
  lemma OneClockAtATime(state: GameState, turn: Color)
    ensures !(TimerActive(state, turn, White) && TimerActive(state, turn, Black))
    ensures TimerActive(state, turn, White) || TimerActive(state, turn, Black) <==> state == Playing
  {
  }

  /** `getGameStatusText`. */
  function StatusText<P>(state: GameState, rules: Rules<P>, game: P, isThinking: bool): (text: string)
    ensures state == Setup <==> text == "Press 'Start Game' to begin"
    ensures state == Paused <==> text == "Game Paused"
    ensures text == "Checkmate!" <==> state == Ended && rules.isCheckmate(game)
    ensures text == "Draw!" <==> state == Ended && !rules.isCheckmate(game) && rules.isDraw(game)
    ensures text == "Check!" <==> state == Playing && rules.isCheck(game)
    ensures text == "AI thinking..." <==> state == Playing && !rules.isCheck(game) && isThinking
    ensures text == "White to move" <==> state == Playing && !rules.isCheck(game) && !isThinking && rules.turn(game) == White
    ensures text == "Black to move" <==> state == Playing && !rules.isCheck(game) && !isThinking && rules.turn(game) == Black
    ensures text == "Game Ended" <==> state == Ended && !rules.isCheckmate(game) && !rules.isDraw(game)
  {
    match state
    case Setup => "Press 'Start Game' to begin"
    case Paused => "Game Paused"
    case Ended => if rules.isCheckmate(game) then "Checkmate!" else if rules.isDraw(game) then "Draw!" else "Game Ended"
    case Playing =>
      if rules.isCheck(game) then "Check!"
      else if isThinking then "AI thinking..."
      else
        match rules.turn(game)
        case White => "White to move"
        case Black => "Black to move"
  }

  /** One drawn square: its name, colour, highlight flags, theme style and the piece the square map holds. */
  datatype SquareView = SquareView(
    name: string,
    isLight: bool,
    isSelected: bool,
    isPossibleMove: bool,
    isLastMove: bool,
    style: ChessTheme.SquareStyle,
    piece: Option<Piece>)

  function SquareAt(ui: Ui, colors: ChessTheme.ThemeColors, position: SquareMap, r: nat, f: nat): (view: SquareView)
    requires r < 8 && f < 8
    ensures view.name == SquareName(r, f)
    ensures view.isLight <==> (r + f) % 2 == 0
    ensures view.isSelected <==> ui.selectedSquare == Some(view.name)
    ensures view.isPossibleMove <==> view.name in ui.possibleMoves
    ensures view.isLastMove <==> ui.lastMove.Some? && (view.name == ui.lastMove.value.from || view.name == ui.lastMove.value.to)
    ensures view.piece.Some? <==> view.name in position
  {
    var square := SquareName(r, f);
    var isLight := (r + f) % 2 == 0;
    var isSelected := ui.selectedSquare == Some(square);
    var isPossibleMove := square in ui.possibleMoves;
    var isLastMove := ui.lastMove.Some? && (square == ui.lastMove.value.from || square == ui.lastMove.value.to);
    SquareView(square, isLight, isSelected, isPossibleMove, isLastMove,
      ChessTheme.SquareStyles(colors, isLight, isSelected, isPossibleMove, isLastMove),
      if square in position then Some(position[square]) else None)
  }

  /**
   * The 64 squares are all different, run a8, b8, ..., h8 down to a1, ..., h1,
   * and every board square appears.
   */
  lemma BoardSquaresDistinct(ui: Ui, colors: ChessTheme.ThemeColors, position: SquareMap, board: seq<SquareView>)
    requires |board| == 64
    requires forall k :: 0 <= k < 64 ==> board[k] == SquareAt(ui, colors, position, k / 8, k % 8)
    ensures forall j, k :: 0 <= j < k < 64 ==> board[j].name != board[k].name
    ensures board[0].name == "a8" && board[7].name == "h8" && board[56].name == "a1" && board[63].name == "h1"
    ensures forall r: nat, f: nat :: r < 8 && f < 8 ==> board[8 * r + f].name == SquareName(r, f)
  {
    forall j, k | 0 <= j < k < 64 ensures board[j].name != board[k].name {
      SquareNameInjective(j / 8, j % 8, k / 8, k % 8);
    }
    forall r: nat, f: nat | r < 8 && f < 8 ensures board[8 * r + f].name == SquareName(r, f) {
      DivMod8(r, f);
    }
  }

  /** Appending the next square in drawing order keeps a drawn prefix drawn. */
  lemma DrawnExtend(ui: Ui, colors: ChessTheme.ThemeColors, position: SquareMap, board: seq<SquareView>, view: SquareView)
    requires |board| < 64
    requires forall k :: 0 <= k < |board| ==> board[k] == SquareAt(ui, colors, position, k / 8, k % 8)
    requires view == SquareAt(ui, colors, position, |board| / 8, |board| % 8)
    ensures forall k :: 0 <= k < |board| + 1 ==> (board + [view])[k] == SquareAt(ui, colors, position, k / 8, k % 8)
  {
  }

  lemma DivMod8(r: nat, f: nat)
    requires f < 8
    ensures (8 * r + f) / 8 == r && (8 * r + f) % 8 == f
  {
  }

  /**
   * The ledger did what the handler's effect says: nothing, the applied move
   * (game advanced, the entry appended with the previous square map, the map
   * in step with the board), or a fresh game with an empty history.
   */
  twostate predicate Follows<P>(ledger: Ledger<P>, effect: LedgerEffect<P>)
    reads ledger
  {
    match effect
    case Untouched =>
      && ledger.game == old(ledger.game) && ledger.history == old(ledger.history)
      && ledger.currentPosition == old(ledger.currentPosition)
    case Played(applied) =>
      && ledger.game == applied.position && ledger.Valid()
      && ledger.history == old(ledger.history) + [HistoryItem(applied.move, old(ledger.currentPosition))]
    case Restarted =>
      ledger.game == ledger.rules.initial && ledger.history == [] && ledger.Valid()
  }

  /**
   * The controller: the ledger it plays through, its own state (the
   * component's state hooks, kept as one record) and the board theme name.
   */
  class BoardController<P> {
    const ledger: Ledger<P>
    var ui: Ui
    var boardTheme: string

    constructor(ledger: Ledger<P>)
      ensures this.ledger == ledger && ui == InitialUi() && boardTheme == "classic"
    {
      this.ledger := ledger;
      ui := Ui(Setup, TwoPlayers, Black, None, [], false, None, None, 0, [], [], 600, 600, 600);
      boardTheme := "classic";
    }

    method ToggleGameModeClicked()
      modifies this
      ensures ui == ToggleGameMode(old(ui), ledger.rules, ledger.game)
      ensures boardTheme == old(boardTheme)
    {
      if ui.gameState != Setup {
        return;
      }
      var newMode := if ui.gameMode == SinglePlayer then TwoPlayers else SinglePlayer;
      if newMode == SinglePlayer {
        ui := ui.(aiColor := Opponent(ledger.rules.turn(ledger.game)));
      }
      ui := ui.(gameMode := newMode);
    }

    method StartGameClicked() returns (aiFirst: bool)
      modifies this
      ensures (ui, aiFirst) == StartGame(old(ui), ledger.rules, ledger.game)
      ensures boardTheme == old(boardTheme)
    {
      ui := ui.(gameState := Playing);
      ui := ui.(whiteTime := ui.initialTime, blackTime := ui.initialTime);
      ui := ui.(moveCount := 0, capturedWhite := [], capturedBlack := []);
      ui := ui.(lastMove := None, selectedSquare := None, possibleMoves := []);
      aiFirst := ui.gameMode == SinglePlayer && ledger.rules.turn(ledger.game) == ui.aiColor;
    }

    method PauseGameClicked()
      modifies this
      ensures ui == PauseGame(old(ui))
      ensures boardTheme == old(boardTheme)
    {
      if ui.gameState == Playing {
        ui := ui.(gameState := Paused);
      } else if ui.gameState == Paused {
        ui := ui.(gameState := Playing);
      }
    }

    method SquareClicked(square: string)
      modifies this, ledger
      ensures var out := SquareClick(old(ui), ledger.rules, old(ledger.game), square);
        ui == out.ui && Follows(ledger, out.effect)
      ensures boardTheme == old(boardTheme)
    {
      var rules := ledger.rules;
      var game := ledger.game;
      var turn := rules.turn(game);
      if ui.gameState != Playing {
        return;
      }
      if ui.gameMode == SinglePlayer {
        var piece := rules.get(game, square);
        if ui.selectedSquare.None? && piece.Some? && piece.value.color == ui.aiColor {
          return;
        }
      }
      if ui.selectedSquare.Some? {
        var from := ui.selectedSquare.value;
        if IsPromotion(rules, game, from, square) {
          ui := ui.(pendingMove := Some(SquarePair(from, square)), showPromotionModal := true);
          return;
        }
        PlaySelected(from, square);
        return;
      }
      var piece := rules.get(game, square);
      if piece.Some? && piece.value.color == turn {
        ui := ui.(selectedSquare := Some(square), possibleMoves := LegalMovesForSquare(rules, game, square));
      }
    }

    /** File a captured piece (if any) under `mover`. */
    method AddCapture(mover: Color, captured: Option<PieceKind>)
      modifies this
      ensures ui == RecordCapture(old(ui), mover, captured)
      ensures boardTheme == old(boardTheme)
    {
      if captured.Some? {
        if mover == White {
          ui := ui.(capturedWhite := ui.capturedWhite + [captured.value]);
        } else {
          ui := ui.(capturedBlack := ui.capturedBlack + [captured.value]);
        }
      }
    }

    /** End the game if the ledger's position is checkmate or a draw. */
    method EndIfGameOver()
      modifies this
      ensures ui == EndIfOver(old(ui), ledger.rules, ledger.game)
      ensures boardTheme == old(boardTheme)
    {
      if ledger.rules.isCheckmate(ledger.game) {
        ui := ui.(gameState := Ended);
      } else if ledger.rules.isDraw(ledger.game) {
        ui := ui.(gameState := Ended);
      }
    }

    /** The move half of `handleSquareClick`. */
    method PlaySelected(from: string, square: string)
      modifies this, ledger
      ensures var out := PlayClicked(old(ui), ledger.rules, old(ledger.game), from, square);
        ui == out.ui && Follows(ledger, out.effect)
      ensures boardTheme == old(boardTheme)
    {
      var rules := ledger.rules;
      var turn := rules.turn(ledger.game);
      var moveResult := ledger.MakeMove(from, square, None);
      if moveResult.Some? {
        AddCapture(turn, moveResult.value.captured);
        ui := ui.(lastMove := Some(SquarePair(from, square)), moveCount := ui.moveCount + 1);
        EndIfGameOver();
      }
      ui := ui.(selectedSquare := None, possibleMoves := []);
    }

    method PromotionSelected(kind: PieceKind)
      modifies this, ledger
      ensures var out := PromotionSelect(old(ui), ledger.rules, old(ledger.game), kind);
        ui == out.ui && Follows(ledger, out.effect)
      ensures boardTheme == old(boardTheme)
    {
      if ui.pendingMove.Some? {
        var pending := ui.pendingMove.value;
        var moveResult := ledger.MakeMove(pending.from, pending.to, Some(kind));
        if moveResult.Some? {
          ui := ui.(lastMove := Some(pending), moveCount := ui.moveCount + 1);
        }
        ui := ui.(showPromotionModal := false, pendingMove := None, selectedSquare := None, possibleMoves := []);
      }
    }

    method TimeUpFired() returns (winner: Color)
      modifies this
      ensures (ui, winner) == TimeUp(old(ui), ledger.rules, ledger.game)
      ensures boardTheme == old(boardTheme)
    {
      winner := if ledger.rules.turn(ledger.game) == White then Black else White;
      ui := ui.(gameState := Ended);
    }

    method NewGameClicked()
      modifies this, ledger
      ensures ui == NewGame<P>(old(ui)).ui && Follows(ledger, Restarted)
      ensures boardTheme == old(boardTheme)
    {
      ledger.Reset();
      ui := ui.(gameState := Setup);
      ui := ui.(whiteTime := ui.initialTime, blackTime := ui.initialTime);
      ui := ui.(moveCount := 0, capturedWhite := [], capturedBlack := []);
      ui := ui.(lastMove := None, selectedSquare := None, possibleMoves := []);
    }

    method ComputerMoved(from: string, to: string, promotion: Option<PieceKind>)
      modifies this, ledger
      ensures var out := AIMove(old(ui), ledger.rules, old(ledger.game), from, to, promotion);
        ui == out.ui && Follows(ledger, out.effect)
      ensures boardTheme == old(boardTheme)
    {
      if ui.gameState != Playing {
        return;
      }
      var rules := ledger.rules;
      var result := ledger.MakeMove(from, to, promotion);
      if result.Some? {
        ui := ui.(lastMove := Some(SquarePair(from, to)), moveCount := ui.moveCount + 1);
        var capturer := if rules.turn(ledger.game) == White then Black else White;
        AddCapture(capturer, result.value.captured);
        EndIfGameOver();
      }
    }

    /** `renderBoard`: the squares rank by rank from rank 8, file by file from file a. */
    method RenderBoard() returns (board: seq<SquareView>)
      ensures |board| == 64
      ensures forall k :: 0 <= k < 64 ==>
        board[k] == SquareAt(ui, ChessTheme.Colors(boardTheme), ledger.currentPosition, k / 8, k % 8)
    {
      board := [];
      var colors := ChessTheme.Colors(boardTheme);
      for r := 0 to 8
        invariant |board| == 8 * r
        invariant forall k :: 0 <= k < |board| ==> board[k] == SquareAt(ui, colors, ledger.currentPosition, k / 8, k % 8)
      {
        for f := 0 to 8
          invariant |board| == 8 * r + f
          invariant forall k :: 0 <= k < |board| ==> board[k] == SquareAt(ui, colors, ledger.currentPosition, k / 8, k % 8)
        {
          var square := SquareName(r, f);
          var piece := if square in ledger.currentPosition then Some(ledger.currentPosition[square]) else None;
          var isLight := (r + f) % 2 == 0;
          var isSelected := ui.selectedSquare.Some? && square == ui.selectedSquare.value;
          var isPossibleMove := square in ui.possibleMoves;
          var isLastMoveSquare := if ui.lastMove.Some? then square == ui.lastMove.value.from || square == ui.lastMove.value.to else false;
          var style := ChessTheme.SquareStyles(colors, isLight, isSelected, isPossibleMove, isLastMoveSquare);
          var view := SquareView(square, isLight, isSelected, isPossibleMove, isLastMoveSquare, style, piece);
          assert view == SquareAt(ui, colors, ledger.currentPosition, r, f);
          DivMod8(r, f);
          DrawnExtend(ui, colors, ledger.currentPosition, board, view);
          board := board + [view];
        }
      }
    }
  }
}
