# A verified model of a browser chess UI and its computer opponent

This project models the core of a Next.js chess application in Dafny. The
application delegates all chess legality to the `chess.js` library. Here that
library is an abstract bundle of functions, `ChessRules.Rules<P>`, over an
opaque position type `P`. It follows the shapes the repository declares in
`src/types/chess-js.d.ts`: turn, legal moves, apply a move (`None` for the
exception an illegal move throws), undo, checkmate, draw, stalemate,
repetition, insufficient material, check, and board/get. Every lemma below
holds for every such bundle. The few chess facts a lemma needs are written as
its own `requires`, for example "a position that is neither mate nor drawn has
a move".

Modules follow the source files:

- `ChessRules`: the library's data (colours, pieces, moves, board) and the square names `a1`..`h8`.
- `Evaluator`, `Search`, `Selector`: `useChessAI.ts`.
  - `Evaluator` is the static evaluation: material, centre, mobility, check.
  - `Search` is the depth-limited minimax with mate, draw and fault scores.
  - `Selector` is the tiered move choice, the thinking time and the `isThinking` flag, in class `ChessAI`.
- `MoveHint`: the hint panel's heuristic, its descending sort and the top three.
- `ChessGame`: `useChessGame.ts`.
  - Class `Ledger` holds the library game, the history and the square map.
  - It also has the promotion, en-passant, castling and draw predicates.
- `GameHistory`: pairing moves into numbered rows.
- `Clock`: `Timer.tsx`. It holds the tick, the reset and interval rule (class `Timer`) and the MM:SS formatter.
- `GameStats`: glyphs for captured pieces, the status word and the clock lines.
- `ChessBoard`: `ChessBoard.tsx`.
  - Each event handler is a pure transition on one `Ui` record plus its effect on the ledger.
  - Class `BoardController` runs these transitions on its state and on the `Ledger`.
  - It also holds the 64-square rendering, the active-clock rule and the status text.
- `ChessTheme`, `Square`: colours and shadows of squares, and a square's class attribute.

Scores are `real`, because of the 0.1 mobility factor. The `±Infinity` start
value of the search accumulators is an extended score, `NegInf | Fin(r) |
PosInf`. `Math.random` draws come from an injected sequence of reals in
[0, 1). They are used in program order: one jitter per legal move for Easy
and Medium, then the override test, then the index for Easy's random move.

## Model

| member | source | states |
|---|---|---|
| ChessRules.Opponent | src/types/chess-js.d.ts:1-48 | the other colour is never the same colour |
| ChessRules.SquareName | src/hooks/useChessGame.ts:38-40 | the name of cell [r][f] is two characters: the file letter with code 97+f, then the rank digit 8−r |
| ChessRules.SquareNameInjective | src/components/ChessBoard.tsx:355-360 | two cells have the same name exactly when they are the same cell |
| Evaluator.PieceValue | src/hooks/useChessAI.ts:106-113 | piece values are at most 90, and a value is 0 exactly for the king |
| Evaluator.MaterialIsWeightDifference | src/hooks/useChessAI.ts:106-127 | material is the computer's piece weight minus the opponent's; swapping sides negates it; it lies within ±5760 |
| Evaluator.MaterialIgnoresKings | src/hooks/useChessAI.ts:106-127 | boards that differ only in kings or empty squares have the same material |
| Evaluator.CentreCount | src/hooks/useChessAI.ts:129-136 | the number of the computer's pieces found among the first n centre squares is at most n |
| Evaluator.CentreBonus | src/hooks/useChessAI.ts:129-136 | the centre bonus is a multiple of 5 and at most 20 |
| Evaluator.EvaluationSideSwap | src/hooks/useChessAI.ts:105-151 | the two sides' evaluations sum to both centre bonuses, plus 50 when the side to move is in check: material and mobility cancel |
| Evaluator.EvaluatePosition | src/hooks/useChessAI.ts:105-151 | the accumulating loops compute `Evaluation`: material + centre + ±0.1×moves + check bonus |
| Search.Max | src/hooks/useChessAI.ts:90-91 | the larger of two scores is at least both and is one of them |
| Search.Min | src/hooks/useChessAI.ts:93-94 | the smaller of two scores is at most both and is one of them |
| Search.BestIsExtreme | src/hooks/useChessAI.ts:83-97 | the accumulated max (min) over the replies is one of the replies' scores or the start value, and bounds every reply's score from above (below) |
| Search.MateInOneOutranks | src/hooks/useChessAI.ts:56-102 | at Hard's depth 2, with alternating turns, a legal move in every live position and every leaf evaluation below 10000, a mate in one (judged on the FEN copy the search plays on) scores exactly 10000 and every move that does not mate scores strictly less, because the opponent's best reply holds it below the mate score |
| Search.SearchScoreIsMinimax | src/hooks/useChessAI.ts:83-97 | away from mate and draw, a move's score equals some reply's score and bounds all of them (max when the computer is to move, min otherwise) |
| Search.SearchScoreWithin | src/hooks/useChessAI.ts:56-102 | when every live position has a move, and [lo, hi] holds ±10000 and every leaf evaluation, every score is finite and lies in [lo, hi] |
| Search.EvaluateMove | src/hooks/useChessAI.ts:56-102 | the method plays the move on a FEN copy of the position, as the code does, and its for-loop over the replies computes `SearchScore`; the position passed in is a value and stays unchanged |
| Selector.ThinkingTime | src/hooks/useChessAI.ts:42-53 | the delay is 300..800 ms; below 500 exactly for Easy, above 500 exactly for Hard |
| Selector.QuickScore | src/hooks/useChessAI.ts:191-219 | the heuristic is at most 1090, and is 0 for a move with no capture, promotion, check, mate or castling |
| Selector.Scores | src/hooks/useChessAI.ts:187-241 | one score per legal move |
| Selector.Select | src/hooks/useChessAI.ts:183-241 | the pick indexes the list and carries its score; no pick leaves −∞ |
| Selector.SelectIsFirstMaximum | src/hooks/useChessAI.ts:227-240 | no pick exactly when every score is −∞; otherwise the pick is at least every score and strictly above every earlier score (the first maximum wins) |
| Selector.RandomIndex | src/hooks/useChessAI.ts:244-245 | `Math.floor(r × n)` is a valid index for r in [0, 1) |
| Selector.ChosenIndex | src/hooks/useChessAI.ts:161-253 | a chosen index is an index of the legal-move list |
| Selector.ChoiceIsLegal | src/hooks/useChessAI.ts:243-252 | the returned from/to/promotion is that of a legal move, also after Easy's random override |
| Selector.SearchScoreFinite | src/hooks/useChessAI.ts:83-97 | when every live position has a move, no search score is an infinity, so the `±Infinity` start value never survives |
| Selector.ChoiceNoneIff | src/hooks/useChessAI.ts:163-175 | the result is null exactly when the computer may not move: wrong turn, mate, draw or stalemate, or no legal move |
| Selector.HardFindsMate | src/hooks/useChessAI.ts:233-239 | when a listed move mates on the search's FEN copy, Hard returns a move scoring at least 10000 |
| Selector.HardPlaysMate | src/hooks/useChessAI.ts:161-253 | when a mate in one exists, the move Hard returns gives mate (with alternating turns, a move in every live position and every leaf evaluation below 10000) |
| Selector.ClearWinnerIsChosen | src/hooks/useChessAI.ts:222-230 | a move whose heuristic beats all others by the jitter span (30 Easy, 10 Medium) is chosen unless the override fires |
| Selector.JitterBelowMargin | src/hooks/useChessAI.ts:222-226 | jitter in [0, span) cannot close a gap of at least the span |
| Selector.QuickMoveScore | src/hooks/useChessAI.ts:189-226 | the straight-line heuristic plus jitter equals `Jittered` |
| Selector.ScoreMove | src/hooks/useChessAI.ts:189-239 | a move's score is the jittered heuristic for Easy and Medium, and the depth-2 search for Hard |
| Selector.ScanMoves | src/hooks/useChessAI.ts:187-241 | the loop with strict-greater updates returns the move at the first maximum of `Scores` |
| Selector.FindBestMove | src/hooks/useChessAI.ts:161-253 | the guard, the scan and the override together return `Choice` |
| Selector.ChessAI.constructor | src/hooks/useChessAI.ts:31-33 | a new engine has the given level and colour and is not thinking |
| Selector.ChessAI.SetLevel | src/hooks/useChessAI.ts:317-319 | changes the level and nothing else; a search already scheduled keeps the level it captured |
| Selector.ChessAI.SetColor | src/hooks/useChessAI.ts:312-314 | changes the colour and nothing else; a search already scheduled keeps the colour it captured |
| Selector.ChessAI.MakeAIMove | src/hooks/useChessAI.ts:256-309 | a delay is scheduled exactly when the computer may move; it equals its level's thinking time, sets `isThinking`, and the scheduled search captures the current level and colour |
| Selector.ChessAI.FinishThinking | src/hooks/useChessAI.ts:275-309 | the callback returns `Choice` for the level and colour captured when it was scheduled, not those current when it fires, and clears `isThinking` |
| Selector.RetuneWhileThinking | src/hooks/useChessAI.ts:256-319 | a level or colour change during the thinking delay takes effect in the hook but not in the search already scheduled, which returns `Choice` for the settings in force at `makeAIMove` |
| MoveHint.HintValue | src/components/MoveHint.tsx:28-35 | the hint values are at most 9, and 0 exactly for the king |
| MoveHint.HintScore | src/components/MoveHint.tsx:11-48 | a mate scores 1000. Otherwise the score is at most 145 and a multiple of 5. It is odd in tens exactly for a centre destination, at least 50 when it gives check and below 100 when not. A quiet non-check move scores at most 5 |
| MoveHint.MateOutranks | src/components/MoveHint.tsx:18-20 | a mating move outranks every non-mating move |
| MoveHint.Rate | src/components/MoveHint.tsx:52-59 | one rated entry per legal move, in order |
| MoveHint.Insert | src/components/MoveHint.tsx:60 | insertion adds exactly the one entry |
| MoveHint.SortByScore | src/components/MoveHint.tsx:60 | the sorted list is a permutation of its input |
| MoveHint.SortByScoreCorrect | src/components/MoveHint.tsx:52-60 | the ranking is in non-increasing score order, a permutation, and keeps the input order among equal scores |
| MoveHint.Label | src/components/MoveHint.tsx:79 | '++' iff score > 100, '+' iff 50 < score ≤ 100, '=' otherwise |
| MoveHint.RankedCorrect | src/components/MoveHint.tsx:55-60 | the ranked list is sorted by descending score, is a permutation of the rated moves, and each entry is a legal move paired with its own heuristic score |
| MoveHint.RenderCorrect | src/components/MoveHint.tsx:50-87 | "No legal moves" is shown exactly when there are none; otherwise min(3, n) rows ranked 1, 2, 3, row i showing the SAN, squares and label of the i-th ranked entry; the shown entries are a sub-multiset of the rated moves (no move shown twice), in descending score, and no hidden ranked move scores more than a shown one |
| ChessGame.BoardMapCorrect | src/hooks/useChessGame.ts:29-51 | the square map has a key for exactly the occupied cells, under the cell's name, holding that cell's piece |
| ChessGame.IsPromotion | src/hooks/useChessGame.ts:119-135 | true iff the piece on `from` is a pawn and `to` is on rank 8 for White or rank 1 for Black (no origin or legality test) |
| ChessGame.FindMove | src/hooks/useChessGame.ts:156-157 | `find` returns the first legal move from→to, and nothing exactly when there is none |
| ChessGame.IsEnPassant | src/hooks/useChessGame.ts:153-163 | true iff the first matching legal move has flag 'e' |
| ChessGame.IsCastling | src/hooks/useChessGame.ts:166-176 | true iff the first matching legal move has flag 'k' or 'q' |
| ChessGame.LegalMovesForSquare | src/hooks/useChessGame.ts:179-187 | the destinations of the square's legal moves, one per move, in order |
| ChessGame.InsufficientMaterialNeverReported | src/hooks/useChessGame.ts:148-150 | `isInsufficientMaterial` as written is false in every position |
| ChessGame.BareKingsMisclassified | src/hooks/useChessGame.ts:143-150 | for a position drawn only for insufficient material, the as-written predicates report a fifty-move draw and no insufficient material |
| ChessGame.BareKings | src/hooks/useChessGame.ts:143-150 | the witness position is drawn for insufficient material |
| ChessGame.DrawClassification | src/hooks/useChessGame.ts:143-150 | corrected predicates: every unmated draw is one of the four kinds, the fifty-move and insufficient-material kinds exclude each other, and the latter matches the library |
| ChessGame.GameOverCases | src/hooks/useChessGame.ts:205-207 | the game is over exactly on mate or a draw, when the library counts stalemate and repetition as draws |
| ChessGame.Ledger.constructor | src/hooks/useChessGame.ts:19-26 | a new ledger holds the initial game, an empty history and a matching square map |
| ChessGame.Ledger.UpdatePosition | src/hooks/useChessGame.ts:29-51 | the nested loops rebuild the square map from the board; game and history stay |
| ChessGame.Ledger.MakeMove | src/hooks/useChessGame.ts:54-90 | a refused move returns nothing and changes nothing; a played move advances the game and appends one entry: the move and the map from before it |
| ChessGame.Ledger.Undo | src/hooks/useChessGame.ts:93-108 | the game is undone and exactly the last entry is dropped; an empty history stays empty |
| ChessGame.Ledger.Reset | src/hooks/useChessGame.ts:111-116 | a fresh game and an empty history |
| ChessGame.MoveThenUndo | src/hooks/useChessGame.ts:54-108 | `makeMove` then `undo`: after an accepted move the history is as before, and when the library's `undo` takes back the move just made, the game and square map are too; after a refused move the undo drops the last entry of the old list |
| GameHistory.RowsCorrect | src/components/GameHistory.tsx:24-57 | rows are numbered 1, 2, …. There are at most as many rows as moves, and no row is blank. Read row by row, white cell first, the cells give every move's SAN once, in order. A row without a black move is followed by a row with a white move |
| GameHistory.RenderMoves | src/components/GameHistory.tsx:24-57 | the loop with `continue` builds `Rows` |
| Clock.Decimal | src/components/Timer.tsx:72 | `toString` gives one or more digits, a single digit exactly below 10, and no leading zero |
| Clock.PadStart2 | src/components/Timer.tsx:72 | padding gives length max(2, n), the input at the end, and zeros before it |
| Clock.PaddedDecimal | src/components/Timer.tsx:72 | the padded number reads back as itself, and is two characters exactly below 100 |
| Clock.FormatTimeReadsBack | src/components/Timer.tsx:69-73 | the display is minutes, ':' and two digits worth less than 60; 60×minutes + seconds gives the time back; exactly MM:SS below 6000 s |
| Clock.FormatTimeInjective | src/components/Timer.tsx:69-73 | different times never look alike |
| Clock.Tick | src/components/Timer.tsx:37-47 | time up iff the previous value is ≤ 1, then 0; otherwise one less; never negative |
| Clock.CountdownFrom | src/components/Timer.tsx:36-48 | from n seconds, k ticks leave n−k, and time up is reported on tick n and not before |
| Clock.Timer.constructor | src/components/Timer.tsx:19-21 | a new clock shows its initial time, with no interval |
| Clock.Timer.Sync | src/components/Timer.tsx:24-61 | the time is reset to `initialTime`; an interval runs iff active and the time was positive; an inactive clock drops its ref |
| Clock.Timer.OnTick | src/components/Timer.tsx:36-48 | one firing is `Tick`, and the interval stops exactly on time up |
| GameStats.PieceSymbol | src/components/GameStats.tsx:31-47 | a lower-case letter gives an outline glyph, an upper-case one a filled glyph; any other string comes back unchanged, and only then |
| GameStats.FilledFollowsOutline | src/components/GameStats.tsx:32-45 | each filled glyph is its outline glyph plus six code points |
| GameStats.PieceSymbolInjective | src/components/GameStats.tsx:32-45 | distinct letters give distinct glyphs |
| GameStats.RenderCaptured | src/components/GameStats.tsx:50-56 | one glyph per captured piece, in list order |
| GameStats.CapturedShowOutlines | src/components/GameStats.tsx:50-56 | the lower-case letters the board records always show as outline glyphs |
| GameStats.Status | src/components/GameStats.tsx:75-77 | Checkmate > Draw > Check > Ongoing, each iff its condition and none before it |
| GameStats.ClockLines | src/components/GameStats.tsx:24-28 | the two clock lines (the Timer's formatter) are equal iff the times are |
| ChessTheme.Colors | src/hooks/useChessTheme.ts:11-40 | 'wooden' and 'blue' get their own tables, every other name the classic one; highlight and target colours are shared |
| ChessTheme.ColorsFor | src/hooks/useChessTheme.ts:11 | no theme given means classic |
| ChessTheme.SquareStyles | src/hooks/useChessTheme.ts:42-57 | the background is the highlight when selected, else the light or dark colour; no shadow iff no flag is set |
| ChessTheme.ShadowPriority | src/hooks/useChessTheme.ts:47-54 | the shadow is set by the first flag in the order selected, move target, last move; later flags make no difference |
| ChessTheme.SelectionHidesSquareColour | src/hooks/useChessTheme.ts:47-49 | a selected square looks the same on light and dark squares |
| ChessTheme.BoardStyleOf | src/hooks/useChessTheme.ts:59-64 | the border is "2px solid " followed by the dark-square colour (prefix and suffix both stated); the shadow is the fixed drop shadow |
| Square.NonEmpty | src/components/Square.tsx:32 | `filter(Boolean)` drops every empty string and keeps every other string as many times as it occurs (equal multiplicities) |
| Square.NonEmptyDistributes | src/components/Square.tsx:32 | filtering a concatenation is the concatenation of the filtered parts, so the kept strings keep their order |
| Square.IndexOfSpace | src/components/Square.tsx:32 | the first space of a string |
| Square.SplitJoin | src/components/Square.tsx:32 | splitting a join of space-free tokens gives the tokens back |
| Square.ClassesCorrect | src/components/Square.tsx:20-32 | the attribute starts with `square`; it has `light` xor `dark` by `isLight`; each highlight class is present iff its flag is (an omitted last-move flag is false); no empty token |
| ChessBoard.InitialUi | src/components/ChessBoard.tsx:39-73 | the board starts in set-up, two-player, coherent |
| ChessBoard.ToggleGameMode | src/components/ChessBoard.tsx:175-191 | outside set-up nothing changes; in set-up the mode flips, and one-player puts the computer on the side not to move; nothing else changes |
| ChessBoard.Cleared | src/components/ChessBoard.tsx:197-203 | clocks back to the initial time, no moves, no captures, no last move, no selection |
| ChessBoard.StartGame | src/components/ChessBoard.tsx:194-213 | playing with the counters cleared; the computer opens exactly in one-player mode on its turn |
| ChessBoard.PauseGame | src/components/ChessBoard.tsx:216-222 | playing and paused swap; other states stay |
| ChessBoard.RecordCapture | src/components/ChessBoard.tsx:94-104 | a capture is appended to the mover's list; no capture changes nothing |
| ChessBoard.EndIfOver | src/components/ChessBoard.tsx:114-122 | ended exactly on mate or draw, nothing else touched |
| ChessBoard.TimeUp | src/components/ChessBoard.tsx:332-336 | the game ends, and the side not to move wins |
| ChessBoard.StepKeepsCoherent | src/components/ChessBoard.tsx:80-350 | every handler keeps at most one capture per move, no moves without a selection, and the dialog open iff a promotion is pending |
| ChessBoard.StateMachine | src/components/ChessBoard.tsx:194-222 | Start gives playing, New Game set-up, time-up ended; Pause swaps playing and paused; only Start and New Game leave ended; only Start and time-up leave set-up |
| ChessBoard.StartAndNewGameReset | src/components/ChessBoard.tsx:194-350 | Start and New Game both reset clocks, count, captures, last move and selection, and keep mode and colour |
| ChessBoard.PauseTwiceRestores | src/components/ChessBoard.tsx:216-222 | pausing twice is no change |
| ChessBoard.ModeOnlyInSetup | src/components/ChessBoard.tsx:175-191 | among the board's events, the mode changes only by the toggle in set-up, and the computer's colour changes only with it, to the side not to move |
| ChessBoard.ClickIgnored | src/components/ChessBoard.tsx:225-237 | outside play, or on the computer's piece with nothing selected, a click changes nothing |
| ChessBoard.ClickSelects | src/components/ChessBoard.tsx:302-309 | selecting an own piece shows exactly its legal destinations, in order |
| ChessBoard.ClickWithSelection | src/components/ChessBoard.tsx:240-298 | a promotion target stores the pending move and opens the dialog. Any other target tries the move, played iff legal, and clears the selection. A played move counts once, becomes the last move, ends the game iff mate or draw, and files its capture under the mover |
| ChessBoard.AICaptureGoesToMover | src/components/ChessBoard.tsx:86-104 | the computer's move counts once and files its capture under the mover, when turns alternate |
| ChessBoard.PromotionBookkeeping | src/components/ChessBoard.tsx:313-329 | the dialog closes and the selection clears; the move counts iff legal; no capture is filed and the state is kept |
| ChessBoard.OneClockAtATime | src/components/ChessBoard.tsx:148-158 | the two clocks never run together, and one runs exactly while playing |
| ChessBoard.StatusText | src/components/ChessBoard.tsx:402-415 | each status text appears exactly in its state and condition, with check before thinking before whose turn |
| ChessBoard.SquareAt | src/components/ChessBoard.tsx:359-367 | a square's name, light iff r+f is even, selection, target, last-move flags and piece follow the state |
| ChessBoard.BoardSquaresDistinct | src/components/ChessBoard.tsx:353-389 | the 64 squares are distinct, run a8..h8 down to a1..h1, and square 8r+f is cell [r][f] |
| ChessBoard.BoardController.constructor | src/components/ChessBoard.tsx:39-73 | the initial state and the classic theme |
| ChessBoard.BoardController.ToggleGameModeClicked | src/components/ChessBoard.tsx:175-191 | the new state is `ToggleGameMode` of the old |
| ChessBoard.BoardController.StartGameClicked | src/components/ChessBoard.tsx:194-213 | the new state and the computer-opens answer are `StartGame` |
| ChessBoard.BoardController.PauseGameClicked | src/components/ChessBoard.tsx:216-222 | the new state is `PauseGame` of the old |
| ChessBoard.BoardController.SquareClicked | src/components/ChessBoard.tsx:225-310 | the new state is `SquareClick` of the old, and the ledger did exactly what that says: nothing, or the played move appended |
| ChessBoard.BoardController.AddCapture | src/components/ChessBoard.tsx:94-104 | the new state is `RecordCapture` |
| ChessBoard.BoardController.EndIfGameOver | src/components/ChessBoard.tsx:114-122 | the new state is `EndIfOver` |
| ChessBoard.BoardController.PlaySelected | src/components/ChessBoard.tsx:250-298 | the new state and the ledger follow `PlayClicked` |
| ChessBoard.BoardController.PromotionSelected | src/components/ChessBoard.tsx:313-329 | the new state and the ledger follow `PromotionSelect` |
| ChessBoard.BoardController.TimeUpFired | src/components/ChessBoard.tsx:332-336 | the new state and the winner are `TimeUp` |
| ChessBoard.BoardController.NewGameClicked | src/components/ChessBoard.tsx:339-350 | the ledger is reset, and the state is cleared and back in set-up |
| ChessBoard.BoardController.ComputerMoved | src/components/ChessBoard.tsx:80-130 | the new state and the ledger follow `AIMove` |
| ChessBoard.BoardController.RenderBoard | src/components/ChessBoard.tsx:353-389 | the nested loops yield 64 squares, square k being `SquareAt` row k/8, file k%8 of the current map |

## Left out

- The `chess.js` internals: move generation, SAN, FEN and PGN, and the mate, draw and check tests. The library is an abstract `Rules` value, and lemmas state the chess facts they use as hypotheses.
- `canCastle` (useChessAI.ts:154-158) is never called, so it is not modelled.
- Timers and asynchrony are modelled only as the state before and after each step. This covers:
  - the `setTimeout` thinking delay (useChessAI.ts:275-308), as `MakeAIMove` then `FinishThinking`;
  - the delayed computer triggers (ChessBoard.tsx:161-172, 209-211), as the `ComputerMove` event;
  - the `setInterval` scheduling (Timer.tsx:36-48), as `Timer.OnTick`.
- The clock's `onTimeChange` syncing to the parent is left out: the board's `whiteTime`/`blackTime` are only reset. Which clock is active is `TimerActive`.
- React machinery: `useState`, `useEffect`, `useCallback`, stale closures and prop-to-state syncing. The board's state hooks are one `Ui` record. Each handler reads the state current when it runs. The hint panel's double `onSelect` call, which reads a stale selection, is not modelled.
- JSX, CSS-module class maps, sound (`useChessSound`), `alert` and console logging.
- The board's `moveResult === true` branch (ChessBoard.tsx:287-292) can never be taken, because `makeMove` returns a move object or `false`. It is not modelled.
- The Start button is shown only in set-up, but the handler itself has no guard. `StartGame` is modelled without a guard, as the code is.
- `reset` sets the current position to the library's array board for one render, before the next `updatePosition`. `Ledger.Reset` goes straight to the square map.
- The `Chess` object is a value, and its FEN copy `new Chess(game.fen())` is `Rules.copy`: the same position with no move history. The search (useChessAI.ts:57) and the hint panel (MoveHint.tsx:12) play each move on such a copy (`PlayOnCopy`), so their mate and draw tests are asked of the copy's successor, never of the game's. Scoring on a copy never changes the caller's position, simply because positions are values.
- Floating point is `real`: no rounding. `Math.random` becomes an injected sequence assumed to lie in [0, 1). Its distribution, and so the override probability of Easy, is not modelled.
- `getPieceSymbol` looks keys up in a plain object. Inherited keys such as `"constructor"` are not modelled.
- Ledger.Undo: always succeeds, because the modelled library's `undo` only returns a value and never throws.
- Ledger.constructor: goes straight to the square map. In the code the first render holds the library's array from `game.board()` (useChessGame.ts:21) until the mount effect runs `updatePosition` (useChessGame.ts:24-26).
- A `move` that returns `null` instead of throwing (src/types/chess-js.d.ts:38 allows it) is not modelled. There `evaluateMove` would go on to evaluate the unchanged copy (useChessAI.ts:61-70); the model follows the throwing library, so a refused move takes the fault score.
- The settings dialog's Save (GameSettings.tsx:45-52, wired at ChessBoard.tsx:513-527) is not a board `Event`. The Settings button (ChessBoard.tsx:467) shows in every state, so Save can set the computer's colour, `initialTime`, the level and the board theme at any time, mid-game included. `ModeOnlyInSetup` speaks only of the modelled events, and no `BoardController` method changes the theme.
- The Undo button (ChessBoard.tsx:463) calls the ledger's `undo` directly and is not a board `Event`: `StepKeepsCoherent` and the state machine do not cover it, and after an undo the board's move count and capture lists stay as they were, as in the code.
- Selector.ChoiceNoneIff: for Hard it assumes the chess fact that a position that is neither mate nor drawn has a legal move (`NonTerminalHasMoves`). Without that fact a search can return −∞ and the `bestScore` sentinel can stay unmatched.
- ChessBoard.AICaptureGoesToMover: assumes the library alternates turns. The code files the capture under the side to move after the move, not under the mover directly.
- Search.EvaluateMove: `copy` is abstract. The model does not state that a copy forgets the history, so it does not prove that the search's draw test never reports threefold repetition (in the library a FEN copy cannot), nor that a repeating move is scored by evaluation while the board then ends the game drawn (ChessBoard.tsx:113-116).
- Search.MateInOneOutranks: assumes, as hypotheses, the chess facts that turns alternate (`AlternatesTurns`) and that a live position has a move, and that every leaf evaluation is below 10000. The last is not proved from the evaluation's terms.
- Selector.HardPlaysMate: rests on the same hypotheses as `Search.MateInOneOutranks`, the leaf evaluation staying below 10000 among them, and on the chess fact that a FEN copy accepts and mates as the game does (`CopyPlaysAlike`).
- ChessGame.MoveThenUndo: restores the game and square map only under the hypothesis that the library's `undo` takes back the move just made (`UndoReverts`); the library's internals are not modelled.
- MoveHint.HintScore: states ranges, residues and the mate case. It does not state the exact sum term by term, which the body gives.
- Evaluator.EvaluationSideSwap: evaluation is not symmetric between the sides. Only material and mobility cancel; the centre and check terms are rewards for both.
- Clock.Timer.Sync: models each effect run on its own. The effect also depends on `onTimeUp` (Timer.tsx:61), which the board recreates on every render (ChessBoard.tsx:332), so in the code it re-runs, resetting the time and restarting the interval, on every board render; the model leaves when `Sync` is called to its caller. The order in which React runs cleanup and effect is not modelled; the cleanup only clears the interval and keeps the ref, as in the code.

## Findings

| source | as written | input that shows it | evidently intended | confidence | as-written member | corrected member |
|---|---|---|---|---|---|---|
| src/hooks/useChessGame.ts:148-150 | `isInsufficientMaterial` conjoins all of `isFiftyMoveDraw`'s conditions with `!isFiftyMoveDraw()`, so it is false in every position | king against king: drawn, not mate, not stalemate, not repetition | true exactly when the library reports an insufficient-material draw | not executed | ChessGame.InsufficientMaterialNeverReported | ChessGame.DrawClassification |
| src/hooks/useChessGame.ts:143-145 | `isFiftyMoveDraw` is true for every draw that is not mate, stalemate or repetition, so insufficient-material draws count as fifty-move draws | king against king, as in `ChessGame.BareKings` | a draw for none of the other reasons, insufficient material excluded | not executed | ChessGame.BareKingsMisclassified | ChessGame.DrawClassification |
