/**
 * The statistics panel (`GameStats`): the two clocks in MM:SS (the same
 * formatter as the clock's own, `Clock.FormatTime`), the captured pieces as
 * chess glyphs, and a one-word game status.
 */
module GameStats {
  import opened ChessRules
  import Clock

  const WhiteKeys: string := "pnbrqk"
  const BlackKeys: string := "PNBRQK"

  /** The glyph table: lower-case letters to the outline glyphs, upper-case to the filled ones. */
  function SymbolTable(): map<string, string>
  {
    map[
      "p" := "\U{2659}", "n" := "\U{2658}", "b" := "\U{2657}",
      "r" := "\U{2656}", "q" := "\U{2655}", "k" := "\U{2654}",
      "P" := "\U{265F}", "N" := "\U{265E}", "B" := "\U{265D}",
      "R" := "\U{265C}", "Q" := "\U{265B}", "K" := "\U{265A}"]
  }

  predicate IsPieceLetter(piece: string)
  {
    |piece| == 1 && (piece[0] in WhiteKeys || piece[0] in BlackKeys)
  }

  /** `getPieceSymbol`: the table's glyph, or the input itself when the table has no entry. */
  function PieceSymbol(piece: string): (symbol: string)
    ensures IsPieceLetter(piece) ==> |symbol| == 1
    ensures IsPieceLetter(piece) && piece[0] in WhiteKeys ==> '\U{2654}' <= symbol[0] <= '\U{2659}'
    ensures IsPieceLetter(piece) && piece[0] in BlackKeys ==> '\U{265A}' <= symbol[0] <= '\U{265F}'
    ensures symbol == piece <==> !IsPieceLetter(piece)
  {
    LettersInTable(piece);
    if piece in SymbolTable() then SymbolTable()[piece] else piece
  }

  lemma LettersInTable(piece: string)
    ensures IsPieceLetter(piece) <==> piece in SymbolTable()
  {
    if IsPieceLetter(piece) {
      assert piece == [piece[0]];
    }
  }

  /** The filled glyph of a letter sits six code points after the outline glyph of its lower-case form. */
  lemma FilledFollowsOutline(i: nat)
    requires i < 6
    ensures PieceSymbol([BlackKeys[i]])[0] as int == PieceSymbol([WhiteKeys[i]])[0] as int + 6
  {
  }

  /** Distinct letters get distinct glyphs. */
  lemma PieceSymbolInjective(a: string, b: string)
    requires IsPieceLetter(a) && IsPieceLetter(b) && a != b
    ensures PieceSymbol(a) != PieceSymbol(b)
  {
  }

  /** `renderCapturedPieces`: one glyph per entry, in list order. */
  function RenderCaptured(pieces: seq<string>): (glyphs: seq<string>)
    ensures |glyphs| == |pieces|
    ensures forall i :: 0 <= i < |pieces| ==> glyphs[i] == PieceSymbol(pieces[i])
  {
    if pieces == [] then [] else [PieceSymbol(pieces[0])] + RenderCaptured(pieces[1..])
  }

  /** The board records captured pieces by their lower-case letters, so they always show as outline glyphs. */
  lemma {:induction false} CapturedShowOutlines(kinds: seq<PieceKind>)
    ensures var glyphs := RenderCaptured(seq(|kinds|, i requires 0 <= i < |kinds| => [KindLetter(kinds[i])]));
      forall i :: 0 <= i < |glyphs| ==> |glyphs[i]| == 1 && '\U{2654}' <= glyphs[i][0] <= '\U{2659}'
  {
    var letters := seq(|kinds|, i requires 0 <= i < |kinds| => [KindLetter(kinds[i])]);
    forall i | 0 <= i < |letters| ensures IsPieceLetter(letters[i]) && letters[i][0] in WhiteKeys {
      assert letters[i] == [KindLetter(kinds[i])];
    }
  }

  /** The status word: checkmate first, then draw, then check, else ongoing. */
  function Status<P>(rules: Rules<P>, game: P): (text: string)
    ensures text == "Checkmate" <==> rules.isCheckmate(game)
    ensures text == "Draw" <==> !rules.isCheckmate(game) && rules.isDraw(game)
    ensures text == "Check" <==> !rules.isCheckmate(game) && !rules.isDraw(game) && rules.isCheck(game)
    ensures text == "Ongoing" <==> !rules.isCheckmate(game) && !rules.isDraw(game) && !rules.isCheck(game)
  {
    if rules.isCheckmate(game) then "Checkmate"
    else if rules.isDraw(game) then "Draw"
    else if rules.isCheck(game) then "Check"
    else "Ongoing"
  }

  /** The two clock lines of the panel. */
  function ClockLines(whiteTime: nat, blackTime: nat): (lines: (string, string))
    ensures lines.0 == lines.1 <==> whiteTime == blackTime
  {
    if Clock.FormatTime(whiteTime) == Clock.FormatTime(blackTime) then
      Clock.FormatTimeInjective(whiteTime, blackTime);
      (Clock.FormatTime(whiteTime), Clock.FormatTime(blackTime))
    else (Clock.FormatTime(whiteTime), Clock.FormatTime(blackTime))
  }
}
