/**
 * Board themes (`useChessTheme`): a colour table per theme name and the style
 * of one square, where selection outranks a move target, which outranks the
 * last move.
 */
module ChessTheme {
  import opened ChessRules

  datatype ThemeColors = ThemeColors(
    lightSquare: string,
    darkSquare: string,
    selectedSquare: string,
    possibleMove: string,
    lastMove: string)

  const Highlight: string := "rgba(255, 255, 0, 0.5)"
  const Target: string := "rgba(0, 128, 0, 0.4)"

  const Classic: ThemeColors := ThemeColors("#f0d9b5", "#b58863", Highlight, Target, "rgba(155, 199, 0, 0.4)")
  const Wooden: ThemeColors := ThemeColors("#e9c496", "#8b5a2b", Highlight, Target, "rgba(173, 216, 230, 0.5)")
  const Blue: ThemeColors := ThemeColors("#cad9e8", "#6082b6", Highlight, Target, "rgba(255, 182, 193, 0.5)")

  /** The theme switch: 'wooden' and 'blue' have their own colours, every other name gets the classic ones. */
  function Colors(theme: string): (colors: ThemeColors)
    ensures colors == Wooden <==> theme == "wooden"
    ensures colors == Blue <==> theme == "blue"
    ensures colors == Classic <==> theme != "wooden" && theme != "blue"
    ensures colors.selectedSquare == Highlight && colors.possibleMove == Target
  {
    if theme == "wooden" then Wooden
    else if theme == "blue" then Blue
    else Classic
  }

  /** The hook's parameter defaults to 'classic'. */
  function ColorsFor(theme: Option<string>): (colors: ThemeColors)
    ensures theme.None? ==> colors == Classic
  {
    Colors(if theme.Some? then theme.value else "classic")
  }

  datatype SquareStyle = SquareStyle(backgroundColor: string, boxShadow: Option<string>)

  const SelectedShadow: string := "inset 0 0 0 3px rgba(0, 0, 0, 0.5)"

  function Ring(colour: string): string
  {
    "inset 0 0 0 4px " + colour
  }

  /**
   * `getSquareStyles`: the square's own colour unless selected (then the
   * highlight and a 3px inner shadow); otherwise a 4px ring in the move-target
   * colour, else in the last-move colour; no shadow when no flag is set.
   */
  function SquareStyles(colors: ThemeColors, isLight: bool, isSelected: bool, isPossibleMove: bool, isLastMove: bool): (style: SquareStyle)
    ensures style.backgroundColor ==
      if isSelected then colors.selectedSquare else if isLight then colors.lightSquare else colors.darkSquare
    ensures style.boxShadow.None? <==> !isSelected && !isPossibleMove && !isLastMove
  {
    var background := if isLight then colors.lightSquare else colors.darkSquare;
    if isSelected then SquareStyle(colors.selectedSquare, Some(SelectedShadow))
    else if isPossibleMove then SquareStyle(background, Some(Ring(colors.possibleMove)))
    else if isLastMove then SquareStyle(background, Some(Ring(colors.lastMove)))
    else SquareStyle(background, None)
  }

  /**
   * The shadow follows the first flag set in the order selected, move target,
   * last move; the flags after it make no difference.
   */
  lemma ShadowPriority(colors: ThemeColors, isLight: bool, isSelected: bool, isPossibleMove: bool, isLastMove: bool)
    ensures var style := SquareStyles(colors, isLight, isSelected, isPossibleMove, isLastMove);
      && (isSelected ==>
            (style.boxShadow == Some(SelectedShadow) && forall p: bool, l: bool :: SquareStyles(colors, isLight, true, p, l) == style))
      && (!isSelected && isPossibleMove ==>
            (style.boxShadow == Some(Ring(colors.possibleMove)) && forall l: bool :: SquareStyles(colors, isLight, false, true, l) == style))
      && (!isSelected && !isPossibleMove && isLastMove ==> style.boxShadow == Some(Ring(colors.lastMove)))
  {
  }

  /** Selection looks the same on light and dark squares. */
  lemma SelectionHidesSquareColour(colors: ThemeColors, p: bool, l: bool)
    ensures SquareStyles(colors, true, true, p, l) == SquareStyles(colors, false, true, p, l)
  {
  }

  datatype BoardStyle = BoardStyle(border: string, boxShadow: string)

  /** `getBoardStyle`: a 2px border in the theme's dark-square colour and a fixed drop shadow. */
  function BoardStyleOf(colors: ThemeColors): (style: BoardStyle)
    ensures |style.border| == 10 + |colors.darkSquare|
    ensures style.border[..10] == "2px solid " && style.border[10..] == colors.darkSquare
    ensures style.boxShadow == "0 4px 10px rgba(0, 0, 0, 0.3)"
  {
    BoardStyle("2px solid " + colors.darkSquare, "0 4px 10px rgba(0, 0, 0, 0.3)")
  }
}
