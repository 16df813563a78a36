/**
 * The move-history table (`renderMoves`): the move list is walked once and cut
 * into numbered rows, a white move and the black move right after it sharing
 * a row.
 */
module GameHistory {
  import opened ChessRules
  import opened ChessGame

  /** One table row: the move number and the two cells, `None` where the cell is blank. */
  datatype Row = Row(number: nat, white: Option<string>, black: Option<string>)

  /**
   * The rows the loop produces from index `i` on, numbering from `number`,
   * with `pending` the white move held back for the black move at `i`.
   */
  function RowsFrom(h: seq<HistoryItem>, i: nat, pending: Option<string>, number: nat): seq<Row>
    decreases |h| - i
  {
    if i >= |h| then []
    else if h[i].move.color == White then
      if i + 1 < |h| && h[i + 1].move.color == Black then RowsFrom(h, i + 1, Some(h[i].move.san), number)
      else [Row(number, Some(h[i].move.san), None)] + RowsFrom(h, i + 1, None, number + 1)
    else [Row(number, pending, Some(h[i].move.san))] + RowsFrom(h, i + 1, None, number + 1)
  }

  /** The rows of the whole list. */
  function Rows(h: seq<HistoryItem>): seq<Row>
  {
    RowsFrom(h, 0, None, 1)
  }

  /** The coloured moves a row shows, white cell first. */
  function Cells(row: Row): seq<(Color, string)>
  {
    (if row.white.Some? then [(White, row.white.value)] else [])
      + (if row.black.Some? then [(Black, row.black.value)] else [])
  }

  function Flatten(rows: seq<Row>): seq<(Color, string)>
  {
    if rows == [] then [] else Cells(rows[0]) + Flatten(rows[1..])
  }

  /** The colour and SAN of each entry, in list order. */
  function Sans(h: seq<HistoryItem>): seq<(Color, string)>
  {
    if h == [] then [] else [(h[0].move.color, h[0].move.san)] + Sans(h[1..])
  }

  function PendingCells(pending: Option<string>): seq<(Color, string)>
  {
    if pending.Some? then [(White, pending.value)] else []
  }

  /** Rows are numbered consecutively and there are never more rows than moves. */
  lemma {:induction false} RowsFromNumbering(h: seq<HistoryItem>, i: nat, pending: Option<string>, number: nat)
    requires i <= |h|
    ensures |RowsFrom(h, i, pending, number)| <= |h| - i
    ensures forall k :: 0 <= k < |RowsFrom(h, i, pending, number)| ==> RowsFrom(h, i, pending, number)[k].number == number + k
    decreases |h| - i
  {
    if i < |h| {
      if h[i].move.color == White && i + 1 < |h| && h[i + 1].move.color == Black {
        RowsFromNumbering(h, i + 1, Some(h[i].move.san), number);
      } else {
        RowsFromNumbering(h, i + 1, None, number + 1);
      }
    }
  }

  /**
   * Reading the cells row by row, white before black, gives back every entry
   * exactly once and in list order (a held-back white move comes first).
   */
  lemma {:induction false} RowsFromFlatten(h: seq<HistoryItem>, i: nat, pending: Option<string>, number: nat)
    requires i <= |h|
    requires pending.Some? ==> i < |h| && h[i].move.color == Black
    ensures Flatten(RowsFrom(h, i, pending, number)) == PendingCells(pending) + Sans(h[i..])
    decreases |h| - i
  {
    if i == |h| {
      assert h[i..] == [];
    } else {
      assert h[i..][1..] == h[i + 1..];
      if h[i].move.color == White && i + 1 < |h| && h[i + 1].move.color == Black {
        RowsFromFlatten(h, i + 1, Some(h[i].move.san), number);
      } else {
        RowsFromFlatten(h, i + 1, None, number + 1);
        var rows := RowsFrom(h, i, pending, number);
        assert rows[1..] == RowsFrom(h, i + 1, None, number + 1);
      }
    }
  }

  /**
   * No row is blank, and a row with a blank black cell is never followed by a
   * row with a blank white cell: a white move directly followed by a black
   * move always shares its row with it.
   */
  lemma {:induction false} RowsFromShape(h: seq<HistoryItem>, i: nat, pending: Option<string>, number: nat)
    ensures var rows := RowsFrom(h, i, pending, number);
      && (forall k :: 0 <= k < |rows| ==> rows[k].white.Some? || rows[k].black.Some?)
      && (forall k :: 0 <= k < |rows| - 1 && rows[k].black.None? ==> rows[k + 1].white.Some?)
      && (|rows| > 0 && pending.None? ==> (rows[0].white.Some? <==> h[i].move.color == White))
    decreases |h| - i
  {
    if i < |h| {
      if h[i].move.color == White && i + 1 < |h| && h[i + 1].move.color == Black {
        RowsFromShape(h, i + 1, Some(h[i].move.san), number);
      } else {
        RowsFromShape(h, i + 1, None, number + 1);
      }
    }
  }

  /** The table as a whole: numbered 1, 2, ..., no longer than the list, every entry once and in order. */
  lemma RowsCorrect(h: seq<HistoryItem>)
    ensures |Rows(h)| <= |h|
    ensures forall k :: 0 <= k < |Rows(h)| ==> Rows(h)[k].number == k + 1
    ensures Flatten(Rows(h)) == Sans(h)
    ensures forall k :: 0 <= k < |Rows(h)| ==> Rows(h)[k].white.Some? || Rows(h)[k].black.Some?
    ensures forall k :: 0 <= k < |Rows(h)| - 1 && Rows(h)[k].black.None? ==> Rows(h)[k + 1].white.Some?
  {
    RowsFromNumbering(h, 0, None, 1);
    RowsFromFlatten(h, 0, None, 1);
    assert h[0..] == h;
    RowsFromShape(h, 0, None, 1);
  }

  /** `renderMoves`: one pass, holding a white move back when a black move follows it. */
  method RenderMoves(h: seq<HistoryItem>) returns (rows: seq<Row>)
    ensures rows == Rows(h)
  {
    rows := [];
    var moveNumber := 1;
    var white: Option<string> := None;
    var black: Option<string> := None;
    for i := 0 to |h|
      invariant moveNumber == |rows| + 1 && black.None?
      invariant rows + RowsFrom(h, i, white, moveNumber) == Rows(h)
    {
      var item := h[i];
      if item.move.color == White {
        white := Some(item.move.san);
        if i + 1 < |h| && h[i + 1].move.color == Black {
          continue;
        }
      } else {
        black := Some(item.move.san);
      }
      rows := rows + [Row(moveNumber, white, black)];
      moveNumber := moveNumber + 1;
      white, black := None, None;
    }
  }
}
