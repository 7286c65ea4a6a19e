/**
 * The styled table: column headers from row 0's keys, formatted cells for
 * the first `maxRows` rows, an unsplittable placement with a page break
 * before it when it does not fit, and a footnote when rows were cut.
 */
module Table {
  import opened Wrappers
  import opened Text
  import opened Values
  import opened Pdf

  /** Why drawing a table raises: a non-mapping row among those shown, or a row 0 without keys. */
  datatype RenderError = NotAMapping(index: nat) | NoColumns

  /** The lowest a table may reach before it is moved to a new page. */
  const TableFloor: real := 2.0 * Cm

  function Headers(columns: seq<string>): seq<string> {
    seq(|columns|, j requires 0 <= j < |columns| => Label(columns[j]))
  }

  /** `item.get(col, "")`, formatted: a missing key shows as the empty string. */
  function Cell(row: Row, col: string, lib: Lib): string {
    FormatCell(Get(row, col).GetOr(TextV("")), lib)
  }

  function BodyRow(row: Row, columns: seq<string>, lib: Lib): seq<string> {
    seq(|columns|, j requires 0 <= j < |columns| => Cell(row, columns[j], lib))
  }

  function Body(rows: seq<Row>, columns: seq<string>, lib: Lib): seq<seq<string>> {
    seq(|rows|, i requires 0 <= i < |rows| => BodyRow(rows[i], columns, lib))
  }

  /** The index of the first item from i on that is not a mapping. */
  function ScalarFrom(items: seq<Item>, i: nat): (r: Option<nat>)
    requires i <= |items|
    ensures r.None? <==> forall k :: i <= k < |items| ==> items[k].Record?
    ensures r.Some? ==> i <= r.value < |items| && !items[r.value].Record?
                        && forall k :: i <= k < r.value ==> items[k].Record?
    decreases |items| - i
  {
    if i == |items| then None
    else if !items[i].Record? then Some(i)
    else ScalarFrom(items, i + 1)
  }

  /** The index of the first item that is not a mapping. */
  function FirstScalar(items: seq<Item>): (r: Option<nat>)
    ensures r.None? <==> forall i :: 0 <= i < |items| ==> items[i].Record?
    ensures r.Some? ==> r.value < |items| && !items[r.value].Record?
                        && forall i :: 0 <= i < r.value ==> items[i].Record?
  {
    ScalarFrom(items, 0)
  }

  function Footnote(maxRows: nat, total: nat): string {
    "* Showing " + NatToString(maxRows) + " of " + NatToString(total) + " total records"
  }

  /** The title line, when there is one, and the cursor below it. */
  function TitleLayout(x: real, y: real, title: string): Layout {
    if title != "" then Layout([Put(Text(x, y, title))], y - 20.0) else Layout([], y)
  }

  /** The grid drawn with its bottom at `bottom`, then the footnote 10 below it when rows were cut. */
  function GridOps(x: real, bottom: real, widths: seq<real>, cells: seq<seq<string>>, total: nat, maxRows: nat): seq<Op> {
    [Grid(x, bottom, widths, cells)] + (if total > maxRows then [Text(x, bottom - 10.0, Footnote(maxRows, total))] else [])
  }

  /**
   * Placing the finished table of `cells` under the cursor y: a page break
   * first when it would reach below the floor, the grid, and the footnote
   * when `total` rows were cut to `maxRows`.
   */
  function GridLayout(x: real, y: real, pageWidth: real, columnCount: nat, cells: seq<seq<string>>,
                      total: nat, maxRows: nat, lib: Lib): Layout
    requires columnCount > 0
  {
    var h := lib.tableHeight(cells);
    var start := if y - h < TableFloor then Top else y;
    var broke: seq<Event> := if y - h < TableFloor then [Break] else [];
    var width := (pageWidth - 2.0 * x) / columnCount as real;
    var ops := GridOps(x, start - h, seq(columnCount, _ => width), cells, total, maxRows);
    Layout(broke + Puts(ops), start - h - 10.0 - (if total > maxRows then 15.0 else 0.0))
  }

  /** `_draw_styled_table`: what it draws and the cursor it returns, or the error it raises. */
  function TableLayout(data: seq<Item>, x: real, y: real, pageWidth: real, title: string, maxRows: nat, lib: Lib)
    : Result<Layout, RenderError>
  {
    if data == [] then Ok(Layout([], y))
    else
      var t := TitleLayout(x, y, title);
      if !data[0].Record? then Ok(t)
      else
        var columns := Keys(data[0].row);
        var shown := Prefix(data, maxRows);
        if columns != [] && FirstScalar(shown).Some? then Err(NotAMapping(FirstScalar(shown).value))
        else if columns == [] then Err(NoColumns)
        else
          var g := GridLayout(x, t.y, pageWidth, |columns|, [Headers(columns)] + Body(Records(shown), columns, lib),
                              |data|, maxRows, lib);
          Ok(Layout(t.events + g.events, g.y))
  }

  /** The table raises exactly when row 0 is a mapping without keys, or a shown row is not a mapping. */
  lemma TableErrors(data: seq<Item>, x: real, y: real, pageWidth: real, title: string, maxRows: nat, lib: Lib)
    ensures TableLayout(data, x, y, pageWidth, title, maxRows, lib).Err? <==>
      data != [] && data[0].Record? &&
      (data[0].row == [] || exists i :: 0 <= i < |data| && i < maxRows && !data[i].Record?)
  {
    if data != [] && data[0].Record? {
      var shown := Prefix(data, maxRows);
      assert forall i :: 0 <= i < |shown| ==> shown[i] == data[i];
    }
  }

  /**
   * The grid is never split: if its bottom would fall below 2cm exactly one
   * page break comes first, and otherwise none.
   */
  lemma GridBreaks(x: real, y: real, pageWidth: real, columnCount: nat, cells: seq<seq<string>>,
                   total: nat, maxRows: nat, lib: Lib)
    requires columnCount > 0
    ensures var g := GridLayout(x, y, pageWidth, columnCount, cells, total, maxRows, lib);
      var k := if y - lib.tableHeight(cells) < TableFloor then 1 else 0;
      && Breaks(g.events) == k
      && (k == 1 ==> g.events[0] == Break)
  {
    var h := lib.tableHeight(cells);
    var start := if y - h < TableFloor then Top else y;
    var broke: seq<Event> := if y - h < TableFloor then [Break] else [];
    var width := (pageWidth - 2.0 * x) / columnCount as real;
    var ops := GridOps(x, start - h, seq(columnCount, _ => width), cells, total, maxRows);
    assert Breaks(broke) == |broke| by {
      if broke != [] {
        assert broke[..0] == [];
      }
    }
    PutsHaveNoBreaks(ops);
    BreaksAppend(broke, Puts(ops));
  }

  /**
   * What is placed: after the break, if any, the grid with its bottom h below
   * where it starts (27cm after a break) and columnCount equal column widths,
   * then the footnote "Showing maxRows of total" 10 below it exactly when
   * total > maxRows; the cursor ends 10 below the grid, and 15 further with
   * the footnote.
   */
  lemma GridShape(x: real, y: real, pageWidth: real, columnCount: nat, cells: seq<seq<string>>,
                  total: nat, maxRows: nat, lib: Lib)
    requires columnCount > 0
    ensures var g := GridLayout(x, y, pageWidth, columnCount, cells, total, maxRows, lib);
      var h := lib.tableHeight(cells);
      var start := if y - h < TableFloor then Top else y;
      var k := if y - h < TableFloor then 1 else 0;
      && |g.events| == k + (if total > maxRows then 2 else 1)
      && g.events[k].Put? && g.events[k].op.Grid?
      && g.events[k].op.x == x && g.events[k].op.y == start - h && g.events[k].op.cells == cells
      && |g.events[k].op.colWidths| == columnCount
      && (forall j :: 0 <= j < columnCount ==> g.events[k].op.colWidths[j] == (pageWidth - 2.0 * x) / columnCount as real)
      && g.y == start - h - 10.0 - (if total > maxRows then 15.0 else 0.0)
      && (total > maxRows <==> g.events[|g.events| - 1] == Put(Text(x, start - h - 10.0, Footnote(maxRows, total))))
  {
  }

  /**
   * The grid drawn: a header row of labels for row 0's keys, then one row per
   * shown item (the first min(N, maxRows)), each with one formatted cell per column.
   */
  lemma TableContent(data: seq<Item>, x: real, y: real, pageWidth: real, title: string, maxRows: nat, lib: Lib)
    requires data != [] && data[0].Record?
    requires TableLayout(data, x, y, pageWidth, title, maxRows, lib).Ok?
    ensures var l := TableLayout(data, x, y, pageWidth, title, maxRows, lib).value;
      var columns := Keys(data[0].row);
      var n := if |data| <= maxRows then |data| else maxRows;
      exists k :: 0 <= k < |l.events| && l.events[k].Put? && l.events[k].op.Grid? &&
        var cells := l.events[k].op.cells;
        && |cells| == n + 1
        && cells[0] == Headers(columns)
        && (forall i :: 0 <= i < n ==> data[i].Record? && cells[i + 1] == BodyRow(data[i].row, columns, lib))
  {
    var l := TableLayout(data, x, y, pageWidth, title, maxRows, lib).value;
    var columns := Keys(data[0].row);
    var shown := Prefix(data, maxRows);
    RecordsAreRows(shown);
    var t := TitleLayout(x, y, title);
    var cells := [Headers(columns)] + Body(Records(shown), columns, lib);
    GridShape(x, t.y, pageWidth, |columns|, cells, |data|, maxRows, lib);
    var g := GridLayout(x, t.y, pageWidth, |columns|, cells, |data|, maxRows, lib);
    var k := if t.y - lib.tableHeight(cells) < TableFloor then 1 else 0;
    assert l.events == t.events + g.events;
    assert l.events[|t.events| + k] == g.events[k];
  }

  /**
   * The whole table section: the title takes 20, then the grid is placed
   * as `GridPlacement` states, so the table adds at most one page.
   */
  lemma TablePlacement(data: seq<Item>, x: real, y: real, pageWidth: real, title: string, maxRows: nat, lib: Lib)
    requires data != [] && data[0].Record?
    requires TableLayout(data, x, y, pageWidth, title, maxRows, lib).Ok?
    ensures var l := TableLayout(data, x, y, pageWidth, title, maxRows, lib).value;
      var columns := Keys(data[0].row);
      var h := lib.tableHeight([Headers(columns)] + Body(Records(Prefix(data, maxRows)), columns, lib));
      var y1 := if title != "" then y - 20.0 else y;
      var start := if y1 - h < TableFloor then Top else y1;
      && Breaks(l.events) == (if y1 - h < TableFloor then 1 else 0)
      && l.y == start - h - 10.0 - (if |data| > maxRows then 15.0 else 0.0)
      && (|data| > maxRows <==> l.events[|l.events| - 1] == Put(Text(x, start - h - 10.0, Footnote(maxRows, |data|))))
  {
    var l := TableLayout(data, x, y, pageWidth, title, maxRows, lib).value;
    var columns := Keys(data[0].row);
    var cells := [Headers(columns)] + Body(Records(Prefix(data, maxRows)), columns, lib);
    var t := TitleLayout(x, y, title);
    GridBreaks(x, t.y, pageWidth, |columns|, cells, |data|, maxRows, lib);
    GridShape(x, t.y, pageWidth, |columns|, cells, |data|, maxRows, lib);
    var g := GridLayout(x, t.y, pageWidth, |columns|, cells, |data|, maxRows, lib);
    assert l.events == t.events + g.events;
    assert Breaks(t.events) == 0 by {
      if title != "" {
        PutsHaveNoBreaks([Text(x, y, title)]);
        assert t.events == Puts([Text(x, y, title)]);
      }
    }
    BreaksAppend(t.events, g.events);
  }

  /** Whatever the data, a table that renders adds at most one page. */
  lemma TableBreaks(data: seq<Item>, x: real, y: real, pageWidth: real, title: string, maxRows: nat, lib: Lib)
    requires TableLayout(data, x, y, pageWidth, title, maxRows, lib).Ok?
    ensures Breaks(TableLayout(data, x, y, pageWidth, title, maxRows, lib).value.events) <= 1
  {
    if data != [] {
      if data[0].Record? {
        TablePlacement(data, x, y, pageWidth, title, maxRows, lib);
      } else if title != "" {
        assert TitleLayout(x, y, title).events[..0] == [];
      }
    }
  }

  /** When every item is a mapping, Records keeps each item's row in place. */
  lemma {:induction false} RecordsAreRows(items: seq<Item>)
    requires forall i :: 0 <= i < |items| ==> items[i].Record?
    ensures |Records(items)| == |items|
    ensures forall i :: 0 <= i < |items| ==> Records(items)[i] == items[i].row
  {
    if items != [] {
      RecordsAreRows(items[..|items| - 1]);
    }
  }

  /** Twenty rows with a cap of 15: the footnote reads "* Showing 15 of 20 total records". */
  lemma FootnoteExample()
    ensures Footnote(15, 20) == "* Showing 15 of 20 total records"
  {
  }

  /**
   * The cells loop for one item: one formatted cell per column; on an item
   * that is not a mapping the first `item.get` raises, so there is no row
   * unless there are no columns to look up.
   */
  method FormatRow(item: Item, columns: seq<string>, lib: Lib) returns (r: Option<seq<string>>)
    ensures item.Record? ==> r == Some(BodyRow(item.row, columns, lib))
    ensures !item.Record? ==> (r.None? <==> columns != [])
    ensures columns == [] ==> r == Some([])
  {
    var row: seq<string> := [];
    for j := 0 to |columns|
      invariant item.Record? ==> row == BodyRow(item.row, columns, lib)[..j]
      invariant !item.Record? ==> j == 0 && row == []
    {
      if !item.Record? {
        return None;
      }
      row := row + [Cell(item.row, columns[j], lib)];
    }
    assert item.Record? ==> row == BodyRow(item.row, columns, lib);
    r := Some(row);
  }

  /**
   * The rows loop of `_draw_styled_table`: one formatted row per shown item;
   * when there are columns, the first shown item that is not a mapping raises
   * (`item.get` on a non-dict), and without columns nothing is looked up.
   */
  method BuildRows(shown: seq<Item>, columns: seq<string>, lib: Lib) returns (r: Result<seq<seq<string>>, RenderError>)
    ensures columns != [] ==> (r.Err? <==> FirstScalar(shown).Some?)
    ensures columns != [] && r.Err? ==> r.error == NotAMapping(FirstScalar(shown).value)
    ensures columns != [] && r.Ok? ==> r.value == Body(Records(shown), columns, lib)
    ensures columns == [] ==> r == Ok(seq(|shown|, _ => []))
  {
    var rows: seq<seq<string>> := [];
    for i := 0 to |shown|
      invariant columns != [] ==> rows == Body(Records(shown[..i]), columns, lib)
      invariant columns != [] ==> forall k :: 0 <= k < i ==> shown[k].Record?
      invariant columns == [] ==> rows == seq(i, _ => [])
    {
      var row := FormatRow(shown[i], columns, lib);
      if row.None? {
        return Err(NotAMapping(i));
      }
      if columns != [] {
        assert Records(shown[..i + 1]) == Records(shown[..i]) + [shown[i].row] by {
          assert shown[..i + 1][..i] == shown[..i];
        }
      }
      rows := rows + [row.value];
    }
    assert shown[..|shown|] == shown;
    r := Ok(rows);
  }

  /** Draws the finished table under the cursor, as `GridLayout` lays it out. */
  method PlaceGrid(c: Canvas, x: real, y: real, pageWidth: real, columnCount: nat, cells: seq<seq<string>>,
                   total: nat, maxRows: nat, lib: Lib)
    returns (y': real)
    requires columnCount > 0
    modifies c
    ensures c.log == old(c.log) + GridLayout(x, y, pageWidth, columnCount, cells, total, maxRows, lib).events
    ensures y' == GridLayout(x, y, pageWidth, columnCount, cells, total, maxRows, lib).y
  {
    var h := lib.tableHeight(cells);
    var width := (pageWidth - 2.0 * x) / columnCount as real;
    y' := y;
    if y' - h < TableFloor {
      c.ShowPage();
      y' := Top;
    }
    c.Draw(Grid(x, y' - h, seq(columnCount, _ => width), cells));
    y' := y' - h - 10.0;
    if total > maxRows {
      c.Draw(Text(x, y', Footnote(maxRows, total)));
      y' := y' - 15.0;
    }
  }

  /**
   * `_draw_styled_table` on the canvas. On an error the title is already on
   * the page and the exception ends the document.
   */
  method DrawStyledTable(c: Canvas, data: seq<Item>, x: real, y: real, pageWidth: real, title: string,
                         maxRows: nat, lib: Lib)
    returns (r: Result<real, RenderError>)
    modifies c
    ensures var t := TableLayout(data, x, y, pageWidth, title, maxRows, lib);
      && (t.Ok? ==> r == Ok(t.value.y) && c.log == old(c.log) + t.value.events)
      && (t.Err? ==> r == Err(t.error) && c.log == old(c.log) + TitleLayout(x, y, title).events)
  {
    if data == [] {
      return Ok(y);
    }
    ghost var t := TitleLayout(x, y, title);
    var cur := y;
    if title != "" {
      c.Draw(Text(x, cur, title));
      cur := cur - 20.0;
    }
    assert c.log == old(c.log) + t.events && cur == t.y;
    if !data[0].Record? {
      assert TableLayout(data, x, y, pageWidth, title, maxRows, lib) == Ok(t);
      return Ok(cur);
    }
    var columns := Keys(data[0].row);
    var headers := Headers(columns);
    var rows := BuildRows(Prefix(data, maxRows), columns, lib);
    if rows.Err? {
      assert TableLayout(data, x, y, pageWidth, title, maxRows, lib) == Err(rows.error);
      return Err(rows.error);
    }
    if columns == [] {
      assert TableLayout(data, x, y, pageWidth, title, maxRows, lib) == Err(NoColumns);
      return Err(NoColumns);
    }
    var cells := [headers] + rows.value;
    ghost var g := GridLayout(x, t.y, pageWidth, |columns|, cells, |data|, maxRows, lib);
    assert TableLayout(data, x, y, pageWidth, title, maxRows, lib) == Ok(Layout(t.events + g.events, g.y));
    cur := PlaceGrid(c, x, cur, pageWidth, |columns|, cells, |data|, maxRows, lib);
    AppendAssoc(old(c.log), t.events, g.events);
    r := Ok(cur);
  }
}
