/**
 * The closing block of the report: limitations and next steps side by side.
 * Each column shows its title and then, for each of its first five items
 * whose wrapped text is not empty, the first line after a bullet (or arrow)
 * and the continuation lines indented a little further, 12 points per line
 * and 3 between items. The block never breaks the page; it ends 10 below
 * the lower of the two columns.
 */
module Columns {
  import opened Values
  import opened Pdf

  const EntryLine: real := 12.0
  const EntryGap: real := 3.0
  /** The space between a column title and its first entry. */
  const TitleGap: real := 18.0
  const WrapWidth: nat := 40
  const MaxEntries: nat := 5

  /** Where a column draws: its title, the first line of an entry, and the continuation lines. */
  datatype ColumnPlace = ColumnPlace(titleX: real, firstX: real, restX: real)

  function LimitationsPlace(x: real): ColumnPlace {
    ColumnPlace(x, x + 5.0, x + 12.0)
  }

  /** The text width of one column: half the printable width, less 20. */
  function ColumnWidth(x: real, pageWidth: real): real {
    (pageWidth - 2.0 * x) / 2.0 - 20.0
  }

  function NextStepsPlace(x: real, pageWidth: real): ColumnPlace {
    var w := ColumnWidth(x, pageWidth);
    ColumnPlace(x + w + 40.0, x + w + 45.0, x + w + 52.0)
  }

  const Bullet: string := "\U{2022} "
  const Arrow: string := "\U{2192} "

  /** One entry with its wrapped lines: the first after the marker, the rest indented, one line every 12 points. */
  function EntryOps(lines: seq<string>, marker: string, place: ColumnPlace, y: real): (ops: seq<Op>)
    ensures |ops| == |lines|
  {
    seq(|lines|, k requires 0 <= k < |lines| =>
      if k == 0 then Text(place.firstX, y, marker + lines[0])
      else Text(place.restX, y - EntryLine * k as real, lines[k]))
  }

  /** The height an entry takes: nothing when its wrapped text is empty. */
  function EntryCost(lines: seq<string>): real {
    if lines == [] then 0.0 else EntryLine * |lines| as real + EntryGap
  }

  /** The total height of the first n entries. */
  function EntriesCost(wraps: seq<seq<string>>, n: nat): (h: real)
    requires n <= |wraps|
    ensures h >= 0.0
  {
    if n == 0 then 0.0 else EntriesCost(wraps, n - 1) + EntryCost(wraps[n - 1])
  }

  /** Where each entry starts: y less the height of the entries above it. */
  function EntryStarts(wraps: seq<seq<string>>, y: real): (starts: seq<real>)
    ensures |starts| == |wraps|
  {
    seq(|wraps|, k requires 0 <= k < |wraps| => y - EntriesCost(wraps, k))
  }

  /** The drawing calls of each entry, entry k drawn from starts[k]. */
  function EntryParts(wraps: seq<seq<string>>, marker: string, place: ColumnPlace, starts: seq<real>): (parts: seq<seq<Event>>)
    requires |starts| == |wraps|
    ensures |parts| == |wraps|
  {
    seq(|wraps|, k requires 0 <= k < |wraps| => Puts(EntryOps(wraps[k], marker, place, starts[k])))
  }

  /** The entries one below the other from y. */
  function EntriesLayout(wraps: seq<seq<string>>, marker: string, place: ColumnPlace, y: real): Layout {
    Layout(Flatten(EntryParts(wraps, marker, place, EntryStarts(wraps, y))), y - EntriesCost(wraps, |wraps|))
  }

  /** `textwrap.wrap(item, 40)` for every item. */
  function WrapEntries(items: seq<string>, lib: Lib): (wraps: seq<seq<string>>)
    ensures |wraps| == |items|
    ensures forall i :: 0 <= i < |items| ==> wraps[i] == lib.wrap(items[i], WrapWidth)
  {
    seq(|items|, i requires 0 <= i < |items| => lib.wrap(items[i], WrapWidth))
  }

  /** A column: its title at y, then its first five entries from 18 below. */
  function ColumnLayout(title: string, items: seq<string>, marker: string, place: ColumnPlace, y: real, lib: Lib): Layout {
    var wraps := WrapEntries(Prefix(items, MaxEntries), lib);
    var body := EntriesLayout(wraps, marker, place, y - TitleGap);
    Layout([Put(Text(place.titleX, y, title))] + body.events, body.y)
  }

  function Min(a: real, b: real): real {
    if a <= b then a else b
  }

  /**
   * The two-column block: each column only when it has items, both starting
   * at y; the cursor ends 10 below the lowest point either column reached.
   */
  function ColumnsLayout(limitations: seq<string>, nextSteps: seq<string>, x: real, y: real, pageWidth: real, lib: Lib): Layout {
    var left := if limitations != [] then ColumnLayout("Limitations", limitations, Bullet, LimitationsPlace(x), y, lib)
                else Layout([], y);
    var right := if nextSteps != [] then ColumnLayout("Next Steps", nextSteps, Arrow, NextStepsPlace(x, pageWidth), y, lib)
                 else Layout([], y);
    var lowest := Min(Min(y, left.y), right.y);
    Layout(left.events + right.events, lowest - 10.0)
  }

  // ----- Properties -----

  /** What an entry shows at the first-line position: its first line after the marker, if it has one. */
  function FirstLine(lines: seq<string>, marker: string): seq<string> {
    if lines != [] then [marker + lines[0]] else []
  }

  /** What an entry shows at the continuation position: all its lines but the first. */
  function RestLines(lines: seq<string>): seq<string> {
    if lines != [] then lines[1..] else []
  }

  /** The first lines of the non-empty entries, each after the marker. */
  function Firsts(wraps: seq<seq<string>>, marker: string): seq<string> {
    Flatten(seq(|wraps|, k requires 0 <= k < |wraps| => FirstLine(wraps[k], marker)))
  }

  /** The continuation lines of all entries, in order. */
  function Rests(wraps: seq<seq<string>>): seq<string> {
    Flatten(seq(|wraps|, k requires 0 <= k < |wraps| => RestLines(wraps[k])))
  }

  /** A column place whose three horizontal positions differ. */
  predicate Distinct(place: ColumnPlace) {
    place.titleX != place.firstX && place.titleX != place.restX && place.firstX != place.restX
  }

  lemma PlacesDistinct(x: real, pageWidth: real)
    ensures Distinct(LimitationsPlace(x)) && Distinct(NextStepsPlace(x, pageWidth))
  {
  }

  /** The first n drawing calls of an entry are the calls of its first n lines. */
  lemma EntryOpsPrefix(lines: seq<string>, marker: string, place: ColumnPlace, y: real, n: nat)
    requires 1 <= n <= |lines|
    ensures Puts(EntryOps(lines, marker, place, y))[..n] == Puts(EntryOps(lines[..n], marker, place, y))
  {
    var a := Puts(EntryOps(lines, marker, place, y))[..n];
    var b := Puts(EntryOps(lines[..n], marker, place, y));
    forall k | 0 <= k < n ensures a[k] == b[k] {
      assert lines[..n][k] == lines[k];
      assert lines[..n][0] == lines[0];
    }
  }

  /** The texts an entry draws at position tx: its first line with the marker at the first-line position, the others at the continuation position. */
  lemma {:induction false} EntryTextsAt(lines: seq<string>, marker: string, place: ColumnPlace, y: real, tx: real)
    requires place.firstX != place.restX
    ensures TextsAt(Puts(EntryOps(lines, marker, place, y)), tx)
            == (if lines != [] && tx == place.firstX then [marker + lines[0]] else [])
               + (if lines != [] && tx == place.restX then lines[1..] else [])
  {
    if lines != [] {
      var n := |lines| - 1;
      var evs := Puts(EntryOps(lines, marker, place, y));
      if n == 0 {
        assert evs[..0] == [];
      } else {
        EntryOpsPrefix(lines, marker, place, y, n);
        EntryTextsAt(lines[..n], marker, place, y, tx);
        assert lines[..n][0] == lines[0];
        assert lines[1..] == lines[..n][1..] + [lines[n]];
      }
    }
  }

  lemma EntryTexts(lines: seq<string>, marker: string, place: ColumnPlace, y: real)
    requires Distinct(place)
    ensures TextsAt(Puts(EntryOps(lines, marker, place, y)), place.firstX) == FirstLine(lines, marker)
    ensures TextsAt(Puts(EntryOps(lines, marker, place, y)), place.restX) == RestLines(lines)
    ensures TextsAt(Puts(EntryOps(lines, marker, place, y)), place.titleX) == []
  {
    EntryTextsAt(lines, marker, place, y, place.firstX);
    EntryTextsAt(lines, marker, place, y, place.restX);
    EntryTextsAt(lines, marker, place, y, place.titleX);
  }

  /** Entries never break the page, wherever they start. */
  lemma EntriesNoBreaks(wraps: seq<seq<string>>, marker: string, place: ColumnPlace, starts: seq<real>)
    requires |starts| == |wraps|
    ensures Breaks(Flatten(EntryParts(wraps, marker, place, starts))) == 0
  {
    var parts := EntryParts(wraps, marker, place, starts);
    forall k | 0 <= k < |parts|
      ensures Breaks(parts[k]) == 0
    {
      PutsHaveNoBreaks(EntryOps(wraps[k], marker, place, starts[k]));
    }
    FlattenNoBreaks(parts);
  }

  /** The first lines of the entries, with the marker, at the first-line position. */
  lemma EntriesFirsts(wraps: seq<seq<string>>, marker: string, place: ColumnPlace, starts: seq<real>)
    requires Distinct(place) && |starts| == |wraps|
    ensures TextsAt(Flatten(EntryParts(wraps, marker, place, starts)), place.firstX) == Firsts(wraps, marker)
  {
    var parts := EntryParts(wraps, marker, place, starts);
    var texts := seq(|wraps|, k requires 0 <= k < |wraps| => FirstLine(wraps[k], marker));
    forall k | 0 <= k < |parts|
      ensures TextsAt(parts[k], place.firstX) == texts[k]
    {
      EntryTexts(wraps[k], marker, place, starts[k]);
    }
    FlattenTexts(parts, texts, place.firstX);
  }

  /** The continuation lines of the entries, at the continuation position. */
  lemma EntriesRests(wraps: seq<seq<string>>, marker: string, place: ColumnPlace, starts: seq<real>)
    requires Distinct(place) && |starts| == |wraps|
    ensures TextsAt(Flatten(EntryParts(wraps, marker, place, starts)), place.restX) == Rests(wraps)
  {
    var parts := EntryParts(wraps, marker, place, starts);
    var texts := seq(|wraps|, k requires 0 <= k < |wraps| => RestLines(wraps[k]));
    forall k | 0 <= k < |parts|
      ensures TextsAt(parts[k], place.restX) == texts[k]
    {
      EntryTexts(wraps[k], marker, place, starts[k]);
    }
    FlattenTexts(parts, texts, place.restX);
  }

  /** Entries draw nothing at the title position. */
  lemma EntriesNoTitle(wraps: seq<seq<string>>, marker: string, place: ColumnPlace, starts: seq<real>)
    requires Distinct(place) && |starts| == |wraps|
    ensures TextsAt(Flatten(EntryParts(wraps, marker, place, starts)), place.titleX) == []
  {
    var parts := EntryParts(wraps, marker, place, starts);
    var texts: seq<seq<string>> := seq(|wraps|, k requires 0 <= k < |wraps| => []);
    forall k | 0 <= k < |parts|
      ensures TextsAt(parts[k], place.titleX) == texts[k]
    {
      EntryTexts(wraps[k], marker, place, starts[k]);
    }
    FlattenTexts(parts, texts, place.titleX);
    FlattenEmpty(texts);
  }

  /** A column never breaks the page; it ends below its title by 18 plus its first five entries' height. */
  lemma ColumnPlacement(title: string, items: seq<string>, marker: string, place: ColumnPlace, y: real, lib: Lib)
    ensures var l := ColumnLayout(title, items, marker, place, y, lib);
      var wraps := WrapEntries(Prefix(items, MaxEntries), lib);
      && Breaks(l.events) == 0
      && l.y == y - TitleGap - EntriesCost(wraps, |wraps|)
      && l.y <= y - TitleGap
  {
    var wraps := WrapEntries(Prefix(items, MaxEntries), lib);
    var body := EntriesLayout(wraps, marker, place, y - TitleGap);
    var head: seq<Event> := [Put(Text(place.titleX, y, title))];
    assert Breaks(head) == 0 by {
      assert head[..0] == [];
    }
    EntriesNoBreaks(wraps, marker, place, EntryStarts(wraps, y - TitleGap));
    BreaksAppend(head, body.events);
  }

  /**
   * A column's texts: the title alone at the title position, then the first
   * line of each of its first five non-empty entries after the marker, and
   * the continuation lines, at their positions.
   */
  lemma ColumnTexts(title: string, items: seq<string>, marker: string, place: ColumnPlace, y: real, lib: Lib)
    requires Distinct(place)
    ensures var l := ColumnLayout(title, items, marker, place, y, lib);
      var wraps := WrapEntries(Prefix(items, MaxEntries), lib);
      && TextsAt(l.events, place.titleX) == [title]
      && TextsAt(l.events, place.firstX) == Firsts(wraps, marker)
      && TextsAt(l.events, place.restX) == Rests(wraps)
  {
    var wraps := WrapEntries(Prefix(items, MaxEntries), lib);
    var starts := EntryStarts(wraps, y - TitleGap);
    var body := Flatten(EntryParts(wraps, marker, place, starts));
    var head: seq<Event> := [Put(Text(place.titleX, y, title))];
    assert head[..0] == [];
    assert TextsAt(head + body, place.titleX) == [title] by {
      TextsAtAppend(head, body, place.titleX);
      EntriesNoTitle(wraps, marker, place, starts);
    }
    assert TextsAt(head + body, place.firstX) == Firsts(wraps, marker) by {
      TextsAtAppend(head, body, place.firstX);
      EntriesFirsts(wraps, marker, place, starts);
    }
    assert TextsAt(head + body, place.restX) == Rests(wraps) by {
      TextsAtAppend(head, body, place.restX);
      EntriesRests(wraps, marker, place, starts);
    }
  }

  /** The block never breaks the page. */
  lemma ColumnsBreaks(limitations: seq<string>, nextSteps: seq<string>, x: real, y: real, pageWidth: real, lib: Lib)
    ensures Breaks(ColumnsLayout(limitations, nextSteps, x, y, pageWidth, lib).events) == 0
  {
    var left := ColumnLayout("Limitations", limitations, Bullet, LimitationsPlace(x), y, lib);
    var right := ColumnLayout("Next Steps", nextSteps, Arrow, NextStepsPlace(x, pageWidth), y, lib);
    var l := if limitations != [] then left else Layout([], y);
    var r := if nextSteps != [] then right else Layout([], y);
    assert Breaks(l.events) == 0 by {
      ColumnPlacement("Limitations", limitations, Bullet, LimitationsPlace(x), y, lib);
    }
    assert Breaks(r.events) == 0 by {
      ColumnPlacement("Next Steps", nextSteps, Arrow, NextStepsPlace(x, pageWidth), y, lib);
    }
    BreaksAppend(l.events, r.events);
  }

  /**
   * Both columns start at y: the block starts with the limitations title at
   * x, and the next-steps title, half the printable width plus 20 to the
   * right, follows the whole limitations column or, without limitations,
   * opens the block.
   */
  lemma ColumnsStart(limitations: seq<string>, nextSteps: seq<string>, x: real, y: real, pageWidth: real, lib: Lib)
    ensures var l := ColumnsLayout(limitations, nextSteps, x, y, pageWidth, lib);
      && (limitations != [] ==> l.events[0] == Put(Text(x, y, "Limitations")))
      && (limitations == [] && nextSteps != [] ==>
            l.events[0] == Put(Text(x + (pageWidth - 2.0 * x) / 2.0 + 20.0, y, "Next Steps")))
      && (limitations != [] && nextSteps != [] ==>
            var left := ColumnLayout("Limitations", limitations, Bullet, LimitationsPlace(x), y, lib);
            && |left.events| < |l.events|
            && l.events[|left.events|] == Put(Text(x + (pageWidth - 2.0 * x) / 2.0 + 20.0, y, "Next Steps")))
  {
  }

  /**
   * The cursor ends 10 below the lower column (or y when neither is drawn),
   * so at least 28 below y when any column is drawn.
   */
  lemma ColumnsCursor(limitations: seq<string>, nextSteps: seq<string>, x: real, y: real, pageWidth: real, lib: Lib)
    ensures var l := ColumnsLayout(limitations, nextSteps, x, y, pageWidth, lib);
      var left := ColumnLayout("Limitations", limitations, Bullet, LimitationsPlace(x), y, lib);
      var right := ColumnLayout("Next Steps", nextSteps, Arrow, NextStepsPlace(x, pageWidth), y, lib);
      && l.y == (if limitations != [] && nextSteps != [] then Min(left.y, right.y)
                 else if limitations != [] then left.y
                 else if nextSteps != [] then right.y
                 else y) - 10.0
      && (limitations != [] || nextSteps != [] ==> l.y <= y - TitleGap - 10.0)
  {
    ColumnPlacement("Limitations", limitations, Bullet, LimitationsPlace(x), y, lib);
    ColumnPlacement("Next Steps", nextSteps, Arrow, NextStepsPlace(x, pageWidth), y, lib);
  }

  // ----- The drawing code -----

  /** Draws one entry: nothing when its text wraps to no lines. */
  method DrawEntry(c: Canvas, lines: seq<string>, marker: string, place: ColumnPlace, y: real) returns (y': real)
    modifies c
    ensures c.log == old(c.log) + Puts(EntryOps(lines, marker, place, y))
    ensures y' == y - EntryCost(lines)
  {
    y' := y;
    if lines == [] {
      assert EntryOps(lines, marker, place, y) == [];
      return;
    }
    c.Draw(Text(place.firstX, y', marker + lines[0]));
    y' := y' - EntryLine;
    for k := 1 to |lines|
      invariant y' == y - EntryLine * k as real
      invariant c.log == old(c.log) + Puts(EntryOps(lines[..k], marker, place, y))
    {
      c.Draw(Text(place.restX, y', lines[k]));
      assert EntryOps(lines[..k + 1], marker, place, y)
          == EntryOps(lines[..k], marker, place, y) + [Text(place.restX, y', lines[k])];
      PutsAppend(EntryOps(lines[..k], marker, place, y), [Text(place.restX, y', lines[k])]);
      y' := y' - EntryLine;
    }
    assert lines[..|lines|] == lines;
    y' := y' - EntryGap;
  }

  /** One column on the canvas: the title, then the first five items; returns where the column ends. */
  method DrawColumn(c: Canvas, title: string, items: seq<string>, marker: string, place: ColumnPlace, y: real, lib: Lib)
    returns (y': real)
    modifies c
    ensures c.log == old(c.log) + ColumnLayout(title, items, marker, place, y, lib).events
    ensures y' == ColumnLayout(title, items, marker, place, y, lib).y
  {
    ghost var head: seq<Event> := [Put(Text(place.titleX, y, title))];
    c.Draw(Text(place.titleX, y, title));
    ghost var log0 := c.log;
    var shown := Prefix(items, MaxEntries);
    ghost var wraps := WrapEntries(shown, lib);
    ghost var parts := EntryParts(wraps, marker, place, EntryStarts(wraps, y - TitleGap));
    y' := y - TitleGap;
    for i := 0 to |shown|
      invariant c.log == log0 + Flatten(parts[..i])
      invariant y' == y - TitleGap - EntriesCost(wraps, i)
    {
      var lines := lib.wrap(shown[i], WrapWidth);
      assert parts[i] == Puts(EntryOps(lines, marker, place, y')) by {
        assert EntryStarts(wraps, y - TitleGap)[i] == y' && wraps[i] == lines;
      }
      y' := DrawEntry(c, lines, marker, place, y');
      FlattenLast(parts, i);
      AppendAssoc(log0, Flatten(parts[..i]), parts[i]);
    }
    assert c.log == old(c.log) + head + Flatten(parts) by {
      assert parts[..|shown|] == parts;
    }
    AppendAssoc(old(c.log), head, Flatten(parts));
  }

  /** The limitations and next-steps block on the canvas. */
  method DrawColumns(c: Canvas, limitations: seq<string>, nextSteps: seq<string>, x: real, y: real, pageWidth: real, lib: Lib)
    returns (y': real)
    modifies c
    ensures c.log == old(c.log) + ColumnsLayout(limitations, nextSteps, x, y, pageWidth, lib).events
    ensures y' == ColumnsLayout(limitations, nextSteps, x, y, pageWidth, lib).y
  {
    var lowest := y;
    ghost var log0 := c.log;
    ghost var left := if limitations != [] then ColumnLayout("Limitations", limitations, Bullet, LimitationsPlace(x), y, lib)
                      else Layout([], y);
    ghost var right := if nextSteps != [] then ColumnLayout("Next Steps", nextSteps, Arrow, NextStepsPlace(x, pageWidth), y, lib)
                       else Layout([], y);
    if limitations != [] {
      var temp := DrawColumn(c, "Limitations", limitations, Bullet, LimitationsPlace(x), y, lib);
      lowest := Min(lowest, temp);
    } else {
      assert log0 + left.events == log0;
    }
    assert c.log == log0 + left.events;
    if nextSteps != [] {
      var temp := DrawColumn(c, "Next Steps", nextSteps, Arrow, NextStepsPlace(x, pageWidth), y, lib);
      lowest := Min(lowest, temp);
    } else {
      assert c.log + right.events == c.log;
    }
    assert c.log == log0 + left.events + right.events;
    AppendAssoc(log0, left.events, right.events);
    y' := lowest - 10.0;
  }
}
