/**
 * The metric-card grid: up to ten cards, two per row, each row 2.5cm below
 * the previous one. The rows are placed from a fixed starting height; when a
 * card would reach below 3cm the page is broken and the starting height
 * becomes 27cm, the grid offset of the row being kept.
 */
module Cards {
  import opened Text
  import opened Values
  import opened Pdf

  const CardWidth: real := 7.0 * Cm
  const CardHeight: real := 2.0 * Cm
  const Spacing: real := 0.5 * Cm
  /** A card whose bottom would fall below this height starts a new page. */
  const CardFloor: real := 3.0 * Cm
  const MaxCards: nat := 10
  const Heading := "Key Metrics"

  function ColStep(): real { CardWidth + Spacing }
  function RowStep(): real { CardHeight + Spacing }

  /** The text lines of a card, top to bottom: at most three. */
  type CardText = lines: seq<string> | |lines| <= 3

  /** How far below the card's top edge each text line sits. */
  const LineDrops: seq<real> := [20.0, 40.0, 55.0]

  /**
   * The text a card shows: the key of the metric's first entry as a label and
   * its value below it, then the second entry as `Label: value`.
   */
  function CardLines(metric: Row, lib: Lib): (lines: CardText)
    ensures |lines| == if metric == [] then 0 else if |metric| == 1 then 2 else 3
  {
    if metric == [] then []
    else
      [Label(metric[0].0), Str(metric[0].1, lib)]
      + (if |metric| > 1 then [Label(metric[1].0) + ": " + Str(metric[1].1, lib)] else [])
  }

  /** One card whose top-left corner is (cx, cy): its filled box, its outline, its text lines. */
  function CardOps(lines: CardText, cx: real, cy: real): (ops: seq<Op>)
    ensures |ops| == 2 + |lines|
  {
    var box := Box(cx, cy - CardHeight, CardWidth, CardHeight);
    [box, box] + seq(|lines|, k requires 0 <= k < |lines| => Text(cx + 10.0, cy - LineDrops[k], lines[k]))
  }

  /** A card is two copies of its box (fill, then outline) followed by one text per line, 20, 40 and 55 below its top. */
  lemma CardOpsFacts(lines: CardText, cx: real, cy: real)
    ensures var ops := CardOps(lines, cx, cy);
      && ops[0] == ops[1] == Box(cx, cy - CardHeight, CardWidth, CardHeight)
      && (forall k :: 0 <= k < |ops| ==> (ops[k].Box? <==> k < 2))
      && (forall k :: 0 <= k < |lines| ==> ops[k + 2] == Text(cx + 10.0, cy - LineDrops[k], lines[k]))
  {
  }

  /** Whether a card in the given row, placed from `start`, would reach below the floor. */
  predicate Overflows(start: real, row: nat) {
    start - row as real * RowStep() - CardHeight < CardFloor
  }

  /** r is the first row that does not fit when rows are placed from `start`: every row from r on overflows, none before. */
  ghost predicate IsOverflowRow(start: real, r: nat) {
    forall row: nat {:trigger Overflows(start, row)} :: Overflows(start, row) <==> row >= r
  }

  /** The first row that does not fit when rows are placed from `start`. */
  function OverflowRow(start: real): nat {
    var d := (start - CardHeight - CardFloor) / RowStep();
    if d < 0.0 then 0 else d.Floor + 1
  }

  lemma OverflowRowFacts(start: real)
    ensures IsOverflowRow(start, OverflowRow(start))
  {
    var d := (start - CardHeight - CardFloor) / RowStep();
    forall row: nat
      ensures Overflows(start, row) <==> row >= OverflowRow(start)
    {
      assert Overflows(start, row) <==> (row as real) > d;
    }
  }

  function CardX(x: real, i: nat): real {
    x + (i % 2) as real * ColStep()
  }

  /**
   * The top of card i when the grid starts at `start` and r is its first
   * overflowing row: rows before r keep `start`, the rest are measured from 27cm.
   */
  function CardY(start: real, r: nat, i: nat): real {
    var row := i / 2;
    (if row < r then start else Top) - row as real * RowStep()
  }

  /** The text lines of every card. */
  function AllCardLines(ms: seq<Row>, lib: Lib): (texts: seq<CardText>)
    ensures |texts| == |ms|
    ensures forall i :: 0 <= i < |ms| ==> texts[i] == CardLines(ms[i], lib)
  {
    seq(|ms|, i requires 0 <= i < |ms| => CardLines(ms[i], lib))
  }

  /** Card i: a page break first when it is the first card of row r, then the card. */
  function CardEvents(lines: CardText, start: real, r: nat, x: real, i: nat): seq<Event> {
    (if i == 2 * r then [Break] else [])
    + Puts(CardOps(lines, CardX(x, i), CardY(start, r, i)))
  }

  /** The events of each card, in order. */
  function CardParts(texts: seq<CardText>, start: real, r: nat, x: real): (parts: seq<seq<Event>>)
    ensures |parts| == |texts|
  {
    seq(|texts|, k requires 0 <= k < |texts| => CardEvents(texts[k], start, r, x, k))
  }

  /** The start height before card i: 27cm once the first card of row r has been placed. */
  function StartBefore(start: real, r: nat, i: nat): real {
    if i > 2 * r then Top else start
  }

  /** The cursor after n cards: 20 below the rows they fill, measured from the final start height. */
  function CursorAfter(start: real, n: nat): real {
    start - ((n + 1) / 2) as real * RowStep() - 20.0
  }

  /**
   * `_draw_metric_cards`: the title, the cards, and the cursor 20 below the
   * spacing under the last row, measured from the start height the loop ends with.
   */
  function CardsLayout(metrics: seq<Row>, x: real, y: real, lib: Lib): Layout {
    if metrics == [] then Layout([], y)
    else
      var ms := Prefix(metrics, MaxCards);
      var start := y - 25.0;
      var r := OverflowRow(start);
      Layout([Put(Text(x, y, Heading))] + Flatten(CardParts(AllCardLines(ms, lib), start, r, x)),
             CursorAfter(StartBefore(start, r, |ms|), |ms|))
  }

  /**
   * The loop's break test, evaluated with the running start height, fires on
   * card i exactly when i is the first card of the first overflowing row; the
   * card then sits where `CardY` puts it. Needs at most ten cards: after the
   * reset to 27cm, five rows always fit.
   */
  lemma BreakDecision(start: real, r: nat, i: nat)
    requires IsOverflowRow(start, r) && i < MaxCards
    ensures Overflows(StartBefore(start, r, i), i / 2) <==> i == 2 * r
    ensures CardY(start, r, i) == (if i == 2 * r then Top else StartBefore(start, r, i)) - (i / 2) as real * RowStep()
  {
    var row := i / 2;
    assert Overflows(start, row) <==> row >= r;
    if i > 2 * r {
      assert row <= 4;
      assert Top - row as real * RowStep() - CardHeight >= Top - 4.0 * RowStep() - CardHeight;
    }
  }

  /** Every card lies above the floor: those before the first overflowing row by its definition, the rest because five rows fit below 27cm. */
  lemma CardFits(start: real, r: nat, i: nat)
    requires IsOverflowRow(start, r) && i < MaxCards
    ensures CardY(start, r, i) - CardHeight >= CardFloor
  {
    var row := i / 2;
    assert Overflows(start, row) <==> row >= r;
    assert row <= 4;
    if row >= r {
      assert Top - row as real * RowStep() - CardHeight >= Top - 4.0 * RowStep() - CardHeight;
    }
  }

  /** Every box among the events has its bottom edge at or above `floor`. */
  ghost predicate BoxesAbove(evs: seq<Event>, floor: real) {
    forall e | e in evs && e.Put? && e.op.Box? :: e.op.y >= floor
  }

  /** Card i holds a page break exactly when it is the first card of row r. */
  lemma CardEventBreaks(lines: CardText, start: real, r: nat, x: real, i: nat)
    ensures Breaks(CardEvents(lines, start, r, x, i)) == (if i == 2 * r then 1 else 0)
  {
    var ops := CardOps(lines, CardX(x, i), CardY(start, r, i));
    var brk: seq<Event> := if i == 2 * r then [Break] else [];
    assert CardEvents(lines, start, r, x, i) == brk + Puts(ops);
    PutsHaveNoBreaks(ops);
    BreaksAppend(brk, Puts(ops));
  }

  /** The boxes of card i lie above the floor. */
  lemma CardEventFits(lines: CardText, start: real, r: nat, x: real, i: nat)
    requires i < MaxCards && IsOverflowRow(start, r)
    ensures BoxesAbove(CardEvents(lines, start, r, x, i), CardFloor)
  {
    var ops := CardOps(lines, CardX(x, i), CardY(start, r, i));
    var brk: seq<Event> := if i == 2 * r then [Break] else [];
    assert CardEvents(lines, start, r, x, i) == brk + Puts(ops);
    CardFits(start, r, i);
    CardOpsFacts(lines, CardX(x, i), CardY(start, r, i));
    assert BoxesAbove(Puts(ops), CardFloor) by {
      forall k | 0 <= k < |ops| && ops[k].Box?
        ensures ops[k].y >= CardFloor
      {
        assert k < 2;
      }
    }
  }

  /** The cards break the page once if they reach row r, else never. */
  lemma CardsEventsBreaks(texts: seq<CardText>, start: real, r: nat, x: real)
    ensures Breaks(Flatten(CardParts(texts, start, r, x))) == (if |texts| > 2 * r then 1 else 0)
  {
    var parts := CardParts(texts, start, r, x);
    forall k | 0 <= k < |parts| ensures Breaks(parts[k]) == (if k == 2 * r then 1 else 0) {
      CardEventBreaks(texts[k], start, r, x, k);
    }
    FlattenOneBreak(parts, 2 * r);
  }

  /** The boxes of the parts lie above the floor when those of each part do. */
  lemma {:induction false} FlattenBoxesAbove(parts: seq<seq<Event>>, floor: real)
    requires forall k :: 0 <= k < |parts| ==> BoxesAbove(parts[k], floor)
    ensures BoxesAbove(Flatten(parts), floor)
  {
    if parts != [] {
      FlattenBoxesAbove(parts[..|parts| - 1], floor);
    }
  }

  /** No card box of the grid reaches below the floor. */
  lemma CardsEventsFit(texts: seq<CardText>, start: real, r: nat, x: real)
    requires |texts| <= MaxCards && IsOverflowRow(start, r)
    ensures BoxesAbove(Flatten(CardParts(texts, start, r, x)), CardFloor)
  {
    var parts := CardParts(texts, start, r, x);
    forall k | 0 <= k < |parts| ensures BoxesAbove(parts[k], CardFloor) {
      CardEventFits(texts[k], start, r, x, k);
    }
    FlattenBoxesAbove(parts, CardFloor);
  }

  /** The cursor formula measured from the loop's final start height is 20 below the spacing under the last card. */
  lemma CursorBelowLastCard(start: real, r: nat, n: nat)
    requires n >= 1
    ensures CursorAfter(StartBefore(start, r, n), n)
            == CardY(start, r, n - 1) - CardHeight - Spacing - 20.0
  {
    var row := (n - 1) / 2;
    assert (n + 1) / 2 == row + 1;
    assert row < r <==> !(n > 2 * r);
    assert (row + 1) as real * RowStep() == row as real * RowStep() + RowStep();
  }

  /** Only the first ten metrics are drawn: any metric after the tenth changes nothing. */
  lemma CardsFirstTen(metrics: seq<Row>, x: real, y: real, lib: Lib)
    ensures |metrics| > MaxCards ==> CardsLayout(metrics, x, y, lib) == CardsLayout(metrics[..MaxCards], x, y, lib)
  {
    if |metrics| > MaxCards {
      assert Prefix(metrics[..MaxCards], MaxCards) == Prefix(metrics, MaxCards);
    }
  }

  /**
   * The metric-card grid as a whole: nothing without metrics; at most one
   * page break, which happens exactly when one of the (at most ten) cards
   * falls in an overflowing row; and every card's box lies above 3cm on its page.
   */
  lemma CardsLayoutPaging(metrics: seq<Row>, x: real, y: real, lib: Lib)
    ensures var l := CardsLayout(metrics, x, y, lib);
      var n := if |metrics| <= MaxCards then |metrics| else MaxCards;
      && (metrics == [] ==> l == Layout([], y))
      && Breaks(l.events) <= 1
      && (Breaks(l.events) == 1 <==> n > 2 * OverflowRow(y - 25.0))
      && BoxesAbove(l.events, CardFloor)
  {
    if metrics != [] {
      var ms := Prefix(metrics, MaxCards);
      var start := y - 25.0;
      var r := OverflowRow(start);
      OverflowRowFacts(start);
      var texts := AllCardLines(ms, lib);
      CardsEventsBreaks(texts, start, r, x);
      CardsEventsFit(texts, start, r, x);
      var title: seq<Event> := [Put(Text(x, y, Heading))];
      assert Breaks(title) == 0;
      BreaksAppend(title, Flatten(CardParts(texts, start, r, x)));
      assert BoxesAbove(title, CardFloor);
    }
  }

  /** The returned cursor is 20 below the spacing under the last card's row, on the page the grid ends on. */
  lemma CardsLayoutCursor(metrics: seq<Row>, x: real, y: real, lib: Lib)
    requires metrics != []
    ensures var n := if |metrics| <= MaxCards then |metrics| else MaxCards;
      CardsLayout(metrics, x, y, lib).y == CardY(y - 25.0, OverflowRow(y - 25.0), n - 1) - CardHeight - Spacing - 20.0
  {
    var ms := Prefix(metrics, MaxCards);
    CursorBelowLastCard(y - 25.0, OverflowRow(y - 25.0), |ms|);
  }

  /** A card draws each of its lines 10 in from its left edge, at its drop below the card's top. */
  lemma CardOpsShow(lines: CardText, cx: real, cy: real, k: nat)
    requires k < |lines|
    ensures Put(Text(cx + 10.0, cy - LineDrops[k], lines[k])) in Puts(CardOps(lines, cx, cy))
  {
    var ops := CardOps(lines, cx, cy);
    assert ops[k + 2] == Text(cx + 10.0, cy - LineDrops[k], lines[k]);
    assert Puts(ops)[k + 2] == Put(ops[k + 2]);
  }

  /** Card i draws each of its lines 10 in from its left edge, at its drop below the card's top. */
  lemma CardEventsShow(lines: CardText, start: real, r: nat, x: real, i: nat, k: nat)
    requires k < |lines|
    ensures Put(Text(CardX(x, i) + 10.0, CardY(start, r, i) - LineDrops[k], lines[k])) in CardEvents(lines, start, r, x, i)
  {
    var cx, cy := CardX(x, i), CardY(start, r, i);
    var puts := Puts(CardOps(lines, cx, cy));
    var brk: seq<Event> := if i == 2 * r then [Break] else [];
    assert CardEvents(lines, start, r, x, i) == brk + puts;
    CardOpsShow(lines, cx, cy, k);
    var e := Put(Text(cx + 10.0, cy - LineDrops[k], lines[k]));
    var j :| 0 <= j < |puts| && puts[j] == e;
    assert (brk + puts)[|brk| + j] == e;
  }

  /** The events of card i (one of the first ten) are among the events of the section. */
  lemma CardInLayout(metrics: seq<Row>, x: real, y: real, lib: Lib, i: nat, e: Event)
    requires i < |metrics| && i < MaxCards
    requires e in CardEvents(CardLines(metrics[i], lib), y - 25.0, OverflowRow(y - 25.0), x, i)
    ensures e in CardsLayout(metrics, x, y, lib).events
  {
    var ms := Prefix(metrics, MaxCards);
    var parts := CardParts(AllCardLines(ms, lib), y - 25.0, OverflowRow(y - 25.0), x);
    assert ms[i] == metrics[i];
    FlattenHas(parts, i, e);
  }

  /** Line k of card i (one of the first ten) is drawn in the section, at its drop below the card's top. */
  lemma CardShowsLine(metrics: seq<Row>, x: real, y: real, lib: Lib, i: nat, k: nat)
    requires i < |metrics| && i < MaxCards && k < |CardLines(metrics[i], lib)|
    ensures var start := y - 25.0;
      Put(Text(CardX(x, i) + 10.0, CardY(start, OverflowRow(start), i) - LineDrops[k], CardLines(metrics[i], lib)[k]))
      in CardsLayout(metrics, x, y, lib).events
  {
    var start := y - 25.0;
    var lines := CardLines(metrics[i], lib);
    CardEventsShow(lines, start, OverflowRow(start), x, i, k);
    CardInLayout(metrics, x, y, lib, i, Put(Text(CardX(x, i) + 10.0, CardY(start, OverflowRow(start), i) - LineDrops[k], lines[k])));
  }

  /** The lines of a card with at least one entry: label and value of the first, then the second as "Label: value". */
  lemma CardLinesOf(m: Row, lib: Lib)
    requires m != []
    ensures var lines := CardLines(m, lib);
      && |lines| >= 2 && lines[0] == Label(m[0].0) && lines[1] == Str(m[0].1, lib)
      && (|m| > 1 ==> |lines| == 3 && lines[2] == Label(m[1].0) + ": " + Str(m[1].1, lib))
  {
  }

  /**
   * What card i (one of the first ten) shows, 10 in from its left edge: its
   * first key, underscores spaced and title-cased, 20 below its top; that
   * key's value 40 below; and, when the metric has a second entry,
   * "Label: value" for it 55 below.
   */
  lemma CardsLayoutShows(metrics: seq<Row>, x: real, y: real, lib: Lib, i: nat)
    requires i < |metrics| && i < MaxCards && metrics[i] != []
    ensures var evs := CardsLayout(metrics, x, y, lib).events;
      var m := metrics[i];
      var tx := CardX(x, i) + 10.0;
      var cy := CardY(y - 25.0, OverflowRow(y - 25.0), i);
      && Put(Text(tx, cy - 20.0, Label(m[0].0))) in evs
      && Put(Text(tx, cy - 40.0, Str(m[0].1, lib))) in evs
      && (|m| > 1 ==> Put(Text(tx, cy - 55.0, Label(m[1].0) + ": " + Str(m[1].1, lib))) in evs)
  {
    var m := metrics[i];
    var lines := CardLines(m, lib);
    CardLinesOf(m, lib);
    assert LineDrops[0] == 20.0 && LineDrops[1] == 40.0 && LineDrops[2] == 55.0;
    CardShowsLine(metrics, x, y, lib, i, 0);
    CardShowsLine(metrics, x, y, lib, i, 1);
    if |m| > 1 {
      CardShowsLine(metrics, x, y, lib, i, 2);
    }
  }

  /** One pass of the card loop: the break test with the running start height, then card i showing `lines`. */
  method PlaceCard(c: Canvas, lines: CardText, i: nat, x: real, start0: real, ghost r: nat, start: real)
    returns (start': real)
    requires i < MaxCards
    requires IsOverflowRow(start0, r) && start == StartBefore(start0, r, i)
    modifies c
    ensures c.log == old(c.log) + CardEvents(lines, start0, r, x, i)
    ensures start' == StartBefore(start0, r, i + 1)
  {
    var row := i / 2;
    var cardX := x + (i % 2) as real * ColStep();
    var cardY := start - row as real * RowStep();
    ghost var brk: seq<Event> := if i == 2 * r then [Break] else [];
    BreakDecision(start0, r, i);
    start' := start;
    if cardY - CardHeight < CardFloor {
      assert i == 2 * r by { assert Overflows(start, row); }
      c.ShowPage();
      start' := Top;
      cardY := start' - row as real * RowStep();
    } else {
      assert i != 2 * r by { assert !Overflows(start, row); }
      assert c.log == old(c.log) + brk;
    }
    assert cardY == CardY(start0, r, i);
    assert start' == StartBefore(start0, r, i + 1);
    var ops := CardOps(lines, cardX, cardY);
    DrawAll(c, ops);
    assert CardEvents(lines, start0, r, x, i) == brk + Puts(ops);
    AppendAssoc(old(c.log), brk, Puts(ops));
  }

  /**
   * The loop of `_draw_metric_cards`: each card is placed from the running
   * start height, which a page break resets to 27cm.
   */
  method PlaceCards(c: Canvas, shown: seq<Row>, x: real, start0: real, ghost r: nat, lib: Lib) returns (start: real)
    requires |shown| <= MaxCards && IsOverflowRow(start0, r)
    modifies c
    ensures c.log == old(c.log) + Flatten(CardParts(AllCardLines(shown, lib), start0, r, x))
    ensures start == StartBefore(start0, r, |shown|)
  {
    start := start0;
    ghost var log0 := c.log;
    ghost var parts := CardParts(AllCardLines(shown, lib), start0, r, x);
    for i := 0 to |shown|
      invariant start == StartBefore(start0, r, i)
      invariant c.log == log0 + Flatten(parts[..i])
    {
      var lines := CardLines(shown[i], lib);
      assert parts[i] == CardEvents(lines, start0, r, x, i);
      start := PlaceCard(c, lines, i, x, start0, r, start);
      FlattenLast(parts, i);
      AppendAssoc(log0, Flatten(parts[..i]), parts[i]);
    }
    assert parts[..|shown|] == parts;
  }

  /** `_draw_metric_cards` on the canvas. */
  method DrawMetricCards(c: Canvas, metrics: seq<Row>, x: real, y: real, lib: Lib) returns (y': real)
    modifies c
    ensures c.log == old(c.log) + CardsLayout(metrics, x, y, lib).events
    ensures y' == CardsLayout(metrics, x, y, lib).y
  {
    if metrics == [] {
      assert CardsLayout(metrics, x, y, lib) == Layout([], y);
      return y;
    }
    c.Draw(Text(x, y, Heading));
    var shown := Prefix(metrics, MaxCards);
    ghost var r := OverflowRow(y - 25.0);
    OverflowRowFacts(y - 25.0);
    ghost var log1 := c.log;
    var start := PlaceCards(c, shown, x, y - 25.0, r, lib);
    y' := CursorAfter(start, |shown|);
    ghost var l := CardsLayout(metrics, x, y, lib);
    ghost var cards := Flatten(CardParts(AllCardLines(shown, lib), y - 25.0, r, x));
    assert l.y == y';
    assert l.events == [Put(Text(x, y, Heading))] + cards;
    assert c.log == log1 + cards;
    AppendAssoc(old(c.log), [Put(Text(x, y, Heading))], cards);
  }
}
