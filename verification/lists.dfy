/**
 * The three list sections: key insights, detailed findings and
 * recommendations. Each draws its title, then up to a fixed number of items;
 * before an item that would start below the section's floor the page is
 * broken and the title is repeated as "<title> (continued)". An item is a
 * marker (a numbered circle, a bullet or a check mark) and its wrapped text,
 * 14 points per line, followed by a small gap.
 */
module Lists {
  import opened Text
  import opened Values
  import opened Pdf

  datatype Marker = Numbered | Bullet | Check

  /** What distinguishes the three list sections. */
  datatype ListStyle = ListStyle(
    title: string,
    cap: nat,         // at most this many items are drawn
    floor: real,      // an item starting below this height goes to a new page
    textDx: real,     // the text column, relative to the section's x
    textDy: real,     // how far below the cursor a line's baseline sits
    width: nat,       // the wrap width, in characters
    gap: real,        // the space after an item
    marker: Marker)

  const LineHeight: real := 14.0
  /** The space a section title takes. */
  const TitleDrop: real := 20.0

  const InsightsStyle: ListStyle := ListStyle("Key Insights", 8, 5.0 * Cm, 25.0, 8.0, 90, 8.0, Numbered)
  const FindingsStyle: ListStyle := ListStyle("Detailed Findings", 10, 4.0 * Cm, 15.0, 5.0, 85, 5.0, Bullet)
  const RecommendationsStyle: ListStyle := ListStyle("Recommendations", 8, 4.0 * Cm, 20.0, 5.0, 85, 5.0, Check)

  /** The marker of item `number` (counted from 1) with the cursor at y. */
  function MarkerOps(marker: Marker, x: real, y: real, number: nat): seq<Op> {
    match marker
    case Numbered => [Dot(x + 10.0, y - 5.0, 8.0), Text(x + 7.0, y - 8.0, NatToString(number))]
    case Bullet => [Dot(x + 5.0, y - 4.0, 2.0)]
    case Check => [Stroke(x + 3.0, y - 3.0, x + 6.0, y - 6.0), Stroke(x + 6.0, y - 6.0, x + 12.0, y + 2.0)]
  }

  /** The wrapped lines of an item, one below the other, the first `dy` below y. */
  function LineOps(lines: seq<string>, tx: real, y: real, dy: real): (ops: seq<Op>)
    ensures |ops| == |lines|
  {
    seq(|lines|, k requires 0 <= k < |lines| => Text(tx, y - dy - LineHeight * k as real, lines[k]))
  }

  /** The repeated title at the top of a continuation page. */
  function Continued(style: ListStyle, x: real): Event {
    Put(Text(x, Top, style.title + " (continued)"))
  }

  /** The cursor an item starts from: after a break, below the repeated title. */
  function ItemTop(style: ListStyle, y: real): real {
    if y < style.floor then Top - TitleDrop else y
  }

  /** The page break and repeated title an item starts with when the cursor is below the floor. */
  function ItemHead(style: ListStyle, x: real, y: real): seq<Event> {
    if y < style.floor then [Break, Continued(style, x)] else []
  }

  /** Item i's marker and wrapped lines, drawn from y1. */
  function ItemBody(style: ListStyle, x: real, y1: real, i: nat, lines: seq<string>): seq<Event> {
    Puts(MarkerOps(style.marker, x, y1, i + 1)) + Puts(LineOps(lines, x + style.textDx, y1, style.textDy))
  }

  /** The events of item i (counted from 0) showing `lines`, placed with the cursor at y. */
  function ItemEvents(style: ListStyle, x: real, y: real, i: nat, lines: seq<string>): seq<Event> {
    ItemHead(style, x, y) + ItemBody(style, x, ItemTop(style, y), i, lines)
  }

  /** The cursor after an item: 14 per wrapped line and the gap below where it started. */
  function ItemBottom(style: ListStyle, y: real, lines: seq<string>): real {
    ItemTop(style, y) - LineHeight * |lines| as real - style.gap
  }

  /** The cursor after the first n items, placed one after the other from y. */
  function ItemsBottom(style: ListStyle, y: real, lines: seq<seq<string>>, n: nat): real
    requires n <= |lines|
  {
    if n == 0 then y else ItemBottom(style, ItemsBottom(style, y, lines, n - 1), lines[n - 1])
  }

  /** The cursor each item starts from: y for the first, then wherever the one before it ended. */
  function ItemStarts(style: ListStyle, y: real, lines: seq<seq<string>>): (starts: seq<real>)
    ensures |starts| == |lines|
  {
    seq(|lines|, k requires 0 <= k < |lines| => ItemsBottom(style, y, lines, k))
  }

  /** The events of each item, item k placed with the cursor at starts[k]. */
  function ItemParts(style: ListStyle, x: real, starts: seq<real>, lines: seq<seq<string>>): (parts: seq<seq<Event>>)
    requires |starts| == |lines|
    ensures |parts| == |lines|
  {
    seq(|lines|, k requires 0 <= k < |lines| => ItemEvents(style, x, starts[k], k, lines[k]))
  }

  /** `textwrap.wrap` applied to every item. */
  function WrapAll(texts: seq<string>, width: nat, lib: Lib): (lines: seq<seq<string>>)
    ensures |lines| == |texts|
    ensures forall i :: 0 <= i < |texts| ==> lines[i] == lib.wrap(texts[i], width)
  {
    seq(|texts|, i requires 0 <= i < |texts| => lib.wrap(texts[i], width))
  }

  /** A list section: nothing without items; otherwise the title, then the first `cap` items below it. */
  function ListLayout(style: ListStyle, texts: seq<string>, x: real, y: real, lib: Lib): Layout {
    if texts == [] then Layout([], y)
    else
      var lines := WrapAll(Prefix(texts, style.cap), style.width, lib);
      var top := y - TitleDrop;
      Layout([Put(Text(x, y, style.title))] + Flatten(ItemParts(style, x, ItemStarts(style, top, lines), lines)),
             ItemsBottom(style, top, lines, |lines|))
  }

  /** The texts of the insights, as `_draw_insights_section` shows them. */
  function InsightTexts(insights: seq<Insight>): (texts: seq<string>)
    ensures |texts| == |insights|
    ensures forall i :: 0 <= i < |insights| ==> texts[i] == InsightText(insights[i])
  {
    seq(|insights|, i requires 0 <= i < |insights| => InsightText(insights[i]))
  }

  // ----- Properties -----

  /** Every page break among the events is immediately followed by `title`. */
  predicate TitledBreaks(evs: seq<Event>, title: Event) {
    if evs == [] then true
    else if evs[0] != Break then TitledBreaks(evs[1..], title)
    else |evs| >= 2 && evs[1] == title && TitledBreaks(evs[2..], title)
  }

  lemma {:induction false} TitledBreaksAppend(a: seq<Event>, b: seq<Event>, title: Event)
    requires TitledBreaks(a, title) && TitledBreaks(b, title)
    ensures TitledBreaks(a + b, title)
  {
    if a == [] {
      assert a + b == b;
    } else if a[0] != Break {
      assert (a + b)[1..] == a[1..] + b;
      TitledBreaksAppend(a[1..], b, title);
    } else {
      assert (a + b)[2..] == a[2..] + b;
      TitledBreaksAppend(a[2..], b, title);
    }
  }

  /** What `TitledBreaks` means position by position. */
  lemma {:induction false} TitledBreaksAt(evs: seq<Event>, title: Event, j: nat)
    requires title.Put? && TitledBreaks(evs, title) && j < |evs| && evs[j] == Break
    ensures j + 1 < |evs| && evs[j + 1] == title
  {
    if evs[0] != Break {
      TitledBreaksAt(evs[1..], title, j - 1);
    } else if j >= 2 {
      TitledBreaksAt(evs[2..], title, j - 2);
    }
  }

  lemma {:induction false} PutsTitled(ops: seq<Op>, title: Event)
    ensures TitledBreaks(Puts(ops), title)
  {
    if ops != [] {
      assert Puts(ops)[1..] == Puts(ops[1..]);
      PutsTitled(ops[1..], title);
    }
  }

  lemma BodyBreaks(style: ListStyle, x: real, y1: real, i: nat, lines: seq<string>)
    ensures Breaks(ItemBody(style, x, y1, i, lines)) == 0
  {
    var marker := MarkerOps(style.marker, x, y1, i + 1);
    var body := LineOps(lines, x + style.textDx, y1, style.textDy);
    PutsHaveNoBreaks(marker);
    PutsHaveNoBreaks(body);
    BreaksAppend(Puts(marker), Puts(body));
  }

  lemma HeadBreaks(style: ListStyle, x: real, y: real)
    ensures Breaks(ItemHead(style, x, y)) == (if y < style.floor then 1 else 0)
  {
    if y < style.floor {
      assert ItemHead(style, x, y) == [Break] + [Continued(style, x)];
      BreaksAppend([Break], [Continued(style, x)]);
      assert [Break][..0] == [];
    }
  }

  /** An item breaks the page exactly when the cursor is below the floor. */
  lemma ItemBreaks(style: ListStyle, x: real, y: real, i: nat, lines: seq<string>)
    ensures Breaks(ItemEvents(style, x, y, i, lines)) == (if y < style.floor then 1 else 0)
  {
    var head := ItemHead(style, x, y);
    var body := ItemBody(style, x, ItemTop(style, y), i, lines);
    BodyBreaks(style, x, ItemTop(style, y), i, lines);
    HeadBreaks(style, x, y);
    BreaksAppend(head, body);
  }

  lemma BodyTitled(style: ListStyle, x: real, y1: real, i: nat, lines: seq<string>, title: Event)
    ensures TitledBreaks(ItemBody(style, x, y1, i, lines), title)
  {
    var marker := MarkerOps(style.marker, x, y1, i + 1);
    var body := LineOps(lines, x + style.textDx, y1, style.textDy);
    PutsTitled(marker, title);
    PutsTitled(body, title);
    TitledBreaksAppend(Puts(marker), Puts(body), title);
  }

  /** An item that breaks the page starts the new one with the repeated title. */
  lemma ItemTitled(style: ListStyle, x: real, y: real, i: nat, lines: seq<string>)
    ensures TitledBreaks(ItemEvents(style, x, y, i, lines), Continued(style, x))
  {
    var head := ItemHead(style, x, y);
    var body := ItemBody(style, x, ItemTop(style, y), i, lines);
    BodyTitled(style, x, ItemTop(style, y), i, lines, Continued(style, x));
    assert TitledBreaks(head, Continued(style, x)) by {
      if head != [] {
        assert head[2..] == [];
      }
    }
    TitledBreaksAppend(head, body, Continued(style, x));
  }

  /** Each item adds at most one page, wherever the items start. */
  lemma ItemsBreaks(style: ListStyle, x: real, starts: seq<real>, lines: seq<seq<string>>)
    requires |starts| == |lines|
    ensures Breaks(Flatten(ItemParts(style, x, starts, lines))) <= |lines|
  {
    var parts := ItemParts(style, x, starts, lines);
    forall k | 0 <= k < |parts|
      ensures Breaks(parts[k]) <= 1
    {
      ItemBreaks(style, x, starts[k], k, lines[k]);
    }
    FlattenBreaks(parts);
  }

  /** Every page a list breaks to starts with the repeated title. */
  lemma ItemsTitled(style: ListStyle, x: real, starts: seq<real>, lines: seq<seq<string>>)
    requires |starts| == |lines|
    ensures TitledBreaks(Flatten(ItemParts(style, x, starts, lines)), Continued(style, x))
  {
    var parts := ItemParts(style, x, starts, lines);
    forall k | 0 <= k < |parts|
      ensures TitledBreaks(parts[k], Continued(style, x))
    {
      ItemTitled(style, x, starts[k], k, lines[k]);
    }
    FlattenTitled(parts, Continued(style, x));
  }

  lemma {:induction false} FlattenTitled(parts: seq<seq<Event>>, title: Event)
    requires forall k :: 0 <= k < |parts| ==> TitledBreaks(parts[k], title)
    ensures TitledBreaks(Flatten(parts), title)
  {
    if parts != [] {
      var n := |parts| - 1;
      FlattenTitled(parts[..n], title);
      TitledBreaksAppend(Flatten(parts[..n]), parts[n], title);
    }
  }

  /** The space the first n items take when no page is broken: 14 per line plus the gap after each. */
  function ItemsCost(style: ListStyle, lines: seq<seq<string>>, n: nat): real
    requires n <= |lines|
  {
    if n == 0 then 0.0 else ItemsCost(style, lines, n - 1) + LineHeight * |lines[n - 1]| as real + style.gap
  }

  /** While no item starts below the floor, the cursor descends by exactly the items' cost. */
  lemma {:induction false} CursorAboveFloor(style: ListStyle, y: real, lines: seq<seq<string>>, n: nat)
    requires n <= |lines|
    requires forall k :: 0 <= k < n ==> style.floor <= ItemsBottom(style, y, lines, k)
    ensures ItemsBottom(style, y, lines, n) == y - ItemsCost(style, lines, n)
  {
    if n > 0 {
      CursorAboveFloor(style, y, lines, n - 1);
    }
  }

  /** Items that break no page all start at or above the floor, wherever they start. */
  lemma PartsAboveFloor(style: ListStyle, x: real, starts: seq<real>, lines: seq<seq<string>>)
    requires |starts| == |lines|
    requires Breaks(Flatten(ItemParts(style, x, starts, lines))) == 0
    ensures forall k :: 0 <= k < |starts| ==> style.floor <= starts[k]
  {
    var parts := ItemParts(style, x, starts, lines);
    FlattenNoBreaks(parts);
    forall k | 0 <= k < |starts|
      ensures style.floor <= starts[k]
    {
      assert Breaks(parts[k]) == 0;
      ItemBreaks(style, x, starts[k], k, lines[k]);
    }
  }

  /** Without a page break, the cursor descends by exactly the items' cost. */
  lemma ItemsCursor(style: ListStyle, x: real, y: real, lines: seq<seq<string>>)
    requires Breaks(Flatten(ItemParts(style, x, ItemStarts(style, y, lines), lines))) == 0
    ensures ItemsBottom(style, y, lines, |lines|) == y - ItemsCost(style, lines, |lines|)
  {
    var starts := ItemStarts(style, y, lines);
    PartsAboveFloor(style, x, starts, lines);
    forall k | 0 <= k < |lines|
      ensures style.floor <= ItemsBottom(style, y, lines, k)
    {
      assert starts[k] == ItemsBottom(style, y, lines, k);
    }
    CursorAboveFloor(style, y, lines, |lines|);
  }

  /** The text column is apart from the title (at x) and from the item numbers (at x + 7). */
  predicate Separated(style: ListStyle) {
    style.textDx != 0.0 && style.textDx != 7.0
  }

  lemma StylesSeparated()
    ensures Separated(InsightsStyle) && Separated(FindingsStyle) && Separated(RecommendationsStyle)
  {
  }

  lemma {:induction false} LineTexts(lines: seq<string>, tx: real, y: real, dy: real)
    ensures TextsAt(Puts(LineOps(lines, tx, y, dy)), tx) == lines
  {
    if lines != [] {
      var n := |lines| - 1;
      assert Puts(LineOps(lines, tx, y, dy))[..n] == Puts(LineOps(lines[..n], tx, y, dy));
      LineTexts(lines[..n], tx, y, dy);
      assert lines == lines[..n] + [lines[n]];
    }
  }

  /** A marker draws no text in the text column. */
  lemma MarkerTexts(style: ListStyle, x: real, y: real, number: nat)
    requires Separated(style)
    ensures TextsAt(Puts(MarkerOps(style.marker, x, y, number)), x + style.textDx) == []
  {
    TextsAtNone(Puts(MarkerOps(style.marker, x, y, number)), x + style.textDx);
  }

  lemma BodyTexts(style: ListStyle, x: real, y1: real, i: nat, lines: seq<string>)
    requires Separated(style)
    ensures TextsAt(ItemBody(style, x, y1, i, lines), x + style.textDx) == lines
  {
    var tx := x + style.textDx;
    var marker := MarkerOps(style.marker, x, y1, i + 1);
    var body := LineOps(lines, tx, y1, style.textDy);
    assert TextsAt(Puts(marker), tx) == [] by {
      MarkerTexts(style, x, y1, i + 1);
    }
    assert TextsAt(Puts(body), tx) == lines by {
      LineTexts(lines, tx, y1, style.textDy);
    }
    TextsAtAppend(Puts(marker), Puts(body), tx);
  }

  /** The text column of an item holds exactly its wrapped lines. */
  lemma ItemTexts(style: ListStyle, x: real, y: real, i: nat, lines: seq<string>)
    requires Separated(style)
    ensures TextsAt(ItemEvents(style, x, y, i, lines), x + style.textDx) == lines
  {
    var tx := x + style.textDx;
    var head := ItemHead(style, x, y);
    var body := ItemBody(style, x, ItemTop(style, y), i, lines);
    assert TextsAt(head, tx) == [] by {
      TextsAtNone(head, tx);
    }
    assert TextsAt(body, tx) == lines by {
      BodyTexts(style, x, ItemTop(style, y), i, lines);
    }
    TextsAtAppend(head, body, tx);
  }

  /** The text column of the items holds their wrapped lines, each item's once, in order. */
  lemma ItemsTexts(style: ListStyle, x: real, starts: seq<real>, lines: seq<seq<string>>)
    requires Separated(style) && |starts| == |lines|
    ensures TextsAt(Flatten(ItemParts(style, x, starts, lines)), x + style.textDx) == Flatten(lines)
  {
    var parts := ItemParts(style, x, starts, lines);
    forall k | 0 <= k < |parts|
      ensures TextsAt(parts[k], x + style.textDx) == lines[k]
    {
      ItemTexts(style, x, starts[k], k, lines[k]);
    }
    FlattenTexts(parts, lines, x + style.textDx);
  }

  /**
   * A list section's pages: nothing without items; otherwise the title
   * first, and at most one page break per shown item.
   */
  lemma ListBreaks(style: ListStyle, texts: seq<string>, x: real, y: real, lib: Lib)
    ensures var l := ListLayout(style, texts, x, y, lib);
      && (texts == [] ==> l == Layout([], y))
      && (texts != [] ==> l.events[0] == Put(Text(x, y, style.title)))
      && Breaks(l.events) <= (if |texts| <= style.cap then |texts| else style.cap)
  {
    if texts != [] {
      var lines := WrapAll(Prefix(texts, style.cap), style.width, lib);
      var body := Flatten(ItemParts(style, x, ItemStarts(style, y - TitleDrop, lines), lines));
      var title: seq<Event> := [Put(Text(x, y, style.title))];
      assert Breaks(body) <= |lines| by {
        ItemsBreaks(style, x, ItemStarts(style, y - TitleDrop, lines), lines);
      }
      assert Breaks(title) == 0 by {
        assert title[..0] == [];
      }
      BreaksAppend(title, body);
    }
  }

  /** Every page a list section breaks to starts with "<title> (continued)". */
  lemma ListTitled(style: ListStyle, texts: seq<string>, x: real, y: real, lib: Lib)
    ensures TitledBreaks(ListLayout(style, texts, x, y, lib).events, Continued(style, x))
  {
    if texts != [] {
      var lines := WrapAll(Prefix(texts, style.cap), style.width, lib);
      var body := Flatten(ItemParts(style, x, ItemStarts(style, y - TitleDrop, lines), lines));
      var title: seq<Event> := [Put(Text(x, y, style.title))];
      assert TitledBreaks(body, Continued(style, x)) by {
        ItemsTitled(style, x, ItemStarts(style, y - TitleDrop, lines), lines);
      }
      assert TitledBreaks(title, Continued(style, x)) by {
        assert title[1..] == [];
      }
      TitledBreaksAppend(title, body, Continued(style, x));
    }
  }

  /** Below the title, the text column holds the items' lines, whatever the lines are. */
  lemma TitledTexts(style: ListStyle, x: real, y: real, starts: seq<real>, lines: seq<seq<string>>)
    requires Separated(style) && |starts| == |lines|
    ensures TextsAt([Put(Text(x, y, style.title))] + Flatten(ItemParts(style, x, starts, lines)), x + style.textDx)
            == Flatten(lines)
  {
    var tx := x + style.textDx;
    var body := Flatten(ItemParts(style, x, starts, lines));
    var title: seq<Event> := [Put(Text(x, y, style.title))];
    assert TextsAt(body, tx) == Flatten(lines) by {
      ItemsTexts(style, x, starts, lines);
    }
    assert TextsAt(title, tx) == [] by {
      assert title[..0] == [];
    }
    TextsAtAppend(title, body, tx);
    assert [] + TextsAt(body, tx) == TextsAt(body, tx);
  }

  /** The text column of a list section reads exactly the wrapped lines of its first `cap` items, in order. */
  lemma ListTexts(style: ListStyle, texts: seq<string>, x: real, y: real, lib: Lib)
    requires Separated(style)
    ensures TextsAt(ListLayout(style, texts, x, y, lib).events, x + style.textDx)
            == Flatten(WrapAll(Prefix(texts, style.cap), style.width, lib))
  {
    var lines := WrapAll(Prefix(texts, style.cap), style.width, lib);
    if texts != [] {
      TitledTexts(style, x, y, ItemStarts(style, y - TitleDrop, lines), lines);
    } else {
      assert lines == [];
    }
  }

  /** The column of the item numbers: a numbered item shows only its own number there. */
  lemma ItemNumber(style: ListStyle, x: real, y: real, i: nat, lines: seq<string>)
    requires Separated(style) && style.marker == Numbered
    ensures TextsAt(ItemEvents(style, x, y, i, lines), x + 7.0) == [NatToString(i + 1)]
  {
    var nx := x + 7.0;
    var y1 := ItemTop(style, y);
    var head := ItemHead(style, x, y);
    var marker := Puts(MarkerOps(style.marker, x, y1, i + 1));
    var body := Puts(LineOps(lines, x + style.textDx, y1, style.textDy));
    assert TextsAt(head, nx) == [] by {
      TextsAtNone(head, nx);
    }
    assert TextsAt(marker, nx) == [NatToString(i + 1)] by {
      var dot := Put(Dot(x + 10.0, y1 - 5.0, 8.0));
      assert marker == [dot, Put(Text(nx, y1 - 8.0, NatToString(i + 1)))];
      assert marker[..1] == [dot] && [dot][..0] == [];
      assert TextsAt([dot], nx) == [];
      assert TextsAt(marker, nx) == TextsAt(marker[..1], nx) + [NatToString(i + 1)];
    }
    assert TextsAt(body, nx) == [] by {
      TextsAtNone(body, nx);
    }
    TextsAtAppend(marker, body, nx);
    TextsAtAppend(head, marker + body, nx);
  }

  /** Numbers 1 to m, each on its own. */
  function Numbers(m: nat): (ns: seq<seq<string>>)
    ensures |ns| == m
  {
    seq(m, k requires 0 <= k < m => [NatToString(k + 1)])
  }

  /** The number column of numbered items reads "1", "2", ... one per item. */
  lemma ItemsNumbers(style: ListStyle, x: real, starts: seq<real>, lines: seq<seq<string>>)
    requires Separated(style) && style.marker == Numbered && |starts| == |lines|
    ensures TextsAt(Flatten(ItemParts(style, x, starts, lines)), x + 7.0) == Flatten(Numbers(|lines|))
  {
    var parts := ItemParts(style, x, starts, lines);
    var numbers := Numbers(|lines|);
    forall k | 0 <= k < |parts|
      ensures TextsAt(parts[k], x + 7.0) == numbers[k]
    {
      ItemNumber(style, x, starts[k], k, lines[k]);
    }
    FlattenTexts(parts, numbers, x + 7.0);
  }

  /**
   * The column of the item numbers of a numbered list section reads "1", "2", ...
   * up to the number of items shown: each item carries its position, counted from 1.
   */
  lemma ListNumbers(style: ListStyle, texts: seq<string>, x: real, y: real, lib: Lib)
    requires Separated(style) && style.marker == Numbered
    ensures TextsAt(ListLayout(style, texts, x, y, lib).events, x + 7.0)
            == Flatten(Numbers(if |texts| <= style.cap then |texts| else style.cap))
  {
    if texts == [] {
      assert Numbers(0) == [];
    } else {
      var nx := x + 7.0;
      var lines := WrapAll(Prefix(texts, style.cap), style.width, lib);
      var body := Flatten(ItemParts(style, x, ItemStarts(style, y - TitleDrop, lines), lines));
      var title: seq<Event> := [Put(Text(x, y, style.title))];
      assert TextsAt(body, nx) == Flatten(Numbers(|lines|)) by {
        ItemsNumbers(style, x, ItemStarts(style, y - TitleDrop, lines), lines);
      }
      assert TextsAt(title, nx) == [] by {
        assert title[..0] == [];
      }
      TextsAtAppend(title, body, nx);
      assert [] + TextsAt(body, nx) == TextsAt(body, nx);
    }
  }

  /** The key insights are numbered 1 to 8 in the order given, one number per insight shown. */
  lemma InsightNumbers(texts: seq<string>, x: real, y: real, lib: Lib)
    ensures var m := if |texts| <= 8 then |texts| else 8;
      TextsAt(ListLayout(InsightsStyle, texts, x, y, lib).events, x + 7.0)
        == Flatten(seq(m, k requires 0 <= k < m => [NatToString(k + 1)]))
  {
    ListNumbers(InsightsStyle, texts, x, y, lib);
    var m := if |texts| <= 8 then |texts| else 8;
    assert Numbers(m) == seq(m, k requires 0 <= k < m => [NatToString(k + 1)]);
  }

  /** Without a page break, the section takes 20 for its title, then 14 per line and the gap per item. */
  lemma ListCursor(style: ListStyle, texts: seq<string>, x: real, y: real, lib: Lib)
    requires texts != []
    requires Breaks(ListLayout(style, texts, x, y, lib).events) == 0
    ensures var lines := WrapAll(Prefix(texts, style.cap), style.width, lib);
      ListLayout(style, texts, x, y, lib).y == y - TitleDrop - ItemsCost(style, lines, |lines|)
  {
    var lines := WrapAll(Prefix(texts, style.cap), style.width, lib);
    var body := Flatten(ItemParts(style, x, ItemStarts(style, y - TitleDrop, lines), lines));
    assert Breaks(body) == 0 by {
      BreaksAppend([Put(Text(x, y, style.title))], body);
    }
    ItemsCursor(style, x, y - TitleDrop, lines);
  }

  // ----- The drawing code -----

  /** Draws wrapped lines one below the other, moving the cursor 14 per line. */
  method DrawLines(c: Canvas, lines: seq<string>, tx: real, y: real, dy: real) returns (y': real)
    modifies c
    ensures c.log == old(c.log) + Puts(LineOps(lines, tx, y, dy))
    ensures y' == y - LineHeight * |lines| as real
  {
    y' := y;
    for k := 0 to |lines|
      invariant y' == y - LineHeight * k as real
      invariant c.log == old(c.log) + Puts(LineOps(lines[..k], tx, y, dy))
    {
      c.Draw(Text(tx, y' - dy, lines[k]));
      assert LineOps(lines[..k + 1], tx, y, dy) == LineOps(lines[..k], tx, y, dy) + [Text(tx, y' - dy, lines[k])];
      PutsAppend(LineOps(lines[..k], tx, y, dy), [Text(tx, y' - dy, lines[k])]);
      y' := y' - LineHeight;
    }
    assert lines[..|lines|] == lines;
  }

  /** One pass of a list loop: the break test, the marker, the wrapped text, the gap. */
  method PlaceItem(c: Canvas, style: ListStyle, x: real, y: real, i: nat, lines: seq<string>) returns (y': real)
    modifies c
    ensures c.log == old(c.log) + ItemEvents(style, x, y, i, lines)
    ensures y' == ItemBottom(style, y, lines)
  {
    y' := y;
    if y' < style.floor {
      c.ShowPage();
      y' := Top;
      c.Draw(Text(x, y', style.title + " (continued)"));
      y' := y' - TitleDrop;
    }
    assert c.log == old(c.log) + ItemHead(style, x, y);
    var marker := MarkerOps(style.marker, x, y', i + 1);
    DrawAll(c, marker);
    ghost var body := LineOps(lines, x + style.textDx, y', style.textDy);
    ghost var y1 := y';
    y' := DrawLines(c, lines, x + style.textDx, y', style.textDy);
    y' := y' - style.gap;
    assert ItemBody(style, x, y1, i, lines) == Puts(marker) + Puts(body);
    AppendAssoc(old(c.log) + ItemHead(style, x, y), Puts(marker), Puts(body));
    AppendAssoc(old(c.log), ItemHead(style, x, y), ItemBody(style, x, y1, i, lines));
  }

  /** The item loop: each item is wrapped and placed from the running cursor. */
  method PlaceItems(c: Canvas, style: ListStyle, shown: seq<string>, x: real, y: real, lib: Lib) returns (y': real)
    modifies c
    ensures var all := WrapAll(shown, style.width, lib);
      c.log == old(c.log) + Flatten(ItemParts(style, x, ItemStarts(style, y, all), all))
    ensures y' == ItemsBottom(style, y, WrapAll(shown, style.width, lib), |shown|)
  {
    ghost var all := WrapAll(shown, style.width, lib);
    ghost var parts := ItemParts(style, x, ItemStarts(style, y, all), all);
    ghost var log0 := c.log;
    y' := y;
    for i := 0 to |shown|
      invariant c.log == log0 + Flatten(parts[..i])
      invariant y' == ItemsBottom(style, y, all, i)
    {
      var lines := lib.wrap(shown[i], style.width);
      assert parts[i] == ItemEvents(style, x, y', i, lines);
      y' := PlaceItem(c, style, x, y', i, lines);
      FlattenLast(parts, i);
      AppendAssoc(log0, Flatten(parts[..i]), parts[i]);
    }
    assert parts[..|shown|] == parts;
  }

  /** A list section on the canvas: the title, then the first `cap` items. */
  method DrawList(c: Canvas, style: ListStyle, texts: seq<string>, x: real, y: real, lib: Lib) returns (y': real)
    modifies c
    ensures c.log == old(c.log) + ListLayout(style, texts, x, y, lib).events
    ensures y' == ListLayout(style, texts, x, y, lib).y
  {
    if texts == [] {
      return y;
    }
    c.Draw(Text(x, y, style.title));
    var shown := Prefix(texts, style.cap);
    ghost var all := WrapAll(shown, style.width, lib);
    y' := PlaceItems(c, style, shown, x, y - TitleDrop, lib);
    AppendAssoc(old(c.log), [Put(Text(x, y, style.title))],
                Flatten(ItemParts(style, x, ItemStarts(style, y - TitleDrop, all), all)));
  }

  /** `_draw_insights_section`: insight texts as a numbered list, the first eight of them. */
  method DrawInsights(c: Canvas, insights: seq<Insight>, x: real, y: real, lib: Lib) returns (y': real)
    modifies c
    ensures c.log == old(c.log) + ListLayout(InsightsStyle, InsightTexts(insights), x, y, lib).events
    ensures y' == ListLayout(InsightsStyle, InsightTexts(insights), x, y, lib).y
  {
    y' := DrawList(c, InsightsStyle, InsightTexts(insights), x, y, lib);
  }
}
