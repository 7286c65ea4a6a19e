/**
 * `_write_visual_pdf`: the whole document. The sections run in a fixed order
 * on one canvas, each taking the cursor the previous one returned: header,
 * executive summary, charts, metric cards, the results table, insights,
 * findings, recommendations, the limitations/next-steps block, and the
 * footer. Every section after the charts is entered the same way: a page
 * break when the cursor is below a threshold, otherwise 15 points of space.
 */
module Composer {
  import opened Wrappers
  import opened Values
  import opened Pdf
  import opened Charts
  import opened Table
  import opened Cards
  import opened Lists
  import opened Columns

  /** The left margin of every section. */
  const Margin: real := 2.0 * Cm
  const HeaderHeight: real := 3.0 * Cm
  /** The header's three bands are each 0.3cm shorter than the previous one, all reaching the top edge. */
  const BandStep: real := 0.3 * Cm

  /** The header: three bands, the title, the date line and a rule under the bands; the cursor 0.5cm below. */
  function HeaderLayout(title: string, today: string): Layout {
    Layout(Puts([Box(0.0, PageHeight - HeaderHeight, PageWidth, HeaderHeight),
                 Box(0.0, PageHeight - HeaderHeight + BandStep, PageWidth, HeaderHeight - BandStep),
                 Box(0.0, PageHeight - HeaderHeight + 2.0 * BandStep, PageWidth, HeaderHeight - 2.0 * BandStep),
                 Text(2.0 * Cm, PageHeight - 1.8 * Cm, title),
                 Text(2.0 * Cm, PageHeight - 2.3 * Cm, "Generated: " + today),
                 Stroke(0.0, PageHeight - HeaderHeight, PageWidth, PageHeight - HeaderHeight)]),
           PageHeight - HeaderHeight - 0.5 * Cm)
  }

  const SummaryWidth: nat := 80
  const SummaryLines: nat := 3

  /** The summary lines: the first three lines of the text wrapped at 80, 14 apart, the first 20 below y. */
  function SummaryLineOps(lines: seq<string>, x: real, y: real): (ops: seq<Op>)
    ensures |ops| == |lines|
  {
    seq(|lines|, k requires 0 <= k < |lines| => Text(x, y - 20.0 - 14.0 * k as real, lines[k]))
  }

  /** The executive summary: nothing when empty; otherwise a box (filled, then outlined), up to three lines, and 70 consumed. */
  function SummaryLayout(summary: string, x: real, y: real, lib: Lib): Layout {
    if summary == "" then Layout([], y)
    else
      var box := Box(x - 10.0, y - 60.0, PageWidth - 2.0 * x + 20.0, 50.0);
      Layout(Puts([box, box]) + Puts(SummaryLineOps(Prefix(lib.wrap(summary, SummaryWidth), SummaryLines), x, y)), y - 70.0)
  }

  /** Entering a section: a page break when the cursor is below the threshold, otherwise 15 of space. */
  function EnterSection(y: real, threshold: real): Layout {
    if y < threshold then Layout([Break], Top) else Layout([], y - 15.0)
  }

  /** A section that is drawn only when `present`, entered through `EnterSection`. */
  function Guarded(present: bool, y: real, threshold: real, body: Layout): Layout {
    if present then Layout(EnterSection(y, threshold).events + body.events, body.y) else Layout([], y)
  }

  const MetricsThreshold: real := 10.0 * Cm
  const TableThreshold: real := 10.0 * Cm
  const InsightsThreshold: real := 10.0 * Cm
  const FindingsThreshold: real := 8.0 * Cm
  const RecommendationsThreshold: real := 8.0 * Cm
  const ColumnsThreshold: real := 10.0 * Cm
  const TableTitle: string := "Detailed Results"
  const TableRows: nat := 15

  function MetricsStep(metrics: seq<Row>, y: real, lib: Lib): Layout {
    Guarded(metrics != [], y, MetricsThreshold, CardsLayout(metrics, Margin, EnterSection(y, MetricsThreshold).y, lib))
  }

  /** The results table, when there are rows; its error ends the document. */
  function TableStep(data: Option<seq<Item>>, y: real, lib: Lib): Result<Layout, RenderError> {
    if data.None? || data.value == [] then Ok(Layout([], y))
    else
      var e := EnterSection(y, TableThreshold);
      var t := TableLayout(data.value, Margin, e.y, PageWidth, TableTitle, TableRows, lib);
      if t.Err? then Err(t.error) else Ok(Layout(e.events + t.value.events, t.value.y))
  }

  function ListStep(style: ListStyle, texts: seq<string>, threshold: real, y: real, lib: Lib): Layout {
    Guarded(texts != [], y, threshold, ListLayout(style, texts, Margin, EnterSection(y, threshold).y, lib))
  }

  function ColumnsStep(limitations: seq<string>, nextSteps: seq<string>, y: real, lib: Lib): Layout {
    var present := limitations != [] || nextSteps != [];
    Guarded(present, y, ColumnsThreshold,
            ColumnsLayout(limitations, nextSteps, Margin, EnterSection(y, ColumnsThreshold).y, PageWidth, lib))
  }

  /** The footer, drawn once, on the page the document ends on. */
  function FooterOps(dataset: string): seq<Op> {
    [Text(Margin, 1.5 * Cm, "Data Source: " + dataset),
     Text(PageWidth - 6.0 * Cm, 1.5 * Cm, "Page 1"),
     Stroke(Margin, 2.0 * Cm, PageWidth - Margin, 2.0 * Cm)]
  }

  /** The list and column sections after the table, from cursor y. */
  function TailSections(report: Report, y: real, lib: Lib): Layout {
    var ins := ListStep(InsightsStyle, InsightTexts(report.insights), InsightsThreshold, y, lib);
    var fnd := ListStep(FindingsStyle, report.findings, FindingsThreshold, ins.y, lib);
    var rec := ListStep(RecommendationsStyle, report.recommendations, RecommendationsThreshold, fnd.y, lib);
    var col := ColumnsStep(report.limitations, report.nextSteps, rec.y, lib);
    Layout(ins.events + fnd.events + rec.events + col.events, col.y)
  }

  /** The sections after the table, then the footer. */
  function TailLayout(report: Report, y: real, lib: Lib): Layout {
    var sections := TailSections(report, y, lib);
    Layout(sections.events + Puts(FooterOps(report.datasetUsed)), sections.y)
  }

  /** The sections before the table. */
  function HeadLayout(report: Report, data: Option<seq<Item>>, policy: ChartPolicy, lib: Lib): Layout {
    var hdr := HeaderLayout(report.title, lib.today);
    var sum := SummaryLayout(report.executiveSummary, Margin, hdr.y, lib);
    var chs := ChartsLayout(data, policy, Margin, sum.y, lib);
    var met := MetricsStep(report.keyMetrics, chs.y, lib);
    Layout(hdr.events + sum.events + chs.events + met.events, met.y)
  }

  /** Everything the document draws, in order, or the error the table raised. */
  function DocumentLayout(report: Report, data: Option<seq<Item>>, policy: ChartPolicy, lib: Lib): Result<seq<Event>, RenderError> {
    var head := HeadLayout(report, data, policy, lib);
    var tbl := TableStep(data, head.y, lib);
    if tbl.Err? then Err(tbl.error)
    else Ok(head.events + tbl.value.events + TailLayout(report, tbl.value.y, lib).events)
  }

  // ----- Properties -----

  /**
   * The header: its three bands span the page width and all reach the top
   * edge, the first 3cm tall and each next one 0.3cm shorter; then the title
   * and the date line; no page break; the cursor 0.5cm below the bands.
   */
  lemma HeaderFacts(title: string, today: string)
    ensures var l := HeaderLayout(title, today);
      && |l.events| == 6
      && Breaks(l.events) == 0
      && (forall i :: 0 <= i < 3 ==>
            l.events[i].Put? && l.events[i].op.Box? && l.events[i].op.x == 0.0 && l.events[i].op.w == PageWidth
            && l.events[i].op.y + l.events[i].op.h == PageHeight
            && l.events[i].op.h == HeaderHeight - i as real * BandStep)
      && l.events[3] == Put(Text(2.0 * Cm, PageHeight - 1.8 * Cm, title))
      && l.events[4] == Put(Text(2.0 * Cm, PageHeight - 2.3 * Cm, "Generated: " + today))
      && l.y == PageHeight - 3.5 * Cm
  {
    var l := HeaderLayout(title, today);
    OnlyPutsNoBreaks(l.events);
  }

  /**
   * The executive summary: nothing when the text is empty; otherwise no page
   * break, exactly 70 consumed, and the text column shows the first (at most
   * three) wrapped lines, all inside the box.
   */
  lemma SummaryFacts(summary: string, x: real, y: real, lib: Lib)
    ensures var l := SummaryLayout(summary, x, y, lib);
      var lines := Prefix(lib.wrap(summary, SummaryWidth), SummaryLines);
      && (summary == "" ==> l == Layout([], y))
      && Breaks(l.events) == 0
      && (summary != "" ==>
            && l.y == y - 70.0
            && |lines| <= 3
            && TextsAt(l.events, x) == lines
            && (forall i :: 0 <= i < |l.events| && l.events[i].op.Text? ==> y - 60.0 < l.events[i].op.y < y - 10.0))
  {
    if summary != "" {
      var l := SummaryLayout(summary, x, y, lib);
      var lines := Prefix(lib.wrap(summary, SummaryWidth), SummaryLines);
      var box := Box(x - 10.0, y - 60.0, PageWidth - 2.0 * x + 20.0, 50.0);
      var ops := SummaryLineOps(lines, x, y);
      assert l.events == Puts([box, box]) + Puts(ops);
      OnlyPutsNoBreaks(l.events);
      assert TextsAt(l.events, x) == lines by {
        TextsAtAppend(Puts([box, box]), Puts(ops), x);
        TextsAtNone(Puts([box, box]), x);
        SummaryTexts(lines, x, y);
      }
    }
  }

  lemma {:induction false} SummaryTexts(lines: seq<string>, x: real, y: real)
    ensures TextsAt(Puts(SummaryLineOps(lines, x, y)), x) == lines
  {
    if lines != [] {
      var n := |lines| - 1;
      assert Puts(SummaryLineOps(lines, x, y))[..n] == Puts(SummaryLineOps(lines[..n], x, y));
      SummaryTexts(lines[..n], x, y);
      assert lines == lines[..n] + [lines[n]];
    }
  }

  /** A guarded section breaks the page on entry exactly when it is present and the cursor is below the threshold. */
  lemma GuardedBreaks(present: bool, y: real, threshold: real, body: Layout)
    ensures Breaks(Guarded(present, y, threshold, body).events)
            == if present then (if y < threshold then 1 else 0) + Breaks(body.events) else 0
  {
    if present {
      var e := EnterSection(y, threshold);
      BreaksAppend(e.events, body.events);
      assert [Break][..0] == [];
    }
  }

  /**
   * The document fails exactly when the table raises: there are query rows,
   * row 0 is a mapping, and it has no keys or one of the first 15 rows is
   * not a mapping.
   */
  lemma DocumentErrors(report: Report, data: Option<seq<Item>>, policy: ChartPolicy, lib: Lib)
    ensures DocumentLayout(report, data, policy, lib).Err? <==>
      && data.Some? && data.value != [] && data.value[0].Record?
      && (data.value[0].row == [] || exists i :: 0 <= i < |data.value| && i < TableRows && !data.value[i].Record?)
  {
    if data.Some? && data.value != [] {
      var head := HeadLayout(report, data, policy, lib);
      var e := EnterSection(head.y, TableThreshold);
      TableErrors(data.value, Margin, e.y, PageWidth, TableTitle, TableRows, lib);
    }
  }

  /** Bounds on the page breaks of the sections before the table: at most two, both from the metric cards. */
  lemma HeadBreaks(report: Report, data: Option<seq<Item>>, policy: ChartPolicy, lib: Lib)
    ensures Breaks(HeadLayout(report, data, policy, lib).events) <= 2
  {
    var hdr := HeaderLayout(report.title, lib.today);
    var sum := SummaryLayout(report.executiveSummary, Margin, hdr.y, lib);
    var chs := ChartsLayout(data, policy, Margin, sum.y, lib);
    var met := MetricsStep(report.keyMetrics, chs.y, lib);
    HeaderFacts(report.title, lib.today);
    SummaryFacts(report.executiveSummary, Margin, hdr.y, lib);
    assert Breaks(chs.events) == 0 by {
      ChartsPolicy(data, policy, Margin, sum.y, lib);
      OnlyPutsNoBreaks(chs.events);
    }
    assert Breaks(met.events) <= 2 by {
      var e := EnterSection(chs.y, MetricsThreshold);
      CardsLayoutPaging(report.keyMetrics, Margin, e.y, lib);
      GuardedBreaks(report.keyMetrics != [], chs.y, MetricsThreshold, CardsLayout(report.keyMetrics, Margin, e.y, lib));
    }
    BreaksAppend(hdr.events, sum.events);
    BreaksAppend(hdr.events + sum.events, chs.events);
    BreaksAppend(hdr.events + sum.events + chs.events, met.events);
  }

  /** The table step adds at most two page breaks: one on entry, one before the grid. */
  lemma TableStepBreaks(data: Option<seq<Item>>, y: real, lib: Lib)
    requires TableStep(data, y, lib).Ok?
    ensures Breaks(TableStep(data, y, lib).value.events) <= 2
  {
    if data.Some? && data.value != [] {
      var e := EnterSection(y, TableThreshold);
      TableBreaks(data.value, Margin, e.y, PageWidth, TableTitle, TableRows, lib);
      BreaksAppend(e.events, TableLayout(data.value, Margin, e.y, PageWidth, TableTitle, TableRows, lib).value.events);
      assert [Break][..0] == [];
    }
  }

  /** A list step adds at most one page break on entry and one per shown item. */
  lemma ListStepBreaks(style: ListStyle, texts: seq<string>, threshold: real, y: real, lib: Lib)
    ensures Breaks(ListStep(style, texts, threshold, y, lib).events) <= 1 + style.cap
  {
    var e := EnterSection(y, threshold);
    ListBreaks(style, texts, Margin, e.y, lib);
    GuardedBreaks(texts != [], y, threshold, ListLayout(style, texts, Margin, e.y, lib));
  }

  /** The sections after the table add at most 9 + 11 + 9 + 1 page breaks; the footer adds none. */
  lemma TailBreaks(report: Report, y: real, lib: Lib)
    ensures Breaks(TailLayout(report, y, lib).events) <= 30
  {
    var ins := ListStep(InsightsStyle, InsightTexts(report.insights), InsightsThreshold, y, lib);
    var fnd := ListStep(FindingsStyle, report.findings, FindingsThreshold, ins.y, lib);
    var rec := ListStep(RecommendationsStyle, report.recommendations, RecommendationsThreshold, fnd.y, lib);
    var col := ColumnsStep(report.limitations, report.nextSteps, rec.y, lib);
    ListStepBreaks(InsightsStyle, InsightTexts(report.insights), InsightsThreshold, y, lib);
    ListStepBreaks(FindingsStyle, report.findings, FindingsThreshold, ins.y, lib);
    ListStepBreaks(RecommendationsStyle, report.recommendations, RecommendationsThreshold, fnd.y, lib);
    assert Breaks(col.events) <= 1 by {
      var e := EnterSection(rec.y, ColumnsThreshold);
      ColumnsBreaks(report.limitations, report.nextSteps, Margin, e.y, PageWidth, lib);
      GuardedBreaks(report.limitations != [] || report.nextSteps != [], rec.y, ColumnsThreshold,
                    ColumnsLayout(report.limitations, report.nextSteps, Margin, e.y, PageWidth, lib));
    }
    PutsHaveNoBreaks(FooterOps(report.datasetUsed));
    BreaksAppend(ins.events, fnd.events);
    BreaksAppend(ins.events + fnd.events, rec.events);
    BreaksAppend(ins.events + fnd.events + rec.events, col.events);
    assert TailSections(report, y, lib).events == ins.events + fnd.events + rec.events + col.events;
    BreaksAppend(TailSections(report, y, lib).events, Puts(FooterOps(report.datasetUsed)));
  }

  /** A rendered document breaks the page at most 34 times: 2 before the table, 2 in it, 30 after it. */
  lemma DocumentBreaks(report: Report, data: Option<seq<Item>>, policy: ChartPolicy, lib: Lib, evs: seq<Event>)
    requires DocumentLayout(report, data, policy, lib) == Ok(evs)
    ensures Breaks(evs) <= 34
  {
    var head := HeadLayout(report, data, policy, lib);
    var tbl := TableStep(data, head.y, lib).value;
    var tail := TailLayout(report, tbl.y, lib);
    assert evs == head.events + tbl.events + tail.events;
    HeadBreaks(report, data, policy, lib);
    TableStepBreaks(data, head.y, lib);
    TailBreaks(report, tbl.y, lib);
    BreaksAppend(head.events, tbl.events);
    BreaksAppend(head.events + tbl.events, tail.events);
  }

  /**
   * A rendered document has at most 35 pages; its first page starts with the
   * header, and its last page ends with the footer, which is drawn only there.
   */
  lemma DocumentPages(report: Report, data: Option<seq<Item>>, policy: ChartPolicy, lib: Lib, evs: seq<Event>)
    requires DocumentLayout(report, data, policy, lib) == Ok(evs)
    ensures var pages := Pages(evs);
      var header := Ops(HeaderLayout(report.title, lib.today).events);
      var footer := FooterOps(report.datasetUsed);
      var last := pages[|pages| - 1];
      && |pages| <= 35
      && |header| == 6 && |pages[0]| >= 6 && pages[0][..6] == header
      && |last| >= 3 && last[|last| - 3..] == footer
  {
    DocumentBreaks(report, data, policy, lib, evs);
    PageCount(evs);
    HeaderOnFirstPage(report, data, policy, lib, evs);
    FooterOnLastPage(report, data, policy, lib, evs);
  }

  lemma HeaderOnFirstPage(report: Report, data: Option<seq<Item>>, policy: ChartPolicy, lib: Lib, evs: seq<Event>)
    requires DocumentLayout(report, data, policy, lib) == Ok(evs)
    ensures var pages := Pages(evs);
      var header := Ops(HeaderLayout(report.title, lib.today).events);
      |header| == 6 && |pages[0]| >= 6 && pages[0][..6] == header
  {
    var hdr := HeaderLayout(report.title, lib.today);
    var head := HeadLayout(report, data, policy, lib);
    var tbl := TableStep(data, head.y, lib).value;
    var rest := evs[|hdr.events|..];
    assert evs == hdr.events + rest;
    HeaderFacts(report.title, lib.today);
    PutsOps(Ops(hdr.events));
    assert hdr.events == Puts(Ops(hdr.events)) by {
      HeaderOps(report.title, lib.today);
    }
    PagesAppendNoBreakFirst(hdr.events, rest);
  }

  /** The header's events are drawing calls of its operations. */
  lemma HeaderOps(title: string, today: string)
    ensures var l := HeaderLayout(title, today);
      |Ops(l.events)| == 6 && l.events == Puts(Ops(l.events))
  {
    var l := HeaderLayout(title, today);
    var ops := [Box(0.0, PageHeight - HeaderHeight, PageWidth, HeaderHeight),
                Box(0.0, PageHeight - HeaderHeight + BandStep, PageWidth, HeaderHeight - BandStep),
                Box(0.0, PageHeight - HeaderHeight + 2.0 * BandStep, PageWidth, HeaderHeight - 2.0 * BandStep),
                Text(2.0 * Cm, PageHeight - 1.8 * Cm, title),
                Text(2.0 * Cm, PageHeight - 2.3 * Cm, "Generated: " + today),
                Stroke(0.0, PageHeight - HeaderHeight, PageWidth, PageHeight - HeaderHeight)];
    assert l.events == Puts(ops);
    PutsOps(ops);
  }

  /** A log that starts without breaks puts its operations at the start of the first page. */
  lemma PagesAppendNoBreakFirst(a: seq<Event>, b: seq<Event>)
    requires Breaks(a) == 0
    ensures |Pages(a + b)[0]| >= |Ops(a)| && Pages(a + b)[0][..|Ops(a)|] == Ops(a)
  {
    PagesAppend(a, b);
    PageCount(a);
    PagesKeepOps(a);
    var pa := Pages(a);
    var pb := Pages(b);
    assert |pa| == 1;
    assert pa[..0] == [];
    assert Flatten(pa) == Flatten(pa[..0]) + pa[0];
    assert Glue(pa, pb)[0] == pa[0] + pb[0];
  }

  /** The footer closes the last page. */
  lemma FooterOnLastPage(report: Report, data: Option<seq<Item>>, policy: ChartPolicy, lib: Lib, evs: seq<Event>)
    requires DocumentLayout(report, data, policy, lib) == Ok(evs)
    ensures var pages := Pages(evs);
      var last := pages[|pages| - 1];
      |last| >= 3 && last[|last| - 3..] == FooterOps(report.datasetUsed)
  {
    var head := HeadLayout(report, data, policy, lib);
    var tbl := TableStep(data, head.y, lib).value;
    var body := TailSections(report, tbl.y, lib).events;
    var footer := Puts(FooterOps(report.datasetUsed));
    assert evs == (head.events + tbl.events + body) + footer;
    PutsHaveNoBreaks(FooterOps(report.datasetUsed));
    PutsOps(FooterOps(report.datasetUsed));
    PagesAppendNoBreak(head.events + tbl.events + body, footer);
  }

  // ----- The drawing code -----

  method DrawHeader(c: Canvas, title: string, today: string) returns (y: real)
    modifies c
    ensures c.log == old(c.log) + HeaderLayout(title, today).events
    ensures y == HeaderLayout(title, today).y
  {
    var i := 0;
    while i < 3
      invariant 0 <= i <= 3
      invariant c.log == old(c.log) + Puts(BandOps(i))
    {
      c.Draw(Box(0.0, PageHeight - HeaderHeight + i as real * BandStep, PageWidth, HeaderHeight - i as real * BandStep));
      assert BandOps(i + 1) == BandOps(i) + [Box(0.0, PageHeight - HeaderHeight + i as real * BandStep, PageWidth, HeaderHeight - i as real * BandStep)];
      PutsAppend(BandOps(i), [Box(0.0, PageHeight - HeaderHeight + i as real * BandStep, PageWidth, HeaderHeight - i as real * BandStep)]);
      i := i + 1;
    }
    c.Draw(Text(2.0 * Cm, PageHeight - 1.8 * Cm, title));
    c.Draw(Text(2.0 * Cm, PageHeight - 2.3 * Cm, "Generated: " + today));
    c.Draw(Stroke(0.0, PageHeight - HeaderHeight, PageWidth, PageHeight - HeaderHeight));
    y := PageHeight - HeaderHeight - 0.5 * Cm;
  }

  /** The first n header bands. */
  function BandOps(n: nat): (ops: seq<Op>)
    ensures |ops| == n
  {
    if n == 0 then []
    else BandOps(n - 1) + [Box(0.0, PageHeight - HeaderHeight + (n - 1) as real * BandStep, PageWidth,
                               HeaderHeight - (n - 1) as real * BandStep)]
  }

  method DrawSummary(c: Canvas, summary: string, x: real, y: real, lib: Lib) returns (y': real)
    modifies c
    ensures c.log == old(c.log) + SummaryLayout(summary, x, y, lib).events
    ensures y' == SummaryLayout(summary, x, y, lib).y
  {
    if summary == "" {
      return y;
    }
    var box := Box(x - 10.0, y - 60.0, PageWidth - 2.0 * x + 20.0, 50.0);
    c.Draw(box);
    c.Draw(box);
    assert c.log == old(c.log) + Puts([box, box]);
    ghost var log1 := c.log;
    var lines := Prefix(lib.wrap(summary, SummaryWidth), SummaryLines);
    var textY := y - 20.0;
    for k := 0 to |lines|
      invariant textY == y - 20.0 - 14.0 * k as real
      invariant c.log == log1 + Puts(SummaryLineOps(lines[..k], x, y))
    {
      c.Draw(Text(x, textY, lines[k]));
      assert SummaryLineOps(lines[..k + 1], x, y) == SummaryLineOps(lines[..k], x, y) + [Text(x, textY, lines[k])];
      PutsAppend(SummaryLineOps(lines[..k], x, y), [Text(x, textY, lines[k])]);
      textY := textY - 14.0;
    }
    assert lines[..|lines|] == lines;
    y' := y - 70.0;
  }

  method Enter(c: Canvas, y: real, threshold: real) returns (y': real)
    modifies c
    ensures c.log == old(c.log) + EnterSection(y, threshold).events
    ensures y' == EnterSection(y, threshold).y
  {
    if y < threshold {
      c.ShowPage();
      y' := Top;
    } else {
      y' := y - 15.0;
    }
  }

  method DrawMetricsStep(c: Canvas, metrics: seq<Row>, y: real, lib: Lib) returns (y': real)
    modifies c
    ensures c.log == old(c.log) + MetricsStep(metrics, y, lib).events
    ensures y' == MetricsStep(metrics, y, lib).y
  {
    if metrics == [] {
      return y;
    }
    var e := Enter(c, y, MetricsThreshold);
    ghost var body := CardsLayout(metrics, Margin, e, lib);
    y' := DrawMetricCards(c, metrics, Margin, e, lib);
    AppendAssoc(old(c.log), EnterSection(y, MetricsThreshold).events, body.events);
  }

  method DrawListStep(c: Canvas, style: ListStyle, texts: seq<string>, threshold: real, y: real, lib: Lib) returns (y': real)
    modifies c
    ensures c.log == old(c.log) + ListStep(style, texts, threshold, y, lib).events
    ensures y' == ListStep(style, texts, threshold, y, lib).y
  {
    if texts == [] {
      return y;
    }
    var e := Enter(c, y, threshold);
    ghost var body := ListLayout(style, texts, Margin, e, lib);
    y' := DrawList(c, style, texts, Margin, e, lib);
    AppendAssoc(old(c.log), EnterSection(y, threshold).events, body.events);
  }

  method DrawColumnsStep(c: Canvas, limitations: seq<string>, nextSteps: seq<string>, y: real, lib: Lib) returns (y': real)
    modifies c
    ensures c.log == old(c.log) + ColumnsStep(limitations, nextSteps, y, lib).events
    ensures y' == ColumnsStep(limitations, nextSteps, y, lib).y
  {
    if limitations == [] && nextSteps == [] {
      return y;
    }
    var e := Enter(c, y, ColumnsThreshold);
    ghost var body := ColumnsLayout(limitations, nextSteps, Margin, e, PageWidth, lib);
    y' := DrawColumns(c, limitations, nextSteps, Margin, e, PageWidth, lib);
    AppendAssoc(old(c.log), EnterSection(y, ColumnsThreshold).events, body.events);
  }

  method DrawTail(c: Canvas, report: Report, y: real, lib: Lib)
    modifies c
    ensures c.log == old(c.log) + TailLayout(report, y, lib).events
  {
    ghost var ins := ListStep(InsightsStyle, InsightTexts(report.insights), InsightsThreshold, y, lib);
    var y1 := DrawListStep(c, InsightsStyle, InsightTexts(report.insights), InsightsThreshold, y, lib);
    ghost var fnd := ListStep(FindingsStyle, report.findings, FindingsThreshold, y1, lib);
    ghost var l1 := c.log;
    var y2 := DrawListStep(c, FindingsStyle, report.findings, FindingsThreshold, y1, lib);
    AppendAssoc(old(c.log), ins.events, fnd.events);
    ghost var rec := ListStep(RecommendationsStyle, report.recommendations, RecommendationsThreshold, y2, lib);
    ghost var l2 := c.log;
    var y3 := DrawListStep(c, RecommendationsStyle, report.recommendations, RecommendationsThreshold, y2, lib);
    AppendAssoc(old(c.log), ins.events + fnd.events, rec.events);
    ghost var col := ColumnsStep(report.limitations, report.nextSteps, y3, lib);
    var y4 := DrawColumnsStep(c, report.limitations, report.nextSteps, y3, lib);
    AppendAssoc(old(c.log), ins.events + fnd.events + rec.events, col.events);
    assert TailSections(report, y, lib).events == ins.events + fnd.events + rec.events + col.events;
    DrawAll(c, FooterOps(report.datasetUsed));
    AppendAssoc(old(c.log), ins.events + fnd.events + rec.events + col.events, Puts(FooterOps(report.datasetUsed)));
  }

  method DrawHead(c: Canvas, report: Report, data: Option<seq<Item>>, policy: ChartPolicy, lib: Lib) returns (y: real)
    modifies c
    ensures c.log == old(c.log) + HeadLayout(report, data, policy, lib).events
    ensures y == HeadLayout(report, data, policy, lib).y
  {
    ghost var hdr := HeaderLayout(report.title, lib.today);
    var y1 := DrawHeader(c, report.title, lib.today);
    ghost var sum := SummaryLayout(report.executiveSummary, Margin, y1, lib);
    var y2 := DrawSummary(c, report.executiveSummary, Margin, y1, lib);
    AppendAssoc(old(c.log), hdr.events, sum.events);
    ghost var chs := ChartsLayout(data, policy, Margin, y2, lib);
    var y3 := DrawCharts(c, data, policy, Margin, y2, lib);
    AppendAssoc(old(c.log), hdr.events + sum.events, chs.events);
    ghost var met := MetricsStep(report.keyMetrics, y3, lib);
    y := DrawMetricsStep(c, report.keyMetrics, y3, lib);
    AppendAssoc(old(c.log), hdr.events + sum.events + chs.events, met.events);
  }

  /**
   * `_write_visual_pdf`: draws the whole document on a fresh canvas and
   * returns its pages, or the error the table raised (no document is saved then).
   */
  method WriteVisualPdf(report: Report, data: Option<seq<Item>>, policy: ChartPolicy, lib: Lib)
    returns (r: Result<seq<Page>, RenderError>)
    ensures DocumentLayout(report, data, policy, lib).Err? ==> r == Err(DocumentLayout(report, data, policy, lib).error)
    ensures DocumentLayout(report, data, policy, lib).Ok? ==> r == Ok(Pages(DocumentLayout(report, data, policy, lib).value))
  {
    var c := new Canvas();
    ghost var head := HeadLayout(report, data, policy, lib);
    var y := DrawHead(c, report, data, policy, lib);
    assert c.log == head.events;
    ghost var tbl := TableStep(data, y, lib);
    var t := DrawTableStep(c, data, y, lib);
    if t.Err? {
      return Err(t.error);
    }
    assert c.log == head.events + tbl.value.events;
    ghost var tail := TailLayout(report, t.value, lib);
    DrawTail(c, report, t.value, lib);
    assert c.log == head.events + tbl.value.events + tail.events;
    r := Ok(Pages(c.log));
  }

  /** The table section: entered only when the query returned rows; an error leaves the document unsaved. */
  method DrawTableStep(c: Canvas, data: Option<seq<Item>>, y: real, lib: Lib) returns (r: Result<real, RenderError>)
    modifies c
    ensures TableStep(data, y, lib).Err? ==> r == Err(TableStep(data, y, lib).error)
    ensures TableStep(data, y, lib).Ok? ==>
      r == Ok(TableStep(data, y, lib).value.y) && c.log == old(c.log) + TableStep(data, y, lib).value.events
  {
    if data.None? || data.value == [] {
      return Ok(y);
    }
    var e := Enter(c, y, TableThreshold);
    ghost var l1 := c.log;
    r := DrawStyledTable(c, data.value, Margin, e, PageWidth, TableTitle, TableRows, lib);
    if r.Ok? {
      AppendAssoc(old(c.log), EnterSection(y, TableThreshold).events,
                  TableLayout(data.value, Margin, e, PageWidth, TableTitle, TableRows, lib).value.events);
    }
  }
}
