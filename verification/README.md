# Visual report to PDF: the layout engine

This project models the layout engine of the visual report component
(`components/report_to_pdf_node.py`). The engine takes a parsed report
(title, executive summary, key metrics, insights, findings,
recommendations, limitations, next steps and the dataset name) and the
optional rows of a query result. It lays them out on A4 pages with one
vertical cursor `y`, measured upward from the bottom of the page.

Every section renderer takes the cursor and returns a new one. A page
break (`showPage`) always restarts the cursor at 27cm. The order is
fixed:

1. the header band
2. the executive summary box
3. up to two charts of the query rows
4. the metric-card grid
5. the results table
6. the numbered insights
7. the bulleted findings
8. the check-marked recommendations
9. the two-column limitations / next-steps block
10. a footer

Each optional section is entered with the same rule: below its threshold
it breaks the page, otherwise it moves 15 down.

The model has two layers.

- **Pure layout functions.** `HeaderLayout`, `SummaryLayout`,
  `ChartsLayout`, `CardsLayout`, `TableLayout`, `ListLayout`,
  `ColumnsLayout` and `DocumentLayout` each return the sequence of
  drawing events a section produces and the cursor it leaves. An event is
  one drawing call (`Put` of a text, box, dot, stroke, chart or table
  grid) or a page break. The lemmas about the renderers are stated over
  these functions: page-break counts, placement, which texts are drawn in
  which column, cursor arithmetic, and error conditions.
- **A canvas class.** `Pdf.Canvas` keeps the log of drawing calls, and
  the document is `Pages(log)`, the calls split at the page breaks. The
  imperative renderers (`DrawMetricCards`, `DrawList`, `DrawColumns`,
  `DrawStyledTable`, `WriteVisualPdf`, ...) mutate that canvas with the
  source's loops. Each one is proved to append exactly the events of its
  layout function and to return its cursor.

Some routines are used by the engine but not written in it:

- `textwrap.wrap`
- `float(text)`
- `str` of a float
- the height reportlab computes for a table
- today's date

These are fields of a `Values.Lib` value passed in. Every property holds
for any choice of them.

The module `Text` implements Python's integer formatting, the
thousands-grouped `,` and `,.2f` formats, and `str.title` for the
column and metric labels. `FileName` models the normalisation of the
output file name.

The code is followed where it differs from the prose description of the
component:

- After a page break in the metric-card grid, the remaining cards keep
  their grid offset (`27cm - row·2.5cm`). They do not start at the top of
  the new page.
- The footer (source label, the fixed text "Page 1" and a rule) is drawn
  once, at the end, on the last page only.

## Model

| member | source | states |
|---|---|---|
| Text.NatToStringRoundTrip | components/report_to_pdf_node.py:470 | the decimal string of an insight number reads back as that number |
| Text.GroupRoundTrip | components/report_to_pdf_node.py:299 | `f"{n:,}"` with its commas removed reads back as n |
| Text.GroupDigits | components/report_to_pdf_node.py:299 | removing the separators from `f"{n:,}"` gives `str(n)` |
| Text.GroupShape | components/report_to_pdf_node.py:299 | in `f"{n:,}"` every fourth character from the end is a comma and every other character a digit, so the leading group has one to three digits and every later group three |
| Text.Fixed2RoundTrip | components/report_to_pdf_node.py:297 | `f"{v:,.2f}"` reads back as v rounded to the nearest hundredth, with v's sign |
| Text.Fixed2Close | components/report_to_pdf_node.py:297 | what `f"{v:,.2f}"` reads back as is within 0.005 of v |
| Text.ReadFixed2Parts | components/report_to_pdf_node.py:297 | a sign, a grouped integer part, a point and two digits read back as the signed number they spell |
| Text.RoundHalfEven | components/report_to_pdf_node.py:297 | the rounding used by `.2f` is within one half, and ties go to the even neighbour |
| Text.LabelAt | components/report_to_pdf_node.py:286 | each character of `key.replace('_',' ').title()`: underscores become spaces; a letter is upper-case exactly when it starts a run of letters |
| Values.Get | components/report_to_pdf_node.py:293 | `row.get(key)` finds a value exactly when the key is among the row's keys, and the value found is stored under that key in the row |
| Values.GetFirst | components/report_to_pdf_node.py:293 | when a key occurs several times, `get` returns the value of its first occurrence |
| Values.RecordsMembership | components/report_to_pdf_node.py:100-101 | the rows kept are exactly the mappings among the items; when all items are mappings, none is dropped |
| Values.FormatCellExamples | components/report_to_pdf_node.py:292-300 | 1234 shows as "1,234", 1234.5 as "1,234.50", True as "1" |
| Values.QuoteRepr | components/report_to_pdf_node.py:478 | the printed form of a string starts and ends with the same quote: double quotes exactly when the text holds a single quote and no double quote |
| Values.ReprRoundTrip | components/report_to_pdf_node.py:478 | reading the printed form of a string back (quotes dropped, backslash escapes undone) gives the string |
| Values.ReprPlain | components/report_to_pdf_node.py:478 | a string without quotes, backslashes or control characters prints as itself between single quotes |
| Values.LookupFirst | components/report_to_pdf_node.py:478 | `insight.get('insight', ...)` returns the value of the first `insight` entry |
| Values.LookupMissing | components/report_to_pdf_node.py:478 | `get` finds nothing when no entry has the key |
| Values.InsightTextFacts | components/report_to_pdf_node.py:476-480 | a plain insight shows itself; a mapping shows the value of its first `insight` entry, and the whole mapping as `str` prints it when it has none |
| Charts.InferFieldsFacts | components/report_to_pdf_node.py:84-94 | the key field defaults to row 0's first key and the value field to its second key, else its only key; explicit fields win; no rows, or an empty or falsy field, means no fields |
| Charts.CollectSeries | components/report_to_pdf_node.py:100-106 | the loop collects exactly the labels and amounts of the mappings among the first `cap` rows, in order |
| Charts.SeriesCharted | components/report_to_pdf_node.py:100-105 | each collected label is `str` of the key's value ("" when missing), cut to 10 characters for bars; each amount is the value as a float, 0 when missing, null or rejected by `float` |
| Charts.BarLayoutFacts | components/report_to_pdf_node.py:81-144 | the bar chart draws nothing and keeps y, or draws one bar chart of at most 10 equally long labels and values, labels at most 10 characters, and returns y − h − 20; it draws exactly when fields are inferred and a mapping is among the first 10 rows |
| Charts.PieLayoutFacts | components/report_to_pdf_node.py:154-225 | the pie draws nothing and keeps y, or draws one pie of at most 8 values with a non-zero sum and returns y − h − 20; it draws exactly when fields are inferred and the values sum to non-zero |
| Charts.BarContent | components/report_to_pdf_node.py:96-142 | bar j is the j-th mapping among the first 10 rows: its label is the key's value cut to 10 characters ("" when missing); its height is the value as a float, 0 when missing, null or not a number; the chart keeps the given title, x, width and height |
| Charts.PieContent | components/report_to_pdf_node.py:169-223 | slice j is the j-th mapping among the first 8 rows: its label is the key's value in full ("" when missing); its size is the value as a float, 0 when missing, null or not a number |
| Charts.DrawBarChart | components/report_to_pdf_node.py:73-144 | drawing the bar chart appends exactly its layout's events and returns its cursor |
| Charts.DrawPieChart | components/report_to_pdf_node.py:146-225 | drawing the pie appends exactly its layout's events and returns its cursor |
| Charts.FirstNumericKeyFacts | components/report_to_pdf_node.py:541-547 | the chosen value field is the first key of row 0 holding an int, float or bool; none exactly when there is no such key |
| Charts.BarStepFacts | components/report_to_pdf_node.py:551-557 | the bar step draws nothing and keeps y, or one bar chart 220 lower; it draws only under Auto, Bar or Both with at most 15 rows |
| Charts.PieStepFacts | components/report_to_pdf_node.py:559-563 | the pie step draws nothing and keeps y, or one pie chart 220 lower; it draws only under Auto, Pie or Both with at least 3 rows |
| Charts.BarThenPie | components/report_to_pdf_node.py:550-563 | a bar step then a pie step give at most two charts, each costing 220, the bar first and the pie last |
| Charts.ChartsNone | components/report_to_pdf_node.py:538-550 | policy None, no rows or no numeric field in row 0 draws nothing and keeps y |
| Charts.ChartsPolicy | components/report_to_pdf_node.py:537-563 | at most two charts, each costing 220; a bar only when the policy allows it and there are at most 15 rows, and always first; a pie only when allowed and there are at least 3 rows, and always last |
| Charts.BarStepDraws | components/report_to_pdf_node.py:551-557 | with the policy allowing bars, 1 to 15 rows and a numeric field in row 0 whose first key is non-empty, the bar step draws one bar chart 200 below y and returns y − 220 |
| Charts.PieStepDraws | components/report_to_pdf_node.py:559-563 | with the policy allowing pies, at least 3 rows, a numeric field, a non-empty first key and first-8 amounts not summing to zero, the pie step draws one pie 200 below y and returns y − 220 |
| Charts.BarSettingDrawsOneBar | components/report_to_pdf_node.py:551-557 | under policy Bar, with 1 to 15 rows and a numeric field, exactly one chart is drawn: a bar chart 200 below y, and the cursor ends 220 below |
| Charts.PieSettingDrawsOnePie | components/report_to_pdf_node.py:559-563 | under policy Pie, with at least 3 rows, a numeric field and a non-zero pie sum, exactly one chart is drawn: a pie 200 below y, and the cursor ends 220 below |
| Charts.BothChartsDrawn | components/report_to_pdf_node.py:550-563 | under Auto or Both, with 3 to 15 rows, a numeric field and a non-zero pie sum, exactly two charts are drawn: the bar 200 below y, then the pie 420 below y; the cursor ends 440 below |
| Charts.FewRowsNoPie | components/report_to_pdf_node.py:559-560 | with fewer than 3 rows no pie is drawn under any policy |
| Charts.PieReadsFirstEight | components/report_to_pdf_node.py:559-563 | two row lists that agree on their first 8 rows and on whether they have at least 3 rows give the same pie step |
| Charts.PieSettingReadsFirstEight | components/report_to_pdf_node.py:537-563 | under policy Pie, two row lists that agree on their first 8 rows and on whether they have at least 3 rows give the same chart section |
| Charts.DrawCharts | components/report_to_pdf_node.py:537-562 | the chart dispatch appends exactly the events of `ChartsLayout` and returns its cursor |
| Table.ScalarFrom | components/report_to_pdf_node.py:289-292 | finds the first row from index i on that is not a mapping; none exactly when all those rows are mappings |
| Table.FirstScalar | components/report_to_pdf_node.py:289-292 | finds the first row that is not a mapping, the one whose `.get` raises; none exactly when all rows are mappings |
| Table.TableErrors | components/report_to_pdf_node.py:282-310 | the table fails exactly when row 0 is a mapping and has no keys (division by zero) or one of the first max_rows rows is not a mapping |
| Table.GridBreaks | components/report_to_pdf_node.py:339-344 | the grid is never split: it breaks the page once, before anything else, exactly when y − h < 2cm, and otherwise never |
| Table.GridShape | components/report_to_pdf_node.py:306-355 | the grid holds the cells at start − h with equal column widths; the cursor ends at start − h − 10, and 15 lower with a "Showing m of n" footnote exactly when rows were cut |
| Table.TableContent | components/report_to_pdf_node.py:282-303 | the grid holds the labelled row-0 keys as its header, then the formatted cells of the first min(n, max_rows) rows in order |
| Table.TablePlacement | components/report_to_pdf_node.py:274-357 | the whole table: title cost, at most the one atomic break, final cursor, and the footnote exactly when rows were cut |
| Table.TableBreaks | components/report_to_pdf_node.py:342-344 | a table breaks the page at most once |
| Table.FootnoteExample | components/report_to_pdf_node.py:353 | the footnote for 15 of 20 rows reads "* Showing 15 of 20 total records" |
| Table.FormatRow | components/report_to_pdf_node.py:292-302 | a mapping gives its formatted cells, one per column; a non-mapping fails exactly when there is a column to look up |
| Table.BuildRows | components/report_to_pdf_node.py:289-303 | the row loop yields exactly the formatted body, or the error of the first non-mapping row |
| Table.PlaceGrid | components/report_to_pdf_node.py:339-355 | placing the grid appends exactly its layout's events and returns its cursor |
| Table.DrawStyledTable | components/report_to_pdf_node.py:263-357 | the table appends exactly its layout's events and returns its cursor; on an error, only the title has been drawn |
| Cards.CardLines | components/report_to_pdf_node.py:406-428 | a card has no text line for an empty metric, two for one entry, and three for two or more (the count only; `CardsLayoutShows` states the texts) |
| Cards.CardsLayoutShows | components/report_to_pdf_node.py:406-428 | card i shows its first key, title-cased, 20 below its top; that key's value 40 below; and "Label: value" for a second entry 55 below, 10 in from its left edge |
| Cards.CardOpsFacts | components/report_to_pdf_node.py:387-428 | a card is two boxes of 7cm × 2cm hanging from its top edge, then its lines at 20, 40 and 55 below the top, 10 in from the left |
| Cards.OverflowRowFacts | components/report_to_pdf_node.py:391 | there is one row from which every card row would cross the 3cm floor and before which none does |
| Cards.BreakDecision | components/report_to_pdf_node.py:388-394 | the break test fires exactly on the first card of the overflow row, and a card then sits at 27cm − row·2.5cm |
| Cards.CardFits | components/report_to_pdf_node.py:391-394 | every card, broken or not, stays above the 3cm floor |
| Cards.CardEventBreaks | components/report_to_pdf_node.py:391-393 | a card breaks the page exactly when it is the first card of the overflow row |
| Cards.CardsEventsBreaks | components/report_to_pdf_node.py:383-394 | the cards break the page once if they reach the overflow row, else never |
| Cards.CardsEventsFit | components/report_to_pdf_node.py:391-403 | no card box of the grid reaches below the floor |
| Cards.CursorBelowLastCard | components/report_to_pdf_node.py:433-434 | the final-cursor formula puts the cursor 0.5cm + 20 below the last card drawn |
| Cards.CardsFirstTen | components/report_to_pdf_node.py:383 | only the first ten metrics are drawn: with more than ten, the grid is the same as for the first ten alone |
| Cards.CardsLayoutPaging | components/report_to_pdf_node.py:359-436 | no metrics draw nothing; at most one page break, exactly when the first 10 cards reach the overflow row; all boxes above the floor |
| Cards.CardsLayoutCursor | components/report_to_pdf_node.py:433-436 | the section returns the bottom of the last card's row, less spacing and 20 |
| Cards.PlaceCard | components/report_to_pdf_node.py:384-428 | one loop step appends exactly that card's events and keeps the grid origin |
| Cards.PlaceCards | components/report_to_pdf_node.py:383-430 | the card loop appends the events of the cards in order |
| Cards.DrawMetricCards | components/report_to_pdf_node.py:359-436 | the metric section appends exactly its layout's events and returns its cursor |
| Lists.TitledBreaksAt | components/report_to_pdf_node.py:456-461 | in a list section every page break is followed at once by the "(continued)" title |
| Lists.ItemBreaks | components/report_to_pdf_node.py:455-463 | an item breaks the page exactly when the cursor is below the section's floor |
| Lists.ItemTitled | components/report_to_pdf_node.py:455-463 | an item's break is followed by the continued title |
| Lists.ItemsBreaks | components/report_to_pdf_node.py:453-490 | n items break the page at most n times |
| Lists.ItemsTitled | components/report_to_pdf_node.py:453-490 | every break among the items is followed by the continued title |
| Lists.PartsAboveFloor | components/report_to_pdf_node.py:455-463 | items that break no page all start at or above the section's floor, wherever they start |
| Lists.ItemsCursor | components/report_to_pdf_node.py:486-490 | without breaks, the items cost 14 per wrapped line plus the gap per item |
| Lists.StylesSeparated | components/report_to_pdf_node.py:467-484 | in all three lists the text column differs from the title and marker columns |
| Lists.LineTexts | components/report_to_pdf_node.py:486-488 | an item draws its wrapped lines, in order, in the text column |
| Lists.MarkerTexts | components/report_to_pdf_node.py:467-470 | a marker draws no text in the text column |
| Lists.ItemTexts | components/report_to_pdf_node.py:465-490 | the text column of one item holds exactly its wrapped lines |
| Lists.ItemsTexts | components/report_to_pdf_node.py:453-490 | the text column of the items holds their wrapped lines, each item once, in order, wherever the items start |
| Lists.TitledTexts | components/report_to_pdf_node.py:451-490 | the section title is not in the text column, so the column holds exactly the items' lines |
| Lists.ListBreaks | components/report_to_pdf_node.py:438-494 | an empty list draws nothing; otherwise the title comes first, and there are at most min(n, cap) breaks |
| Lists.ListTitled | components/report_to_pdf_node.py:453-463 | every break of a list section is followed by its continued title |
| Lists.ListTexts | components/report_to_pdf_node.py:453-488 | the text column holds exactly the wrapped lines of the first `cap` items, in order |
| Lists.ItemNumber | components/report_to_pdf_node.py:465-470 | a numbered item draws exactly one text in the number column at x + 7: its own position, counted from 1 |
| Lists.ListNumbers | components/report_to_pdf_node.py:453-470 | the number column of a numbered list section reads "1", "2", ... up to the number of items shown, in order |
| Lists.InsightNumbers | components/report_to_pdf_node.py:453-470 | the key insights are badged "1" to "m" in order, m the number of insights capped at 8 |
| Lists.ListCursor | components/report_to_pdf_node.py:451-490 | without breaks, a list costs 20 for its title plus its items' cost |
| Lists.DrawLines | components/report_to_pdf_node.py:486-488 | the line loop appends one text per line and moves 14 per line |
| Lists.PlaceItem | components/report_to_pdf_node.py:454-490 | one loop step appends exactly that item's events and returns its cursor |
| Lists.PlaceItems | components/report_to_pdf_node.py:453-490 | the item loop appends the events of the items in order |
| Lists.DrawList | components/report_to_pdf_node.py:602-633 | a list section (insights, findings, recommendations) appends exactly its layout's events and returns its cursor |
| Lists.DrawInsights | components/report_to_pdf_node.py:438-494 | the insights section appends exactly its layout's events and returns its cursor |
| Columns.PlacesDistinct | components/report_to_pdf_node.py:700-738 | in each column the title, first-line and continuation positions differ |
| Columns.EntryTexts | components/report_to_pdf_node.py:708-716 | an entry draws its first line with its marker, and the rest at the continuation position; an empty wrap draws nothing |
| Columns.EntriesNoBreaks | components/report_to_pdf_node.py:705-716 | entries never break the page |
| Columns.EntriesFirsts | components/report_to_pdf_node.py:705-716 | the entries' first lines, each after its marker, appear in order at the first-line position |
| Columns.EntriesRests | components/report_to_pdf_node.py:705-716 | the entries' continuation lines appear in order at the continuation position |
| Columns.EntriesNoTitle | components/report_to_pdf_node.py:705-716 | no entry line is drawn at the title position |
| Columns.ColumnPlacement | components/report_to_pdf_node.py:697-718 | a column never breaks; it costs 18 plus 12 per line and 3 per entry of its first 5 entries wrapped at 40 |
| Columns.ColumnTexts | components/report_to_pdf_node.py:697-718 | a column shows its title alone at the title position, then its entries' first lines and continuation lines at theirs |
| Columns.ColumnsBreaks | components/report_to_pdf_node.py:689-744 | the two-column block never breaks the page |
| Columns.ColumnsStart | components/report_to_pdf_node.py:690-724 | both columns start at the same y: the limitations title opens the block at x, and the next-steps title, half the printable width plus 20 to the right, comes right after the limitations column or opens the block when there are no limitations |
| Columns.ColumnsCursor | components/report_to_pdf_node.py:694-744 | the cursor is the lower column end (or y when no column is drawn) less 10 |
| Columns.DrawEntry | components/report_to_pdf_node.py:708-716 | drawing one entry appends its lines and returns y less its cost |
| Columns.DrawColumn | components/report_to_pdf_node.py:697-718 | a column appends exactly its layout's events and returns its end |
| Columns.DrawColumns | components/report_to_pdf_node.py:689-744 | the block appends exactly its layout's events and returns its cursor |
| Composer.HeaderFacts | components/report_to_pdf_node.py:239-261 | three full-width bands reach the top edge, each 0.3cm shorter; then the title and date; no break; cursor at page height − 3.5cm |
| Composer.DrawHeader | components/report_to_pdf_node.py:227-261 | the header appends exactly its layout's events and returns its cursor |
| Composer.SummaryFacts | components/report_to_pdf_node.py:517-534 | an empty summary draws nothing; otherwise at most 3 wrapped lines inside the box, no break, and 70 consumed |
| Composer.DrawSummary | components/report_to_pdf_node.py:517-534 | the summary appends exactly its layout's events and returns its cursor |
| Composer.GuardedBreaks | components/report_to_pdf_node.py:567-572 | a section entry breaks the page exactly when the section is present and y is below its threshold |
| Composer.Enter | components/report_to_pdf_node.py:568-572 | entering a section breaks and resets to 27cm below the threshold, else moves 15 down |
| Composer.DocumentErrors | components/report_to_pdf_node.py:575-583 | rendering fails exactly when there are rows, row 0 is a mapping, and it has no keys or one of the first 15 rows is not a mapping |
| Composer.HeadBreaks | components/report_to_pdf_node.py:513-573 | the header, summary, charts and metric cards break the page at most twice |
| Composer.TableStepBreaks | components/report_to_pdf_node.py:576-583 | the table step breaks the page at most twice |
| Composer.ListStepBreaks | components/report_to_pdf_node.py:585-633 | a list step breaks the page at most once on entry and once per shown item |
| Composer.TailBreaks | components/report_to_pdf_node.py:585-755 | insights, findings, recommendations, columns and footer break the page at most 30 times |
| Composer.DocumentBreaks | components/report_to_pdf_node.py:496-757 | a rendered document breaks the page at most 34 times |
| Composer.DocumentPages | components/report_to_pdf_node.py:496-757 | a rendered document has at most 35 pages, starts with the header on its first page and ends with the footer on its last |
| Composer.HeaderOnFirstPage | components/report_to_pdf_node.py:514 | the first page opens with the six header drawing calls |
| Composer.FooterOnLastPage | components/report_to_pdf_node.py:746-755 | the footer's three drawing calls close the last page |
| Composer.DrawMetricsStep | components/report_to_pdf_node.py:566-573 | the metrics step appends exactly its layout's events |
| Composer.DrawTableStep | components/report_to_pdf_node.py:575-583 | the table step appends exactly its layout's events, or returns the table's error |
| Composer.DrawListStep | components/report_to_pdf_node.py:585-680 | a list step appends exactly its layout's events |
| Composer.DrawColumnsStep | components/report_to_pdf_node.py:683-744 | the columns step appends exactly its layout's events |
| Composer.DrawHead | components/report_to_pdf_node.py:513-573 | the sections before the table append exactly their layouts' events in order |
| Composer.DrawTail | components/report_to_pdf_node.py:585-755 | the sections after the table and the footer append exactly their layouts' events in order |
| Composer.WriteVisualPdf | components/report_to_pdf_node.py:496-757 | the document drawn on a fresh canvas is `Pages` of the document layout, or the table's error |
| Pdf.PageCount | components/report_to_pdf_node.py:568-570 | a document has one page more than the breaks in its log |
| Pdf.PagesKeepOps | components/report_to_pdf_node.py:568-570 | splitting the log into pages keeps every drawing call, in order |
| Pdf.PagesAppendNoBreak | components/report_to_pdf_node.py:746-755 | drawing without a break adds to the current last page only |
| Pdf.DrawAll | components/report_to_pdf_node.py:749-755 | drawing a list of calls appends them in order |
| FileName.TrimStartSpaces | components/report_to_pdf_node.py:893 | `lstrip` removes only leading whitespace and keeps a suffix that does not start with it |
| FileName.TrimEndSpaces | components/report_to_pdf_node.py:893 | `rstrip` removes only trailing whitespace and keeps a prefix that does not end with it |
| FileName.StripPart | components/report_to_pdf_node.py:893 | `strip` keeps one contiguous part of the name |
| FileName.StripRemoves | components/report_to_pdf_node.py:893 | everything `strip` removes, before and after that part, is whitespace |
| FileName.StripEnds | components/report_to_pdf_node.py:893 | what `strip` keeps neither starts nor ends with whitespace |
| FileName.StripBlank | components/report_to_pdf_node.py:893 | `strip` leaves nothing exactly when the name is all whitespace |
| FileName.DefaultKept | components/report_to_pdf_node.py:893-895 | `report.pdf` has no surrounding whitespace and already has the extension |
| FileName.OutputNameExtension | components/report_to_pdf_node.py:893-895 | the output name always ends with `.pdf` in some letter case |
| FileName.BlankName | components/report_to_pdf_node.py:893 | a missing or blank name becomes `report.pdf` |
| FileName.NamedOutput | components/report_to_pdf_node.py:893-895 | any other name is kept without surrounding whitespace, and `.pdf` is appended exactly when it does not already end with it |
| FileName.OutputNameIdempotent | components/report_to_pdf_node.py:893-895 | normalising an already normalised name changes nothing |

## Left out

- Colours, fonts, line widths, rounded corners, circle and chart geometry, the table style and reportlab's chart objects are left out. A drawing call is recorded only as an abstract operation with its position and content.
- Some library routines are parameters, not models:
  - `textwrap.wrap`
  - the table height from `Table.wrapOn`
  - `str` of a float
  - `float(text)`
  - today's date from `datetime.now()`

  Every property holds for all of them. Only the lines the wrapper returns matter to the cursor.
- Binary floating point is not modelled. Coordinates are exact reals. `f"{v:,.2f}"` rounds the exact value half-to-even.
- The axis headroom `max(values) * 1.1`, pie label formatting and slice geometry are left out (reportlab drawing detail).
- The report-template parser `_parse_template_format` is not part of this model: it is a separate collaborator built on regular expressions and `ast.literal_eval`.
- The Langflow component wrapper is not part of this model, apart from the file-name rule. It covers:
  - input plumbing and JSON decoding of the query results
  - creating the output folder
  - logging, status messages, and saving the file

  When rendering fails, the model returns the error and no pages; what the wrapper then reports is left out.
- Values.Value: a cell or metric value is an int, float, bool, string or null. Nested lists and dicts, which the report schema allows as metric values and `str(value)` would print, are not represented.
- Key metrics are mappings (the report schema types them as dictionaries), so the card code's non-mapping branch is not modelled.
- An insight is plain text or a mapping of strings; printing other mapping values with `str` is not modelled.
- Only the report schema's lists of strings are modelled for findings, recommendations, limitations and next steps.
- Text.LabelAt: `str.title` is modelled for ASCII letters only. A non-ASCII letter counts as uncased, so `"élan"` becomes `"éLan"` here where Python gives `"Élan"`.
- Values.QuoteRepr: only ASCII control characters are escaped. Python's `repr` also escapes non-printable characters beyond ASCII (such as U+00A0 or U+2028), which needs the Unicode database; the model keeps them as they are.
- FileName.IsSpace: `str.strip` and `str.lower` are modelled for ASCII only. Unicode whitespace other than \x1c-\x1f, and non-ASCII case mappings, are not covered.
- Lists.ListCursor: states the cursor cost only for a list that does not break the page. After a break, the cursor is given by the layout function, restarting at 27cm − 20.
- Lists.ItemsCursor: likewise only for items that do not break the page.
- Composer.DocumentPages: bounds the page count by 35 through the per-section break counts. It does not state the exact count, which depends on the wrapped line counts and the table height.
