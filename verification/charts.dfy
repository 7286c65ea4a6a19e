/**
 * The bar and pie chart renderers and the composer's chart policy: which
 * fields are charted, which rows are read, and what the cursor does.
 */
module Charts {
  import opened Wrappers
  import opened Values
  import opened Pdf

  /** `not field` in Python: an absent field name and an empty one are both missing. */
  predicate Unset(f: Option<string>) {
    f.None? || f.value == ""
  }

  /**
   * Field auto-detection shared by both charts: without an explicit key the
   * key is the first key of row 0; without an explicit value field it is
   * row 0's second key, or its only key. None means the chart is skipped.
   */
  function InferFields(data: seq<Item>, keyField: Option<string>, valueField: Option<string>)
    : Option<(string, string)>
  {
    if data == [] then None
    else
      var keys := if data[0].Record? then Keys(data[0].row) else [];
      var k := if Unset(keyField) && data[0].Record? then (if keys != [] then Some(keys[0]) else None)
               else keyField;
      var v := if Unset(valueField) && data[0].Record?
               then (if |keys| > 1 then Some(keys[1]) else if keys != [] then Some(keys[0]) else None)
               else valueField;
      if Unset(k) || Unset(v) then None else Some((k.value, v.value))
  }

  /**
   * The inferred fields: the explicit ones when given, otherwise row 0's first
   * key for the key and its second (or only) key for the value; nothing when
   * the rows are empty or row 0 offers no usable key.
   */
  lemma InferFieldsFacts(data: seq<Item>, keyField: Option<string>, valueField: Option<string>)
    ensures var r := InferFields(data, keyField, valueField);
      && (data == [] ==> r.None?)
      && (r.Some? ==> r.value.0 != "" && r.value.1 != "")
      && (r.Some? && !Unset(keyField) ==> r.value.0 == keyField.value)
      && (r.Some? && !Unset(valueField) ==> r.value.1 == valueField.value)
      && (r.Some? && Unset(keyField) ==>
            data[0].Record? && |data[0].row| >= 1 && r.value.0 == data[0].row[0].0)
      && (r.Some? && Unset(valueField) ==>
            data[0].Record? && |data[0].row| >= 1 &&
            r.value.1 == (if |data[0].row| > 1 then data[0].row[1].0 else data[0].row[0].0))
      && (data != [] && data[0].Record? && data[0].row == [] ==>
            (r.None? <==> Unset(keyField) || Unset(valueField)))
      && (data != [] && data[0].Record? && |data[0].row| >= 1 && Unset(keyField) && Unset(valueField) ==>
            (r.Some? <==> data[0].row[0].0 != "" && (|data[0].row| == 1 || data[0].row[1].0 != "")))
  {
  }

  /** A category label: `str(item.get(key, ""))`, cut to 10 characters for the bar chart. */
  function LabelOf(row: Row, key: string, truncate: bool, lib: Lib): string {
    var s := Str(Get(row, key).GetOr(TextV("")), lib);
    if truncate then Take(s, 10) else s
  }

  /** A charted amount: `float(item.get(value, 0))`, or 0 when the conversion fails. */
  function AmountOf(row: Row, value: string, lib: Lib): real {
    ToFloat(Get(row, value).GetOr(IntV(0)), lib)
  }

  function Labels(rows: seq<Row>, key: string, truncate: bool, lib: Lib): (ls: seq<string>)
    ensures |ls| == |rows|
  {
    seq(|rows|, j requires 0 <= j < |rows| => LabelOf(rows[j], key, truncate, lib))
  }

  function Amounts(rows: seq<Row>, value: string, lib: Lib): (vs: seq<real>)
    ensures |vs| == |rows|
  {
    seq(|rows|, j requires 0 <= j < |rows| => AmountOf(rows[j], value, lib))
  }

  /** One more mapping adds its label at the end. */
  lemma LabelsSnoc(rows: seq<Row>, row: Row, key: string, truncate: bool, lib: Lib)
    ensures Labels(rows + [row], key, truncate, lib) == Labels(rows, key, truncate, lib) + [LabelOf(row, key, truncate, lib)]
  {
  }

  /** One more mapping adds its amount at the end. */
  lemma AmountsSnoc(rows: seq<Row>, row: Row, value: string, lib: Lib)
    ensures Amounts(rows + [row], value, lib) == Amounts(rows, value, lib) + [AmountOf(row, value, lib)]
  {
  }

  /**
   * The loop both charts run over `data[:cap]`: one label and one amount per
   * mapping, in order, non-mappings skipped.
   */
  method CollectSeries(data: seq<Item>, cap: nat, key: string, value: string, truncate: bool, lib: Lib)
    returns (labels: seq<string>, values: seq<real>)
    ensures labels == Labels(Records(Prefix(data, cap)), key, truncate, lib)
    ensures values == Amounts(Records(Prefix(data, cap)), value, lib)
  {
    labels, values := [], [];
    var n := if |data| <= cap then |data| else cap;
    for i := 0 to n
      invariant labels == Labels(Records(data[..i]), key, truncate, lib)
      invariant values == Amounts(Records(data[..i]), value, lib)
    {
      ghost var before := Records(data[..i]);
      assert data[..i + 1][..i] == data[..i];
      if data[i].Record? {
        assert Records(data[..i + 1]) == before + [data[i].row];
        LabelsSnoc(before, data[i].row, key, truncate, lib);
        AmountsSnoc(before, data[i].row, value, lib);
        labels := labels + [LabelOf(data[i].row, key, truncate, lib)];
        values := values + [AmountOf(data[i].row, value, lib)];
      } else {
        assert Records(data[..i + 1]) == before + [];
        assert before + [] == before;
      }
    }
    assert data[..n] == Prefix(data, cap);
  }

  function Sum(vs: seq<real>): real {
    if vs == [] then 0.0 else Sum(vs[..|vs| - 1]) + vs[|vs| - 1]
  }

  /** `_create_bar_chart`: what it draws and the cursor it returns. */
  function BarLayout(data: seq<Item>, x: real, y: real, w: real, h: real, title: string,
                     keyField: Option<string>, valueField: Option<string>, lib: Lib): Layout
  {
    match InferFields(data, keyField, valueField)
    case None => Layout([], y)
    case Some((k, v)) =>
      var rows := Records(Prefix(data, 10));
      if rows == [] then Layout([], y)
      else Layout([Put(Chart(BarKind, x, y - h, w, h, title, Labels(rows, k, true, lib), Amounts(rows, v, lib)))],
                  y - h - 20.0)
  }

  /** `_create_pie_chart`: what it draws and the cursor it returns. */
  function PieLayout(data: seq<Item>, x: real, y: real, w: real, h: real, title: string,
                     keyField: Option<string>, valueField: Option<string>, lib: Lib): Layout
  {
    match InferFields(data, keyField, valueField)
    case None => Layout([], y)
    case Some((k, v)) =>
      var rows := Records(Prefix(data, 8));
      var amounts := Amounts(rows, v, lib);
      if rows == [] || Sum(amounts) == 0.0 then Layout([], y)
      else Layout([Put(Chart(PieKind, x, y - h, w, h, title, Labels(rows, k, false, lib), amounts))],
                  y - h - 20.0)
  }

  /**
   * A bar chart either leaves the cursor alone and draws nothing, or draws
   * one chart of at most 10 bars, with labels of at most 10 characters, one
   * per mapping among the first 10 rows, and moves the cursor by exactly
   * height + 20.
   */
  lemma BarLayoutFacts(data: seq<Item>, x: real, y: real, w: real, h: real, title: string,
                       keyField: Option<string>, valueField: Option<string>, lib: Lib)
    ensures var l := BarLayout(data, x, y, w, h, title, keyField, valueField, lib);
      || (l.events == [] && l.y == y)
      || (&& |l.events| == 1 && l.events[0].Put? && l.y == y - h - 20.0
          && var op := l.events[0].op;
          && op.Chart? && op.kind == BarKind && op.y == y - h
          && |op.labels| == |op.values| == |Records(Prefix(data, 10))| <= 10
          && (forall j :: 0 <= j < |op.labels| ==> |op.labels[j]| <= 10))
    ensures var l := BarLayout(data, x, y, w, h, title, keyField, valueField, lib);
      l.events != [] <==> InferFields(data, keyField, valueField).Some? && Records(Prefix(data, 10)) != []
  {
  }

  /**
   * A pie chart either leaves the cursor alone and draws nothing, or draws
   * one chart of at most 8 slices whose amounts do not sum to zero, and moves
   * the cursor by exactly height + 20.
   */
  lemma PieLayoutFacts(data: seq<Item>, x: real, y: real, w: real, h: real, title: string,
                       keyField: Option<string>, valueField: Option<string>, lib: Lib)
    ensures var l := PieLayout(data, x, y, w, h, title, keyField, valueField, lib);
      || (l.events == [] && l.y == y)
      || (&& |l.events| == 1 && l.events[0].Put? && l.y == y - h - 20.0
          && var op := l.events[0].op;
          && op.Chart? && op.kind == PieKind && op.y == y - h
          && |op.labels| == |op.values| == |Records(Prefix(data, 8))| <= 8
          && Sum(op.values) != 0.0)
    ensures var l := PieLayout(data, x, y, w, h, title, keyField, valueField, lib);
      var f := InferFields(data, keyField, valueField);
      l.events != [] <==> f.Some? && Sum(Amounts(Records(Prefix(data, 8)), f.value.1, lib)) != 0.0
  {
    var f := InferFields(data, keyField, valueField);
    if f.Some? {
      var rows := Records(Prefix(data, 8));
      if rows == [] {
        assert Amounts(rows, f.value.1, lib) == [];
      }
    }
  }

  /**
   * What one mapping contributes to a chart: the label is `str` of the value
   * under the key ("" when the key is missing), cut to 10 characters for the
   * bar chart; the amount is the value under the value field as a float, and
   * 0 when that field is missing, null, or text that `float` rejects.
   */
  ghost predicate Charted(row: Row, key: string, value: string, truncate: bool, shown: string, amount: real, lib: Lib) {
    && (Get(row, key).None? ==> shown == "")
    && (Get(row, key).Some? ==>
          var s := Str(Get(row, key).value, lib);
          if truncate then |shown| == (if |s| <= 10 then |s| else 10) && shown == s[..|shown|]
          else shown == s)
    && match Get(row, value)
       case None => amount == 0.0
       case Some(NullV) => amount == 0.0
       case Some(IntV(i)) => amount == i as real
       case Some(FloatV(f)) => amount == f
       case Some(BoolV(b)) => amount == (if b then 1.0 else 0.0)
       case Some(TextV(t)) => amount == (if lib.parseFloat(t).Some? then lib.parseFloat(t).value else 0.0)
  }

  /** Each mapping's label and amount, as the chart loops compute them. */
  lemma SeriesCharted(rows: seq<Row>, key: string, value: string, truncate: bool, lib: Lib)
    ensures forall j :: 0 <= j < |rows| ==>
      Charted(rows[j], key, value, truncate, Labels(rows, key, truncate, lib)[j], Amounts(rows, value, lib)[j], lib)
  {
    forall j | 0 <= j < |rows|
      ensures Charted(rows[j], key, value, truncate, Labels(rows, key, truncate, lib)[j], Amounts(rows, value, lib)[j], lib)
    {
      assert Labels(rows, key, truncate, lib)[j] == LabelOf(rows[j], key, truncate, lib);
      assert Amounts(rows, value, lib)[j] == AmountOf(rows[j], value, lib);
    }
  }

  /**
   * The bar chart's contents: bar j is the j-th mapping among the first 10
   * rows, labelled with its key's value cut to 10 characters, of the height
   * its value field converts to (0 when missing, null or not a number).
   */
  lemma BarContent(data: seq<Item>, x: real, y: real, w: real, h: real, title: string,
                   keyField: Option<string>, valueField: Option<string>, lib: Lib)
    ensures var l := BarLayout(data, x, y, w, h, title, keyField, valueField, lib);
      l.events != [] ==>
        && InferFields(data, keyField, valueField).Some?
        && l.events[0].Put? && l.events[0].op.Chart?
        && var op := l.events[0].op;
           var f := InferFields(data, keyField, valueField).value;
           var rows := Records(Prefix(data, 10));
           && op.title == title && op.x == x && op.w == w && op.h == h
           && |op.labels| == |rows| && |op.values| == |rows|
           && forall j :: 0 <= j < |rows| ==> Charted(rows[j], f.0, f.1, true, op.labels[j], op.values[j], lib)
  {
    var f := InferFields(data, keyField, valueField);
    if f.Some? {
      SeriesCharted(Records(Prefix(data, 10)), f.value.0, f.value.1, true, lib);
    }
  }

  /**
   * The pie chart's contents: slice j is the j-th mapping among the first 8
   * rows, labelled with its key's value in full, of the size its value field
   * converts to (0 when missing, null or not a number).
   */
  lemma PieContent(data: seq<Item>, x: real, y: real, w: real, h: real, title: string,
                   keyField: Option<string>, valueField: Option<string>, lib: Lib)
    ensures var l := PieLayout(data, x, y, w, h, title, keyField, valueField, lib);
      l.events != [] ==>
        && InferFields(data, keyField, valueField).Some?
        && l.events[0].Put? && l.events[0].op.Chart?
        && var op := l.events[0].op;
           var f := InferFields(data, keyField, valueField).value;
           var rows := Records(Prefix(data, 8));
           && op.title == title && op.x == x && op.w == w && op.h == h
           && |op.labels| == |rows| && |op.values| == |rows|
           && forall j :: 0 <= j < |rows| ==> Charted(rows[j], f.0, f.1, false, op.labels[j], op.values[j], lib)
  {
    var f := InferFields(data, keyField, valueField);
    if f.Some? {
      SeriesCharted(Records(Prefix(data, 8)), f.value.0, f.value.1, false, lib);
    }
  }

  method DrawBarChart(c: Canvas, data: seq<Item>, x: real, y: real, w: real, h: real, title: string,
                      keyField: Option<string>, valueField: Option<string>, lib: Lib)
    returns (y': real)
    modifies c
    ensures c.log == old(c.log) + BarLayout(data, x, y, w, h, title, keyField, valueField, lib).events
    ensures y' == BarLayout(data, x, y, w, h, title, keyField, valueField, lib).y
  {
    var fields := InferFields(data, keyField, valueField);
    if fields.None? {
      return y;
    }
    var (k, v) := fields.value;
    var labels, values := CollectSeries(data, 10, k, v, true, lib);
    if values == [] {
      return y;
    }
    c.Draw(Chart(BarKind, x, y - h, w, h, title, labels, values));
    y' := y - h - 20.0;
  }

  method DrawPieChart(c: Canvas, data: seq<Item>, x: real, y: real, w: real, h: real, title: string,
                      keyField: Option<string>, valueField: Option<string>, lib: Lib)
    returns (y': real)
    modifies c
    ensures c.log == old(c.log) + PieLayout(data, x, y, w, h, title, keyField, valueField, lib).events
    ensures y' == PieLayout(data, x, y, w, h, title, keyField, valueField, lib).y
  {
    var fields := InferFields(data, keyField, valueField);
    if fields.None? {
      return y;
    }
    var (k, v) := fields.value;
    var labels, values := CollectSeries(data, 8, k, v, false, lib);
    if values == [] || Sum(values) == 0.0 {
      return y;
    }
    c.Draw(Chart(PieKind, x, y - h, w, h, title, labels, values));
    y' := y - h - 20.0;
  }

  /** The chart-type setting: "Auto", "Bar", "Pie", "Both" or "None" (here `NoCharts`). */
  datatype ChartPolicy = Auto | Bar | Pie | Both | NoCharts {
    predicate AllowsBar() { this == Auto || this == Bar || this == Both }
    predicate AllowsPie() { this == Auto || this == Pie || this == Both }
  }

  /** `isinstance(row.get(key), (int, float))`. */
  predicate NumericAt(row: Row, key: string) {
    Get(row, key).Some? && IsNumeric(Get(row, key).value)
  }

  /** The first of the keys whose value in row is numeric. */
  function FirstNumericKey(row: Row, keys: seq<string>): Option<string> {
    if keys == [] then None
    else if NumericAt(row, keys[0]) then Some(keys[0])
    else FirstNumericKey(row, keys[1..])
  }

  /** The charted field is numeric in row 0, and no earlier key is; None exactly when no key is numeric. */
  lemma {:induction false} FirstNumericKeyFacts(row: Row, keys: seq<string>)
    ensures var r := FirstNumericKey(row, keys);
      && (r.None? <==> forall i :: 0 <= i < |keys| ==> !NumericAt(row, keys[i]))
      && (r.Some? ==> exists i :: 0 <= i < |keys| && keys[i] == r.value && NumericAt(row, keys[i])
                         && forall j :: 0 <= j < i ==> !NumericAt(row, keys[j]))
  {
    if keys != [] && !NumericAt(row, keys[0]) {
      FirstNumericKeyFacts(row, keys[1..]);
      var r := FirstNumericKey(row, keys[1..]);
      assert forall i :: 1 <= i < |keys| ==> keys[i] == keys[1..][i - 1];
      if r.Some? {
        var i :| 0 <= i < |keys[1..]| && keys[1..][i] == r.value && NumericAt(row, keys[1..][i])
                  && forall j :: 0 <= j < i ==> !NumericAt(row, keys[1..][j]);
        assert keys[i + 1] == r.value && forall j :: 0 <= j < i + 1 ==> !NumericAt(row, keys[j]);
      }
    }
  }

  const ChartHeight: real := 200.0

  /** The field the composer charts: the first numeric key of row 0 (None when there is none). */
  function ChartField(rows: seq<Item>): Option<string> {
    if rows == [] || !rows[0].Record? then None
    else FirstNumericKey(rows[0].row, Keys(rows[0].row))
  }

  const BarTitle := "Data Distribution"
  const PieTitle := "Top Items Distribution"

  /** The bar chart the composer asks for: only under Auto, Bar or Both, and only with at most 15 rows. */
  function BarStep(rows: seq<Item>, policy: ChartPolicy, x: real, y: real, field: Option<string>, lib: Lib): Layout {
    if policy.AllowsBar() && |rows| <= 15
    then BarLayout(rows, x, y, PageWidth - 2.0 * x, ChartHeight, BarTitle, None, field, lib)
    else Layout([], y)
  }

  /** The pie chart the composer asks for: only under Auto, Pie or Both, only with at least 3 rows, and from the first 8. */
  function PieStep(rows: seq<Item>, policy: ChartPolicy, x: real, y: real, field: Option<string>, lib: Lib): Layout {
    if policy.AllowsPie() && |rows| >= 3
    then PieLayout(Prefix(rows, 8), x, y, PageWidth - 2.0 * x, ChartHeight, PieTitle, None, field, lib)
    else Layout([], y)
  }

  /** The composer's chart step: policy, row-count thresholds, then the two renderers in turn. */
  function ChartsLayout(data: Option<seq<Item>>, policy: ChartPolicy, x: real, y: real, lib: Lib): Layout {
    if policy == NoCharts || data.None? then Layout([], y)
    else
      var rows := data.value;
      var field := ChartField(rows);
      if field.None? || field.value == "" then Layout([], y)
      else
        var bar := BarStep(rows, policy, x, y, field, lib);
        var pie := PieStep(rows, policy, x, bar.y, field, lib);
        Layout(bar.events + pie.events, pie.y)
  }

  method DrawCharts(c: Canvas, data: Option<seq<Item>>, policy: ChartPolicy, x: real, y: real, lib: Lib)
    returns (y': real)
    modifies c
    ensures c.log == old(c.log) + ChartsLayout(data, policy, x, y, lib).events
    ensures y' == ChartsLayout(data, policy, x, y, lib).y
  {
    y' := y;
    if policy == NoCharts || data.None? {
      return;
    }
    var rows := data.value;
    var field := ChartField(rows);
    if field.None? || field.value == "" {
      return;
    }
    var w := PageWidth - 2.0 * x;
    ghost var log0 := c.log;
    ghost var bar := BarStep(rows, policy, x, y, field, lib);
    if policy.AllowsBar() && |rows| <= 15 {
      y' := DrawBarChart(c, rows, x, y', w, ChartHeight, BarTitle, None, field, lib);
    }
    assert c.log == log0 + bar.events && y' == bar.y;
    ghost var log1 := c.log;
    ghost var pie := PieStep(rows, policy, x, bar.y, field, lib);
    if policy.AllowsPie() && |rows| >= 3 {
      y' := DrawPieChart(c, Prefix(rows, 8), x, y', w, ChartHeight, PieTitle, None, field, lib);
    }
    assert c.log == log1 + pie.events && y' == pie.y;
    assert ChartsLayout(data, policy, x, y, lib) == Layout(bar.events + pie.events, pie.y);
    AppendAssoc(log0, bar.events, pie.events);
  }

  /** One step of the chart section: nothing drawn and the cursor kept, or one chart of the given kind and the cursor 220 lower. */
  ghost predicate OneChartOrNone(l: Layout, y: real, kind: ChartKind) {
    || (l.events == [] && l.y == y)
    || (&& |l.events| == 1 && l.events[0].Put? && l.events[0].op.Chart?
        && l.events[0].op.kind == kind && l.y == y - 220.0)
  }

  /** The bar step draws at most one bar chart, and only when the policy and the row count allow it. */
  lemma BarStepFacts(rows: seq<Item>, policy: ChartPolicy, x: real, y: real, field: Option<string>, lib: Lib)
    ensures var bar := BarStep(rows, policy, x, y, field, lib);
      && OneChartOrNone(bar, y, BarKind)
      && (bar.events != [] ==> policy.AllowsBar() && |rows| <= 15)
  {
    BarLayoutFacts(rows, x, y, PageWidth - 2.0 * x, ChartHeight, BarTitle, None, field, lib);
  }

  /** The pie step draws at most one pie chart, and only when the policy and the row count allow it. */
  lemma PieStepFacts(rows: seq<Item>, policy: ChartPolicy, x: real, y: real, field: Option<string>, lib: Lib)
    ensures var pie := PieStep(rows, policy, x, y, field, lib);
      && OneChartOrNone(pie, y, PieKind)
      && (pie.events != [] ==> policy.AllowsPie() && |rows| >= 3)
  {
    PieLayoutFacts(Prefix(rows, 8), x, y, PageWidth - 2.0 * x, ChartHeight, PieTitle, None, field, lib);
  }

  /** A bar step followed by a pie step: at most two charts, each costing 220, the bar first and the pie last. */
  lemma BarThenPie(bar: Layout, pie: Layout, y: real)
    requires OneChartOrNone(bar, y, BarKind) && OneChartOrNone(pie, bar.y, PieKind)
    ensures var evs := bar.events + pie.events;
      && |evs| <= 2
      && pie.y == y - 220.0 * |evs| as real
      && (forall i :: 0 <= i < |evs| ==> evs[i].Put? && evs[i].op.Chart?)
      && (forall i :: 0 <= i < |evs| && evs[i].op.kind == BarKind ==> i == 0 && bar.events != [])
      && (forall i :: 0 <= i < |evs| && evs[i].op.kind == PieKind ==> i == |evs| - 1 && pie.events != [])
  {
  }

  /** Policy None, no rows, or no numeric field in row 0 draw no chart and keep the cursor. */
  lemma ChartsNone(data: Option<seq<Item>>, policy: ChartPolicy, x: real, y: real, lib: Lib)
    requires policy == NoCharts || data.None? || data.value == [] || ChartField(data.value).None?
    ensures ChartsLayout(data, policy, x, y, lib) == Layout([], y)
  {
  }

  /** Which charts appear: a bar only under Auto, Bar or Both with at most 15 rows, a pie only under Auto, Pie or Both with at least 3. */
  lemma ChartsPolicy(data: Option<seq<Item>>, policy: ChartPolicy, x: real, y: real, lib: Lib)
    ensures var l := ChartsLayout(data, policy, x, y, lib);
      && |l.events| <= 2
      && l.y == y - 220.0 * |l.events| as real
      && (forall i :: 0 <= i < |l.events| ==> l.events[i].Put? && l.events[i].op.Chart?)
      && (forall i :: 0 <= i < |l.events| && l.events[i].op.kind == BarKind ==>
            i == 0 && policy.AllowsBar() && |data.value| <= 15)
      && (forall i :: 0 <= i < |l.events| && l.events[i].op.kind == PieKind ==>
            i == |l.events| - 1 && policy.AllowsPie() && |data.value| >= 3)
  {
    if policy != NoCharts && data.Some? {
      var rows := data.value;
      var field := ChartField(rows);
      if field.Some? && field.value != "" {
        var bar := BarStep(rows, policy, x, y, field, lib);
        var pie := PieStep(rows, policy, x, bar.y, field, lib);
        BarStepFacts(rows, policy, x, y, field, lib);
        PieStepFacts(rows, policy, x, bar.y, field, lib);
        BarThenPie(bar, pie, y);
      }
    }
  }

  /** With fewer than 3 rows no pie chart is drawn under any setting. */
  lemma FewRowsNoPie(rows: seq<Item>, policy: ChartPolicy, x: real, y: real, lib: Lib)
    requires |rows| < 3
    ensures forall e :: e in ChartsLayout(Some(rows), policy, x, y, lib).events ==> e.Put? && e.op.kind == BarKind
  {
    ChartsPolicy(Some(rows), policy, x, y, lib);
  }

  /** The pie step reads only the first 8 rows, and the rest only for the row count. */
  lemma PieReadsFirstEight(rows: seq<Item>, rows': seq<Item>, policy: ChartPolicy, x: real, y: real,
                           field: Option<string>, lib: Lib)
    requires Prefix(rows, 8) == Prefix(rows', 8)
    requires |rows| >= 3 <==> |rows'| >= 3
    ensures PieStep(rows, policy, x, y, field, lib) == PieStep(rows', policy, x, y, field, lib)
  {
  }

  /**
   * Under the Pie setting the whole chart section depends only on the first 8
   * rows and on whether there are at least 3: the charted field comes from
   * row 0, which is among them.
   */
  lemma PieSettingReadsFirstEight(rows: seq<Item>, rows': seq<Item>, x: real, y: real, lib: Lib)
    requires Prefix(rows, 8) == Prefix(rows', 8)
    requires |rows| >= 3 <==> |rows'| >= 3
    ensures ChartsLayout(Some(rows), Pie, x, y, lib) == ChartsLayout(Some(rows'), Pie, x, y, lib)
  {
    if rows != [] {
      assert rows[0] == Prefix(rows, 8)[0] == Prefix(rows', 8)[0] == rows'[0];
    } else {
      assert rows' == [] by { assert |Prefix(rows', 8)| == 0; }
    }
    assert ChartField(rows) == ChartField(rows');
  }

  /**
   * The bar step draws when the policy allows a bar, there are 1 to 15 rows,
   * and row 0 is a mapping with a numeric field and a non-empty first key:
   * one bar chart 200 below y, the cursor 220 below.
   */
  lemma BarStepDraws(rows: seq<Item>, policy: ChartPolicy, x: real, y: real, lib: Lib)
    requires policy.AllowsBar()
    requires 1 <= |rows| <= 15 && rows[0].Record? && |rows[0].row| >= 1 && rows[0].row[0].0 != ""
    requires ChartField(rows).Some? && ChartField(rows).value != ""
    ensures var bar := BarStep(rows, policy, x, y, ChartField(rows), lib);
      && |bar.events| == 1 && bar.y == y - 220.0
      && bar.events[0].Put? && bar.events[0].op.Chart? && bar.events[0].op.kind == BarKind
      && bar.events[0].op.y == y - 200.0
  {
    var field := ChartField(rows);
    InferFieldsFacts(rows, None, field);
    assert Prefix(rows, 10)[0] == rows[0];
    RecordsMembership(Prefix(rows, 10));
    assert Records(Prefix(rows, 10)) != [] by {
      assert Record(rows[0].row) in Prefix(rows, 10);
    }
  }

  /**
   * The pie step draws when the policy allows a pie, there are at least 3
   * rows, row 0 is a mapping with a numeric field and a non-empty first key,
   * and the first 8 rows' amounts do not sum to zero: one pie chart 200 below
   * y, the cursor 220 below.
   */
  lemma PieStepDraws(rows: seq<Item>, policy: ChartPolicy, x: real, y: real, lib: Lib)
    requires policy.AllowsPie()
    requires |rows| >= 3 && rows[0].Record? && |rows[0].row| >= 1 && rows[0].row[0].0 != ""
    requires ChartField(rows).Some? && ChartField(rows).value != ""
    requires Sum(Amounts(Records(Prefix(rows, 8)), ChartField(rows).value, lib)) != 0.0
    ensures var pie := PieStep(rows, policy, x, y, ChartField(rows), lib);
      && |pie.events| == 1 && pie.y == y - 220.0
      && pie.events[0].Put? && pie.events[0].op.Chart? && pie.events[0].op.kind == PieKind
      && pie.events[0].op.y == y - 200.0
  {
    var field := ChartField(rows);
    var first := Prefix(rows, 8);
    assert first[0] == rows[0];
    assert Prefix(first, 8) == first;
    InferFieldsFacts(first, None, field);
    PieLayoutFacts(first, x, y, PageWidth - 2.0 * x, ChartHeight, PieTitle, None, field, lib);
  }

  /**
   * With the Bar setting, at most 15 rows whose first row is a mapping with a
   * numeric field and a non-empty first key, exactly one chart is drawn: a
   * bar chart of that numeric field.
   */
  lemma BarSettingDrawsOneBar(rows: seq<Item>, x: real, y: real, lib: Lib)
    requires 1 <= |rows| <= 15 && rows[0].Record? && |rows[0].row| >= 1 && rows[0].row[0].0 != ""
    requires ChartField(rows).Some? && ChartField(rows).value != ""
    ensures var l := ChartsLayout(Some(rows), Bar, x, y, lib);
      && |l.events| == 1 && l.y == y - 220.0
      && l.events[0].Put? && l.events[0].op.Chart? && l.events[0].op.kind == BarKind
      && l.events[0].op.y == y - 200.0
  {
    BarStepDraws(rows, Bar, x, y, lib);
  }

  /**
   * With the Pie setting, at least 3 rows whose first row is a mapping with a
   * numeric field and a non-empty first key, and amounts among the first 8
   * rows that do not sum to zero, exactly one chart is drawn: a pie chart.
   */
  lemma PieSettingDrawsOnePie(rows: seq<Item>, x: real, y: real, lib: Lib)
    requires |rows| >= 3 && rows[0].Record? && |rows[0].row| >= 1 && rows[0].row[0].0 != ""
    requires ChartField(rows).Some? && ChartField(rows).value != ""
    requires Sum(Amounts(Records(Prefix(rows, 8)), ChartField(rows).value, lib)) != 0.0
    ensures var l := ChartsLayout(Some(rows), Pie, x, y, lib);
      && |l.events| == 1 && l.y == y - 220.0
      && l.events[0].Put? && l.events[0].op.Chart? && l.events[0].op.kind == PieKind
      && l.events[0].op.y == y - 200.0
  {
    PieStepDraws(rows, Pie, x, y, lib);
  }

  /**
   * Under Auto or Both, with 3 to 15 rows whose first row is a mapping with a
   * numeric field and a non-empty first key, and amounts among the first 8
   * rows that do not sum to zero, both charts are drawn: the bar chart 200
   * below y, then the pie 420 below y, and the cursor ends 440 below y.
   */
  lemma BothChartsDrawn(rows: seq<Item>, policy: ChartPolicy, x: real, y: real, lib: Lib)
    requires policy == Auto || policy == Both
    requires 3 <= |rows| <= 15 && rows[0].Record? && |rows[0].row| >= 1 && rows[0].row[0].0 != ""
    requires ChartField(rows).Some? && ChartField(rows).value != ""
    requires Sum(Amounts(Records(Prefix(rows, 8)), ChartField(rows).value, lib)) != 0.0
    ensures var l := ChartsLayout(Some(rows), policy, x, y, lib);
      && |l.events| == 2 && l.y == y - 440.0
      && l.events[0].Put? && l.events[0].op.Chart? && l.events[0].op.kind == BarKind
      && l.events[0].op.y == y - 200.0
      && l.events[1].Put? && l.events[1].op.Chart? && l.events[1].op.kind == PieKind
      && l.events[1].op.y == y - 420.0
  {
    BarStepDraws(rows, policy, x, y, lib);
    PieStepDraws(rows, policy, x, y - 220.0, lib);
  }
}
