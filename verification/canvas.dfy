/**
 * The drawing surface. Drawing calls are recorded as abstract operations on
 * the current page; `ShowPage` closes the current page and opens an empty one.
 * Units are PDF points (1/72 inch); y is measured upward from the page bottom.
 */
module Pdf {

  /** One centimetre in points, exactly. */
  const Cm: real := 72.0 / 2.54
  /** A4 portrait. */
  const PageWidth: real := 21.0 * Cm
  const PageHeight: real := 29.7 * Cm
  /** Where every section puts the cursor after a page break. */
  const Top: real := 27.0 * Cm

  datatype ChartKind = BarKind | PieKind

  /** A drawing call; colours, fonts and line widths are not recorded. */
  datatype Op =
    | Text(x: real, y: real, s: string)
    | Box(x: real, y: real, w: real, h: real)
    | Dot(x: real, y: real, r: real)
    | Stroke(x1: real, y1: real, x2: real, y2: real)
    | Chart(kind: ChartKind, x: real, y: real, w: real, h: real, title: string,
            labels: seq<string>, values: seq<real>)
    | Grid(x: real, y: real, colWidths: seq<real>, cells: seq<seq<string>>)

  /** What a renderer does to the surface: draw on the current page, or break to a new one. */
  datatype Event = Put(op: Op) | Break

  type Page = seq<Op>

  /** What a section renderer does: the events it appends, and the cursor it returns. */
  datatype Layout = Layout(events: seq<Event>, y: real)

  /** The pages a sequence of events produces, starting from one empty page. */
  function Pages(log: seq<Event>): (p: seq<Page>)
    ensures |p| >= 1
  {
    if log == [] then [[]]
    else
      var prev := Pages(log[..|log| - 1]);
      match log[|log| - 1]
      case Break => prev + [[]]
      case Put(op) => prev[..|prev| - 1] + [prev[|prev| - 1] + [op]]
  }

  /** The number of page breaks in a log. */
  function Breaks(log: seq<Event>): nat {
    if log == [] then 0 else Breaks(log[..|log| - 1]) + (if log[|log| - 1].Break? then 1 else 0)
  }

  lemma {:induction false} BreaksAppend(a: seq<Event>, b: seq<Event>)
    ensures Breaks(a + b) == Breaks(a) + Breaks(b)
  {
    if b == [] {
      assert a + b == a;
    } else {
      assert (a + b)[..|a + b| - 1] == a + b[..|b| - 1];
      BreaksAppend(a, b[..|b| - 1]);
    }
  }


  /** The drawing operations of a log, in order, page breaks dropped. */
  function Ops(log: seq<Event>): seq<Op> {
    if log == [] then [] else Ops(log[..|log| - 1]) + (if log[|log| - 1].Put? then [log[|log| - 1].op] else [])
  }

  function Puts(ops: seq<Op>): (evs: seq<Event>)
    ensures |evs| == |ops|
    ensures forall i :: 0 <= i < |ops| ==> evs[i] == Put(ops[i])
  {
    seq(|ops|, i requires 0 <= i < |ops| => Put(ops[i]))
  }

  /** The parts one after the other: the pages of a document, or the events of the items of a section. */
  function Flatten<T>(parts: seq<seq<T>>): seq<T> {
    if parts == [] then [] else Flatten(parts[..|parts| - 1]) + parts[|parts| - 1]
  }

  lemma {:induction false} OpsAppend(a: seq<Event>, b: seq<Event>)
    ensures Ops(a + b) == Ops(a) + Ops(b)
  {
    if b == [] {
      assert a + b == a;
    } else {
      assert (a + b)[..|a + b| - 1] == a + b[..|b| - 1];
      OpsAppend(a, b[..|b| - 1]);
    }
  }

  lemma {:induction false} PutsHaveNoBreaks(ops: seq<Op>)
    ensures Breaks(Puts(ops)) == 0
  {
    if ops != [] {
      assert Puts(ops)[..|ops| - 1] == Puts(ops[..|ops| - 1]);
      PutsHaveNoBreaks(ops[..|ops| - 1]);
    }
  }

  /** Recording drawing calls and reading the operations back gives the calls. */
  lemma {:induction false} PutsOps(ops: seq<Op>)
    ensures Ops(Puts(ops)) == ops
  {
    if ops != [] {
      assert Puts(ops)[..|ops| - 1] == Puts(ops[..|ops| - 1]);
      PutsOps(ops[..|ops| - 1]);
    }
  }

  /** A log of drawing calls only breaks no page. */
  lemma {:induction false} OnlyPutsNoBreaks(log: seq<Event>)
    requires forall i :: 0 <= i < |log| ==> log[i].Put?
    ensures Breaks(log) == 0
  {
    if log != [] {
      OnlyPutsNoBreaks(log[..|log| - 1]);
    }
  }

  /** Every page break opens exactly one new page. */
  lemma {:induction false} PageCount(log: seq<Event>)
    ensures |Pages(log)| == Breaks(log) + 1
  {
    if log != [] {
      PageCount(log[..|log| - 1]);
    }
  }

  /** Paging neither drops nor reorders nor repeats a drawing operation. */
  lemma {:induction false} PagesKeepOps(log: seq<Event>)
    ensures Flatten(Pages(log)) == Ops(log)
  {
    if log != [] {
      var prev := Pages(log[..|log| - 1]);
      PagesKeepOps(log[..|log| - 1]);
      match log[|log| - 1]
      case Break =>
        FlattenNewPage(prev);
      case Put(op) =>
        FlattenPutOn(prev, op);
    }
  }

  /** Opening a new, empty page adds no operation. */
  lemma FlattenNewPage(p: seq<Page>)
    ensures Flatten(p + [[]]) == Flatten(p)
  {
    assert (p + [[]])[..|p|] == p;
  }

  /** Drawing on the last page adds the operation at the end. */
  lemma FlattenPutOn(p: seq<Page>, op: Op)
    requires |p| >= 1
    ensures Flatten(p[..|p| - 1] + [p[|p| - 1] + [op]]) == Flatten(p) + [op]
  {
    var n := |p|;
    var q := p[..n - 1] + [p[n - 1] + [op]];
    assert q[..n - 1] == p[..n - 1];
    assert Flatten(q) == Flatten(p[..n - 1]) + (p[n - 1] + [op]);
    assert Flatten(p) == Flatten(p[..n - 1]) + p[n - 1];
  }

  /** The pages after drawing op on the current page. */
  function PutOn(p: seq<Page>, op: Op): (q: seq<Page>)
    requires |p| >= 1
    ensures |q| == |p|
  {
    p[..|p| - 1] + [p[|p| - 1] + [op]]
  }

  /** Pages of one log followed by pages of another, the seam page shared. */
  function Glue(pa: seq<Page>, pb: seq<Page>): seq<Page>
    requires |pa| >= 1 && |pb| >= 1
  {
    pa[..|pa| - 1] + [pa[|pa| - 1] + pb[0]] + pb[1..]
  }

  lemma GluePut(pa: seq<Page>, pb: seq<Page>, op: Op)
    requires |pa| >= 1 && |pb| >= 1
    ensures Glue(pa, PutOn(pb, op)) == PutOn(Glue(pa, pb), op)
  {
    var k, m := |pa| - 1, |pb|;
    var g := Glue(pa, pb);
    if m == 1 {
      assert PutOn(pb, op) == [pb[0] + [op]];
      assert g == pa[..k] + [pa[k] + pb[0]];
      assert pa[k] + pb[0] + [op] == pa[k] + (pb[0] + [op]);
    } else {
      var pb2 := PutOn(pb, op);
      assert pb2[0] == pb[0];
      assert pb2[1..] == pb[1..m - 1] + [pb[m - 1] + [op]];
      assert g[|g| - 1] == pb[m - 1];
      assert g[..|g| - 1] == pa[..k] + [pa[k] + pb[0]] + pb[1..m - 1];
    }
  }

  lemma GlueBreak(pa: seq<Page>, pb: seq<Page>)
    requires |pa| >= 1 && |pb| >= 1
    ensures Glue(pa, pb + [[]]) == Glue(pa, pb) + [[]]
  {
    assert (pb + [[]])[0] == pb[0];
    assert (pb + [[]])[1..] == pb[1..] + [[]];
  }

  lemma PagesSnoc(log: seq<Event>, e: Event)
    ensures Pages(log + [e]) == match e case Break => Pages(log) + [[]] case Put(op) => PutOn(Pages(log), op)
  {
    assert (log + [e])[..|log|] == log;
  }

  /**
   * Running two logs one after the other: the last page of the first is
   * continued by the first page of the second, and the rest follow.
   */
  lemma {:induction false} PagesAppend(a: seq<Event>, b: seq<Event>)
    ensures Pages(a + b) == Glue(Pages(a), Pages(b))
  {
    var pa := Pages(a);
    if b == [] {
      assert a + b == a;
      assert Pages(b) == [[]];
      assert pa[|pa| - 1] + [] == pa[|pa| - 1];
      assert Pages(b)[1..] == [];
      assert pa == pa[..|pa| - 1] + [pa[|pa| - 1]];
    } else {
      var b', e := b[..|b| - 1], b[|b| - 1];
      assert b == b' + [e];
      assert a + b == (a + b') + [e];
      PagesAppend(a, b');
      PagesSnoc(a + b', e);
      PagesSnoc(b', e);
      match e
      case Break => GlueBreak(pa, Pages(b'));
      case Put(op) => GluePut(pa, Pages(b'), op);
    }
  }

  /** A log without breaks only adds to the page it starts on. */
  lemma PagesAppendNoBreak(a: seq<Event>, b: seq<Event>)
    requires Breaks(b) == 0
    ensures var pa := Pages(a);
      Pages(a + b) == pa[..|pa| - 1] + [pa[|pa| - 1] + Ops(b)]
  {
    PagesAppend(a, b);
    PageCount(b);
    PagesKeepOps(b);
    var pb := Pages(b);
    assert Pages(a + b) == Glue(Pages(a), pb);
    assert pb == [pb[0]] && pb[1..] == [];
    assert pb[..0] == [];
    assert Flatten(pb) == Flatten(pb[..0]) + pb[0];
    assert pb[0] == Ops(b);
    var pa := Pages(a);
    assert Glue(pa, pb) == pa[..|pa| - 1] + [pa[|pa| - 1] + Ops(b)] + [];
  }

  /** The strings drawn at horizontal position tx, in order. */
  function TextsAt(evs: seq<Event>, tx: real): seq<string> {
    if evs == [] then []
    else
      var e := evs[|evs| - 1];
      TextsAt(evs[..|evs| - 1], tx) + (if e.Put? && e.op.Text? && e.op.x == tx then [e.op.s] else [])
  }

  lemma {:induction false} TextsAtAppend(a: seq<Event>, b: seq<Event>, tx: real)
    ensures TextsAt(a + b, tx) == TextsAt(a, tx) + TextsAt(b, tx)
  {
    if b == [] {
      assert a + b == a;
    } else {
      assert (a + b)[..|a + b| - 1] == a + b[..|b| - 1];
      TextsAtAppend(a, b[..|b| - 1], tx);
    }
  }

  /** Events without a text at tx contribute nothing to the column at tx. */
  lemma {:induction false} TextsAtNone(evs: seq<Event>, tx: real)
    requires forall k :: 0 <= k < |evs| ==> !(evs[k].Put? && evs[k].op.Text? && evs[k].op.x == tx)
    ensures TextsAt(evs, tx) == []
  {
    if evs != [] {
      TextsAtNone(evs[..|evs| - 1], tx);
    }
  }

  /** Flattening a prefix one part longer adds that part at the end. */
  lemma FlattenLast<T>(parts: seq<seq<T>>, i: nat)
    requires i < |parts|
    ensures Flatten(parts[..i + 1]) == Flatten(parts[..i]) + parts[i]
  {
    assert parts[..i + 1][..i] == parts[..i];
  }

  /** Parts that break the page at most once each break it at most once per part together. */
  lemma {:induction false} FlattenBreaks(parts: seq<seq<Event>>)
    requires forall k :: 0 <= k < |parts| ==> Breaks(parts[k]) <= 1
    ensures Breaks(Flatten(parts)) <= |parts|
  {
    if parts != [] {
      var n := |parts| - 1;
      FlattenBreaks(parts[..n]);
      BreaksAppend(Flatten(parts[..n]), parts[n]);
    }
  }

  /** The parts together break no page exactly when none of them does. */
  lemma {:induction false} FlattenNoBreaks(parts: seq<seq<Event>>)
    ensures Breaks(Flatten(parts)) == 0 <==> forall k :: 0 <= k < |parts| ==> Breaks(parts[k]) == 0
  {
    if parts != [] {
      var n := |parts| - 1;
      FlattenNoBreaks(parts[..n]);
      BreaksAppend(Flatten(parts[..n]), parts[n]);
    }
  }

  /** When only part j breaks the page, and breaks it once, the parts together break it once if part j is among them. */
  lemma {:induction false} FlattenOneBreak(parts: seq<seq<Event>>, j: int)
    requires forall k :: 0 <= k < |parts| ==> Breaks(parts[k]) == (if k == j then 1 else 0)
    ensures Breaks(Flatten(parts)) == (if 0 <= j < |parts| then 1 else 0)
  {
    if parts != [] {
      var n := |parts| - 1;
      FlattenOneBreak(parts[..n], j);
      BreaksAppend(Flatten(parts[..n]), parts[n]);
    }
  }

  /** Whatever one part holds, the parts together hold. */
  lemma {:induction false} FlattenHas<T>(parts: seq<seq<T>>, k: nat, e: T)
    requires k < |parts| && e in parts[k]
    ensures e in Flatten(parts)
  {
    var n := |parts| - 1;
    if k < n {
      assert parts[..n][k] == parts[k];
      FlattenHas(parts[..n], k, e);
    }
  }

  /** Empty parts flatten to nothing. */
  lemma {:induction false} FlattenEmpty<T>(parts: seq<seq<T>>)
    requires forall k :: 0 <= k < |parts| ==> parts[k] == []
    ensures Flatten(parts) == []
  {
    if parts != [] {
      FlattenEmpty(parts[..|parts| - 1]);
    }
  }

  /** The column at tx of the parts together is the parts' columns one after the other. */
  lemma {:induction false} FlattenTexts(parts: seq<seq<Event>>, texts: seq<seq<string>>, tx: real)
    requires |parts| == |texts|
    requires forall k :: 0 <= k < |parts| ==> TextsAt(parts[k], tx) == texts[k]
    ensures TextsAt(Flatten(parts), tx) == Flatten(texts)
  {
    if parts != [] {
      var n := |parts| - 1;
      FlattenTexts(parts[..n], texts[..n], tx);
      TextsAtAppend(Flatten(parts[..n]), parts[n], tx);
    }
  }

  lemma PutsAppend(a: seq<Op>, b: seq<Op>)
    ensures Puts(a + b) == Puts(a) + Puts(b)
  {
  }

  lemma AppendAssoc<T>(a: seq<T>, b: seq<T>, c: seq<T>)
    ensures a + b + c == a + (b + c)
  {
  }

  /**
   * The drawing surface of one document: the record of every drawing call
   * and page break issued on it, in order. What gets saved is `Pages(log)`.
   */
  class Canvas {
    var log: seq<Event>

    constructor ()
      ensures log == []
    {
      log := [];
    }

    /** Any drawing call: it lands on the current (last) page, as `PagesSnoc` states. */
    method Draw(op: Op)
      modifies this
      ensures log == old(log) + [Put(op)]
    {
      log := log + [Put(op)];
    }

    /** `c.showPage()`: the current page is finished and an empty one becomes current. */
    method ShowPage()
      modifies this
      ensures log == old(log) + [Break]
    {
      log := log + [Break];
    }
  }

  /** Issues a sequence of drawing calls in order. */
  method DrawAll(c: Canvas, ops: seq<Op>)
    modifies c
    ensures c.log == old(c.log) + Puts(ops)
  {
    for k := 0 to |ops|
      invariant c.log == old(c.log) + Puts(ops[..k])
    {
      c.Draw(ops[k]);
      assert Puts(ops[..k + 1]) == Puts(ops[..k]) + [Put(ops[k])];
    }
    assert ops[..|ops|] == ops;
  }
}
