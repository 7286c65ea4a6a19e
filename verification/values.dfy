/**
 * The data the layout engine consumes: JSON-like cell values, query rows
 * (mappings that keep their key order), the report model, and the library
 * routines the engine calls but does not implement.
 */
module Values {
  import opened Wrappers
  import opened Text

  /** A cell value as it arrives from JSON or a Python literal. */
  datatype Value = IntV(i: int) | FloatV(f: real) | BoolV(b: bool) | TextV(s: string) | NullV

  /** A mapping in insertion order; for a Python dict the keys are distinct. */
  type Row = seq<(string, Value)>

  /** An element of the query result list: a mapping, or anything else (a bare number, a string...). */
  datatype Item = Record(row: Row) | Scalar(v: Value)

  type NonNeg = r: real | r >= 0.0

  /**
   * Library routines the engine relies on without implementing them:
   * `textwrap.wrap(text, width)`, `float(text)` (None when it raises),
   * `str(f)` for a float, the height `Table.wrapOn` reports for a table's
   * cells, and today's date as the header prints it.
   */
  datatype Lib = Lib(
    wrap: (string, nat) -> seq<string>,
    parseFloat: string -> Option<real>,
    floatRepr: real -> string,
    tableHeight: seq<seq<string>> -> NonNeg,
    today: string)

  function Keys(row: Row): (ks: seq<string>)
    ensures |ks| == |row|
    ensures forall i :: 0 <= i < |row| ==> ks[i] == row[i].0
  {
    seq(|row|, i requires 0 <= i < |row| => row[i].0)
  }

  /** `row.get(key)`: the value stored under key, if any. */
  function Get(row: Row, key: string): (r: Option<Value>)
    ensures r.Some? <==> key in Keys(row)
    ensures r.Some? ==> (key, r.value) in row
  {
    if row == [] then None
    else if row[0].0 == key then Some(row[0].1)
    else
      assert Keys(row) == [row[0].0] + Keys(row[1..]);
      var r := Get(row[1..], key);
      assert r.Some? ==> (key, r.value) in row by {
        if r.Some? {
          var j :| 0 <= j < |row[1..]| && row[1..][j] == (key, r.value);
          assert row[j + 1] == (key, r.value);
        }
      }
      r
  }

  /** The value `get` returns is the one stored under the first occurrence of the key. */
  lemma {:induction false} GetFirst(row: Row, key: string, i: nat)
    requires i < |row| && row[i].0 == key
    requires forall j :: 0 <= j < i ==> row[j].0 != key
    ensures Get(row, key) == Some(row[i].1)
  {
    if i > 0 {
      GetFirst(row[1..], key, i - 1);
    }
  }

  /** The mappings among the items, in order; anything else is skipped. */
  function Records(items: seq<Item>): (rs: seq<Row>)
    ensures |rs| <= |items|
  {
    if items == [] then []
    else
      var last := items[|items| - 1];
      Records(items[..|items| - 1]) + (if last.Record? then [last.row] else [])
  }

  lemma {:induction false} RecordsMembership(items: seq<Item>)
    ensures forall row :: row in Records(items) <==> Record(row) in items
    ensures (forall i :: 0 <= i < |items| ==> items[i].Record?) ==> |Records(items)| == |items|
  {
    if items != [] {
      var init := items[..|items| - 1];
      RecordsMembership(init);
      assert items == init + [items[|items| - 1]];
    }
  }

  /** `s[:cap]`. */
  function Prefix<T>(s: seq<T>, cap: nat): (p: seq<T>)
    ensures |p| == if |s| <= cap then |s| else cap
    ensures p == s[..|p|]
  {
    if |s| <= cap then s else s[..cap]
  }

  /** `s[:n]`. */
  function Take(s: string, n: nat): (t: string)
    ensures |t| <= n && |t| <= |s| && t == s[..|t|]
    ensures |s| <= n ==> t == s
  {
    if |s| <= n then s else s[..n]
  }

  /** Python's `isinstance(v, (int, float))`, which holds for booleans too. */
  predicate IsNumeric(v: Value) {
    v.IntV? || v.FloatV? || v.BoolV?
  }

  /** Python's `str(v)`. */
  function Str(v: Value, lib: Lib): string {
    match v
    case IntV(i) => IntToString(i)
    case FloatV(f) => lib.floatRepr(f)
    case BoolV(b) => if b then "True" else "False"
    case TextV(s) => s
    case NullV => "None"
  }

  /** `float(v)` inside `try: ... except: 0`: a value the conversion rejects becomes 0. */
  function ToFloat(v: Value, lib: Lib): real {
    match v
    case IntV(i) => i as real
    case FloatV(f) => f
    case BoolV(b) => if b then 1.0 else 0.0
    case TextV(s) => lib.parseFloat(s).GetOr(0.0)
    case NullV => 0.0
  }

  /**
   * One table cell: integers (and booleans, which Python formats as 1 and 0)
   * with thousands separators, floats with two decimals and separators,
   * anything else through `str`.
   */
  function FormatCell(v: Value, lib: Lib): string {
    match v
    case IntV(i) => GroupInt(i)
    case BoolV(b) => if b then "1" else "0"
    case FloatV(f) => Fixed2(f)
    case TextV(s) => s
    case NullV => "None"
  }

  lemma FormatCellExamples(lib: Lib)
    ensures FormatCell(IntV(1234), lib) == "1,234"
    ensures FormatCell(FloatV(1234.5), lib) == "1,234.50"
    ensures FormatCell(BoolV(true), lib) == "1"
  {
    Fixed2Example();
  }

  /** An insight is plain text or a mapping that should hold an `insight` entry. */
  datatype Insight = Plain(text: string) | Entry(fields: seq<(string, string)>)

  /**
   * The quote Python's `repr` puts around a string: double quotes when the
   * string holds a single quote and no double quote, single quotes otherwise.
   */
  function QuoteOf(s: string): char {
    if '\'' in s && '"' !in s then '"' else '\''
  }

  function HexDigit(d: nat): (ch: char)
    requires d < 16
  {
    "0123456789abcdef"[d]
  }

  /** The value of a lower-case hexadecimal digit (the reading direction of `HexDigit`). */
  function HexValue(ch: char): (d: nat)
    ensures d < 16
  {
    if '0' <= ch <= '9' then ch as int - '0' as int
    else if 'a' <= ch <= 'f' then ch as int - 'a' as int + 10
    else 0
  }

  lemma HexRoundTrip(d: nat)
    requires d < 16
    ensures HexValue(HexDigit(d)) == d
  {
  }

  /** A control character `repr` writes as `\xhh`. */
  predicate IsControl(ch: char) {
    ch as int < 32 || ch as int == 127
  }

  /**
   * How `repr` writes one character inside quotes q: the backslash and q
   * itself behind a backslash, tab, newline and carriage return by name, any
   * other ASCII control character in hexadecimal, everything else as it is.
   */
  function EscapeChar(ch: char, q: char): string {
    if ch == '\\' || ch == q then ['\\', ch]
    else if ch == '\t' then ['\\', 't']
    else if ch == '\n' then ['\\', 'n']
    else if ch == '\r' then ['\\', 'r']
    else if IsControl(ch) then ['\\', 'x', HexDigit(ch as int / 16), HexDigit(ch as int % 16)]
    else [ch]
  }

  function Escape(s: string, q: char): string {
    if s == [] then [] else EscapeChar(s[0], q) + Escape(s[1..], q)
  }

  /** Python's `repr` of a string (ASCII escapes). */
  function QuoteRepr(s: string): (r: string)
    ensures |r| >= 2 && r[0] == r[|r| - 1] == QuoteOf(s)
  {
    var q := QuoteOf(s);
    [q] + Escape(s, q) + [q]
  }

  /** Reads the inside of a quoted string literal back (the reading direction of `Escape`). */
  function Unescape(e: string): string
    decreases |e|
  {
    if e == [] then []
    else if e[0] != '\\' || |e| < 2 then [e[0]] + Unescape(e[1..])
    else if e[1] == 't' then ['\t'] + Unescape(e[2..])
    else if e[1] == 'n' then ['\n'] + Unescape(e[2..])
    else if e[1] == 'r' then ['\r'] + Unescape(e[2..])
    else if e[1] == 'x' && |e| >= 4 then [(HexValue(e[2]) * 16 + HexValue(e[3])) as char] + Unescape(e[4..])
    else [e[1]] + Unescape(e[2..])
  }

  /** Reads a `repr` back: the text between the quotes, unescaped. */
  function ReadRepr(r: string): string {
    if |r| < 2 then [] else Unescape(r[1..|r| - 1])
  }

  lemma UnescapeChar(ch: char, q: char, rest: string)
    requires q == '\'' || q == '"'
    ensures Unescape(EscapeChar(ch, q) + rest) == [ch] + Unescape(rest)
  {
    var e := EscapeChar(ch, q) + rest;
    if ch == '\\' || ch == q || ch == '\t' || ch == '\n' || ch == '\r' {
      assert e[2..] == rest;
    } else if IsControl(ch) {
      assert e[4..] == rest;
      HexRoundTrip(ch as int / 16);
      HexRoundTrip(ch as int % 16);
    } else {
      assert e[1..] == rest;
    }
  }

  lemma {:induction false} UnescapeEscape(s: string, q: char)
    requires q == '\'' || q == '"'
    ensures Unescape(Escape(s, q)) == s
  {
    if s != [] {
      UnescapeChar(s[0], q, Escape(s[1..], q));
      UnescapeEscape(s[1..], q);
    }
  }

  /** Reading the printed form of a string gives the string back. */
  lemma ReprRoundTrip(s: string)
    ensures ReadRepr(QuoteRepr(s)) == s
  {
    var q := QuoteOf(s);
    var r := QuoteRepr(s);
    assert r[1..|r| - 1] == Escape(s, q);
    UnescapeEscape(s, q);
  }

  /** A character `repr` writes as it is inside single quotes. */
  predicate PlainChar(ch: char) {
    ch != '\\' && ch != '\'' && !IsControl(ch)
  }

  lemma {:induction false} EscapePlain(s: string)
    requires forall i :: 0 <= i < |s| ==> PlainChar(s[i])
    ensures Escape(s, '\'') == s
  {
    if s != [] {
      EscapePlain(s[1..]);
    }
  }

  /** A string without quotes, backslashes or control characters prints inside single quotes, unchanged. */
  lemma ReprPlain(s: string)
    requires forall i :: 0 <= i < |s| ==> PlainChar(s[i])
    ensures QuoteRepr(s) == ['\''] + s + ['\'']
  {
    EscapePlain(s);
  }

  /** The `{'k': 'v', ...}` form `str` gives a dict of strings. */
  function DictRepr(fields: seq<(string, string)>): string {
    "{" + DictEntries(fields) + "}"
  }

  function DictEntries(fields: seq<(string, string)>): string {
    if fields == [] then ""
    else
      QuoteRepr(fields[0].0) + ": " + QuoteRepr(fields[0].1)
      + (if |fields| > 1 then ", " + DictEntries(fields[1..]) else "")
  }

  function Lookup(fields: seq<(string, string)>, key: string): Option<string> {
    if fields == [] then None
    else if fields[0].0 == key then Some(fields[0].1)
    else Lookup(fields[1..], key)
  }

  /** `dict.get` gives the value under the first occurrence of the key. */
  lemma {:induction false} LookupFirst(fields: seq<(string, string)>, key: string, i: nat)
    requires i < |fields| && fields[i].0 == key
    requires forall j :: 0 <= j < i ==> fields[j].0 != key
    ensures Lookup(fields, key) == Some(fields[i].1)
  {
    if i > 0 {
      LookupFirst(fields[1..], key, i - 1);
    }
  }

  /** `dict.get` finds nothing when no entry has the key. */
  lemma {:induction false} LookupMissing(fields: seq<(string, string)>, key: string)
    requires forall j :: 0 <= j < |fields| ==> fields[j].0 != key
    ensures Lookup(fields, key) == None
  {
    if fields != [] {
      LookupMissing(fields[1..], key);
    }
  }

  const InsightKey := "insight"

  /** The text shown for an insight: `insight.get('insight', str(insight))`, or the string itself. */
  function InsightText(ins: Insight): string {
    match ins
    case Plain(t) => t
    case Entry(fields) => Lookup(fields, InsightKey).GetOr(DictRepr(fields))
  }

  /**
   * The text of an insight: a plain one shows itself; a mapping shows the
   * value of its first `insight` entry, and when it has none, the whole
   * mapping as `str` prints it.
   */
  lemma InsightTextFacts(ins: Insight)
    ensures ins.Plain? ==> InsightText(ins) == ins.text
    ensures ins.Entry? && (forall j :: 0 <= j < |ins.fields| ==> ins.fields[j].0 != InsightKey)
            ==> InsightText(ins) == DictRepr(ins.fields)
    ensures forall i :: ins.Entry? && 0 <= i < |ins.fields| && ins.fields[i].0 == InsightKey
                        && (forall j :: 0 <= j < i ==> ins.fields[j].0 != InsightKey)
                        ==> InsightText(ins) == ins.fields[i].1
  {
    if ins.Entry? {
      if forall j :: 0 <= j < |ins.fields| ==> ins.fields[j].0 != InsightKey {
        LookupMissing(ins.fields, InsightKey);
      }
      forall i | 0 <= i < |ins.fields| && ins.fields[i].0 == InsightKey
                 && (forall j :: 0 <= j < i ==> ins.fields[j].0 != InsightKey)
        ensures InsightText(ins) == ins.fields[i].1
      {
        LookupFirst(ins.fields, InsightKey, i);
      }
    }
  }

  /** The report content, as the upstream parser delivers it. */
  datatype Report = Report(
    title: string,
    executiveSummary: string,
    timeframe: string,
    datasetUsed: string,
    keyMetrics: seq<Row>,
    insights: seq<Insight>,
    findings: seq<string>,
    recommendations: seq<string>,
    limitations: seq<string>,
    nextSteps: seq<string>)
}
