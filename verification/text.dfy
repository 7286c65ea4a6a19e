/**
 * Text formatting used by the layout engine: Python's `str(int)`, the
 * thousands-grouped formats `f"{v:,}"` and `f"{v:,.2f}"` of the styled table,
 * and the header labels `key.replace('_', ' ').title()` shared by the table
 * and the metric cards.
 */
module Text {

  predicate IsDigit(ch: char) {
    '0' <= ch <= '9'
  }

  function Digit(d: nat): (ch: char)
    requires d < 10
    ensures IsDigit(ch) && ch as int - '0' as int == d
  {
    "0123456789"[d]
  }

  /** Python's `str(n)` for a non-negative integer: decimal digits, no leading zero. */
  function NatToString(n: nat): (s: string)
    ensures |s| >= 1
    ensures forall i :: 0 <= i < |s| ==> IsDigit(s[i])
    ensures s[0] == '0' ==> n == 0
  {
    if n < 10 then [Digit(n)] else NatToString(n / 10) + [Digit(n % 10)]
  }

  /** The number a string of decimal digits denotes (the reading direction of `NatToString`). */
  function DigitsValue(s: string): nat {
    if s == [] then 0
    else
      var last := s[|s| - 1];
      DigitsValue(s[..|s| - 1]) * 10 + (if IsDigit(last) then last as int - '0' as int else 0)
  }

  lemma {:induction false} NatToStringRoundTrip(n: nat)
    ensures DigitsValue(NatToString(n)) == n
  {
    var s := NatToString(n);
    if n >= 10 {
      NatToStringRoundTrip(n / 10);
      assert s[..|s| - 1] == NatToString(n / 10);
    }
  }

  /** Python's `str(i)` for any integer. */
  function IntToString(i: int): (s: string)
    ensures |s| >= 1 && (i < 0 <==> s[0] == '-')
  {
    if i < 0 then "-" + NatToString(-i) else NatToString(i)
  }

  /** Three digits, zero-padded: one group of the thousands-separated form. */
  function Pad3(m: nat): (s: string)
    requires m < 1000
    ensures |s| == 3 && forall i :: 0 <= i < 3 ==> IsDigit(s[i])
  {
    [Digit(m / 100), Digit(m / 10 % 10), Digit(m % 10)]
  }

  /** Two digits, zero-padded: the fractional part of a `.2f` format. */
  function Pad2(m: nat): (s: string)
    requires m < 100
    ensures |s| == 2
  {
    [Digit(m / 10), Digit(m % 10)]
  }

  lemma Pad2Value(m: nat)
    requires m < 100
    ensures DigitsValue(Pad2(m)) == m
  {
    var s := Pad2(m);
    assert s[..1] == [Digit(m / 10)];
    assert s[..1][..0] == [];
  }

  /** `f"{n:,}"` for a non-negative integer: digits with a comma between groups of three. */
  function Group(n: nat): (s: string)
    ensures |s| >= 1 && IsDigit(s[0])
  {
    if n < 1000 then NatToString(n) else Group(n / 1000) + "," + Pad3(n % 1000)
  }

  function RemoveCommas(s: string): (r: string)
    ensures ',' !in r
  {
    if s == [] then [] else (if s[0] == ',' then [] else [s[0]]) + RemoveCommas(s[1..])
  }

  lemma {:induction false} RemoveCommasAppend(a: string, b: string)
    ensures RemoveCommas(a + b) == RemoveCommas(a) + RemoveCommas(b)
  {
    if a == [] {
      assert a + b == b;
    } else {
      assert (a + b)[0] == a[0];
      assert (a + b)[1..] == a[1..] + b;
      RemoveCommasAppend(a[1..], b);
    }
  }

  lemma RemoveCommasNoComma(s: string)
    requires ',' !in s
    ensures RemoveCommas(s) == s
  {
    if s != [] {
      assert s[0] in s;
      assert ',' !in s[1..] by {
        forall i | 0 <= i < |s[1..]| ensures s[1..][i] != ',' {
          assert s[1..][i] == s[i + 1];
        }
      }
      RemoveCommasNoComma(s[1..]);
    }
  }

  lemma DigitsHaveNoComma(s: string)
    requires forall i :: 0 <= i < |s| ==> IsDigit(s[i])
    ensures ',' !in s
  {
  }

  /** Appending three digits to the decimal form of q gives the decimal form of q * 1000 + m. */
  lemma NatToStringShift(q: nat, m: nat)
    requires q >= 1 && m < 1000
    ensures NatToString(q * 1000 + m) == NatToString(q) + Pad3(m)
  {
    var n := q * 1000 + m;
    assert n / 10 == q * 100 + m / 10;
    assert n / 100 == q * 10 + m / 100;
    assert n / 10 / 10 == n / 100;
    assert n / 100 / 10 == q;
    assert n % 10 == m % 10;
    assert (n / 10) % 10 == m / 10 % 10;
    assert (n / 100) % 10 == m / 100;
    calc {
      NatToString(n);
      NatToString(n / 10) + [Digit(n % 10)];
      NatToString(n / 100) + [Digit(n / 10 % 10)] + [Digit(n % 10)];
      NatToString(q) + [Digit(n / 100 % 10)] + [Digit(n / 10 % 10)] + [Digit(n % 10)];
      NatToString(q) + Pad3(m);
    }
  }

  /** The decimal form has no separators to remove. */
  lemma DigitsNoCommas(n: nat)
    ensures RemoveCommas(NatToString(n)) == NatToString(n)
  {
    DigitsHaveNoComma(NatToString(n));
    RemoveCommasNoComma(NatToString(n));
  }

  /** The separator before a group of three digits disappears when the commas are removed. */
  lemma RemoveCommasGroup(prefix: string, m: nat)
    requires m < 1000
    ensures RemoveCommas(prefix + "," + Pad3(m)) == RemoveCommas(prefix) + Pad3(m)
  {
    assert RemoveCommas(",") == [];
    RemoveCommasAppend(prefix + ",", Pad3(m));
    RemoveCommasAppend(prefix, ",");
    DigitsHaveNoComma(Pad3(m));
    RemoveCommasNoComma(Pad3(m));
  }

  /** Dropping the separators from the grouped form leaves the plain decimal form. */
  lemma {:induction false} GroupDigits(n: nat)
    ensures RemoveCommas(Group(n)) == NatToString(n)
  {
    if n < 1000 {
      DigitsNoCommas(n);
    } else {
      var q, m := n / 1000, n % 1000;
      GroupDigits(q);
      RemoveCommasGroup(Group(q), m);
      assert NatToString(q) + Pad3(m) == NatToString(n) by {
        assert n == q * 1000 + m;
        NatToStringShift(q, m);
      }
    }
  }

  /** Reading the grouped form back gives the number. */
  lemma GroupRoundTrip(n: nat)
    ensures DigitsValue(RemoveCommas(Group(n))) == n
  {
    GroupDigits(n);
    NatToStringRoundTrip(n);
  }

  /** A number below 1000 has at most three decimal digits. */
  lemma SmallNatLength(n: nat)
    requires n < 1000
    ensures |NatToString(n)| <= 3
  {
    if n >= 10 {
      assert |NatToString(n)| == |NatToString(n / 10)| + 1;
      if n / 10 >= 10 {
        assert |NatToString(n / 10)| == |NatToString(n / 100)| + 1;
        assert n / 10 / 10 == n / 100 < 10;
      }
    }
  }

  /**
   * The shape of a thousands-grouped numeral: counting from the end, every
   * fourth character is a comma and every other one a digit, so the leading
   * group holds one to three digits and every later group exactly three.
   */
  predicate Grouped(s: string) {
    && |s| % 4 != 0
    && forall i :: 0 <= i < |s| ==> if (|s| - i) % 4 == 0 then s[i] == ',' else IsDigit(s[i])
  }

  /** A grouped numeral followed by a comma and three digits is grouped. */
  lemma GroupedSnoc(g: string, p: string)
    requires Grouped(g) && |p| == 3 && forall i :: 0 <= i < 3 ==> IsDigit(p[i])
    ensures Grouped(g + "," + p)
  {
    var s := g + "," + p;
    var L := |g|;
    assert |s| == L + 4;
    assert |s| % 4 == L % 4;
    forall i | 0 <= i < |s|
      ensures if (|s| - i) % 4 == 0 then s[i] == ',' else IsDigit(s[i])
    {
      if i < L {
        assert s[i] == g[i];
        assert (|s| - i) % 4 == (L - i) % 4;
      } else if i > L {
        assert s[i] == p[i - L - 1];
        assert 1 <= |s| - i <= 3;
      }
    }
  }

  /** Where `f"{n:,}"` puts its commas: every fourth character from the end, digits elsewhere. */
  lemma {:induction false} GroupShape(n: nat)
    ensures Grouped(Group(n))
  {
    if n < 1000 {
      SmallNatLength(n);
    } else {
      GroupShape(n / 1000);
      GroupedSnoc(Group(n / 1000), Pad3(n % 1000));
    }
  }

  /** `f"{i:,}"` for any integer. */
  function GroupInt(i: int): (s: string)
    ensures |s| >= 1 && (i < 0 <==> s[0] == '-')
  {
    if i < 0 then "-" + Group(-i) else Group(i)
  }

  function Abs(r: real): real {
    if r < 0.0 then -r else r
  }

  /** Rounds a non-negative real to the nearest integer, ties to the even neighbour. */
  function RoundHalfEven(q: real): (k: nat)
    requires q >= 0.0
    ensures -0.5 <= k as real - q <= 0.5
    ensures (k as real - q == 0.5 || q - k as real == 0.5) ==> k % 2 == 0
  {
    var f := q.Floor;
    var d := q - f as real;
    if d > 0.5 then f + 1
    else if d < 0.5 then f
    else if f % 2 == 0 then f
    else f + 1
  }

  /** The magnitude of r in hundredths, as `.2f` rounds it. */
  function Cents(r: real): nat {
    RoundHalfEven(Abs(r) * 100.0)
  }

  /** `f"{r:,.2f}"`: sign, grouped integer part, two decimals. */
  function Fixed2(r: real): string {
    var c := Cents(r);
    Signed(r < 0.0, Group(c / 100) + "." + Pad2(c % 100))
  }

  /** A leading minus sign when neg holds. */
  function Signed(neg: bool, body: string): string {
    if neg then "-" + body else body
  }

  /** Reads a string of the shape `d,ddd.dd` back as a non-negative real. */
  function ReadUnsigned(body: string): real {
    if |body| < 3 then 0.0
    else DigitsValue(RemoveCommas(body[..|body| - 3])) as real + DigitsValue(body[|body| - 2..]) as real / 100.0
  }

  /** Reads a string of the shape `[-]d,ddd.dd` back as a real (the reading direction of `Fixed2`). */
  function ReadFixed2(s: string): real {
    if |s| > 0 && s[0] == '-' then -ReadUnsigned(s[1..]) else ReadUnsigned(s)
  }

  /** A sign, a grouped integer part, a point and two digits read back as the number they spell. */
  lemma ReadFixed2Parts(neg: bool, g: nat, m: nat)
    requires m < 100
    ensures ReadFixed2(Signed(neg, Group(g) + "." + Pad2(m)))
            == (if neg then -1.0 else 1.0) * (g as real + m as real / 100.0)
  {
    var body := Group(g) + "." + Pad2(m);
    FixedBody(g, m);
    if neg {
      assert ("-" + body)[1..] == body;
    }
  }

  /** The unsigned part of the two-decimal form reads back as the number it spells. */
  lemma FixedBody(g: nat, m: nat)
    requires m < 100
    ensures var b := Group(g) + "." + Pad2(m);
      b[0] != '-' && ReadUnsigned(b) == g as real + m as real / 100.0
  {
    var b := Group(g) + "." + Pad2(m);
    assert b[0] == Group(g)[0];
    assert b[..|b| - 3] == Group(g);
    assert b[|b| - 2..] == Pad2(m);
    GroupRoundTrip(g);
    Pad2Value(m);
  }

  /** The two-decimal form reads back as r rounded to the nearest hundredth. */
  lemma Fixed2RoundTrip(r: real)
    ensures ReadFixed2(Fixed2(r)) == (if r < 0.0 then -1.0 else 1.0) * Cents(r) as real / 100.0
  {
    var c := Cents(r);
    ReadFixed2Parts(r < 0.0, c / 100, c % 100);
    assert (c / 100) as real + (c % 100) as real / 100.0 == c as real / 100.0;
  }

  /** What the two-decimal form reads back as is within half a hundredth of r. */
  lemma Fixed2Close(r: real)
    ensures Abs(ReadFixed2(Fixed2(r)) - r) <= 0.005
  {
    Fixed2RoundTrip(r);
  }

  lemma Fixed2Example()
    ensures Fixed2(1234.5) == "1,234.50"
    ensures GroupInt(1234) == "1,234"
  {
    assert Cents(1234.5) == 123450;
    var d1, d2, d3, d4, d5, d0 := Digit(1), Digit(2), Digit(3), Digit(4), Digit(5), Digit(0);
    assert d0 == '0' && d1 == '1' && d2 == '2' && d3 == '3' && d4 == '4' && d5 == '5';
    assert Group(1234) == [d1] + "," + [d2, d3, d4];
    assert Pad2(50) == [d5, d0];
  }

  predicate IsLetter(ch: char) {
    'a' <= ch <= 'z' || 'A' <= ch <= 'Z'
  }

  function Upper(ch: char): char {
    if 'a' <= ch <= 'z' then (ch as int - 32) as char else ch
  }

  function Lower(ch: char): char {
    if 'A' <= ch <= 'Z' then (ch as int + 32) as char else ch
  }

  /** The character `str.title` puts at a position, given whether the previous one was a letter. */
  function TitleChar(ch: char, afterLetter: bool): char {
    if !IsLetter(ch) then ch else if afterLetter then Lower(ch) else Upper(ch)
  }

  /** `str.title` on the rest of a string, knowing whether the character before it was a letter. */
  function TitleFrom(s: string, afterLetter: bool): (r: string)
    ensures |r| == |s|
  {
    if s == [] then []
    else [TitleChar(s[0], afterLetter)] + TitleFrom(s[1..], IsLetter(s[0]))
  }

  lemma {:induction false} TitleFromAt(s: string, afterLetter: bool, i: nat)
    requires i < |s|
    ensures TitleFrom(s, afterLetter)[i] == TitleChar(s[i], if i == 0 then afterLetter else IsLetter(s[i - 1]))
  {
    if i > 0 {
      TitleFromAt(s[1..], IsLetter(s[0]), i - 1);
    }
  }

  function ReplaceUnderscores(s: string): (r: string)
    ensures |r| == |s|
    ensures forall i :: 0 <= i < |s| ==> r[i] == if s[i] == '_' then ' ' else s[i]
  {
    seq(|s|, i requires 0 <= i < |s| => if s[i] == '_' then ' ' else s[i])
  }

  /** `key.replace('_', ' ').title()`: the display label of a column or metric key. */
  function Label(key: string): string {
    TitleFrom(ReplaceUnderscores(key), false)
  }

  /**
   * Each character of a label: underscores become spaces, a letter is upper-case
   * exactly when it starts a run of letters, everything else is kept.
   */
  lemma LabelAt(key: string, i: nat)
    requires i < |key|
    ensures |Label(key)| == |key|
    ensures Label(key)[i] == if key[i] == '_' then ' '
                             else if !IsLetter(key[i]) then key[i]
                             else if i > 0 && IsLetter(key[i - 1]) then Lower(key[i])
                             else Upper(key[i])
  {
    TitleFromAt(ReplaceUnderscores(key), false, i);
  }
}
