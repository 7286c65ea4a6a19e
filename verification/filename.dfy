/**
 * The output file name of `VisualReportToPDF.build_pdf`: the given name (or
 * `report.pdf` when none is given) with surrounding whitespace removed,
 * `report.pdf` again when nothing is left, and `.pdf` appended unless the
 * name already ends with it in any letter case.
 */
module FileName {
  import opened Wrappers
  import opened Text

  const Extension := ".pdf"
  /** `report.pdf`. */
  const DefaultName := "report" + Extension

  /** The characters `str.strip` removes, restricted to ASCII: space, \t, \n, \v, \f, \r and \x1c-\x1f. */
  predicate IsSpace(ch: char) {
    ch == ' ' || '\t' <= ch <= '\r' || '\U{1c}' <= ch <= '\U{1f}'
  }

  /** Where the run of whitespace starting at i ends: the first non-space index from i on, or |s|. */
  function LeadEnd(s: string, i: nat): (j: nat)
    requires i <= |s|
    ensures i <= j <= |s|
    decreases |s| - i
  {
    if i == |s| || !IsSpace(s[i]) then i else LeadEnd(s, i + 1)
  }

  /** Where the run of whitespace ending at j starts: just after the last non-space index before j, or 0. */
  function TrailStart(s: string, j: nat): (i: nat)
    requires j <= |s|
    ensures i <= j
  {
    if j == 0 || !IsSpace(s[j - 1]) then j else TrailStart(s, j - 1)
  }

  /** `s.lstrip()`: the suffix of s that starts at its first non-space character. */
  function TrimStart(s: string): string {
    s[LeadEnd(s, 0)..]
  }

  /** `s.rstrip()`: the prefix of s that ends at its last non-space character. */
  function TrimEnd(s: string): string {
    s[..TrailStart(s, |s|)]
  }

  /** The run from i to LeadEnd(s, i) is whitespace, and the character that ends it is not. */
  lemma {:induction false} LeadEndSpaces(s: string, i: nat)
    requires i <= |s|
    ensures forall k :: i <= k < LeadEnd(s, i) ==> IsSpace(s[k])
    ensures LeadEnd(s, i) < |s| ==> !IsSpace(s[LeadEnd(s, i)])
    decreases |s| - i
  {
    if i < |s| && IsSpace(s[i]) {
      LeadEndSpaces(s, i + 1);
    }
  }

  /** The run from TrailStart(s, j) to j is whitespace, and the character before it is not. */
  lemma {:induction false} TrailStartSpaces(s: string, j: nat)
    requires j <= |s|
    ensures forall k :: TrailStart(s, j) <= k < j ==> IsSpace(s[k])
    ensures TrailStart(s, j) > 0 ==> !IsSpace(s[TrailStart(s, j) - 1])
  {
    if j > 0 && IsSpace(s[j - 1]) {
      TrailStartSpaces(s, j - 1);
    }
  }

  /** lstrip removes only whitespace, and what it keeps does not start with whitespace. */
  lemma TrimStartSpaces(s: string)
    ensures var r := TrimStart(s);
      && |r| <= |s| && r == s[|s| - |r|..]
      && (r != [] ==> !IsSpace(r[0]))
      && (forall k :: 0 <= k < |s| - |r| ==> IsSpace(s[k]))
  {
    LeadEndSpaces(s, 0);
  }

  /** rstrip removes only whitespace, and what it keeps does not end with whitespace. */
  lemma TrimEndSpaces(s: string)
    ensures var r := TrimEnd(s);
      && |r| <= |s| && r == s[..|r|]
      && (r != [] ==> !IsSpace(r[|r| - 1]))
      && (forall k :: |r| <= k < |s| ==> IsSpace(s[k]))
  {
    TrailStartSpaces(s, |s|);
  }

  /** `s.strip()`. */
  function Strip(s: string): string {
    TrimEnd(TrimStart(s))
  }

  /** What strip keeps is a contiguous part of s, starting where lstrip stopped. */
  lemma StripPart(s: string)
    ensures var i, r := |s| - |TrimStart(s)|, Strip(s);
      i + |r| <= |s| && r == s[i..i + |r|]
  {
    var t := TrimStart(s);
    var r := TrimEnd(t);
    var i := |s| - |t|;
    assert r == s[i..][..|r|];
  }

  /** Everything strip removes, before and after the part it keeps, is whitespace. */
  lemma StripRemoves(s: string)
    ensures var i, r := |s| - |TrimStart(s)|, Strip(s);
      && (forall k :: 0 <= k < i ==> IsSpace(s[k]))
      && (forall k :: i + |r| <= k < |s| ==> IsSpace(s[k]))
  {
    var t := TrimStart(s);
    var i := |s| - |t|;
    assert forall k :: 0 <= k < i ==> IsSpace(s[k]) by {
      TrimStartSpaces(s);
    }
    var r := TrimEnd(t);
    forall k | i + |r| <= k < |s| ensures IsSpace(s[k]) {
      TrimEndSpaces(t);
      assert s[k] == t[k - i];
    }
  }

  /** What strip keeps neither starts nor ends with whitespace. */
  lemma StripEnds(s: string)
    ensures var r := Strip(s);
      r != [] ==> !IsSpace(r[0]) && !IsSpace(r[|r| - 1])
  {
    var t := TrimStart(s);
    var r := TrimEnd(t);
    TrimStartSpaces(s);
    TrimEndSpaces(t);
    if r != [] {
      assert r[0] == t[0];
    }
  }

  /** Strip leaves nothing exactly when s is all whitespace. */
  lemma StripBlank(s: string)
    ensures Strip(s) == [] <==> forall k :: 0 <= k < |s| ==> IsSpace(s[k])
  {
    var t := TrimStart(s);
    TrimStartSpaces(s);
    TrimEndSpaces(t);
  }

  /** Stripping a string that neither starts nor ends with whitespace changes nothing. */
  lemma StripKeeps(s: string)
    requires s != [] && !IsSpace(s[0]) && !IsSpace(s[|s| - 1])
    ensures Strip(s) == s
  {
    assert TrimStart(s) == s;
  }

  /** `s.lower().endswith(".pdf")`: the last four characters, lowered, are `.pdf`. */
  predicate HasPdfExtension(s: string) {
    && |s| >= 4
    && Lower(s[|s| - 4]) == '.' && Lower(s[|s| - 3]) == 'p'
    && Lower(s[|s| - 2]) == 'd' && Lower(s[|s| - 1]) == 'f'
  }

  /** Appending `.pdf` to any name gives one that has the extension. */
  lemma AppendedHasExtension(s: string)
    ensures HasPdfExtension(s + Extension)
  {
    var t := s + Extension;
    assert t[|t| - 4..] == Extension;
  }

  /** The name with `.pdf` appended unless it already ends with it in some letter case. */
  function WithExtension(s: string): (r: string)
    ensures HasPdfExtension(r)
    ensures r == s || r == s + Extension
  {
    if HasPdfExtension(s) then s
    else
      AppendedHasExtension(s);
      s + Extension
  }

  /**
   * `(file_name or "report.pdf").strip() or "report.pdf"`, then `.pdf` appended
   * unless already there. None and "" both stand for a missing name.
   */
  function OutputName(name: Option<string>): string {
    var given := if name.None? || name.value == "" then DefaultName else name.value;
    var stripped := if Strip(given) == "" then DefaultName else Strip(given);
    WithExtension(stripped)
  }

  /** Whatever name is given, the output file name ends with `.pdf` in some letter case. */
  lemma OutputNameExtension(name: Option<string>)
    ensures HasPdfExtension(OutputName(name))
  {
  }

  /** A missing or blank name becomes `report.pdf`. */
  lemma BlankName(name: Option<string>)
    requires name.None? || forall k :: 0 <= k < |name.value| ==> IsSpace(name.value[k])
    ensures OutputName(name) == DefaultName
  {
    var given := if name.None? || name.value == "" then DefaultName else name.value;
    assert Strip(given) == "" || given == DefaultName by {
      if given != DefaultName {
        StripBlank(given);
      }
    }
    DefaultKept();
  }

  /** `report.pdf` has no surrounding whitespace and already has the extension. */
  lemma DefaultKept()
    ensures Strip(DefaultName) == DefaultName
    ensures WithExtension(DefaultName) == DefaultName
  {
    StripKeeps(DefaultName);
    AppendedHasExtension("report");
  }

  /**
   * Any other name is kept without its surrounding whitespace, and gets `.pdf`
   * exactly when it does not end with it in some letter case (`Report.PDF` stays).
   */
  lemma NamedOutput(name: string)
    requires Strip(name) != ""
    ensures HasPdfExtension(Strip(name)) ==> OutputName(Some(name)) == Strip(name)
    ensures !HasPdfExtension(Strip(name)) ==> OutputName(Some(name)) == Strip(name) + Extension
  {
  }

  /** Normalising an already normalised name leaves it alone. */
  lemma OutputNameIdempotent(name: Option<string>)
    ensures OutputName(Some(OutputName(name))) == OutputName(name)
  {
    var given := if name.None? || name.value == "" then DefaultName else name.value;
    var stripped := if Strip(given) == "" then DefaultName else Strip(given);
    assert stripped != [] && !IsSpace(stripped[0]) && !IsSpace(stripped[|stripped| - 1]) by {
      StripBlank(given);
      StripEnds(given);
    }
    assert OutputName(name) == WithExtension(stripped);
    NormalisedStays(stripped);
  }

  /** A stripped, non-empty name with the extension added is its own output name. */
  lemma NormalisedStays(s: string)
    requires s != [] && !IsSpace(s[0]) && !IsSpace(s[|s| - 1])
    ensures OutputName(Some(WithExtension(s))) == WithExtension(s)
  {
    var r := WithExtension(s);
    assert r != [] && !IsSpace(r[0]) && !IsSpace(r[|r| - 1]) by {
      if r != s {
        assert r[0] == s[0] && r[|r| - 1] == 'f';
      }
    }
    StripKeeps(r);
  }
}
