// The recommendation text of components/pages/crop-recommendation-page.tsx:
// every `"\n"`-separated line maps to exactly one element, tested in order
// for a `### ` or `## ` heading (on the trimmed line), a `**` anywhere
// (a paragraph split by the shared bold loop), a list marker (on the trimmed
// line) and finally non-blank text; a blank line becomes a `<br>`.
module CropRecommendationPage {
  import opened Wrappers
  import opened Text
  import opened Bold
  import opened Markers

  /** The element one line renders to. */
  datatype Block =
    | H3(text: string)
    | H2(text: string)
    | BoldParagraph(parts: seq<Span>)
    | Item(text: string)
    | Paragraph(text: string)
    | LineBreak

  /** `/^[-*]\d+\.\s+/` on the untrimmed line: a dash or star, digits, a dot and whitespace. */
  predicate StripMatches(line: string) {
    && |line| >= 1 && (line[0] == '-' || line[0] == '*')
    && var d := DigitRun(line, 1);
       d >= 1 && d + 3 <= |line| && line[d + 1] == '.' && IsSpace(line[d + 2])
  }

  /** `line.replace(/^[-*]\d+\.\s+/, "")`: the match, if any, is removed from the front. */
  function StripMarker(line: string): (r: string)
    ensures !StripMatches(line) ==> r == line
    ensures StripMatches(line) ==> |r| <= |line| - 4 && r == line[|line| - |r|..] && (r != [] ==> !IsSpace(r[0]))
    ensures StripMatches(line) ==> var d := DigitRun(line, 1);
      d + 3 <= |line| - |r| && forall j :: d + 2 <= j < |line| - |r| ==> IsSpace(line[j])
  {
    if StripMatches(line) then
      var d := DigitRun(line, 1);
      line[d + 2 + SpaceRun(line, d + 2)..]
    else
      line
  }

  /** The body of `recommendation.split("\n").map(...)`, without the element keys. */
  function RenderLine(line: string): Block {
    var t := Trim(line);
    if StartsWith(t, "### ") then H3(ReplaceFirst(line, "### ", ""))
    else if StartsWith(t, "## ") then H2(ReplaceFirst(line, "## ", ""))
    else if Contains(line, "**") then BoldParagraph(BoldParts(line, 0))
    else if IsBullet(t) || IsNumbered(t) then Item(StripMarker(line))
    else if t != "" then Paragraph(line)
    else LineBreak
  }

  /** The rendered recommendation: one element per line, in line order. */
  function Render(text: string): (r: seq<Block>)
    ensures |r| == |Lines(text)|
  {
    var lines := Lines(text);
    seq(|lines|, i requires 0 <= i < |lines| => RenderLine(lines[i]))
  }

  // ---------------------------------------------------------------------------
  // Headings

  /**
   * When the trimmed line starts with a marker that does not start with
   * whitespace, the marker's first occurrence in the untrimmed line is right
   * after the leading whitespace, and `replace` keeps that whitespace.
   */
  lemma ReplaceLeadingMarker(line: string, p: string)
    requires StartsWith(Trim(line), p) && |p| >= 1 && !IsSpace(p[0])
    ensures Lead(line) + |p| <= |line| && ReplaceFirst(line, p, "") == line[..Lead(line)] + line[Lead(line) + |p|..]
  {
    TrimmedPrefix(line, p);
    ReplaceAfterSpaces(line, p, Lead(line));
  }

  /** `p` sits right after a run of whitespace and does not start with whitespace, so `replace` removes it there. */
  lemma ReplaceAfterSpaces(line: string, p: string, lead: nat)
    requires |p| >= 1 && !IsSpace(p[0]) && lead + |p| <= |line| && line[lead..lead + |p|] == p
    requires forall j :: 0 <= j < lead ==> IsSpace(line[j])
    ensures ReplaceFirst(line, p, "") == line[..lead] + line[lead + |p|..]
  {
    forall j | 0 <= j < lead ensures !OccursAt(line, p, j) {
      OccursHead(line, p, j);
    }
    ReplaceFirstAt(line, p, "", lead);
  }

  /** An occurrence of a non-empty `p` at `j` starts with the character at `j`. */
  lemma OccursHead(s: string, p: string, j: nat)
    requires |p| >= 1
    ensures OccursAt(s, p, j) ==> s[j] == p[0]
  {
    if OccursAt(s, p, j) {
      assert s[j..j + |p|][0] == s[j];
    }
  }

  /** A `### ` heading keeps the untrimmed line, leading whitespace included, minus the first `### `. */
  lemma H3Text(line: string)
    requires StartsWith(Trim(line), "### ")
    ensures Lead(line) + 4 <= |line| && RenderLine(line) == H3(line[..Lead(line)] + line[Lead(line) + 4..])
  {
    ReplaceLeadingMarker(line, "### ");
  }

  /** A `## ` heading keeps the untrimmed line, leading whitespace included, minus the first `## `. */
  lemma H2Text(line: string)
    requires StartsWith(Trim(line), "## ") && !StartsWith(Trim(line), "### ")
    ensures Lead(line) + 3 <= |line| && RenderLine(line) == H2(line[..Lead(line)] + line[Lead(line) + 3..])
  {
    ReplaceLeadingMarker(line, "## ");
  }

  /** `# ` is not a heading here: without `**` such a line is a paragraph of the untrimmed line. */
  lemma OneHashIsParagraph(line: string)
    requires StartsWith(Trim(line), "# ") && !Contains(line, "**")
    ensures RenderLine(line) == Paragraph(line)
  {
    var t := Trim(line);
    assert t[0] == '#' && t[1] == ' ';
    assert !StartsWith(t, "### ") && !StartsWith(t, "## ");
    assert DigitRun(t, 0) == 0;
  }

  // ---------------------------------------------------------------------------
  // Bold paragraphs and list items

  /** A line with `**` that is not a heading is a bold-split paragraph, even if it looks like a list item. */
  lemma BoldBeforeList(line: string)
    requires !StartsWith(Trim(line), "### ") && !StartsWith(Trim(line), "## ") && Contains(line, "**")
    ensures RenderLine(line).BoldParagraph?
    ensures Unsplit(RenderLine(line).parts) == line
    ensures |RenderLine(line).parts| >= 1
  {
    BoldPartsRoundTrip(line, 0);
    BoldPartsWellFormed(line, 0);
    assert line != [] by {
      assert OccursAt(line, "**", IndexOf(line, "**", 0).value);
    }
  }

  /** `"- **a**"` is a paragraph with a plain `"- "` and a bold `"a"`, not a list item. */
  lemma BoldListLineExample()
    ensures RenderLine("- **a**") == BoldParagraph([Plain("- "), Strong("a")])
  {
    var s := "- **a**";
    ExampleTrimmed(s);
    assert !StartsWith(s, "### ") && !StartsWith(s, "## ");
    ExampleContains(s);
    ExampleParts(s);
  }

  lemma ExampleTrimmed(s: string)
    requires s == "- **a**"
    ensures Trim(s) == s
  {
    assert TrimStart(s) == s;
    assert TrimEnd(s) == s;
  }

  lemma ExampleContains(s: string)
    requires s == "- **a**"
    ensures Contains(s, "**")
  {
    assert s[0..2] == "- " && s[1..3] == " *" && s[2..4] == "**";
    assert IndexOf(s, "**", 2) == Some(2);
    assert IndexOf(s, "**", 1) == Some(2);
    assert IndexOf(s, "**", 0) == Some(2);
  }

  lemma ExampleParts(s: string)
    requires s == "- **a**"
    ensures BoldParts(s, 0) == [Plain("- "), Strong("a")]
  {
    ExampleMatch(s);
    assert s[0..2] == "- " && s[4..5] == "a";
    assert Piece(s, 0) == [Plain("- "), Strong("a")];
    assert Resume(s, 0) == 7;
    assert BoldParts(s, 7) == [];
  }

  lemma ExampleMatch(s: string)
    requires s == "- **a**"
    ensures MatchFrom(s, 0) == Some((2, 5))
  {
    assert !MatchesAt(s, 0) && !MatchesAt(s, 1);
    assert !DelimAt(s, 4) && DelimAt(s, 5);
    assert CloseFrom(s, 4) == Some(5);
    assert MatchFrom(s, 2) == Some((2, 5));
    assert MatchFrom(s, 1) == Some((2, 5));
  }

  /**
   * The strip regex needs a marker followed by digits, which no list line
   * has: a list item always shows the whole untrimmed line, marker included.
   */
  lemma ItemKeepsMarker(line: string)
    requires RenderLine(line).Item?
    ensures RenderLine(line).text == line
  {
    if StripMatches(line) {
      StripLineUntrimmed(line);
      assert false;
    }
  }

  /** A line the strip regex matches has no whitespace to trim before its second character. */
  lemma StripLineUntrimmed(line: string)
    requires StripMatches(line)
    ensures |Trim(line)| >= 2 && Trim(line)[0] == line[0] && Trim(line)[1] == line[1]
    ensures (line[0] == '-' || line[0] == '*') && IsDigit(line[1])
  {
    assert !IsSpace(line[0]);
    assert TrimStart(line) == line;
    assert IsDigit(line[1]) && !IsSpace(line[1]);
  }

  /** `"- a"` and `"1. a"` keep their markers. */
  lemma MarkersKeptExample()
    ensures RenderLine("- a") == Item("- a")
    ensures RenderLine("1. a") == Item("1. a")
  {
    ItemKeptFor("- a");
    ItemKeptFor("1. a");
  }

  lemma ItemKeptFor(line: string)
    requires |line| >= 3 && !IsSpace(line[0]) && !IsSpace(line[|line| - 1])
    requires line[0] != '#' && !Contains(line, "**")
    requires IsBullet(line) || IsNumbered(line)
    ensures RenderLine(line) == Item(line)
  {
    assert TrimStart(line) == line && TrimEnd(line) == line;
    ItemKeepsMarker(line);
  }

  // ---------------------------------------------------------------------------
  // Blank lines and plain paragraphs

  /** A line of whitespace holds no `**`. */
  lemma BlankHasNoBold(line: string)
    requires Trim(line) == ""
    ensures !Contains(line, "**")
  {
    if Contains(line, "**") {
      var j := IndexOf(line, "**", 0).value;
      OccursHead(line, "**", j);
    }
  }

  /** A line renders to a `<br>` exactly when it is blank after trimming. */
  lemma BreakIffBlank(line: string)
    ensures RenderLine(line) == LineBreak <==> Trim(line) == ""
  {
    if Trim(line) == "" {
      BlankHasNoBold(line);
    }
  }

  /** Any other non-blank line is a paragraph of the untrimmed line. */
  lemma ParagraphKeepsLine(line: string)
    requires RenderLine(line).Paragraph?
    ensures RenderLine(line).text == line && Trim(line) != ""
  {
  }

  /** One element per line, nothing grouped: the `i`-th element is the `i`-th line's, and blank lines are never collapsed. */
  lemma OneElementPerLine(text: string, i: nat)
    requires i < |Lines(text)|
    ensures Render(text)[i] == RenderLine(Lines(text)[i])
    ensures Render(text)[i] == LineBreak <==> Trim(Lines(text)[i]) == ""
  {
    BreakIffBlank(Lines(text)[i]);
  }

  // ---------------------------------------------------------------------------
  // The map as written

  /** One line, with the bold paragraph built by the `boldRegex.exec` loop. */
  method RenderLineScan(line: string) returns (b: Block)
    ensures b == RenderLine(line)
  {
    var t := Trim(line);
    if StartsWith(t, "### ") {
      b := H3(ReplaceFirst(line, "### ", ""));
    } else if StartsWith(t, "## ") {
      b := H2(ReplaceFirst(line, "## ", ""));
    } else if Contains(line, "**") {
      var parts := ScanBold(line);
      b := BoldParagraph(parts);
    } else if IsBullet(t) || IsNumbered(t) {
      b := Item(StripMarker(line));
    } else if t != "" {
      b := Paragraph(line);
    } else {
      b := LineBreak;
    }
  }

  /** `recommendation.split("\n").map(...)` */
  method RenderRecommendation(text: string) returns (r: seq<Block>)
    ensures r == Render(text)
  {
    var lines := Lines(text);
    r := [];
    var i := 0;
    while i < |lines|
      invariant 0 <= i <= |lines|
      invariant |r| == i
      invariant forall j :: 0 <= j < i ==> r[j] == RenderLine(lines[j])
    {
      var b := RenderLineScan(lines[i]);
      r := r + [b];
      i := i + 1;
    }
  }
}
