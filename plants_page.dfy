// The crop catalogue of components/pages/plants-page.tsx: its own
// `renderMarkdown` for the recommendation text (headings tested on the
// untrimmed line, a `split("**")` bold rule, dash and numbered items, one
// spacer per blank line), the plant-to-category lookups, the category filter
// and the grouping of the filtered plants by category.
module PlantsPage {
  import opened Wrappers
  import opened Text
  import opened Bold

  // ---------------------------------------------------------------------------
  // renderMarkdown

  /** The element one line renders to. */
  datatype Block =
    | H3(text: string)
    | H2(text: string)
    | H1(text: string)
    | Formatted(parts: seq<Span>)
    | DashItem(text: string)
    | NumberedItem(text: string)
    | Spacer
    | Paragraph(text: string)

  /** The pieces of `line.split("**")`: odd-indexed pieces are bold, the others plain. */
  function SplitBold(line: string): (r: seq<Span>)
    ensures |r| == |Split(line, "**")|
  {
    var parts := Split(line, "**");
    seq(|parts|, i requires 0 <= i < |parts| => if i % 2 == 1 then Strong(parts[i]) else Plain(parts[i]))
  }

  /** The text of each span, without delimiters. */
  function Texts(spans: seq<Span>): (r: seq<string>)
    ensures |r| == |spans|
  {
    seq(|spans|, i requires 0 <= i < |spans| => spans[i].text)
  }

  /** Whitespace or a dash: what the pattern `^[\s-]*` consumes. */
  predicate IsSpaceOrDash(c: char) {
    IsSpace(c) || c == '-'
  }

  /** `line.replace` with the pattern `^[\s-]*`: the leading run of whitespace and dashes removed. */
  function StripDashes(line: string): (r: string)
    ensures |r| <= |line|
    ensures forall j :: 0 <= j < |line| - |r| ==> IsSpaceOrDash(line[j])
    ensures r != [] ==> !IsSpaceOrDash(r[0])
    decreases |line|
  {
    if |line| > 0 && IsSpaceOrDash(line[0]) then StripDashes(line[1..]) else line
  }

  /** What `StripDashes` keeps is a suffix of the line. */
  lemma {:induction false} StripDashesSuffix(line: string)
    ensures StripDashes(line) == line[|line| - |StripDashes(line)|..]
    decreases |line|
  {
    if |line| > 0 && IsSpaceOrDash(line[0]) {
      StripDashesSuffix(line[1..]);
    }
  }

  /** `line.match(/^\d+\.\s/)` on the untrimmed line. */
  predicate NumberedPrefix(line: string) {
    var d := DigitRun(line, 0);
    d >= 1 && d + 2 <= |line| && line[d] == '.' && IsSpace(line[d + 1])
  }

  /** `line.replace(/^\d+\.\s/, "")`: the digits, the dot and exactly one whitespace character removed. */
  function NumberedRest(line: string): string
    requires NumberedPrefix(line)
  {
    line[DigitRun(line, 0) + 2..]
  }

  /** The tests of the `forEach` body, in order; `Skip` is the fall-through no line reaches. */
  datatype LineTest = Hash3 | Hash2 | Hash1 | HasBold | Dash | Numbered | Blank | Text | Skip

  /** The first test of the `forEach` body that accepts the line. */
  function Test(line: string): (k: LineTest)
    ensures k == Dash ==> StartsWith(Trim(line), "- ")
    ensures k == Numbered ==> NumberedPrefix(line) && !StartsWith(Trim(line), "- ")
    ensures k == Blank ==> Trim(line) == ""
    ensures k == Text ==> Trim(line) != ""
  {
    if StartsWith(line, "### ") then Hash3
    else if StartsWith(line, "## ") then Hash2
    else if StartsWith(line, "# ") then Hash1
    else if Contains(line, "**") then HasBold
    else if StartsWith(Trim(line), "- ") then Dash
    else if NumberedPrefix(line) then Numbered
    else if Trim(line) == "" then Blank
    else if Trim(line) != "" then Text
    else Skip
  }

  /** The body of `lines.forEach`: the element pushed for one line, if any. */
  function RenderLine(line: string): Option<Block> {
    match Test(line)
    case Hash3 => Some(H3(ReplaceFirst(line, "### ", "")))
    case Hash2 => Some(H2(ReplaceFirst(line, "## ", "")))
    case Hash1 => Some(H1(ReplaceFirst(line, "# ", "")))
    case HasBold => Some(Formatted(SplitBold(line)))
    case Dash => Some(DashItem(StripDashes(line)))
    case Numbered => Some(NumberedItem(NumberedRest(line)))
    case Blank => Some(Spacer)
    case Text => Some(Paragraph(line))
    case Skip => None
  }

  /** The elements pushed for `lines`, in line order. */
  function Elements(lines: seq<string>): seq<Block> {
    if lines == [] then []
    else
      var init := Elements(lines[..|lines| - 1]);
      match RenderLine(lines[|lines| - 1])
      case Some(b) => init + [b]
      case None => init
  }

  /** `renderMarkdown(text)`: `null` for the empty text, otherwise the elements of its `"\n"`-separated lines. */
  function RenderMarkdown(text: string): Option<seq<Block>> {
    if text == "" then None else Some(Elements(Lines(text)))
  }

  /** The last test of the chain always passes: every line pushes exactly one element. */
  lemma EveryLineRenders(line: string)
    ensures RenderLine(line).Some?
    ensures RenderLine(line) == Some(Spacer) <==> Trim(line) == "" && !Contains(line, "**") && !StartsWith(line, "# ") && !StartsWith(line, "## ") && !StartsWith(line, "### ")
  {
    if Trim(line) == "" {
      assert !StartsWith(Trim(line), "- ");
      if NumberedPrefix(line) {
        BlankNotNumbered(line);
      }
    }
  }

  /** A whitespace-only line has no numbered prefix: the digits are not whitespace. */
  lemma BlankNotNumbered(line: string)
    requires Trim(line) == ""
    ensures !NumberedPrefix(line)
  {
    TrimEmpty(line);
    if |line| > 0 {
      assert IsSpace(line[0]);
      assert DigitRun(line, 0) == 0;
    }
  }

  /** One element per line, in line order: the `i`-th element is the `i`-th line's. */
  lemma OneElementPerLine(lines: seq<string>)
    ensures |Elements(lines)| == |lines|
    ensures forall i :: 0 <= i < |lines| ==> RenderLine(lines[i]) == Some(Elements(lines)[i])
  {
    ElementsLength(lines);
    forall i | 0 <= i < |lines| ensures RenderLine(lines[i]) == Some(Elements(lines)[i]) {
      ElementAt(lines, i);
    }
  }

  lemma {:induction false} ElementsLength(lines: seq<string>)
    ensures |Elements(lines)| == |lines|
    decreases |lines|
  {
    if lines != [] {
      ElementsLength(lines[..|lines| - 1]);
      ElementsLast(lines);
    }
  }

  /** The last line adds its one element at the end. */
  lemma ElementsLast(lines: seq<string>)
    requires |lines| >= 1
    ensures Elements(lines) == Elements(lines[..|lines| - 1]) + [RenderLine(lines[|lines| - 1]).value]
  {
    EveryLineRenders(lines[|lines| - 1]);
  }

  lemma {:induction false} ElementAt(lines: seq<string>, i: nat)
    requires i < |lines|
    ensures |Elements(lines)| == |lines|
    ensures RenderLine(lines[i]) == Some(Elements(lines)[i])
    decreases |lines|
  {
    var init := lines[..|lines| - 1];
    ElementsLength(lines);
    ElementsLength(init);
    ElementsLast(lines);
    var a, b := Elements(init), [RenderLine(lines[|lines| - 1]).value];
    if i < |init| {
      ElementAt(init, i);
      assert init[i] == lines[i];
      assert (a + b)[i] == a[i];
    } else {
      EveryLineRenders(lines[i]);
      assert (a + b)[i] == b[0];
    }
  }

  /** A line that starts with a heading marker keeps everything after it. */
  lemma HeadingText(line: string, p: string)
    requires p == "### " || p == "## " || p == "# "
    requires StartsWith(line, p)
    ensures ReplaceFirst(line, p, "") == line[|p|..]
  {
    assert OccursAt(line, p, 0);
    ReplaceFirstAt(line, p, "", 0);
  }

  /** `### ` is tested first, so a `### ` line is a level-3 heading of the rest of the line. */
  lemma H3Line(line: string)
    requires StartsWith(line, "### ")
    ensures RenderLine(line) == Some(H3(line[4..]))
  {
    HeadingText(line, "### ");
  }

  /** A `## ` line that is not a `### ` line is a level-2 heading of the rest of the line. */
  lemma H2Line(line: string)
    requires StartsWith(line, "## ")
    ensures RenderLine(line) == Some(H2(line[3..]))
  {
    assert line[2] == ' ';
    assert !StartsWith(line, "### ");
    HeadingText(line, "## ");
  }

  /** A `# ` line is a level-1 heading of the rest of the line. */
  lemma H1Line(line: string)
    requires StartsWith(line, "# ")
    ensures RenderLine(line) == Some(H1(line[2..]))
  {
    assert line[1] == ' ';
    assert !StartsWith(line, "### ") && !StartsWith(line, "## ");
    HeadingText(line, "# ");
  }

  /** The heading tests look at the untrimmed line: an indented marker is no heading. */
  lemma IndentedNotHeading(line: string)
    requires |line| >= 1 && IsSpace(line[0])
    ensures !RenderLine(line).value.H3? && !RenderLine(line).value.H2? && !RenderLine(line).value.H1?
  {
    EveryLineRenders(line);
    assert !StartsWith(line, "### ") && !StartsWith(line, "## ") && !StartsWith(line, "# ");
    NoMarkerNoHeading(line);
  }

  lemma NoMarkerNoHeading(line: string)
    requires !StartsWith(line, "### ") && !StartsWith(line, "## ") && !StartsWith(line, "# ")
    requires RenderLine(line).Some?
    ensures !RenderLine(line).value.H3? && !RenderLine(line).value.H2? && !RenderLine(line).value.H1?
  {
  }

  // ---------------------------------------------------------------------------
  // The split("**") rule

  /** A line with `**` that is no heading is split on `**`: odd pieces bold, one more piece than there are `**`. */
  lemma FormattedLine(line: string)
    requires !StartsWith(line, "### ") && !StartsWith(line, "## ") && !StartsWith(line, "# ")
    requires Contains(line, "**")
    ensures RenderLine(line).value.Formatted?
    ensures var parts := RenderLine(line).value.parts;
      && |parts| == Occurrences(line, "**") + 1
      && (forall i :: 0 <= i < |parts| ==> (parts[i].Strong? <==> i % 2 == 1))
      && Join(Texts(parts), "**") == line
  {
    var parts := SplitBold(line);
    SplitCount(line, "**");
    JoinSplit(line, "**");
    assert Texts(parts) == Split(line, "**");
  }

  /** The pieces alternate plain and bold, whatever the pairing of the `**`. */
  lemma SplitBoldAlternates(line: string)
    ensures forall i :: 0 <= i < |SplitBold(line)| ==> (SplitBold(line)[i].Strong? <==> i % 2 == 1)
  {
  }

  /** `"a **b"` has an unpaired `**`, yet `"b"` is bold. */
  lemma UnpairedExample()
    ensures SplitBold("a **b") == [Plain("a "), Strong("b")]
  {
    var s := "a **b";
    assert s[0..2] == "a " && s[1..3] == " *" && s[2..4] == "**";
    assert IndexOf(s, "**", 2) == Some(2);
    assert IndexOf(s, "**", 1) == Some(2);
    assert IndexOf(s, "**", 0) == Some(2);
    var rest := s[4..];
    assert rest == "b";
    assert IndexOf(rest, "**", 0) == None;
    assert Split(s, "**") == ["a ", "b"];
  }

  // ---------------------------------------------------------------------------
  // List items

  /** A `* ` line without `**` is a paragraph: only a dash makes a bullet here. */
  lemma StarLineIsParagraph(line: string)
    requires StartsWith(line, "* ") && !Contains(line, "**")
    ensures RenderLine(line) == Some(Paragraph(line))
  {
    assert line[0] == '*';
    assert !StartsWith(line, "### ") && !StartsWith(line, "## ") && !StartsWith(line, "# ");
    StarTrim(line);
    assert !StartsWith(Trim(line), "- ");
    assert DigitRun(line, 0) == 0;
  }

  /** Trimming a `* ` line keeps its star in front. */
  lemma StarTrim(line: string)
    requires StartsWith(line, "* ")
    ensures Trim(line) != [] && Trim(line)[0] == '*'
  {
    assert line[0] == '*' && !IsSpace(line[0]);
    assert TrimStart(line) == line;
    assert |line| >= 2;
  }

  /** A dash item shows the line without any leading whitespace and dashes. */
  lemma DashItemText(line: string)
    requires RenderLine(line).value.DashItem?
    ensures var r := RenderLine(line).value.text;
      && |r| <= |line| - 2 && r == line[|line| - |r|..]
      && (forall j :: 0 <= j < |line| - |r| ==> IsSpaceOrDash(line[j]))
      && (r != [] ==> !IsSpaceOrDash(r[0]))
  {
    DashItemIs(line);
    StripDashesSuffix(line);
    DashAfterLead(line);
    DashRunCovers(line, Lead(line));
  }

  lemma DashItemIs(line: string)
    requires RenderLine(line).value.DashItem?
    ensures StartsWith(Trim(line), "- ") && RenderLine(line).value.text == StripDashes(line)
  {
  }

  /** The trimmed line starts with `- `, so the untrimmed line has `-` and a space right after its leading whitespace. */
  lemma DashAfterLead(line: string)
    requires StartsWith(Trim(line), "- ")
    ensures Lead(line) + 2 <= |line| && line[Lead(line)] == '-' && IsSpace(line[Lead(line) + 1])
  {
    var lead := Lead(line);
    TrimmedPrefix(line, "- ");
    assert line[lead..lead + 2][0] == line[lead];
    assert line[lead..lead + 2][1] == line[lead + 1];
  }

  /** After leading whitespace, a `-` and one more whitespace character are stripped too. */
  lemma DashRunCovers(line: string, lead: nat)
    requires lead + 2 <= |line| && line[lead] == '-' && IsSpace(line[lead + 1])
    requires forall j :: 0 <= j < lead ==> IsSpace(line[j])
    ensures |StripDashes(line)| <= |line| - lead - 2
  {
    StripDashesSuffix(line);
  }

  /** A numbered line keeps the text after the digits, the dot and one whitespace character. */
  lemma NumberedItemText(line: string)
    requires RenderLine(line).value.NumberedItem?
    ensures NumberedPrefix(line)
    ensures var d := DigitRun(line, 0);
      && (forall j :: 0 <= j < d ==> IsDigit(line[j]))
      && line == line[..d] + "." + [line[d + 1]] + RenderLine(line).value.text
  {
    NumberedItemIs(line);
    NumberedSplit(line);
  }

  lemma NumberedItemIs(line: string)
    requires RenderLine(line).value.NumberedItem?
    ensures NumberedPrefix(line) && RenderLine(line).value.text == NumberedRest(line)
  {
    assert !StartsWith(Trim(line), "- ");
  }

  lemma NumberedSplit(line: string)
    requires NumberedPrefix(line)
    ensures var d := DigitRun(line, 0);
      line == line[..d] + "." + [line[d + 1]] + NumberedRest(line)
  {
    var d := DigitRun(line, 0);
    assert line == line[..d] + line[d..d + 2] + line[d + 2..];
    assert line[d..d + 2] == "." + [line[d + 1]];
  }

  /** The numbered test uses the untrimmed line: an indented `1. x` is a paragraph. */
  lemma IndentedNumberIsParagraph(line: string)
    requires |line| >= 1 && IsSpace(line[0]) && Trim(line) != "" && !Contains(line, "**")
    requires !StartsWith(Trim(line), "- ")
    ensures RenderLine(line) == Some(Paragraph(line))
  {
    assert !StartsWith(line, "### ") && !StartsWith(line, "## ") && !StartsWith(line, "# ");
    assert DigitRun(line, 0) == 0;
  }

  // ---------------------------------------------------------------------------
  // The forEach as written

  /** `renderMarkdown` as written: walk the lines and push each line's element. */
  method RenderMarkdownLoop(text: string) returns (r: Option<seq<Block>>)
    ensures r == RenderMarkdown(text)
  {
    if text == "" {
      return None;
    }
    var lines := Lines(text);
    var elements: seq<Block> := [];
    var i := 0;
    while i < |lines|
      invariant 0 <= i <= |lines|
      invariant elements == Elements(lines[..i])
    {
      var b := RenderLine(lines[i]);
      assert lines[..i + 1][..i] == lines[..i];
      if b.Some? {
        elements := elements + [b.value];
      }
      i := i + 1;
    }
    assert lines[..|lines|] == lines;
    r := Some(elements);
  }

  // ---------------------------------------------------------------------------
  // Categories

  /** A plant of the catalogue. */
  datatype Plant = Plant(id: int, name: string, description: Option<string>)

  /** `PLANT_CATEGORY_MAP`: plant id to category id. */
  const CategoryMap: map<int, string> := map[
    1 := "technical", 14 := "technical",
    2 := "grain", 3 := "grain", 4 := "grain", 5 := "grain",
    6 := "vegetable", 7 := "vegetable", 8 := "vegetable", 9 := "vegetable", 10 := "vegetable",
    11 := "legume", 12 := "legume", 13 := "legume",
    15 := "fodder",
    16 := "melon", 17 := "melon",
    18 := "fruit", 19 := "fruit", 20 := "fruit"
  ]

  /** `PLANT_CATEGORIES`: category id and display name, in display order. */
  const Categories: seq<(string, string)> := [
    ("technical", "Texnik ekinlar"),
    ("grain", "Don ekinlari"),
    ("vegetable", "Sabzavotlar"),
    ("legume", "Dukkaklilar"),
    ("fodder", "Yem-xashak"),
    ("melon", "Poliz ekinlari"),
    ("fruit", "Mevalar")
  ]

  /** `getCategoryForPlant`: the mapped category, or `"other"` when the id is unmapped (or maps to a falsy string). */
  function CategoryFor(plantId: int): (c: string)
    ensures plantId in CategoryMap ==> c == CategoryMap[plantId]
    ensures plantId !in CategoryMap ==> c == "other"
  {
    if plantId in CategoryMap && CategoryMap[plantId] != "" then CategoryMap[plantId] else "other"
  }

  /** The index of the first category with id `id`, at or after `from`: what `find` visits. */
  function FindCategory(id: string, from: nat): (r: Option<nat>)
    requires from <= |Categories|
    ensures r.Some? ==> from <= r.value < |Categories| && Categories[r.value].0 == id
    ensures r.Some? ==> forall k :: from <= k < r.value ==> Categories[k].0 != id
    ensures r.None? ==> forall k :: from <= k < |Categories| ==> Categories[k].0 != id
    decreases |Categories| - from
  {
    if from == |Categories| then None
    else if Categories[from].0 == id then Some(from)
    else FindCategory(id, from + 1)
  }

  /** `getCategoryName`: the display name of the category, or `"Boshqa"` for an unknown one. */
  function CategoryName(categoryId: string): (name: string)
    ensures (exists k :: 0 <= k < |Categories| && Categories[k].0 == categoryId) ==>
      exists k :: 0 <= k < |Categories| && Categories[k].0 == categoryId && name == Categories[k].1
    ensures (forall k :: 0 <= k < |Categories| ==> Categories[k].0 != categoryId) ==> name == "Boshqa"
  {
    match FindCategory(categoryId, 0)
    case Some(k) => if Categories[k].1 != "" then Categories[k].1 else "Boshqa"
    case None => "Boshqa"
  }

  /** Every mapped plant has a named category; an unmapped one falls in `"other"`, named `"Boshqa"`. */
  lemma CategoryNamesCovered(plantId: int)
    ensures plantId in CategoryMap ==> CategoryName(CategoryFor(plantId)) != "Boshqa"
    ensures plantId !in CategoryMap ==> CategoryName(CategoryFor(plantId)) == "Boshqa"
  {
    if plantId in CategoryMap {
      var c := CategoryMap[plantId];
      assert c in {"technical", "grain", "vegetable", "legume", "fodder", "melon", "fruit"};
      var k := FindCategory(c, 0).value;
    } else {
      assert forall k :: 0 <= k < |Categories| ==> Categories[k].0 != "other";
    }
  }

  /** `filteredPlants`: every plant when no category is selected, otherwise those of the selected category, in order. */
  function FilteredPlants(plants: seq<Plant>, selected: Option<string>): (r: seq<Plant>)
    ensures |r| <= |plants|
  {
    if plants == [] then []
    else
      var init := FilteredPlants(plants[..|plants| - 1], selected);
      var p := plants[|plants| - 1];
      if selected.None? || CategoryFor(p.id) == selected.value then init + [p] else init
  }

  /** The plants of category `c`, in order. */
  function InCategory(plants: seq<Plant>, c: string): seq<Plant> {
    FilteredPlants(plants, Some(c))
  }

  /** With no category selected the filter keeps every plant. */
  lemma {:induction false} NoSelectionKeepsAll(plants: seq<Plant>)
    ensures FilteredPlants(plants, None) == plants
    decreases |plants|
  {
    if plants != [] {
      NoSelectionKeepsAll(plants[..|plants| - 1]);
    }
  }

  /** A selected category keeps exactly the plants of that category. */
  lemma {:induction false} SelectionMembers(plants: seq<Plant>, c: string)
    ensures forall p :: p in FilteredPlants(plants, Some(c)) <==> p in plants && CategoryFor(p.id) == c
    decreases |plants|
  {
    if plants != [] {
      var init := plants[..|plants| - 1];
      SelectionMembers(init, c);
      assert plants == init + [plants[|plants| - 1]];
    }
  }

  /** `plantsByCategory`: the groups of the reduce accumulator after `plants`. */
  function Groups(plants: seq<Plant>): map<string, seq<Plant>> {
    if plants == [] then map[]
    else
      var acc := Groups(plants[..|plants| - 1]);
      var p := plants[|plants| - 1];
      var c := CategoryFor(p.id);
      acc[c := (if c in acc then acc[c] else []) + [p]]
  }

  /** Each plant lands in exactly one group: the group of its category holds the plants of that category, in order. */
  lemma GroupsByCategory(plants: seq<Plant>)
    ensures forall c :: c in Groups(plants) <==> exists i :: 0 <= i < |plants| && CategoryFor(plants[i].id) == c
    ensures forall c :: c in Groups(plants) ==> Groups(plants)[c] == InCategory(plants, c)
  {
    forall c ensures c in Groups(plants) <==> exists i :: 0 <= i < |plants| && CategoryFor(plants[i].id) == c {
      GroupKey(plants, c);
    }
    forall c | c in Groups(plants) ensures Groups(plants)[c] == InCategory(plants, c) {
      GroupContent(plants, c);
    }
  }

  /** A group exists exactly for the categories some plant belongs to. */
  lemma GroupKey(plants: seq<Plant>, c: string)
    ensures c in Groups(plants) <==> exists i :: 0 <= i < |plants| && CategoryFor(plants[i].id) == c
  {
    if c in Groups(plants) {
      var i := GroupWitness(plants, c);
    }
    if exists i :: 0 <= i < |plants| && CategoryFor(plants[i].id) == c {
      var i :| 0 <= i < |plants| && CategoryFor(plants[i].id) == c;
      GroupHas(plants, i);
    }
  }

  /** Every plant's category has a group. */
  lemma {:induction false} GroupHas(plants: seq<Plant>, i: nat)
    requires i < |plants|
    ensures CategoryFor(plants[i].id) in Groups(plants)
    decreases |plants|
  {
    var init := plants[..|plants| - 1];
    if i < |init| {
      GroupHas(init, i);
      assert init[i] == plants[i];
    }
  }

  /** Every group comes from a plant of its category. */
  lemma {:induction false} GroupWitness(plants: seq<Plant>, c: string) returns (i: nat)
    requires c in Groups(plants)
    ensures i < |plants| && CategoryFor(plants[i].id) == c
    decreases |plants|
  {
    var init, p := plants[..|plants| - 1], plants[|plants| - 1];
    if c == CategoryFor(p.id) {
      i := |plants| - 1;
    } else {
      i := GroupWitness(init, c);
      assert init[i] == plants[i];
    }
  }

  /** The group of a category holds that category's plants, in order. */
  lemma {:induction false} GroupContent(plants: seq<Plant>, c: string)
    requires c in Groups(plants)
    ensures Groups(plants)[c] == InCategory(plants, c)
    decreases |plants|
  {
    var init, p := plants[..|plants| - 1], plants[|plants| - 1];
    var cp := CategoryFor(p.id);
    if c != cp {
      assert c in Groups(init);
      GroupContent(init, c);
    } else if c in Groups(init) {
      GroupContent(init, c);
    } else {
      GroupKey(init, c);
      NoneInCategory(init, c);
    }
  }

  /** No plant of category `c` means the filter for `c` is empty. */
  lemma {:induction false} NoneInCategory(plants: seq<Plant>, c: string)
    requires forall i :: 0 <= i < |plants| ==> CategoryFor(plants[i].id) != c
    ensures InCategory(plants, c) == []
    decreases |plants|
  {
    if plants != [] {
      NoneInCategory(plants[..|plants| - 1], c);
    }
  }

  /** The `reduce` as written: create the group on first sight of its category, then push the plant. */
  method GroupPlants(plants: seq<Plant>) returns (acc: map<string, seq<Plant>>)
    ensures acc == Groups(plants)
  {
    acc := map[];
    var i := 0;
    while i < |plants|
      invariant 0 <= i <= |plants|
      invariant acc == Groups(plants[..i])
    {
      var p := plants[i];
      var category := CategoryFor(p.id);
      if category !in acc {
        acc := acc[category := []];
      }
      acc := acc[category := acc[category] + [p]];
      GroupsStep(plants, i);
      i := i + 1;
    }
    assert plants[..|plants|] == plants;
  }

  /** One step of the `reduce`: the groups after one more plant. */
  lemma GroupsStep(plants: seq<Plant>, i: nat)
    requires i < |plants|
    ensures var acc, c := Groups(plants[..i]), CategoryFor(plants[i].id);
      Groups(plants[..i + 1]) == acc[c := (if c in acc then acc[c] else []) + [plants[i]]]
  {
    var prefix := plants[..i + 1];
    assert prefix[..|prefix| - 1] == plants[..i] && prefix[|prefix| - 1] == plants[i];
  }
}
