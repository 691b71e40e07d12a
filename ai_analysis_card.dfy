// `renderMarkdown` of components/ai-analysis-card.tsx: the AI answer is cut
// into lines, each trimmed line is classified (three heading levels, a bullet,
// a numbered item, a blank line or a paragraph), list items accumulate in an
// open list that every other kind of line flushes, and blank lines collapse
// into single breaks. Inline `**bold**` goes through `processBold`.
module AiAnalysisCard {
  import opened Wrappers
  import opened Text
  import opened Bold
  import opened Markers

  /** The list kinds `listType` can hold besides `null`. */
  datatype ListKind = Ul | Ol

  /** One rendered block: `<h1>`–`<h3>`, `<ul>`/`<ol>` with its items, `<p>` or `<br>`. */
  datatype Element =
    | Heading(level: nat, content: seq<Span>)
    | List(ordered: bool, items: seq<seq<Span>>)
    | Paragraph(content: seq<Span>)
    | Break

  /** The renderer's mutable closure state: the output so far, the open list and its kind. */
  datatype Builder = Builder(elements: seq<Element>, currentList: seq<string>, listType: Option<ListKind>)

  /** The state before the first line. */
  const Start := Builder([], [], None)

  // ---------------------------------------------------------------------------
  // processBold

  /** `processBold`: the exec loop's parts, or the line itself when there are none. */
  function ProcessBold(line: string): seq<Span> {
    var parts := BoldParts(line, 0);
    if |parts| > 0 then parts else [Plain(line)]
  }

  /** `processBold` never returns an empty list and loses nothing: re-inserting the delimiters gives the line back. */
  lemma ProcessBoldRoundTrip(line: string)
    ensures |ProcessBold(line)| >= 1
    ensures Unsplit(ProcessBold(line)) == line
  {
    BoldPartsRoundTrip(line, 0);
    BoldPartsWellFormed(line, 0);
    if BoldParts(line, 0) == [] {
      UnsplitSingle(Plain(line));
    }
  }

  /** `processBold` as written: the exec loop, then the `[line]` fallback. */
  method ProcessBoldScan(line: string) returns (r: seq<Span>)
    ensures r == ProcessBold(line)
  {
    var parts := ScanBold(line);
    if |parts| > 0 {
      r := parts;
    } else {
      r := [Plain(line)];
    }
  }

  /** `currentList.map(processBold)`, item by item. */
  method MapBoldScan(items: seq<string>) returns (r: seq<seq<Span>>)
    ensures r == MapBold(items)
  {
    r := [];
    var i := 0;
    while i < |items|
      invariant 0 <= i <= |items|
      invariant r == MapBold(items[..i])
    {
      var item := ProcessBoldScan(items[i]);
      MapBoldAppend(items[..i], [items[i]]);
      assert items[..i + 1] == items[..i] + [items[i]];
      r := r + [item];
      i := i + 1;
    }
    assert items[..i] == items;
  }

  /** `processBold` applied to every item of a list. */
  function MapBold(items: seq<string>): (r: seq<seq<Span>>)
    ensures |r| == |items|
    ensures forall i :: 0 <= i < |items| ==> r[i] == ProcessBold(items[i])
  {
    seq(|items|, i requires 0 <= i < |items| => ProcessBold(items[i]))
  }

  lemma MapBoldAppend(a: seq<string>, b: seq<string>)
    ensures MapBold(a + b) == MapBold(a) + MapBold(b)
  {
  }

  // ---------------------------------------------------------------------------
  // Line classification

  /** The tests of the `forEach` body, in the order they are tried on the trimmed line. */
  datatype LineKind = H3 | H2 | H1 | Bullet | Numbered | Blank | Para

  /** The kind of a trimmed line: the first test of the `forEach` body that accepts it. */
  function Classify(t: string): LineKind {
    if StartsWith(t, "### ") then H3
    else if StartsWith(t, "## ") then H2
    else if StartsWith(t, "# ") then H1
    else if IsBullet(t) then Bullet
    else if IsNumbered(t) then Numbered
    else if t == "" then Blank
    else Para
  }

  /** `"#### T"` passes none of the three heading tests, nor the list or blank tests: it is a paragraph. */
  lemma FourHashesIsParagraph(t: string)
    requires StartsWith(t, "####")
    ensures Classify(t) == Para
  {
    assert t[0] == '#' && t[1] == '#' && t[2] == '#' && t[3] == '#';
    assert !StartsWith(t, "### ") && !StartsWith(t, "## ") && !StartsWith(t, "# ");
    assert DigitRun(t, 0) == 0;
  }

  /** Heading level of a heading kind, and the length of its marker. */
  function Level(k: LineKind): nat
    requires k == H3 || k == H2 || k == H1
  {
    match k
    case H3 => 3
    case H2 => 2
    case H1 => 1
  }

  function Marker(k: LineKind): string
    requires k == H3 || k == H2 || k == H1
  {
    match k
    case H3 => "### "
    case H2 => "## "
    case H1 => "# "
  }

  /** The items a line contributes to lists: its stripped text for a bullet or numbered line, nothing otherwise. */
  function LineItem(line: string): seq<string> {
    TrimmedItem(Trim(line))
  }

  /** The list item of the trimmed line `t`, if it is a bullet or numbered line. */
  function TrimmedItem(t: string): seq<string> {
    match Classify(t)
    case Bullet => [BulletText(t)]
    case Numbered => [NumberedText(t)]
    case _ => []
  }

  /** The list items of all lines, in line order. */
  function ListTexts(lines: seq<string>): seq<string> {
    if lines == [] then [] else ListTexts(lines[..|lines| - 1]) + LineItem(lines[|lines| - 1])
  }

  // ---------------------------------------------------------------------------
  // The state machine

  /** `flushList`: an open non-empty list becomes an `<ol>` or `<ul>` and the accumulator resets. */
  function Flush(st: Builder): Builder {
    if |st.currentList| > 0 then
      Builder(st.elements + [List(st.listType == Some(Ol), MapBold(st.currentList))], [], None)
    else
      st
  }

  /** A heading line: flush, then push the heading with its marker removed. */
  function OnHeading(st: Builder, k: LineKind, t: string): Builder
    requires k == H3 || k == H2 || k == H1
  {
    var f := Flush(st);
    f.(elements := f.elements + [Heading(Level(k), ProcessBold(ReplaceFirst(t, Marker(k), "")))])
  }

  /** A bullet line: flush, then open a `ul` holding just this item. */
  function OnBullet(st: Builder, t: string): Builder
    requires IsBullet(t)
  {
    var f := Flush(st);
    Builder(f.elements, f.currentList + [BulletText(t)], Some(Ul))
  }

  /** A numbered line: flush only when the open list is not an `ol`, then append the item. */
  function OnNumbered(st: Builder, t: string): Builder
    requires IsNumbered(t)
  {
    var f := if st.listType != Some(Ol) then Flush(st).(listType := Some(Ol)) else st;
    f.(currentList := f.currentList + [NumberedText(t)])
  }

  /** A blank line: flush, then push a break unless the output is empty or already ends with one. */
  function OnBlank(st: Builder): Builder {
    var f := Flush(st);
    if |f.elements| > 0 && f.elements[|f.elements| - 1] != Break then f.(elements := f.elements + [Break]) else f
  }

  /** Any other line: flush, then push a paragraph of the trimmed line. */
  function OnParagraph(st: Builder, t: string): Builder {
    var f := Flush(st);
    f.(elements := f.elements + [Paragraph(ProcessBold(t))])
  }

  /** The body of `lines.forEach` on the trimmed line `t` of kind `k`. */
  function Apply(st: Builder, k: LineKind, t: string): Builder
    requires k == Classify(t)
  {
    match k
    case H3 => OnHeading(st, k, t)
    case H2 => OnHeading(st, k, t)
    case H1 => OnHeading(st, k, t)
    case Bullet => OnBullet(st, t)
    case Numbered => OnNumbered(st, t)
    case Blank => OnBlank(st)
    case Para => OnParagraph(st, t)
  }

  /** The body of `lines.forEach`. */
  function Step(st: Builder, line: string): Builder {
    Apply(st, Classify(Trim(line)), Trim(line))
  }

  /** The state after the `forEach` has visited `lines`. */
  function Fold(lines: seq<string>): Builder {
    if lines == [] then Start else Step(Fold(lines[..|lines| - 1]), lines[|lines| - 1])
  }

  /** The elements for the lines: the fold, then the final `flushList()`. */
  function RenderLines(lines: seq<string>): seq<Element> {
    Flush(Fold(lines)).elements
  }

  /** `renderMarkdown(text)`: `null` for the empty string, otherwise the elements of its `"\n"`-separated lines. */
  function Render(text: string): Option<seq<Element>> {
    if text == "" then None else Some(RenderLines(Lines(text)))
  }

  // ---------------------------------------------------------------------------
  // Headings

  /** A heading line's text is the trimmed line without its marker, through `processBold`, after the open list is flushed. */
  lemma HeadingStep(st: Builder, line: string)
    requires var k := Classify(Trim(line)); k == H3 || k == H2 || k == H1
    ensures var k := Classify(Trim(line));
      Step(st, line).elements == Flush(st).elements + [Heading(Level(k), ProcessBold(Trim(line)[|Marker(k)|..]))]
  {
    var t := Trim(line);
    var k := Classify(t);
    MarkerRemoved(t, k);
    assert Step(st, line) == OnHeading(st, k, t);
  }

  /** The heading test passed, so the marker's first occurrence is at the start and `replace` drops it. */
  lemma MarkerRemoved(t: string, k: LineKind)
    requires k == Classify(t) && (k == H3 || k == H2 || k == H1)
    ensures ReplaceFirst(t, Marker(k), "") == t[|Marker(k)|..]
  {
    var p := Marker(k);
    assert OccursAt(t, p, 0);
    ReplaceFirstAt(t, p, "", 0);
  }

  // ---------------------------------------------------------------------------
  // Blank lines and paragraphs

  /** A blank line flushes the open list, then pushes one break only when the output so far ends with something other than a break. */
  lemma BlankStep(st: Builder, line: string)
    requires Classify(Trim(line)) == Blank
    ensures var f := Flush(st);
      && Step(st, line).elements == f.elements + (if |f.elements| > 0 && f.elements[|f.elements| - 1] != Break then [Break] else [])
      && Step(st, line).currentList == [] && Step(st, line).listType == (if |st.currentList| > 0 then None else st.listType)
  {
    assert Step(st, line) == OnBlank(st);
  }

  /** Any other line flushes the open list, then pushes a paragraph of the trimmed line through `processBold`. */
  lemma ParagraphStep(st: Builder, line: string)
    requires Classify(Trim(line)) == Para
    ensures Step(st, line).elements == Flush(st).elements + [Paragraph(ProcessBold(Trim(line)))]
    ensures Step(st, line).currentList == []
  {
    assert Step(st, line) == OnParagraph(st, Trim(line));
    assert Classify(Trim(line)) != Blank;
  }

  /** A `#### T` line is a paragraph of the whole trimmed line, hashes included. */
  lemma FourHashesStep(st: Builder, line: string)
    requires StartsWith(Trim(line), "####")
    ensures Step(st, line).elements == Flush(st).elements + [Paragraph(ProcessBold(Trim(line)))]
  {
    FourHashesIsParagraph(Trim(line));
    ParagraphStep(st, line);
  }

  /** Every line is blank once trimmed. */
  predicate AllBlank(lines: seq<string>) {
    forall i :: 0 <= i < |lines| ==> Classify(Trim(lines[i])) == Blank
  }

  /** A second blank line changes nothing: the first already flushed and either pushed a break or had nothing to follow. */
  lemma BlankIdempotent(st: Builder)
    ensures OnBlank(OnBlank(st)) == OnBlank(st)
  {
    var f := Flush(st);
    assert f.currentList == [];
    assert Flush(OnBlank(st)) == OnBlank(st);
  }

  /** A run of blank lines acts as one blank line. */
  lemma {:induction false} BlankRunFold(prefix: seq<string>, blanks: seq<string>)
    requires |blanks| >= 1 && AllBlank(blanks)
    ensures Fold(prefix + blanks) == OnBlank(Fold(prefix))
    decreases |blanks|
  {
    var init, last := blanks[..|blanks| - 1], blanks[|blanks| - 1];
    var before := prefix + init;
    assert blanks == init + [last];
    assert before + [last] == prefix + blanks;
    FoldAppend(before, last);
    AllBlankInit(blanks);
    BlankIsOnBlank(Fold(before), last);
    if init == [] {
      assert before == prefix;
    } else {
      BlankRunFold(prefix, init);
      BlankIdempotent(Fold(prefix));
    }
  }

  lemma BlankIsOnBlank(st: Builder, line: string)
    requires Classify(Trim(line)) == Blank
    ensures Step(st, line) == OnBlank(st)
  {
  }

  lemma AllBlankInit(lines: seq<string>)
    requires |lines| >= 1 && AllBlank(lines)
    ensures AllBlank(lines[..|lines| - 1]) && Classify(Trim(lines[|lines| - 1])) == Blank
  {
    var init := lines[..|lines| - 1];
    forall i | 0 <= i < |init| ensures Classify(Trim(init[i])) == Blank {
      assert init[i] == lines[i];
    }
  }

  /** The fold after one more line is that line's step. */
  lemma FoldAppend(lines: seq<string>, line: string)
    ensures Fold(lines + [line]) == Step(Fold(lines), line)
  {
    assert (lines + [line])[..|lines|] == lines;
  }

  /**
   * Content, then one or more blank lines, then a paragraph line: the blank run
   * renders as at most one break, and as exactly one when the output so far
   * ends with something other than a break.
   */
  lemma BlankRunRenders(prefix: seq<string>, blanks: seq<string>, next: string)
    requires |blanks| >= 1 && AllBlank(blanks)
    requires Classify(Trim(next)) == Para
    ensures var e := Flush(Fold(prefix)).elements;
      RenderLines(prefix + blanks + [next])
        == e + (if |e| > 0 && e[|e| - 1] != Break then [Break] else []) + [Paragraph(ProcessBold(Trim(next)))]
  {
    var e := Flush(Fold(prefix)).elements;
    FoldAppend(prefix + blanks, next);
    BlankRunFold(prefix, blanks);
    var b := OnBlank(Fold(prefix));
    assert b.elements == e + (if |e| > 0 && e[|e| - 1] != Break then [Break] else []);
    assert b.currentList == [] && Flush(b) == b;
    var r := Step(b, next);
    ParagraphStep(b, next);
    assert r.currentList == [] && Flush(r) == r;
  }

  // ---------------------------------------------------------------------------
  // Invariants of the state machine

  /** The open list is empty exactly when `listType` is null, and an open `ul` holds one item. */
  predicate Good(st: Builder) {
    && (st.listType.None? <==> st.currentList == [])
    && (st.listType == Some(Ul) ==> |st.currentList| == 1)
  }

  /** Every list has at least one item, and every unordered list exactly one. */
  predicate ListsShaped(es: seq<Element>) {
    forall i :: 0 <= i < |es| && es[i].List? ==> |es[i].items| >= 1 && (!es[i].ordered ==> |es[i].items| == 1)
  }

  /** The output never starts with a break and never holds two breaks in a row. */
  predicate BreaksCollapsed(es: seq<Element>) {
    && (es != [] ==> es[0] != Break)
    && (forall i :: 0 <= i < |es| - 1 ==> !(es[i] == Break && es[i + 1] == Break))
  }

  predicate Invariant(st: Builder) {
    Good(st) && ListsShaped(st.elements) && BreaksCollapsed(st.elements)
  }

  /** Pushing an element that is not a break keeps the breaks collapsed. */
  lemma PushNonBreak(es: seq<Element>, e: Element)
    requires BreaksCollapsed(es) && e != Break
    ensures BreaksCollapsed(es + [e])
  {
    var r := es + [e];
    forall i | 0 <= i < |r| - 1 ensures !(r[i] == Break && r[i + 1] == Break) {
      if i + 1 < |es| {
        assert r[i] == es[i] && r[i + 1] == es[i + 1];
      }
    }
  }

  /** Pushing a break after a non-break element keeps the breaks collapsed. */
  lemma PushBreak(es: seq<Element>)
    requires BreaksCollapsed(es) && es != [] && es[|es| - 1] != Break
    ensures BreaksCollapsed(es + [Break])
  {
    var r := es + [Break];
    forall i | 0 <= i < |r| - 1 ensures !(r[i] == Break && r[i + 1] == Break) {
      if i + 1 < |es| {
        assert r[i] == es[i] && r[i + 1] == es[i + 1];
      }
    }
  }

  /** Pushing anything but a list keeps the lists shaped. */
  lemma PushShaped(es: seq<Element>, e: Element)
    requires ListsShaped(es)
    requires e.List? ==> |e.items| >= 1 && (!e.ordered ==> |e.items| == 1)
    ensures ListsShaped(es + [e])
  {
    var r := es + [e];
    forall i | 0 <= i < |r| && r[i].List? ensures |r[i].items| >= 1 && (!r[i].ordered ==> |r[i].items| == 1) {
      if i < |es| {
        assert r[i] == es[i];
      }
    }
  }

  /** `flushList` keeps the invariant and always leaves an empty accumulator with a null `listType`. */
  lemma FlushInvariant(st: Builder)
    requires Invariant(st)
    ensures Invariant(Flush(st))
    ensures Flush(st).currentList == [] && Flush(st).listType == None
  {
    if |st.currentList| > 0 {
      var e := List(st.listType == Some(Ol), MapBold(st.currentList));
      assert st.currentList != [];
      assert st.listType.Some?;
      assert st.listType != Some(Ol) ==> st.listType.value == Ul;
      PushNonBreak(st.elements, e);
      PushShaped(st.elements, e);
    }
  }

  /** Every line keeps the invariant. */
  lemma StepInvariant(st: Builder, line: string)
    requires Invariant(st)
    ensures Invariant(Step(st, line))
  {
    ApplyInvariant(st, Trim(line));
  }

  lemma ApplyInvariant(st: Builder, t: string)
    requires Invariant(st)
    ensures Invariant(Apply(st, Classify(t), t))
  {
    var k := Classify(t);
    FlushInvariant(st);
    var f := Flush(st);
    match k
    case H3 => PushOther(f, Heading(3, ProcessBold(ReplaceFirst(t, Marker(k), ""))));
    case H2 => PushOther(f, Heading(2, ProcessBold(ReplaceFirst(t, Marker(k), ""))));
    case H1 => PushOther(f, Heading(1, ProcessBold(ReplaceFirst(t, Marker(k), ""))));
    case Bullet =>
    case Numbered =>
    case Blank => BlankInvariant(st);
    case Para => PushOther(f, Paragraph(ProcessBold(t)));
  }

  /** Pushing a heading or a paragraph onto a flushed state keeps the invariant. */
  lemma PushOther(f: Builder, e: Element)
    requires Invariant(f) && f.currentList == [] && (e.Heading? || e.Paragraph?)
    ensures Invariant(f.(elements := f.elements + [e]))
  {
    PushNonBreak(f.elements, e);
    PushShaped(f.elements, e);
  }

  lemma BlankInvariant(st: Builder)
    requires Invariant(st)
    ensures Invariant(OnBlank(st))
  {
    FlushInvariant(st);
    var f := Flush(st);
    if |f.elements| > 0 && f.elements[|f.elements| - 1] != Break {
      PushBreak(f.elements);
      PushShaped(f.elements, Break);
    }
  }

  lemma {:induction false} FoldInvariant(lines: seq<string>)
    ensures Invariant(Fold(lines))
    decreases |lines|
  {
    if lines != [] {
      FoldInvariant(lines[..|lines| - 1]);
      StepInvariant(Fold(lines[..|lines| - 1]), lines[|lines| - 1]);
    }
  }

  /**
   * Shape of the output: no leading break, no two breaks in a row, every list
   * non-empty and every unordered list a single item.
   */
  lemma RenderShape(lines: seq<string>)
    ensures BreaksCollapsed(RenderLines(lines))
    ensures ListsShaped(RenderLines(lines))
  {
    FoldInvariant(lines);
    FlushInvariant(Fold(lines));
  }

  // ---------------------------------------------------------------------------
  // Conservation of list items

  /** The items of all lists among the elements, in order. */
  function ListItems(es: seq<Element>): seq<seq<Span>> {
    if es == [] then []
    else ListItems(es[..|es| - 1]) + (if es[|es| - 1].List? then es[|es| - 1].items else [])
  }

  lemma ListItemsPush(es: seq<Element>, e: Element)
    ensures ListItems(es + [e]) == ListItems(es) + (if e.List? then e.items else [])
  {
    assert (es + [e])[..|es|] == es;
  }

  /** The items emitted so far followed by the open list. */
  function Pending(st: Builder): seq<seq<Span>> {
    ListItems(st.elements) + MapBold(st.currentList)
  }

  /** `flushList` moves the open list into the output without losing or reordering items. */
  lemma FlushPending(st: Builder)
    ensures Pending(Flush(st)) == Pending(st)
  {
    if |st.currentList| > 0 {
      var e := List(st.listType == Some(Ol), MapBold(st.currentList));
      ListItemsPush(st.elements, e);
    }
  }

  /** Each line adds exactly its own list item, if any, after the pending ones. */
  lemma StepPending(st: Builder, line: string)
    ensures Pending(Step(st, line)) == Pending(st) + MapBold(LineItem(line))
  {
    ApplyPending(st, Trim(line));
  }

  lemma ApplyPending(st: Builder, t: string)
    ensures Pending(Apply(st, Classify(t), t)) == Pending(st) + MapBold(TrimmedItem(t))
  {
    var k := Classify(t);
    match k
    case H3 => HeadingPending(st, k, t);
    case H2 => HeadingPending(st, k, t);
    case H1 => HeadingPending(st, k, t);
    case Bullet => BulletPending(st, t);
    case Numbered => NumberedPending(st, t);
    case Blank => BlankPending(st);
    case Para => ParagraphPending(st, t);
  }

  lemma HeadingPending(st: Builder, k: LineKind, t: string)
    requires k == H3 || k == H2 || k == H1
    ensures Pending(OnHeading(st, k, t)) == Pending(st)
  {
    FlushPending(st);
    PushPending(Flush(st), Heading(Level(k), ProcessBold(ReplaceFirst(t, Marker(k), ""))));
  }

  lemma ParagraphPending(st: Builder, t: string)
    ensures Pending(OnParagraph(st, t)) == Pending(st)
  {
    FlushPending(st);
    PushPending(Flush(st), Paragraph(ProcessBold(t)));
  }

  lemma BulletPending(st: Builder, t: string)
    requires IsBullet(t)
    ensures Pending(OnBullet(st, t)) == Pending(st) + MapBold([BulletText(t)])
  {
    FlushPending(st);
    MapBoldAppend(Flush(st).currentList, [BulletText(t)]);
  }

  lemma PushPending(f: Builder, e: Element)
    requires !e.List?
    ensures Pending(f.(elements := f.elements + [e])) == Pending(f)
  {
    ListItemsPush(f.elements, e);
  }

  lemma NumberedPending(st: Builder, t: string)
    requires IsNumbered(t)
    ensures Pending(OnNumbered(st, t)) == Pending(st) + MapBold([NumberedText(t)])
  {
    if st.listType != Some(Ol) {
      FlushPending(st);
      var f := Flush(st);
      MapBoldAppend(f.currentList, [NumberedText(t)]);
      assert OnNumbered(st, t).elements == f.elements;
      assert OnNumbered(st, t).currentList == f.currentList + [NumberedText(t)];
    } else {
      MapBoldAppend(st.currentList, [NumberedText(t)]);
    }
  }

  lemma BlankPending(st: Builder)
    ensures Pending(OnBlank(st)) == Pending(st)
  {
    FlushPending(st);
    var f := Flush(st);
    if |f.elements| > 0 && f.elements[|f.elements| - 1] != Break {
      PushPending(f, Break);
    }
  }

  lemma {:induction false} FoldPending(lines: seq<string>)
    ensures Pending(Fold(lines)) == MapBold(ListTexts(lines))
    decreases |lines|
  {
    if lines != [] {
      var init, last := lines[..|lines| - 1], lines[|lines| - 1];
      FoldPending(init);
      StepPending(Fold(init), last);
      MapBoldAppend(ListTexts(init), LineItem(last));
    }
  }

  /**
   * No list item is lost and items keep input order: the items of all rendered
   * lists are, in order, the stripped bullet and numbered lines through `processBold`.
   */
  lemma ItemsConserved(lines: seq<string>)
    ensures ListItems(RenderLines(lines)) == MapBold(ListTexts(lines))
  {
    FoldPending(lines);
    FlushPending(Fold(lines));
    FoldInvariant(lines);
    FlushInvariant(Fold(lines));
  }

  // ---------------------------------------------------------------------------
  // Runs of list lines

  /** Every line is a numbered item once trimmed. */
  predicate AllNumbered(lines: seq<string>) {
    forall i :: 0 <= i < |lines| ==> Classify(Trim(lines[i])) == Numbered
  }

  /** Every line is a bullet item once trimmed. */
  predicate AllBullets(lines: seq<string>) {
    forall i :: 0 <= i < |lines| ==> Classify(Trim(lines[i])) == Bullet
  }

  /** The fold over a non-empty list of lines is the step of its last line after the fold of the others. */
  lemma FoldLast(lines: seq<string>)
    requires |lines| >= 1
    ensures Fold(lines) == Step(Fold(lines[..|lines| - 1]), lines[|lines| - 1])
  {
  }

  /** A trimmed numbered line contributes its stripped text as its list item. */
  lemma NumberedItem(t: string)
    requires Classify(t) == Numbered
    ensures IsNumbered(t) && TrimmedItem(t) == [NumberedText(t)]
  {
  }

  /** A trimmed bullet line contributes its stripped text as its list item. */
  lemma BulletItem(t: string)
    requires Classify(t) == Bullet
    ensures IsBullet(t) && TrimmedItem(t) == [BulletText(t)]
  {
  }

  /** The lines before the last of an all-numbered run are all numbered too. */
  lemma AllNumberedInit(lines: seq<string>)
    requires lines != [] && AllNumbered(lines)
    ensures AllNumbered(lines[..|lines| - 1])
    ensures Classify(Trim(lines[|lines| - 1])) == Numbered
  {
    var init := lines[..|lines| - 1];
    forall i | 0 <= i < |init| ensures Classify(Trim(init[i])) == Numbered {
      assert init[i] == lines[i];
    }
  }

  /** A numbered line joins an open `ol` without flushing; from any other state, an open `ul` included, it flushes first and opens an `ol` with its item. */
  lemma NumberedStep(st: Builder, line: string)
    requires Classify(Trim(line)) == Numbered
    ensures st.listType == Some(Ol) ==> Step(st, line) == st.(currentList := st.currentList + LineItem(line))
    ensures st.listType != Some(Ol) ==>
      Step(st, line) == Builder(Flush(st).elements, Flush(st).currentList + LineItem(line), Some(Ol))
  {
    var t := Trim(line);
    NumberedItem(t);
    assert Apply(st, Classify(t), t) == OnNumbered(st, t);
  }

  /** A bullet line then a numbered line: the open `ul` is flushed before the `ol` opens, giving two lists. */
  lemma BulletThenNumbered(bullet: string, numbered: string)
    requires Classify(Trim(bullet)) == Bullet && Classify(Trim(numbered)) == Numbered
    ensures RenderLines([bullet, numbered])
      == [List(false, MapBold(LineItem(bullet))), List(true, MapBold(LineItem(numbered)))]
  {
    BulletItem(Trim(bullet));
    NumberedItem(Trim(numbered));
    FoldAppend([], bullet);
    FoldAppend([bullet], numbered);
    assert [] + [bullet] == [bullet] && [bullet] + [numbered] == [bullet, numbered];
    BulletStep(Start, bullet);
    var b := Fold([bullet]);
    assert b == Builder([], LineItem(bullet), Some(Ul));
    NumberedStep(b, numbered);
    var n := Fold([bullet, numbered]);
    assert n == Builder([List(false, MapBold(LineItem(bullet)))], LineItem(numbered), Some(Ol));
  }

  /** While only numbered lines come, they accumulate in one open ordered list and nothing is emitted. */
  lemma {:induction false} NumberedRunFold(lines: seq<string>)
    requires |lines| >= 1 && AllNumbered(lines)
    ensures Fold(lines) == Builder([], ListTexts(lines), Some(Ol))
    decreases |lines|
  {
    var init, last := lines[..|lines| - 1], lines[|lines| - 1];
    FoldLast(lines);
    AllNumberedInit(lines);
    if |init| >= 1 {
      NumberedRunFold(init);
    } else {
      assert Fold(init) == Start && ListTexts(init) == [];
      assert Flush(Start) == Start;
    }
    NumberedStep(Fold(init), last);
  }

  /** Numbered lines each contribute exactly one list item. */
  lemma {:induction false} NumberedCount(lines: seq<string>)
    requires AllNumbered(lines)
    ensures |ListTexts(lines)| == |lines|
    decreases |lines|
  {
    if lines != [] {
      AllNumberedInit(lines);
      NumberedCount(lines[..|lines| - 1]);
      NumberedItem(Trim(lines[|lines| - 1]));
    }
  }

  /**
   * Consecutive numbered lines render as a single ordered list holding all
   * their items in order, one stripped text per line.
   */
  lemma NumberedRunRenders(lines: seq<string>)
    requires |lines| >= 1 && AllNumbered(lines)
    ensures RenderLines(lines) == [List(true, MapBold(ListTexts(lines)))]
  {
    NumberedRunFold(lines);
    NumberedCount(lines);
  }

  /** One single-item unordered list per line, holding the line's bullet text. */
  function BulletLists(lines: seq<string>): seq<Element> {
    if lines == [] then [] else BulletLists(lines[..|lines| - 1]) + [List(false, MapBold(LineItem(lines[|lines| - 1])))]
  }

  /** The lines before the last of an all-bullet run are all bullets too. */
  lemma AllBulletsInit(lines: seq<string>)
    requires lines != [] && AllBullets(lines)
    ensures AllBullets(lines[..|lines| - 1])
    ensures Classify(Trim(lines[|lines| - 1])) == Bullet
  {
    var init := lines[..|lines| - 1];
    forall i | 0 <= i < |init| ensures Classify(Trim(init[i])) == Bullet {
      assert init[i] == lines[i];
    }
  }

  /** A bullet line flushes the open list and opens a `ul` with its own item. */
  lemma BulletStep(st: Builder, line: string)
    requires Classify(Trim(line)) == Bullet
    ensures Step(st, line) == Builder(Flush(st).elements, Flush(st).currentList + LineItem(line), Some(Ul))
  {
    var t := Trim(line);
    BulletItem(t);
    assert Apply(st, Classify(t), t) == OnBullet(st, t);
  }

  /** Each bullet flushes the previous one, so only the last bullet is still open. */
  lemma {:induction false} BulletRunFold(lines: seq<string>)
    requires |lines| >= 1 && AllBullets(lines)
    ensures Fold(lines) == Builder(BulletLists(lines[..|lines| - 1]), LineItem(lines[|lines| - 1]), Some(Ul))
    decreases |lines|
  {
    var init, last := lines[..|lines| - 1], lines[|lines| - 1];
    FoldLast(lines);
    AllBulletsInit(lines);
    if |init| >= 1 {
      BulletRunFold(init);
      BulletItem(Trim(init[|init| - 1]));
    } else {
      assert Fold(init) == Start;
    }
    BulletStep(Fold(init), last);
  }

  /** Consecutive bullet lines render as one single-item unordered list each. */
  lemma BulletRunRenders(lines: seq<string>)
    requires |lines| >= 1 && AllBullets(lines)
    ensures RenderLines(lines) == BulletLists(lines)
  {
    BulletRunFold(lines);
    BulletItem(Trim(lines[|lines| - 1]));
  }

  // ---------------------------------------------------------------------------
  // The closure state as an object

  /** The locals `elements`, `currentList` and `listType` that `renderMarkdown`'s inner functions update. */
  class Renderer {
    var elements: seq<Element>
    var currentList: seq<string>
    var listType: Option<ListKind>

    function State(): Builder
      reads this
    {
      Builder(elements, currentList, listType)
    }

    constructor ()
      ensures State() == Start
    {
      elements, currentList, listType := [], [], None;
    }

    /** `flushList`: each item goes through `processBold`, the list is pushed, and the accumulator resets. */
    method FlushList()
      modifies this
      ensures State() == Flush(old(State()))
    {
      if |currentList| > 0 {
        var items := MapBoldScan(currentList);
        elements := elements + [List(listType == Some(Ol), items)];
        currentList := [];
        listType := None;
      }
    }

    /** The body of `lines.forEach` for one line. */
    method AddLine(line: string)
      modifies this
      ensures State() == Step(old(State()), line)
    {
      AddTrimmed(Trim(line));
    }

    /** The body of `lines.forEach` once the line is trimmed: dispatch on the line's kind. */
    method AddTrimmed(t: string)
      modifies this
      ensures State() == Apply(old(State()), Classify(t), t)
    {
      var k := Classify(t);
      if k == H3 || k == H2 || k == H1 {
        FlushList();
        var content := ProcessBoldScan(ReplaceFirst(t, Marker(k), ""));
        elements := elements + [Heading(Level(k), content)];
      } else if k == Bullet {
        FlushList();
        listType := Some(Ul);
        currentList := currentList + [BulletText(t)];
      } else if k == Numbered {
        if listType != Some(Ol) {
          FlushList();
          listType := Some(Ol);
        }
        currentList := currentList + [NumberedText(t)];
      } else if k == Blank {
        FlushList();
        if |elements| > 0 && elements[|elements| - 1] != Break {
          elements := elements + [Break];
        }
      } else {
        FlushList();
        var content := ProcessBoldScan(t);
        elements := elements + [Paragraph(content)];
      }
    }
  }

  /** `renderMarkdown` as written: split, walk the lines updating the closure state, flush. */
  method RenderMarkdown(text: string) returns (r: Option<seq<Element>>)
    ensures r == Render(text)
  {
    if text == "" {
      return None;
    }
    var lines := Lines(text);
    var renderer := new Renderer();
    var i := 0;
    while i < |lines|
      invariant 0 <= i <= |lines|
      invariant renderer.State() == Fold(lines[..i])
    {
      FoldLast(lines[..i + 1]);
      assert lines[..i + 1][..i] == lines[..i];
      renderer.AddLine(lines[i]);
      i := i + 1;
    }
    assert lines[..i] == lines;
    renderer.FlushList();
    r := Some(renderer.elements);
  }
}
