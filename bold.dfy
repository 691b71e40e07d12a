// The inline bold splitter that components/ai-analysis-card.tsx and
// components/pages/crop-recommendation-page.tsx both write out: a loop over
// `/\*\*(.*?)\*\*/g.exec(line)` that pushes the plain text before each match,
// the captured inner text as a bold span, and the plain text after the last match.
module Bold {
  import opened Wrappers
  import opened Text

  /** One inline piece of a rendered line. */
  datatype Span = Plain(text: string) | Strong(text: string)

  /** A `**` delimiter starts at index `i`. */
  predicate DelimAt(s: string, i: nat) {
    i + 2 <= |s| && s[i] == '*' && s[i + 1] == '*'
  }

  /**
   * The lazy tail `(.*?)\*\*` of the pattern, tried from index `j`: the first
   * `**` at or after `j`, provided no line terminator (which `.` does not
   * match) comes before it.
   */
  function CloseFrom(s: string, j: nat): (r: Option<nat>)
    requires j <= |s|
    ensures r.Some? ==> j <= r.value && DelimAt(s, r.value)
    decreases |s| - j
  {
    if j + 2 > |s| then None
    else if DelimAt(s, j) then Some(j)
    else if IsLineTerminator(s[j]) then None
    else CloseFrom(s, j + 1)
  }

  /** The closing delimiter found is the first one, and the text before it stays on one line. */
  lemma {:induction false} CloseFromFirst(s: string, j: nat)
    requires j <= |s|
    ensures CloseFrom(s, j).Some? ==> forall k :: j <= k < CloseFrom(s, j).value ==> !IsLineTerminator(s[k])
    ensures CloseFrom(s, j).Some? ==> forall k :: j <= k < CloseFrom(s, j).value ==> !DelimAt(s, k)
    decreases |s| - j
  {
    if j + 2 <= |s| && !DelimAt(s, j) && !IsLineTerminator(s[j]) {
      CloseFromFirst(s, j + 1);
    }
  }

  /** The pattern matches at `m`: an opening `**` there that has a closing `**`. */
  predicate MatchesAt(s: string, m: nat) {
    DelimAt(s, m) && CloseFrom(s, m + 2).Some?
  }

  /**
   * `exec` from index `p`: the leftmost match at or after `p`, as the index of
   * its opening delimiter and the index of its closing delimiter.
   */
  function MatchFrom(s: string, p: nat): (r: Option<(nat, nat)>)
    requires p <= |s|
    ensures r.Some? ==> p <= r.value.0 && MatchesAt(s, r.value.0) && CloseFrom(s, r.value.0 + 2) == Some(r.value.1)
    ensures r.Some? ==> r.value.0 + 2 <= r.value.1 && r.value.1 + 2 <= |s|
    decreases |s| - p
  {
    if p + 2 > |s| then None
    else if MatchesAt(s, p) then Some((p, CloseFrom(s, p + 2).value))
    else MatchFrom(s, p + 1)
  }

  /** The match `exec` reports is the leftmost one, and no match means none at all. */
  lemma {:induction false} MatchFromLeftmost(s: string, p: nat)
    requires p <= |s|
    ensures MatchFrom(s, p).Some? ==> forall m :: p <= m < MatchFrom(s, p).value.0 ==> !MatchesAt(s, m)
    ensures MatchFrom(s, p).None? ==> forall m :: p <= m ==> !MatchesAt(s, m)
    decreases |s| - p
  {
    if p + 2 <= |s| && !MatchesAt(s, p) {
      MatchFromLeftmost(s, p + 1);
    }
  }

  /** Where the exec loop resumes after the match found from `from`: just past its closing delimiter. */
  function Resume(s: string, from: nat): (next: nat)
    requires from <= |s| && MatchFrom(s, from).Some?
    ensures from < next <= |s|
  {
    MatchFrom(s, from).value.1 + 2
  }

  /** The plain gap before a match, when non-empty. */
  function Gap(s: string, from: nat, m: nat): seq<Span>
    requires from <= m <= |s|
  {
    if m > from then [Plain(s[from..m])] else []
  }

  /** The parts the exec step from `from` pushes: the plain gap (when non-empty) and the bold text. */
  function Piece(s: string, from: nat): seq<Span>
    requires from <= |s| && MatchFrom(s, from).Some?
  {
    var m, c := MatchFrom(s, from).value.0, MatchFrom(s, from).value.1;
    Gap(s, from, m) + [Strong(s[m + 2..c])]
  }

  /** The parts the exec loop pushes when it resumes at index `from`. */
  function BoldParts(s: string, from: nat): seq<Span>
    requires from <= |s|
    decreases |s| - from
  {
    if MatchFrom(s, from).None? then
      (if from < |s| then [Plain(s[from..])] else [])
    else
      Piece(s, from) + BoldParts(s, Resume(s, from))
  }

  /** The source text of spans: plain text as is, bold text inside its `**` delimiters. */
  function Unsplit(spans: seq<Span>): string {
    if spans == [] then ""
    else
      (match spans[0]
       case Plain(t) => t
       case Strong(t) => "**" + t + "**") + Unsplit(spans[1..])
  }

  lemma {:induction false} UnsplitAppend(a: seq<Span>, b: seq<Span>)
    ensures Unsplit(a + b) == Unsplit(a) + Unsplit(b)
    decreases |a|
  {
    if a == [] {
      assert a + b == b;
    } else {
      assert (a + b)[0] == a[0];
      assert (a + b)[1..] == a[1..] + b;
      UnsplitAppend(a[1..], b);
    }
  }

  /** Two runs of spans whose source texts are `x` and `y` join into one whose source text is `x + y`. */
  lemma UnsplitJoin(e: seq<Span>, a: seq<Span>, b: seq<Span>, x: string, y: string, z: string)
    requires e == a + b && Unsplit(a) == x && Unsplit(b) == y && x + y == z
    ensures Unsplit(e) == z
  {
    UnsplitAppend(a, b);
  }

  /** The source text of one span. */
  function SpanText(x: Span): string {
    match x
    case Plain(t) => t
    case Strong(t) => "**" + t + "**"
  }

  lemma UnsplitSingle(x: Span)
    ensures Unsplit([x]) == SpanText(x)
  {
    assert [x][1..] == [];
  }

  /** One step of the exec loop: the parts from `from` are the gap, the bold text and the parts after the match. */
  /** The text one exec step consumes: the gap before the match and the match with its delimiters. */
  lemma UnsplitStep(s: string, from: nat)
    requires from <= |s| && MatchFrom(s, from).Some?
    ensures Unsplit(Piece(s, from)) == s[from..Resume(s, from)]
  {
    var m, c := MatchFrom(s, from).value.0, MatchFrom(s, from).value.1;
    var gap, inner := Gap(s, from, m), s[m + 2..c];
    UnsplitAppend(gap, [Strong(inner)]);
    UnsplitSingle(Strong(inner));
    GapText(s, from, m);
    DelimitedSlice(s, from, m, c);
  }

  lemma GapText(s: string, from: nat, m: nat)
    requires from <= m <= |s|
    ensures Unsplit(Gap(s, from, m)) == s[from..m]
  {
    if m > from {
      UnsplitSingle(Plain(s[from..m]));
    }
  }

  /** The text from `from` through a delimited match is the gap, then the delimiters around the inner text. */
  lemma DelimitedSlice(s: string, from: nat, m: nat, c: nat)
    requires from <= m && m + 2 <= c && c + 2 <= |s| && DelimAt(s, m) && DelimAt(s, c)
    ensures s[from..c + 2] == s[from..m] + ("**" + s[m + 2..c] + "**")
  {
    SliceSplit(s, from, m, c + 2);
    SliceSplit(s, m, m + 2, c + 2);
    SliceSplit(s, m + 2, c, c + 2);
    assert s[m..m + 2] == "**";
    assert s[c..c + 2] == "**";
    ConcatAssoc("**", s[m + 2..c], "**");
  }

  /**
   * Re-inserting the delimiters around the bold spans gives back the line:
   * nothing is lost, duplicated or reordered, and an unmatched `**` stays in
   * the plain text.
   */
  lemma {:induction false} BoldPartsRoundTrip(s: string, from: nat)
    requires from <= |s|
    ensures Unsplit(BoldParts(s, from)) == s[from..]
    decreases |s| - from
  {
    if MatchFrom(s, from).None? {
      RoundTripLast(s, from);
    } else {
      BoldPartsRoundTrip(s, Resume(s, from));
      RoundTripStep(s, from);
    }
  }

  /** The last step of the round trip: no match left, the rest of the line is plain. */
  lemma RoundTripLast(s: string, from: nat)
    requires from <= |s| && MatchFrom(s, from).None?
    ensures Unsplit(BoldParts(s, from)) == s[from..]
  {
    if from < |s| {
      UnsplitSingle(Plain(s[from..]));
    }
  }

  /** The inductive step of the round trip: one exec step, then the rest of the line. */
  lemma RoundTripStep(s: string, from: nat)
    requires from <= |s| && MatchFrom(s, from).Some?
    requires Unsplit(BoldParts(s, Resume(s, from))) == s[Resume(s, from)..]
    ensures Unsplit(BoldParts(s, from)) == s[from..]
  {
    var next := Resume(s, from);
    UnsplitStep(s, from);
    SliceConcat(s, from, next);
    UnsplitJoin(BoldParts(s, from), Piece(s, from), BoldParts(s, next), s[from..next], s[next..], s[from..]);
  }

  /** A bold span's text holds no `**` and stays on one line; a plain span is never empty. */
  predicate GoodSpan(x: Span) {
    match x
    case Plain(t) => t != ""
    case Strong(t) => !Contains(t, "**") && forall k :: 0 <= k < |t| ==> !IsLineTerminator(t[k])
  }

  /** Shape of the parts: every span is good and no two plain spans are adjacent. */
  predicate WellFormed(spans: seq<Span>) {
    && (forall i :: 0 <= i < |spans| ==> GoodSpan(spans[i]))
    && (forall i :: 0 <= i < |spans| - 1 ==> !(spans[i].Plain? && spans[i + 1].Plain?))
  }

  lemma WellFormedAppend(a: seq<Span>, b: seq<Span>)
    requires WellFormed(a) && WellFormed(b)
    requires a != [] && b != [] ==> !(a[|a| - 1].Plain? && b[0].Plain?)
    ensures WellFormed(a + b)
  {
    forall i | 0 <= i < |a + b| - 1
      ensures !((a + b)[i].Plain? && (a + b)[i + 1].Plain?)
    {
      if i + 1 < |a| {
      } else if i + 1 == |a| {
        assert (a + b)[i] == a[|a| - 1] && (a + b)[i + 1] == b[0];
      } else {
        assert (a + b)[i] == b[i - |a|] && (a + b)[i + 1] == b[i - |a| + 1];
      }
    }
  }

  /** The text between a matched pair of delimiters is a good bold span. */
  lemma InnerGood(s: string, m: nat, c: nat)
    requires m + 2 <= |s| && CloseFrom(s, m + 2) == Some(c)
    ensures GoodSpan(Strong(s[m + 2..c]))
  {
    CloseFromFirst(s, m + 2);
    var inner := s[m + 2..c];
    if Contains(inner, "**") {
      var v := IndexOf(inner, "**", 0).value;
      OccursInSlice(s, "**", m + 2, c, v);
      assert DelimAt(s, m + 2 + v);
    }
    forall k | 0 <= k < |inner| ensures !IsLineTerminator(inner[k]) {
      assert inner[k] == s[m + 2 + k];
    }
  }

  /** The parts one exec step pushes are well formed and end with the bold span. */
  lemma PieceWellFormed(s: string, from: nat)
    requires from <= |s| && MatchFrom(s, from).Some?
    ensures WellFormed(Piece(s, from))
    ensures Piece(s, from)[|Piece(s, from)| - 1].Strong?
    ensures Piece(s, from)[0].Strong? <==> MatchesAt(s, from)
  {
    var m, c := MatchFrom(s, from).value.0, MatchFrom(s, from).value.1;
    InnerGood(s, m, c);
    MatchFromLeftmost(s, from);
  }

  /**
   * The exec loop's parts are well formed, begin with a bold span only when
   * the line starts with a match, and are empty only for the empty rest of line.
   */
  lemma {:induction false} BoldPartsWellFormed(s: string, from: nat)
    requires from <= |s|
    ensures WellFormed(BoldParts(s, from))
    ensures BoldParts(s, from) != [] && BoldParts(s, from)[0].Strong? ==> MatchesAt(s, from)
    ensures BoldParts(s, from) == [] <==> from == |s|
    decreases |s| - from
  {
    if MatchFrom(s, from).Some? {
      BoldPartsWellFormed(s, Resume(s, from));
      PieceWellFormed(s, from);
      WellFormedAppend(Piece(s, from), BoldParts(s, Resume(s, from)));
    }
  }

  /** A line with no complete `**…**` pair comes back as one plain span. */
  lemma UnmatchedStaysLiteral(s: string)
    requires s != [] && MatchFrom(s, 0).None?
    ensures BoldParts(s, 0) == [Plain(s)]
  {
  }

  /** `"a **b** c"` splits into plain, bold, plain. */
  lemma BalancedExample()
    ensures BoldParts("a **b** c", 0) == [Plain("a "), Strong("b"), Plain(" c")]
  {
    var s := "a **b** c";
    assert !MatchesAt(s, 0) && !MatchesAt(s, 1);
    assert CloseFrom(s, 4) == Some(5);
    assert MatchFrom(s, 0) == Some((2, 5));
    assert s[0..2] == "a " && s[4..5] == "b";
    assert Piece(s, 0) == [Plain("a "), Strong("b")];
    assert MatchFrom(s, 7) == None;
    assert s[7..] == " c";
    assert BoldParts(s, 7) == [Plain(" c")];
  }

  /** `"a **b"` has no closing delimiter and stays one plain span. */
  lemma UnterminatedExample()
    ensures BoldParts("a **b", 0) == [Plain("a **b")]
  {
    var s := "a **b";
    assert CloseFrom(s, 4) == None;
    assert MatchFrom(s, 0) == None;
  }

  /** Pushing one exec step's parts keeps the loop's parts a prefix of the whole split. */
  lemma PushStep(done: seq<Span>, pushed: seq<Span>, s: string, from: nat, next: nat)
    requires from <= |s| && MatchFrom(s, from).Some? && next == Resume(s, from)
    requires pushed == done + Piece(s, from)
    requires done + BoldParts(s, from) == BoldParts(s, 0)
    ensures pushed + BoldParts(s, next) == BoldParts(s, 0)
  {
    var piece, rest := Piece(s, from), BoldParts(s, Resume(s, from));
    assert BoldParts(s, from) == piece + rest;
    AppendAssoc(done, piece, rest);
  }

  /** Pushing the trailing plain text completes the split. */
  lemma PushLast(done: seq<Span>, pushed: seq<Span>, s: string, from: nat)
    requires from <= |s| && MatchFrom(s, from).None?
    requires pushed == done + (if from < |s| then [Plain(s[from..])] else [])
    requires done + BoldParts(s, from) == BoldParts(s, 0)
    ensures pushed == BoldParts(s, 0)
  {
    assert BoldParts(s, from) == (if from < |s| then [Plain(s[from..])] else []);
  }

  lemma AppendAssoc(a: seq<Span>, b: seq<Span>, c: seq<Span>)
    ensures (a + b) + c == a + (b + c)
  {
  }

  /**
   * The exec loop as written: `lastIndex` tracks the end of the previous match
   * and each iteration pushes the plain gap (when non-empty) and the bold text.
   */
  method ScanBold(line: string) returns (parts: seq<Span>)
    ensures parts == BoldParts(line, 0)
  {
    parts := [];
    var lastIndex: nat := 0;
    while true
      invariant lastIndex <= |line|
      invariant parts + BoldParts(line, lastIndex) == BoldParts(line, 0)
      decreases |line| - lastIndex
    {
      var found := MatchFrom(line, lastIndex);
      if found.None? {
        break;
      }
      ghost var done, from := parts, lastIndex;
      parts, lastIndex := PushMatch(line, parts, lastIndex);
      PushStep(done, parts, line, from, lastIndex);
    }
    ghost var done := parts;
    if lastIndex < |line| {
      parts := parts + [Plain(line[lastIndex..])];
    }
    PushLast(done, parts, line, lastIndex);
  }

  /** One iteration of the exec loop: push the plain gap before the match (when non-empty) and the bold text. */
  method PushMatch(line: string, parts: seq<Span>, lastIndex: nat) returns (pushed: seq<Span>, next: nat)
    requires lastIndex <= |line| && MatchFrom(line, lastIndex).Some?
    ensures pushed == parts + Piece(line, lastIndex) && next == Resume(line, lastIndex)
  {
    var index, close := MatchFrom(line, lastIndex).value.0, MatchFrom(line, lastIndex).value.1;
    pushed := parts;
    if index > lastIndex {
      pushed := pushed + [Plain(line[lastIndex..index])];
    }
    pushed := pushed + [Strong(line[index + 2..close])];
    next := close + 2;
  }
}
