/**
 * The JavaScript string operations the renderers and form validators use:
 * `trim`, the regex classes `\s`, `\d` and `.`, `startsWith`, `includes`,
 * `replace` with a string pattern (first occurrence only), `split` with a
 * string separator and `toUpperCase` on ASCII letters.
 */
module Text {
  import opened Wrappers

  /** The code points `trim()` removes and the regex class `\s` matches. */
  predicate IsSpace(c: char) {
    || c == ' ' || c == '\t' || c == '\n' || c == '\r' || c == '\U{000B}' || c == '\U{000C}'
    || c == '\U{00A0}' || c == '\U{1680}' || ('\U{2000}' <= c <= '\U{200A}')
    || c == '\U{2028}' || c == '\U{2029}' || c == '\U{202F}' || c == '\U{205F}'
    || c == '\U{3000}' || c == '\U{FEFF}'
  }

  /** The code points the regex `.` does not match. */
  predicate IsLineTerminator(c: char) {
    c == '\n' || c == '\r' || c == '\U{2028}' || c == '\U{2029}'
  }

  /** The regex class `\d`. */
  predicate IsDigit(c: char) {
    '0' <= c <= '9'
  }

  /** Length of the longest run of whitespace starting at index `i` (what a greedy `\s*` consumes). */
  function SpaceRun(s: string, i: nat): (n: nat)
    requires i <= |s|
    ensures i + n <= |s|
    ensures forall j :: i <= j < i + n ==> IsSpace(s[j])
    ensures i + n < |s| ==> !IsSpace(s[i + n])
    decreases |s| - i
  {
    if i < |s| && IsSpace(s[i]) then 1 + SpaceRun(s, i + 1) else 0
  }

  /** Length of the longest run of ASCII digits starting at index `i` (what a greedy `\d*` consumes). */
  function DigitRun(s: string, i: nat): (n: nat)
    requires i <= |s|
    ensures i + n <= |s|
    ensures forall j :: i <= j < i + n ==> IsDigit(s[j])
    ensures i + n < |s| ==> !IsDigit(s[i + n])
    decreases |s| - i
  {
    if i < |s| && IsDigit(s[i]) then 1 + DigitRun(s, i + 1) else 0
  }

  /** `s.trimStart()`: `s` without its leading whitespace. */
  function TrimStart(s: string): (r: string)
    ensures |r| <= |s|
    ensures forall j :: 0 <= j < |s| - |r| ==> IsSpace(s[j])
    ensures r != [] ==> !IsSpace(r[0])
    decreases |s|
  {
    if |s| > 0 && IsSpace(s[0]) then TrimStart(s[1..]) else s
  }

  /** What `trimStart()` keeps is a suffix of `s`. */
  lemma {:induction false} TrimStartSuffix(s: string)
    ensures TrimStart(s) == s[|s| - |TrimStart(s)|..]
    decreases |s|
  {
    if |s| > 0 && IsSpace(s[0]) {
      TrimStartSuffix(s[1..]);
    }
  }

  /** `s.trimEnd()`: `s` without its trailing whitespace. */
  function TrimEnd(s: string): (r: string)
    ensures |r| <= |s| && r == s[..|r|]
    ensures forall j :: |r| <= j < |s| ==> IsSpace(s[j])
    ensures r != [] ==> !IsSpace(r[|r| - 1])
    decreases |s|
  {
    if |s| > 0 && IsSpace(s[|s| - 1]) then TrimEnd(s[..|s| - 1]) else s
  }

  /** `s.trim()`: `s` without its leading and its trailing whitespace. */
  function Trim(s: string): (r: string)
    ensures r != [] ==> !IsSpace(r[0]) && !IsSpace(r[|r| - 1])
  {
    TrimEnd(TrimStart(s))
  }

  /** `trim()` gives the empty string exactly for the all-whitespace strings. */
  lemma TrimEmpty(s: string)
    ensures Trim(s) == [] <==> forall j :: 0 <= j < |s| ==> IsSpace(s[j])
  {
    var rest := TrimStart(s);
    if rest != [] {
      TrimStartSuffix(s);
      assert !IsSpace(rest[0]);
    }
  }

  /** What `trim()` keeps is the slice of `s` right after its leading whitespace. */
  lemma TrimSlice(s: string)
    ensures var lead := |s| - |TrimStart(s)|;
      lead + |Trim(s)| <= |s| && Trim(s) == s[lead..lead + |Trim(s)|]
  {
    TrimStartSuffix(s);
  }

  /** The length of the leading whitespace `trim()` removes. */
  function Lead(s: string): (n: nat)
    ensures n <= |s| && forall j :: 0 <= j < n ==> IsSpace(s[j])
  {
    |s| - |TrimStart(s)|
  }

  /** When the trimmed string starts with `p`, so does the rest of `s` after its leading whitespace. */
  lemma TrimmedPrefix(s: string, p: string)
    requires StartsWith(Trim(s), p)
    ensures Lead(s) + |p| <= |s| && s[Lead(s)..Lead(s) + |p|] == p
  {
    var u := TrimStart(s);
    var t := Trim(s);
    TrimStartSuffix(s);
    assert t[..|p|] == u[..|p|];
  }

  /** `s.startsWith(p)` */
  predicate StartsWith(s: string, p: string) {
    |p| <= |s| && s[..|p|] == p
  }

  /** `p` occurs in `s` starting at index `j`. */
  predicate OccursAt(s: string, p: string, j: nat) {
    j + |p| <= |s| && s[j..j + |p|] == p
  }

  /** The first index at or after `from` where `p` occurs in `s`. */
  function IndexOf(s: string, p: string, from: nat): (r: Option<nat>)
    requires from <= |s|
    ensures r.Some? ==> from <= r.value && OccursAt(s, p, r.value)
    ensures r.Some? ==> forall j :: from <= j < r.value ==> !OccursAt(s, p, j)
    ensures r.None? ==> forall j :: from <= j ==> !OccursAt(s, p, j)
    decreases |s| - from
  {
    if from + |p| > |s| then None
    else if s[from..from + |p|] == p then Some(from)
    else IndexOf(s, p, from + 1)
  }

  /** `s.includes(p)` */
  predicate Contains(s: string, p: string) {
    IndexOf(s, p, 0).Some?
  }

  /** `s.replace(p, repl)` with a string pattern: only the first occurrence is replaced. */
  function ReplaceFirst(s: string, p: string, repl: string): string {
    match IndexOf(s, p, 0)
    case None => s
    case Some(i) => s[..i] + repl + s[i + |p|..]
  }

  /** When `p` first occurs at `k`, replacing it splices `repl` in at `k`. */
  lemma ReplaceFirstAt(s: string, p: string, repl: string, k: nat)
    requires OccursAt(s, p, k)
    requires forall j :: 0 <= j < k ==> !OccursAt(s, p, j)
    ensures IndexOf(s, p, 0) == Some(k)
    ensures ReplaceFirst(s, p, repl) == s[..k] + repl + s[k + |p|..]
  {
  }

  /** `s.split(sep)` with a non-empty string separator: cut at every non-overlapping occurrence, left to right. */
  function Split(s: string, sep: string): (parts: seq<string>)
    requires |sep| > 0
    ensures |parts| >= 1
    decreases |s|
  {
    match IndexOf(s, sep, 0)
    case None => [s]
    case Some(i) => [s[..i]] + Split(s[i + |sep|..], sep)
  }

  /** `parts.join(sep)` */
  function Join(parts: seq<string>, sep: string): string {
    if |parts| == 0 then ""
    else if |parts| == 1 then parts[0]
    else parts[0] + sep + Join(parts[1..], sep)
  }

  /** `text.split("\n")` */
  function Lines(text: string): (lines: seq<string>)
    ensures |lines| >= 1
  {
    Split(text, "\n")
  }

  /** Joining the pieces of a split with the separator gives back the string. */
  lemma {:induction false} JoinSplit(s: string, sep: string)
    requires |sep| > 0
    ensures Join(Split(s, sep), sep) == s
    decreases |s|
  {
    var found := IndexOf(s, sep, 0);
    if found.Some? {
      var i := found.value;
      var head, rest := s[..i], s[i + |sep|..];
      var tail := Split(rest, sep);
      JoinSplit(rest, sep);
      assert Split(s, sep) == [head] + tail;
      calc {
        Join(Split(s, sep), sep);
        Join([head] + tail, sep);
        { JoinCons(head, tail, sep); }
        head + sep + Join(tail, sep);
        head + sep + rest;
        { assert OccursAt(s, sep, i); assert s == s[..i] + s[i..i + |sep|] + s[i + |sep|..]; }
        s;
      }
    } else {
      assert Split(s, sep) == [s];
    }
  }

  lemma JoinCons(head: string, tail: seq<string>, sep: string)
    requires |tail| >= 1
    ensures Join([head] + tail, sep) == head + sep + Join(tail, sep)
  {
    assert ([head] + tail)[1..] == tail;
  }

  /** No piece of a split contains the separator. */
  lemma {:induction false} SplitAvoidsSeparator(s: string, sep: string)
    requires |sep| > 0
    ensures forall k :: 0 <= k < |Split(s, sep)| ==> !Contains(Split(s, sep)[k], sep)
    decreases |s|
  {
    match IndexOf(s, sep, 0)
    case None =>
    case Some(i) =>
      var rest := s[i + |sep|..];
      SplitAvoidsSeparator(rest, sep);
      var head := s[..i];
      if Contains(head, sep) {
        var v := IndexOf(head, sep, 0).value;
        assert s[0..i] == head;
        OccursInSlice(s, sep, 0, i, v);
        assert false;
      }
      assert Split(s, sep) == [head] + Split(rest, sep);
  }

  /** The number of non-overlapping occurrences of `p` in `s`, counted left to right. */
  function Occurrences(s: string, p: string): nat
    requires |p| > 0
    decreases |s|
  {
    if |s| < |p| then 0
    else if s[..|p|] == p then 1 + Occurrences(s[|p|..], p)
    else Occurrences(s[1..], p)
  }

  /** Skipping a prefix in which `p` does not start anywhere loses no occurrence. */
  lemma {:induction false} OccurrencesSkip(s: string, p: string, k: nat)
    requires |p| > 0 && k <= |s|
    requires forall j :: 0 <= j < k ==> !OccursAt(s, p, j)
    ensures Occurrences(s, p) == Occurrences(s[k..], p)
    decreases k
  {
    if k > 0 {
      assert !OccursAt(s, p, 0);
      var rest := s[1..];
      forall j | 0 <= j < k - 1 ensures !OccursAt(rest, p, j) {
        ShiftedOccurrence(s, p, j);
      }
      OccurrencesSkip(rest, p, k - 1);
      assert rest[k - 1..] == s[k..];
      if |s| >= |p| {
        assert s[..|p|] == s[0..|p|];
      }
    }
  }

  lemma ShiftedOccurrence(s: string, p: string, j: nat)
    requires |s| >= 1
    ensures OccursAt(s[1..], p, j) == OccursAt(s, p, j + 1)
  {
    if j + |p| <= |s| - 1 {
      assert s[1..][j..j + |p|] == s[j + 1..j + 1 + |p|];
    }
  }

  /** `split` gives one more piece than there are occurrences of the separator. */
  lemma {:induction false} SplitCount(s: string, sep: string)
    requires |sep| > 0
    ensures |Split(s, sep)| == Occurrences(s, sep) + 1
    decreases |s|
  {
    match IndexOf(s, sep, 0)
    case None =>
      OccurrencesSkip(s, sep, |s|);
      assert s[|s|..] == [];
    case Some(i) =>
      var rest := s[i + |sep|..];
      OccurrencesSkip(s, sep, i);
      var u := s[i..];
      assert u[..|sep|] == sep;
      assert u[|sep|..] == rest;
      SplitCount(rest, sep);
  }

  /** Cutting a suffix of `s` at `j` and putting the pieces back together gives the suffix. */
  lemma SliceConcat(s: string, i: nat, j: nat)
    requires i <= j <= |s|
    ensures s[i..j] + s[j..] == s[i..]
  {
  }

  /** A slice cut at `j` is the two smaller slices joined. */
  lemma SliceSplit(s: string, i: nat, j: nat, k: nat)
    requires i <= j <= k <= |s|
    ensures s[i..k] == s[i..j] + s[j..k]
  {
  }

  lemma ConcatAssoc(a: string, b: string, c: string)
    ensures (a + b) + c == a + (b + c)
  {
  }

  /** An occurrence inside a slice is an occurrence in the whole string, shifted by the slice's start. */
  lemma OccursInSlice(s: string, p: string, a: nat, b: nat, v: nat)
    requires a <= b <= |s| && OccursAt(s[a..b], p, v)
    ensures OccursAt(s, p, a + v)
  {
    var w := s[a..b];
    forall k | 0 <= k < |p| ensures s[a + v..a + v + |p|][k] == p[k] {
      assert w[v..v + |p|][k] == p[k];
      assert w[v + k] == s[a + v + k];
    }
  }

  /** ASCII `toUpperCase()` of one character. */
  function UpperChar(c: char): char {
    if 'a' <= c <= 'z' then (c as int - 32) as char else c
  }

  /** `s.toUpperCase()` on ASCII letters. */
  function Upper(s: string): (r: string)
    ensures |r| == |s|
    ensures forall i :: 0 <= i < |s| ==> r[i] == UpperChar(s[i])
  {
    seq(|s|, i requires 0 <= i < |s| => UpperChar(s[i]))
  }
}
