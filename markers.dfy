/** The list-marker regexes the renderers share: `/^[-*]\s+/` and `/^\d+\.\s+/`, and what their `replace` leaves. */
module Markers {
  import opened Text

  /** `/^[-*]\s+/`: a dash or star followed by at least one whitespace character. */
  predicate IsBullet(t: string) {
    |t| >= 2 && (t[0] == '-' || t[0] == '*') && IsSpace(t[1])
  }

  /** `t.replace(/^[-*]\s+/, "")` on a bullet line: the marker and the whole whitespace run after it go. */
  function BulletText(t: string): (r: string)
    requires IsBullet(t)
    ensures |r| <= |t| - 2 && r == t[|t| - |r|..]
    ensures forall j :: 1 <= j < |t| - |r| ==> IsSpace(t[j])
    ensures r != [] ==> !IsSpace(r[0])
  {
    t[1 + SpaceRun(t, 1)..]
  }

  /** `/^\d+\.\s+/`: digits, a dot and at least one whitespace character. */
  predicate IsNumbered(t: string) {
    var d := DigitRun(t, 0);
    d >= 1 && d + 2 <= |t| && t[d] == '.' && IsSpace(t[d + 1])
  }

  /** `t.replace(/^\d+\.\s+/, "")` on a numbered line: the digits, the dot and the whole whitespace run after it go. */
  function NumberedText(t: string): (r: string)
    requires IsNumbered(t)
    ensures |r| <= |t| - 3 && r == t[|t| - |r|..]
    ensures t[|t| - |r| - 1] != '.' ==> IsSpace(t[|t| - |r| - 1])
    ensures r != [] ==> !IsSpace(r[0])
  {
    var d := DigitRun(t, 0);
    t[d + 1 + SpaceRun(t, d + 1)..]
  }

  /**
   * What `NumberedText` removes is exactly the match of `/^\d+\.\s+/`: the
   * digits, the dot, and a whitespace run that the kept text does not continue.
   */
  lemma NumberedTextRemovesMatch(t: string)
    requires IsNumbered(t)
    ensures var d, r := DigitRun(t, 0), NumberedText(t);
      && d + 2 <= |t| - |r|
      && (forall j :: d + 1 <= j < |t| - |r| ==> IsSpace(t[j]))
      && (r != [] ==> !IsSpace(r[0]))
  {
    var d := DigitRun(t, 0);
    var n := SpaceRun(t, d + 1);
    assert NumberedText(t) == t[d + 1 + n..];
  }
}
