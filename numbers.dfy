/** The JavaScript number idioms the agronomy and payroll code relies on. */
module Numbers {
  import opened Wrappers

  /** `Math.round(x)`: the nearest integer, halves rounded up. */
  function Round(x: real): (r: int)
    ensures r as real - 0.5 <= x < r as real + 0.5
  {
    (x + 0.5).Floor
  }

  /** `Math.round` is the only integer within half a unit below and above. */
  lemma RoundUnique(x: real, n: int)
    requires n as real - 0.5 <= x < n as real + 0.5
    ensures Round(x) == n
  {
  }

  /** A whole number rounds to itself. */
  lemma RoundInt(n: int)
    ensures Round(n as real) == n
  {
    RoundUnique(n as real, n);
  }

  /** `x || d` on an optional number: `null`, `undefined` and `0` are falsy and give the default. */
  function OrElse(x: Option<real>, d: real): (r: real)
    ensures x.Some? && x.value != 0.0 ==> r == x.value
    ensures x.None? || x.value == 0.0 ==> r == d
  {
    if x.Some? && x.value != 0.0 then x.value else d
  }

  /** `x || d` on a number that is always defined: only `0` is falsy. */
  function IntOr(x: int, d: int): (r: int)
    ensures x != 0 ==> r == x
    ensures x == 0 ==> r == d
  {
    if x != 0 then x else d
  }
}
