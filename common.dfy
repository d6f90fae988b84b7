/** Helpers shared by the layout-editor model: an optional value and the
    JavaScript `Math` functions the editor calls. JavaScript numbers are
    modelled as exact `real`s (floating-point rounding is not modelled). */
module Common {

  datatype Option<+T> = None | Some(value: T) {
    /** The value, or `default` when there is none (`x ?? default`). */
    function GetOr(default: T): T {
      match this
      case Some(v) => v
      case None => default
    }
  }

  /** `Math.min` on two numbers. */
  function Min(a: real, b: real): (m: real)
    ensures m <= a && m <= b
    ensures m == a || m == b
  {
    if a <= b then a else b
  }

  /** `Math.max` on two numbers. */
  function Max(a: real, b: real): (m: real)
    ensures a <= m && b <= m
    ensures m == a || m == b
  {
    if a <= b then b else a
  }

  /** `Math.round`: the integer nearest to `x`, a half rounded up towards
      +infinity, i.e. the floor of `x + 0.5`. */
  function Round(x: real): (r: int)
    ensures x - 0.5 < r as real <= x + 0.5
  {
    (x + 0.5).Floor
  }

  /** Rounding a number that is already an integer gives it back. */
  lemma RoundOfInteger(n: int)
    ensures Round(n as real) == n
  {
  }

  /** Rounding an already rounded number at scale 1 changes nothing. */
  lemma RoundSettles(x: real)
    ensures Round((Round(x) as real) * 1.0) == Round(x)
  {
    var n := Round(x);
    assert (n as real) * 1.0 == n as real;
    RoundOfInteger(n);
  }

  /** Rounding never reverses the order of two numbers. */
  lemma RoundMonotonic(x: real, y: real)
    requires x <= y
    ensures Round(x) <= Round(y)
  {
  }
}
