/**
 The UnityEngine helpers the two controllers call, written over `real` as Unity defines
 them for `float`: `Mathf.Clamp`, `Mathf.Lerp`, `Mathf.MoveTowards`, `Mathf.Repeat` and
 `Mathf.Sign`, plus the Option type that stands for an optional physics query result.

 Products of two unknowns are kept behind small functions (`Fraction`, `Times`) whose
 contracts say what the callers need, so that the reasoning elsewhere stays linear.
 */
module Mathf {

  datatype Option<+T> = None | Some(value: T)

  function Abs(x: real): (r: real)
    ensures r >= 0.0 && (r == x || r == -x)
  {
    if x < 0.0 then -x else x
  }

  /** `Mathf.Sign`: zero counts as positive. */
  function Sign(f: real): (r: real)
    ensures r == 1.0 || r == -1.0
    ensures f >= 0.0 <==> r == 1.0
  {
    if f >= 0.0 then 1.0 else -1.0
  }

  /**
   `Mathf.Clamp`: the lower bound is tested first. For an empty range (`min > max`) a value
   below `min` gives `min` and any other value gives `max`.
   */
  function Clamp(value: real, min: real, max: real): (r: real)
    ensures value < min ==> r == min
    ensures min <= value <= max ==> r == value
    ensures min <= max ==> min <= r <= max
    ensures value >= min && value > max ==> r == max
  {
    if value < min then min else if value > max then max else value
  }

  /**
   `Mathf.Lerp`: `a + (b - a) * t` with `t` clamped to [0, 1] first, so the result always
   lies between the two ends and is never farther from `b` than `a` was; for `t` in
   [0, 1] the gap left to `b` is the share `1 - t` of the gap from `a`.
   */
  function Lerp(a: real, b: real, t: real): (r: real)
    ensures a <= b ==> a <= r <= b
    ensures b <= a ==> b <= r <= a
    ensures Abs(b - r) <= Abs(b - a)
    ensures t <= 0.0 ==> r == a
    ensures t >= 1.0 ==> r == b
    ensures 0.0 <= t <= 1.0 ==> b - r == (1.0 - t) * (b - a)
  {
    a + Fraction(b - a, Clamp(t, 0.0, 1.0))
  }

  /** The part `u` in [0, 1] of `d`: it lies between zero and `d`. */
  function Fraction(d: real, u: real): (p: real)
    requires 0.0 <= u <= 1.0
    ensures d >= 0.0 ==> 0.0 <= p <= d
    ensures d <= 0.0 ==> d <= p <= 0.0
    ensures u == 0.0 ==> p == 0.0
    ensures u == 1.0 ==> p == d
  {
    MulLe(0.0, u, d);
    MulLe(u, 1.0, d);
    d * u
  }

  /**
   `Mathf.MoveTowards`: the target itself when it is within `maxDelta`, otherwise one step
   of exactly `maxDelta` in the target's direction.
   */
  function MoveTowards(current: real, target: real, maxDelta: real): (r: real)
    ensures Abs(target - current) <= maxDelta ==> r == target
    ensures r != target ==> Abs(r - current) == Abs(maxDelta)
    ensures maxDelta >= 0.0 && current <= target ==> current <= r <= target
    ensures maxDelta >= 0.0 && target <= current ==> target <= r <= current
    ensures maxDelta >= 0.0 ==> Abs(r - current) <= maxDelta
  {
    if Abs(target - current) <= maxDelta then target
    else current + Sign(target - current) * maxDelta
  }

  /** `k` lengths of size `len`. */
  function Times(k: int, len: real): real
  {
    k as real * len
  }

  /** `d` is a whole multiple of `len`. */
  ghost predicate IsMultipleOf(d: real, len: real)
  {
    exists k: int :: d == Times(k, len)
  }

  /**
   `Mathf.Repeat`: `t - floor(t / length) * length`, clamped to [0, length]. For a
   positive length the clamp never bites: the result lies in [0, length) and differs
   from `t` by a whole number of lengths.
   */
  function Repeat(t: real, length: real): (r: real)
    requires length > 0.0
    ensures 0.0 <= r < length
    ensures IsMultipleOf(t - r, length)
  {
    var k := (t / length).Floor;
    FloorCell(t, length);
    assert t - (t - Times(k, length)) == Times(k, length);
    Clamp(t - Times(k, length), 0.0, length)
  }

  /** `t` lies in the cell `[k * length, k * length + length)` picked by `k = floor(t / length)`. */
  lemma FloorCell(t: real, length: real)
    requires length > 0.0
    ensures Times((t / length).Floor, length) <= t < Times((t / length).Floor, length) + length
  {
    NotBelowCell(t, length);
    BelowNextCell(t, length);
    TimesSucc((t / length).Floor, length);
  }

  lemma NotBelowCell(t: real, l: real)
    requires l > 0.0
    ensures Times((t / l).Floor, l) <= t
  {
    var q := t / l;
    assert q * l == t;
    MulLe(q.Floor as real, q, l);
  }

  lemma BelowNextCell(t: real, l: real)
    requires l > 0.0
    ensures t < Times((t / l).Floor + 1, l)
  {
    var q := t / l;
    assert q * l == t;
    MulLt(q, (q.Floor + 1) as real, l);
  }

  lemma TimesSucc(k: int, l: real)
    ensures Times(k + 1, l) == Times(k, l) + l
  {
  }

  /** Scaling by `c` keeps the order of `x <= y` when `c` is non-negative and flips it otherwise. */
  lemma MulLe(x: real, y: real, c: real)
    requires x <= y
    ensures c >= 0.0 ==> x * c <= y * c
    ensures c <= 0.0 ==> y * c <= x * c
  {
  }

  lemma MulLt(x: real, y: real, c: real)
    requires x < y && c > 0.0
    ensures x * c < y * c
  {
  }
}
