/** The handful of JavaScript built-ins the calculators lean on, over exact
    reals: `x || d` on a parsed field, `Math.ceil`, `Math.round`, the `%`
    operator on integers and `Array.prototype.find` on a threshold. Arithmetic is exact; the
    rounding of IEEE-754 doubles is not modelled. */
module JsNumbers {

  datatype Option<+T> = None | Some(value: T)

  /** A numeric input field after `parseFloat`: None is NaN (an empty or
      non-numeric field). */
  type Field = Option<real>

  /** `parseFloat(field) || d`: NaN and 0 are falsy, so both give the default. */
  function OrDefault(f: Field, d: real): (r: real)
    ensures r == d <==> f.None? || f.value == 0.0 || f.value == d
    ensures r != d ==> f == Some(r)
    ensures d != 0.0 ==> r != 0.0
  {
    if f.Some? && f.value != 0.0 then f.value else d
  }

  /** A product of two positive reals is positive. */
  lemma PositiveProduct(x: real, y: real)
    requires x > 0.0 && y > 0.0
    ensures x * y > 0.0
  {
  }

  /** `Math.ceil`: the least integer not below x. */
  function Ceil(x: real): (n: int)
    ensures n as real >= x
    ensures (n - 1) as real < x
  {
    -((-x).Floor)
  }

  /** `Math.round` on an exact real: halves go up, as `floor(x + 0.5)`. */
  function Round(x: real): (n: int)
    ensures x - 0.5 < n as real <= x + 0.5
  {
    (x + 0.5).Floor
  }

  /** `Math.ceil(x / 10) * 10`: x rounded up to a multiple of ten. */
  function CeilToTen(x: real): (r: real)
    ensures r >= x
  {
    (Ceil(x / 10.0) * 10) as real
  }

  /** The rounding gives the least multiple of ten at or above x. */
  lemma CeilToTenSpec(x: real)
    ensures x <= CeilToTen(x) < x + 10.0
    ensures (CeilToTen(x) / 10.0).Floor as real == CeilToTen(x) / 10.0
  {
    var n := Ceil(x / 10.0);
    assert (n * 10) as real / 10.0 == n as real;
  }

  lemma CeilToTenMonotone(x: real, y: real)
    requires x <= y
    ensures CeilToTen(x) <= CeilToTen(y)
  {
    var a, b := Ceil(x / 10.0), Ceil(y / 10.0);
    assert (a - 1) as real < x / 10.0 <= y / 10.0 <= b as real;
    assert a <= b;
    assert CeilToTen(x) == (a * 10) as real && CeilToTen(y) == (b * 10) as real;
  }

  /** The `%` operator of JavaScript on integers: the remainder takes the sign
      of the dividend (Dafny's own `%` is Euclidean). */
  function JsRem(a: int, b: int): (r: int)
    requires b > 0
    ensures a >= 0 ==> 0 <= r < b
    ensures a < 0 ==> -b < r <= 0
  {
    if a >= 0 then a % b else -((-a) % b)
  }

  /** `s.find(v => v >= x)` as an index into s: the index of the first
      element at or above x, or |s| when none is (where `find` gives
      undefined). */
  function FirstAtLeast(s: seq<real>, x: real): (k: nat)
    ensures k <= |s|
    ensures forall j :: 0 <= j < k ==> s[j] < x
    ensures k < |s| ==> s[k] >= x
  {
    FirstAtLeastFrom(s, x, 0)
  }

  /** The scan of `find` from position `from` on. */
  function FirstAtLeastFrom(s: seq<real>, x: real, from: nat): (k: nat)
    requires from <= |s|
    requires forall j :: 0 <= j < from ==> s[j] < x
    ensures from <= k <= |s|
    ensures forall j :: 0 <= j < k ==> s[j] < x
    ensures k < |s| ==> s[k] >= x
    decreases |s| - from
  {
    if from == |s| then from
    else if s[from] >= x then from
    else FirstAtLeastFrom(s, x, from + 1)
  }

  predicate StrictlyAscending(s: seq<real>)
  {
    forall i, j :: 0 <= i < j < |s| ==> s[i] < s[j]
  }

  /** Neighbours in order: cheap to check on a literal table. */
  predicate AdjacentAscending(s: seq<real>)
  {
    forall i :: 0 <= i < |s| - 1 ==> s[i] < s[i + 1]
  }

  lemma {:induction false} AdjacentMakesAscending(s: seq<real>)
    requires AdjacentAscending(s)
    ensures StrictlyAscending(s)
  {
    if |s| >= 2 {
      AdjacentMakesAscending(s[1..]);
      forall j | 1 <= j < |s|
        ensures s[0] < s[j]
      {
        if j > 1 {
          assert s[1..][0] < s[1..][j - 1];
        }
      }
    }
  }

  /** On an ascending table, the first entry at or above x is the least such
      entry, and a larger threshold never finds an earlier one. */
  lemma FirstAtLeastIsLeast(s: seq<real>, x: real, y: real)
    requires StrictlyAscending(s)
    ensures var k := FirstAtLeast(s, x);
      k < |s| ==> forall v :: v in s && v >= x ==> s[k] <= v
    ensures x <= y ==> FirstAtLeast(s, x) <= FirstAtLeast(s, y)
    ensures x <= y && FirstAtLeast(s, y) < |s| ==> s[FirstAtLeast(s, x)] <= s[FirstAtLeast(s, y)]
  {
  }
}
