/**
 * The fractional star display (frontend/src/components/StarDisplay.jsx): a
 * value clamped to [0,5] is spread over five stars, star i getting the fill
 * `clamp(v - i, 0, 1)`, and each fill is drawn as a rounded percentage.
 */
module StarDisplay {
  import opened Optional

  /** The number of stars drawn (the index list [0, 1, 2, 3, 4]). */
  const StarCount: nat := 5

  function Max(a: real, b: real): real {
    if a >= b then a else b
  }

  function Min(a: real, b: real): real {
    if a <= b then a else b
  }

  /** `clamp(x, a, b)` = `Math.max(a, Math.min(b, x))`. */
  function Clamp(x: real, a: real, b: real): (r: real)
    ensures a <= b ==> a <= r <= b
    ensures a <= b && a <= x <= b ==> r == x
    ensures a <= b && x < a ==> r == a
    ensures a <= b && b < x ==> r == b
    ensures b < a ==> r == a
  {
    Max(a, Min(b, x))
  }

  /**
   * The value shown: `clamp(Number(value) || 0, 0, 5)`. None stands for an
   * input whose `Number` is NaN; NaN and 0 both become 0.
   */
  function DisplayValue(value: Option<real>): (v: real)
    ensures 0.0 <= v <= 5.0
    ensures value.None? || value == Some(0.0) ==> v == 0.0
    ensures value.Some? && 0.0 <= value.value <= 5.0 ==> v == value.value
  {
    match value
    case None => Clamp(0.0, 0.0, 5.0)
    case Some(x) => Clamp(if x == 0.0 then 0.0 else x, 0.0, 5.0)
  }

  /** The fill of star `i` for the value `v`. */
  function Fill(v: real, i: nat): (f: real)
    ensures 0.0 <= f <= 1.0
    ensures v <= i as real ==> f == 0.0
    ensures v >= i as real + 1.0 ==> f == 1.0
    ensures i as real <= v <= i as real + 1.0 ==> f == v - i as real
  {
    Clamp(v - i as real, 0.0, 1.0)
  }

  /** The five fills, left to right: each in [0,1], never increasing. */
  function Fills(v: real): (r: seq<real>)
    ensures |r| == StarCount
    ensures forall i :: 0 <= i < |r| ==> 0.0 <= r[i] <= 1.0
    ensures forall i, j :: 0 <= i <= j < |r| ==> r[j] <= r[i]
  {
    seq(StarCount, i requires 0 <= i < StarCount => Fill(v, i))
  }

  function SumOf(s: seq<real>): real {
    if s == [] then 0.0 else s[0] + SumOf(s[1..])
  }

  /** For a value in [0,5] the five fills add up to exactly that value. */
  lemma FillsSumToValue(v: real)
    requires 0.0 <= v <= 5.0
    ensures SumOf(Fills(v)) == v
  {
    var f := Fills(v);
    SumOfFive(f);
  }

  lemma SumOfFive(s: seq<real>)
    requires |s| == 5
    ensures SumOf(s) == s[0] + s[1] + s[2] + s[3] + s[4]
  {
    assert SumOf(s[4..]) == s[4] + SumOf([]) by { assert s[4..][1..] == []; }
    assert SumOf(s[3..]) == s[3] + SumOf(s[4..]) by { assert s[3..][1..] == s[4..]; }
    assert SumOf(s[2..]) == s[2] + SumOf(s[3..]) by { assert s[2..][1..] == s[3..]; }
    assert SumOf(s[1..]) == s[1] + SumOf(s[2..]) by { assert s[1..][1..] == s[2..]; }
  }

  /** For a whole number n of stars, the first n are full and the rest empty. */
  lemma WholeValueFills(n: nat, i: nat)
    requires n <= StarCount && i < StarCount
    ensures Fills(n as real)[i] == if i < n then 1.0 else 0.0
  {
  }

  /** Whatever the input, the stars drawn add up to the value shown. */
  lemma DisplayedStarsSumToValue(value: Option<real>)
    ensures SumOf(Fills(DisplayValue(value))) == DisplayValue(value)
  {
    FillsSumToValue(DisplayValue(value));
  }

  /** The width of a star's filled part: `Math.round(clamp(fill, 0, 1) * 100)` percent. */
  function Percent(fill: real): (p: int)
    ensures 0 <= p <= 100
    ensures fill <= 0.0 ==> p == 0
    ensures fill >= 1.0 ==> p == 100
  {
    (Clamp(fill, 0.0, 1.0) * 100.0 + 0.5).Floor
  }

  /** A fuller star is never drawn narrower. */
  lemma PercentMonotone(a: real, b: real)
    requires a <= b
    ensures Percent(a) <= Percent(b)
  {
    var x := Clamp(a, 0.0, 1.0) * 100.0 + 0.5;
    var y := Clamp(b, 0.0, 1.0) * 100.0 + 0.5;
    assert x <= y;
    assert x.Floor as real <= x < y.Floor as real + 1.0;
  }
}
