/** `np.interp(x, xp, fp)`: one-dimensional piecewise-linear interpolation, with the
    end values held outside the sample range. */
module Interpolation {
  import opened Errors

  /** The sample times never decrease; numpy assumes this and does not check it. */
  predicate NonDecreasing(xp: seq<real>)
  {
    forall i, j :: 0 <= i <= j < |xp| ==> xp[i] <= xp[j]
  }

  /** The last sample at or before x. For non-decreasing samples this is the index
      numpy's binary search settles on: xp[j] <= x < xp[j + 1]. */
  function LastAtMost(xp: seq<real>, x: real): (j: nat)
    requires |xp| > 0 && xp[0] <= x
    ensures j < |xp| && xp[j] <= x
    ensures forall k :: j < k < |xp| ==> x < xp[k]
  {
    if xp[|xp| - 1] <= x then |xp| - 1 else LastAtMost(xp[..|xp| - 1], x)
  }

  /** `np.interp(x, xp, fp)`. numpy raises ValueError for empty samples and for
      samples and values of different lengths. Past the last sample the last value
      is returned, before the first sample the first value; otherwise the value at
      sample j = LastAtMost(xp, x) itself, or the point on the segment from sample j
      to sample j + 1. The tests are made in numpy's order. */
  function Interp(x: real, xp: seq<real>, fp: seq<real>): (r: Result<real>)
    ensures r.Err? <==> |xp| == 0 || |xp| != |fp|
    ensures r.Err? ==> r.error == ValueError
    ensures r.Ok? && xp[|xp| - 1] < x ==> r.value == fp[|fp| - 1]
    ensures r.Ok? && x < xp[0] && x <= xp[|xp| - 1] ==> r.value == fp[0]
  {
    if |xp| == 0 || |xp| != |fp| then Err(ValueError)
    else if xp[|xp| - 1] < x then Ok(fp[|fp| - 1])
    else if x < xp[0] then Ok(fp[0])
    else
      var j := LastAtMost(xp, x);
      if j == |xp| - 1 || xp[j] == x then Ok(fp[j])
      else
        var slope := (fp[j + 1] - fp[j]) / (xp[j + 1] - xp[j]);
        Ok(slope * (x - xp[j]) + fp[j])
  }

  /** At a sample time the value is that sample's value; among samples sharing the
      time, the last one's. */
  lemma InterpAtSample(xp: seq<real>, fp: seq<real>, j: nat)
    requires |xp| == |fp| && j < |xp| && NonDecreasing(xp)
    requires j == |xp| - 1 || xp[j] < xp[j + 1]
    ensures Interp(xp[j], xp, fp) == Ok(fp[j])
  {
    var x := xp[j];
    assert xp[0] <= x <= xp[|xp| - 1];
    var k := LastAtMost(xp, x);
    assert k == j;
  }

  /** Between two samples the value lies between their two values. */
  lemma InterpBetweenNeighbours(x: real, xp: seq<real>, fp: seq<real>)
    requires |xp| == |fp| && |xp| > 0 && xp[0] <= x <= xp[|xp| - 1]
    ensures var j := LastAtMost(xp, x);
            j < |xp| - 1 ==> Between(Interp(x, xp, fp).value, fp[j], fp[j + 1])
  {
    var j := LastAtMost(xp, x);
    if j < |xp| - 1 {
      var w := xp[j + 1] - xp[j];
      FractionOfSegment(x - xp[j], w);
      OnSegment(fp[j], fp[j + 1], w, x - xp[j]);
    }
  }

  /** y lies between a and b, in either order. */
  predicate Between(y: real, a: real, b: real)
  {
    (a <= y <= b) || (b <= y <= a)
  }

  lemma FractionOfSegment(u: real, w: real)
    requires 0.0 <= u < w
    ensures 0.0 <= u / w < 1.0
  {
  }

  lemma OnSegment(a: real, b: real, w: real, u: real)
    requires 0.0 <= u < w
    ensures Between((b - a) / w * u + a, a, b)
  {
    var s := (b - a) / w;
    assert b - a == s * w;
    if 0.0 <= s {
      assert 0.0 <= s * u <= s * w;
    } else {
      assert s * w <= s * u <= 0.0;
    }
  }
}
