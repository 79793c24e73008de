/** `DataNormalizer`: the linear map of the data range `[dataMin, dataMax]`
    onto the normalized range `[-1, 1]`, and the map back.  A normalizer
    never changes once built, so it is a value. */
module Normalization {

  /** The normalized range every normalizer maps onto. */
  const NormalizedMin: real := -1.0
  const NormalizedMax: real := 1.0

  datatype DataNormalizer = DataNormalizer(dataMin: real, dataMax: real)
  {
    /** A data range of one point is sent to the middle of the normalized
        range; otherwise `value` is placed in the normalized range as it
        sits in the data range. */
    function Normalize(value: real): (r: real)
      ensures dataMax == dataMin ==> r == (NormalizedMin + NormalizedMax) / 2.0 == 0.0
      ensures dataMax != dataMin ==> (r - NormalizedMin) * (dataMax - dataMin) == (value - dataMin) * (NormalizedMax - NormalizedMin)
    {
      if dataMax - dataMin == 0.0 then (NormalizedMin + NormalizedMax) / 2.0
      else NormalizedMin + (value - dataMin) * (NormalizedMax - NormalizedMin) / (dataMax - dataMin)
    }

    /** The inverse placement: a normalized `value` is sent to the data
        value that sits in the data range as `value` sits in `[-1, 1]`.  The
        guard for an empty normalized range is never taken, since that range
        is fixed. */
    function Denormalize(value: real): (r: real)
      ensures r == dataMin + (value + 1.0) * (dataMax - dataMin) / 2.0
    {
      if NormalizedMax - NormalizedMin == 0.0 then dataMin
      else dataMin + (value - NormalizedMin) * (dataMax - dataMin) / (NormalizedMax - NormalizedMin)
    }
  }

  /** With a proper data range, its ends go to the ends of `[-1, 1]`. */
  lemma NormalizeEnds(n: DataNormalizer)
    requires n.dataMax != n.dataMin
    ensures n.Normalize(n.dataMin) == -1.0
    ensures n.Normalize(n.dataMax) == 1.0
  {
  }

  /** With an increasing data range, normalizing is strictly increasing;
      with a decreasing one, strictly decreasing. */
  lemma NormalizeMonotone(n: DataNormalizer, u: real, v: real)
    requires u < v
    ensures n.dataMax > n.dataMin ==> n.Normalize(u) < n.Normalize(v)
    ensures n.dataMax < n.dataMin ==> n.Normalize(u) > n.Normalize(v)
  {
    var d := n.dataMax - n.dataMin;
    if d != 0.0 {
      assert n.Normalize(v) - n.Normalize(u) == (v - u) * 2.0 / d;
    }
  }

  /** The ends of `[-1, 1]` go back to the ends of the data range. */
  lemma DenormalizeEnds(n: DataNormalizer)
    ensures n.Denormalize(-1.0) == n.dataMin
    ensures n.Denormalize(1.0) == n.dataMax
  {
  }

  /** With a proper data range, denormalizing undoes normalizing, and
      normalizing undoes denormalizing. */
  lemma RoundTrip(n: DataNormalizer, value: real, normalized: real)
    requires n.dataMax != n.dataMin
    ensures n.Denormalize(n.Normalize(value)) == value
    ensures n.Normalize(n.Denormalize(normalized)) == normalized
  {
    var d := n.dataMax - n.dataMin;
    assert n.Normalize(value) == -1.0 + (value - n.dataMin) * 2.0 / d;
    assert n.Denormalize(n.Normalize(value)) == n.dataMin + ((value - n.dataMin) * 2.0 / d) * d / 2.0;
    var x := (normalized + 1.0) * d / 2.0;
    assert n.Denormalize(normalized) - n.dataMin == x;
    assert n.Normalize(n.Denormalize(normalized)) == -1.0 + x * 2.0 / d;
    assert x * 2.0 / d == normalized + 1.0;
  }

  /** With a data range of one point, every value normalizes to 0, and
      denormalizing gives back that point, not the value. */
  lemma DegenerateRange(n: DataNormalizer, value: real)
    requires n.dataMax == n.dataMin
    ensures n.Normalize(value) == 0.0
    ensures n.Denormalize(n.Normalize(value)) == n.dataMin
  {
  }
}
