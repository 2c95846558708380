/**
 * FlightComputer.map, the one primitive that turns a stick position into a
 * controller goal: the affine map that sends [minIn, maxIn] onto [minOut, maxOut].
 * Floats are modelled as reals; FloatMap adds the one float behaviour that matters
 * here, that a zero-width input range gives no finite value.
 */
module ControlMap {

  /** The result lies as far along the output range, in proportion, as `value` lies
      along the input range. */
  function Map(value: real, minIn: real, maxIn: real, minOut: real, maxOut: real): (r: real)
    requires minIn != maxIn
    ensures (r - minOut) * (maxIn - minIn) == (value - minIn) * (maxOut - minOut)
  {
    var t := (value - minIn) / (maxIn - minIn);
    assert t * (maxIn - minIn) == value - minIn;
    t * (maxOut - minOut) + minOut
  }

  /** The ends of the input range go to the ends of the output range. */
  lemma MapEndpoints(minIn: real, maxIn: real, minOut: real, maxOut: real)
    requires minIn != maxIn
    ensures Map(minIn, minIn, maxIn, minOut, maxOut) == minOut
    ensures Map(maxIn, minIn, maxIn, minOut, maxOut) == maxOut
  {
    var d := maxIn - minIn;
    assert (maxIn - minIn) / d == 1.0;
  }

  /** The map is affine: the point a fraction t along the input range goes to the
      point the same fraction t along the output range. */
  lemma MapAffine(t: real, minIn: real, maxIn: real, minOut: real, maxOut: real)
    requires minIn != maxIn
    ensures Map(minIn + t * (maxIn - minIn), minIn, maxIn, minOut, maxOut)
            == minOut + t * (maxOut - minOut)
  {
    var d := maxIn - minIn;
    assert (minIn + t * d - minIn) / d == t;
  }

  /** With both ranges ascending the map preserves order and keeps inputs from the
      input range inside the output range. */
  lemma MapMonotone(a: real, b: real, minIn: real, maxIn: real, minOut: real, maxOut: real)
    requires minIn < maxIn && minOut <= maxOut && a <= b
    ensures Map(a, minIn, maxIn, minOut, maxOut) <= Map(b, minIn, maxIn, minOut, maxOut)
    ensures minIn <= a && b <= maxIn ==>
              minOut <= Map(a, minIn, maxIn, minOut, maxOut) && Map(b, minIn, maxIn, minOut, maxOut) <= maxOut
  {
    var d := maxIn - minIn;
    var s, u := (a - minIn) / d, (b - minIn) / d;
    assert s <= u;
    assert s * (maxOut - minOut) <= u * (maxOut - minOut);
    if minIn <= a && b <= maxIn {
      assert 0.0 <= s && u <= 1.0;
      assert 0.0 <= s * (maxOut - minOut);
      assert u * (maxOut - minOut) <= 1.0 * (maxOut - minOut);
    }
  }

  /** A float result: a finite value, or an infinity / NaN from a division by zero. */
  datatype FloatValue = Finite(value: real) | NonFinite

  /** map evaluated in Java float arithmetic, where an empty input range divides by zero. */
  function FloatMap(value: real, minIn: real, maxIn: real, minOut: real, maxOut: real): (r: FloatValue)
    ensures r.Finite? <==> minIn != maxIn
    ensures r.Finite? ==> r.value == Map(value, minIn, maxIn, minOut, maxOut)
  {
    if minIn == maxIn then NonFinite else Finite(Map(value, minIn, maxIn, minOut, maxOut))
  }
}
