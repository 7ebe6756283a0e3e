/** Stand-ins for the few engine services the game scripts rely on:
    optional references, the random-number service (as an oracle of draws),
    and the vector and rotation values that the generators pass around. */
module Engine {

  datatype Option<+T> = None | Some(value: T)

  /** A draw of `Random.value`: a real in [0, 1). */
  type Unit = u: real | 0.0 <= u < 1.0

  /** `Random.Range(lo, hi)` on integers, driven by the draw `u`:
      `lo` when the range is empty, otherwise an integer of [lo, hi). */
  function RangeInt(lo: int, hi: int, u: Unit): (k: int)
    requires lo <= hi
    ensures lo == hi ==> k == lo
    ensures lo < hi ==> lo <= k < hi
  {
    if lo == hi then lo
    else
      var width := (hi - lo) as real;
      assert 0.0 <= u * width < width by { ScaledDrawBelow(u, width); }
      lo + (u * width).Floor
  }

  lemma ScaledDrawBelow(u: Unit, width: real)
    requires width > 0.0
    ensures 0.0 <= u * width < width
  {
    assert width - u * width == (1.0 - u) * width;
  }

  /** `Random.Range(lo, hi)` on floats, driven by the draw `u`: a point
      between the two bounds, whichever of them is larger. */
  function RangeFloat(lo: real, hi: real, u: Unit): (x: real)
    ensures lo <= hi ==> lo <= x <= hi
    ensures hi <= lo ==> hi <= x <= lo
  {
    var d := hi - lo;
    assert (d >= 0.0 ==> 0.0 <= d * u <= d) && (d <= 0.0 ==> d <= d * u <= 0.0) by {
      ScaledDrawWithin(u, d);
    }
    lo + d * u
  }

  lemma ScaledDrawWithin(u: Unit, d: real)
    ensures d >= 0.0 ==> 0.0 <= d * u <= d
    ensures d <= 0.0 ==> d <= d * u <= 0.0
  {
    assert d - d * u == d * (1.0 - u);
  }

  /** The engine's random-number service, seen as a fixed infinite stream of
      draws `source(0), source(1), ...` of which the first `drawn` are used up. */
  class RandomStream {
    const source: nat -> Unit
    var drawn: nat

    constructor (source: nat -> Unit)
      ensures this.source == source && drawn == 0
    {
      this.source := source;
      drawn := 0;
    }

    /** `Random.value` */
    method Value() returns (u: Unit)
      modifies this`drawn
      ensures u == source(old(drawn)) && drawn == old(drawn) + 1
    {
      u := source(drawn);
      drawn := drawn + 1;
    }

    /** `Random.Range(int, int)` */
    method Range(lo: int, hi: int) returns (k: int)
      requires lo <= hi
      modifies this`drawn
      ensures k == RangeInt(lo, hi, source(old(drawn))) && drawn == old(drawn) + 1
      ensures lo < hi ==> lo <= k < hi
    {
      k := RangeInt(lo, hi, source(drawn));
      drawn := drawn + 1;
    }

    /** `Random.Range(float, float)` */
    method RangeReal(lo: real, hi: real) returns (x: real)
      modifies this`drawn
      ensures x == RangeFloat(lo, hi, source(old(drawn))) && drawn == old(drawn) + 1
    {
      x := RangeFloat(lo, hi, source(drawn));
      drawn := drawn + 1;
    }
  }

  datatype Vec3 = Vec3(x: real, y: real, z: real) {
    function Plus(v: Vec3): Vec3 { Vec3(x + v.x, y + v.y, z + v.z) }
    function Minus(v: Vec3): Vec3 { Vec3(x - v.x, y - v.y, z - v.z) }
  }

  /** A rotation as the engine stores it; the model never looks inside. */
  datatype Quaternion = Quaternion(w: real, x: real, y: real, z: real)

  /** The engine's rotation arithmetic, which the model takes as given:
      `rotate(q, v)` is `q * v` and `compose(p, q)` is `p * q`. */
  datatype Geometry = Geometry(rotate: (Quaternion, Vec3) -> Vec3,
                               compose: (Quaternion, Quaternion) -> Quaternion)
}
