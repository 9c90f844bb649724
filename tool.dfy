/** The constant PI and the degree/radian conversions of include/Math/Tool.h,
    over exact reals (the source computes in double and casts back to T). */
module Tool {

  /** The double literal the source uses for PI, as an exact real. */
  const PI: real := 3.14159265358979323846

  /** degToRad: deg * PI / 180. */
  function DegToRad(deg: real): (rad: real)
    ensures deg > 0.0 ==> rad > 0.0
    ensures deg < 0.0 ==> rad < 0.0
    ensures rad * 180.0 == deg * PI
  {
    deg * PI / 180.0
  }

  /** radToDeg: rad * 180 / PI. */
  function RadToDeg(rad: real): (deg: real)
    ensures rad > 0.0 ==> deg > 0.0
    ensures rad < 0.0 ==> deg < 0.0
    ensures deg * PI == rad * 180.0
  {
    rad * 180.0 / PI
  }

  lemma DegRadRoundTrip(deg: real, rad: real)
    ensures RadToDeg(DegToRad(deg)) == deg
    ensures DegToRad(RadToDeg(rad)) == rad
  {
  }

  lemma DegToRadLandmarks()
    ensures DegToRad(0.0) == 0.0
    ensures DegToRad(180.0) == PI
    ensures DegToRad(90.0) == PI / 2.0
    ensures DegToRad(45.0) == PI / 4.0
  {
  }

  /** Both conversions are strictly increasing. */
  lemma ConversionsStrictlyIncreasing(a: real, b: real)
    requires a < b
    ensures DegToRad(a) < DegToRad(b)
    ensures RadToDeg(a) < RadToDeg(b)
  {
  }

  /** Both conversions are additive on all reals, so they are linear maps. */
  lemma ConversionsAdditive(a: real, b: real)
    ensures DegToRad(a + b) == DegToRad(a) + DegToRad(b)
    ensures RadToDeg(a + b) == RadToDeg(a) + RadToDeg(b)
  {
  }

  /** The camera's default field of view, 45 degrees, lies inside the range
      [PI/18, 2PI/3] that every fov setter clamps to. */
  lemma DefaultFovInRange()
    ensures PI / 18.0 <= DegToRad(45.0) <= 2.0 * PI / 3.0
  {
  }
}
