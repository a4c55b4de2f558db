/**
 * The distance tier of `createCamera` (script.js): the camera's z is chosen
 * from the window's aspect ratio (width / height), farther for narrower windows.
 */
module Camera {

  /** `cameraZ`, the distance for a window at least as wide as it is tall. */
  const CameraZ: real := 125.0

  /** The camera z createCamera sets for an aspect ratio, as written: an aspect of
      exactly 0.75 fails both `aspect > 0.75` and `aspect < 0.75` and falls to the
      last branch. */
  function DistanceZ(aspect: real): (z: real)
    ensures 0.75 < aspect < 1.0 ==> z == 187.5
    ensures aspect < 0.75 ==> z == 312.5
    ensures aspect == 0.75 || aspect >= 1.0 ==> z == 125.0
  {
    if aspect < 1.0 && aspect > 0.75 then CameraZ * 1.5
    else if aspect < 0.75 then CameraZ * 2.5
    else CameraZ
  }

  /** As written, the distance is not monotone in the aspect ratio: a window of
      aspect 0.75 gets the nearest camera, although both narrower and slightly
      wider windows get a farther one. */
  lemma DistanceNotMonotone()
    ensures DistanceZ(0.74) > DistanceZ(0.75) && DistanceZ(0.75) < DistanceZ(0.76)
    ensures !(forall a, b :: a <= b ==> DistanceZ(b) <= DistanceZ(a))
  {
  }

  /** The tiers with the aspect 0.75 placed in the middle one: [0.75, 1) -> 187.5. */
  function IntendedDistanceZ(aspect: real): (z: real)
    ensures 0.75 <= aspect < 1.0 ==> z == 187.5
    ensures aspect < 0.75 ==> z == 312.5
    ensures aspect >= 1.0 ==> z == 125.0
  {
    if aspect < 0.75 then CameraZ * 2.5
    else if aspect < 1.0 then CameraZ * 1.5
    else CameraZ
  }

  /** The intended tiers never bring the camera nearer as the window gets narrower. */
  lemma IntendedDistanceMonotone(a: real, b: real)
    requires a <= b
    ensures IntendedDistanceZ(b) <= IntendedDistanceZ(a)
  {
  }

  /** The two definitions differ only at the aspect 0.75. */
  lemma DistanceAgreesOffBoundary(aspect: real)
    ensures DistanceZ(aspect) == IntendedDistanceZ(aspect) <==> aspect != 0.75
  {
  }
}
