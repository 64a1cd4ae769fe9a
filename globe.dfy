/**
 * The globe as the map component sees it: geographic positions, the Cartesian points a
 * path is made of, and the resolution of a right-click against the globe's ellipsoid.
 * The geometry itself (the camera's ellipsoid pick, the Cartesian-to-geographic and the
 * geographic-to-Cartesian conversions) is floating-point library code and is not modelled:
 * its outcome is a parameter.
 */
module Globe {
  import opened Wrappers

  /** A position on the ellipsoid: longitude and latitude in radians, altitude in metres. */
  datatype Cartographic = Cartographic(longitude: real, latitude: real, altitude: real)

  /**
   * A Cartesian point projected from a geographic position. The projection's arithmetic is
   * not modelled; a point is identified by the position it was projected from.
   */
  datatype Point = FromRadians(origin: Cartographic)

  /** What a pick needs from the viewer's scene: whether its globe has an ellipsoid. */
  datatype Scene = Scene(hasEllipsoid: bool)

  /**
   * Resolves a right-click to geographic coordinates. `scene` is the viewer's scene (None
   * when it is not there yet); `picked` is what the camera's ellipsoid pick followed by the
   * Cartesian-to-geographic conversion produced (None when the click misses the globe).
   * The resolution succeeds exactly when there is a scene with an ellipsoid and the pick
   * hit, and then it yields the picked position itself.
   */
  function CoordinatesFromMovementPosition(scene: Option<Scene>, picked: Option<Cartographic>): (r: Option<Cartographic>)
    ensures r.Some? <==> scene.Some? && scene.value.hasEllipsoid && picked.Some?
    ensures r.Some? ==> r == picked
  {
    match scene
    case None => None
    case Some(s) =>
      if s.hasEllipsoid && picked.Some? then Some(picked.value) else None
  }

  /** The point a right-click adds to the path, if the click resolves on the globe. */
  function ClickedPoint(scene: Option<Scene>, picked: Option<Cartographic>): (p: Option<Point>)
    ensures p.Some? <==> CoordinatesFromMovementPosition(scene, picked).Some?
    ensures p.Some? ==> p.value.origin == picked.value
  {
    match CoordinatesFromMovementPosition(scene, picked)
    case Some(c) => Some(FromRadians(c))
    case None => None
  }
}
