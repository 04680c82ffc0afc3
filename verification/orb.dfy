/** The parts of the `orb` geometry library that the converter relies on:
    points, polygons, the geometry kinds a GeoJSON feature can carry, and the
    planar containment tests, which are supplied by the caller. */
module Orb {

  /** `orb.Point` is a pair whose first coordinate is X (longitude) and whose
      second is Y (latitude). Coordinates are float64 in Go; here they are reals. */
  datatype Point = Point(x: real, y: real) {
    function Lon(): real { x }
    function Lat(): real { y }
  }

  type Ring = seq<Point>

  /** An outer ring followed by its holes. */
  datatype Polygon = Polygon(rings: seq<Ring>)

  /** The dynamic type of a feature's geometry. Every kind other than
      polygon and multi-polygon (points, line strings, rings, collections,
      bounds) is folded into `OtherShape`. */
  datatype Geometry =
    | PolygonShape(polygon: Polygon)
    | MultiPolygonShape(polygons: seq<Polygon>)
    | OtherShape(kind: string)

  predicate IsPolygonal(g: Geometry) {
    g.PolygonShape? || g.MultiPolygonShape?
  }

  /** `planar.PolygonContains` and `planar.MultiPolygonContains`. Their
      floating-point geometry is not modelled: any pair of total predicates
      may be supplied. */
  datatype Planar = Planar(
    polygonContains: (Polygon, Point) -> bool,
    multiPolygonContains: (seq<Polygon>, Point) -> bool)

  /** Containment dispatched on the geometry's kind; a geometry of any other
      kind contains nothing. */
  predicate Contains(planar: Planar, g: Geometry, p: Point) {
    match g
    case MultiPolygonShape(ps) => planar.multiPolygonContains(ps, p)
    case PolygonShape(poly) => planar.polygonContains(poly, p)
    case OtherShape(_) => false
  }

  /** The zero `orb.MultiPolygon` (nil) when `g` is not a multi-polygon,
      as a Go type assertion with a discarded `ok` yields. */
  function MultiPolygonOf(g: Geometry): seq<Polygon> {
    if g.MultiPolygonShape? then g.polygons else []
  }

  /** The zero `orb.Polygon` (nil) when `g` is not a polygon. */
  function PolygonOf(g: Geometry): Polygon {
    if g.PolygonShape? then g.polygon else Polygon([])
  }
}
