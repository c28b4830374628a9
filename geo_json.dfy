/** The parsed form of the world outline file (GeoJSON) that the globes read,
    and the symbolic points they place on a sphere.

    The trigonometry that turns a longitude/latitude into x, y, z is not part
    of this model: a point is denoted by where it comes from (a geographic
    coordinate, the i-th point of a Fibonacci sphere, a random Marsaglia draw),
    and a flat Float32Array of positions becomes a sequence of `Component`s, one
    per number, each naming the point, the axis and any random offset added. */
module GeoJson {

  /** A GeoJSON position `[lng, lat]`. */
  datatype Coord = Coord(lng: real, lat: real)

  type Ring = seq<Coord>

  /** `feature.geometry`: its `type` and its `coordinates`. */
  datatype Geometry =
    | Polygon(rings: seq<Ring>)
    | MultiPolygon(polygons: seq<seq<Ring>>)
    | OtherGeometry(kind: string)

  datatype Feature = Feature(geometry: Geometry)

  datatype GeoData = GeoData(features: seq<Feature>)

  /** A point on a sphere, named by its origin. */
  datatype Vertex =
    | Geo(coord: Coord, radius: real)
    | Fibonacci(index: nat, count: nat, radius: real)
    | Marsaglia(u: real, v: real, radius: real)

  datatype Axis = X | Y | Z

  /** One number of a flat position array: `axis` of `vertex`, plus `offset`. */
  datatype Component = Component(vertex: Vertex, axis: Axis, offset: real)

  /** `positions.push(x, y, z)` for one vertex, without offset. */
  function Xyz(v: Vertex): (r: seq<Component>)
    ensures |r| == 3
    ensures forall k :: 0 <= k < 3 ==> r[k].vertex == v && r[k].offset == 0.0
    ensures r[0].axis == X && r[1].axis == Y && r[2].axis == Z
  {
    [Component(v, X, 0.0), Component(v, Y, 0.0), Component(v, Z, 0.0)]
  }
}
