/** Planar and spatial vectors, and the three kinds of three.js geometry the terrain
    builder creates. A geometry piece is kept opaque: its constructor parameters plus
    the point its local origin has been translated to. */
module Geometry {

  /** A planar position; `y` is the planar second axis, which becomes world z. */
  datatype Vec2 = Vec2(x: real, y: real)

  datatype Vec3 = Vec3(x: real, y: real, z: real)

  const ORIGIN: Vec3 := Vec3(0.0, 0.0, 0.0)

  function Plus(a: Vec3, b: Vec3): Vec3
  {
    Vec3(a.x + b.x, a.y + b.y, a.z + b.z)
  }

  /** The geometries three.js builds for the island: a BoxGeometry (the empty seed of
      every batch), a CylinderGeometry (a tile) and a SphereGeometry (a stone).
      Every three.js primitive is built centred on its local origin; `centre` is where
      that origin lies after the translations applied to the geometry. */
  datatype Piece =
    | Box(width: real, height: real, depth: real, centre: Vec3)
    | Cylinder(radiusTop: real, radiusBottom: real, height: real,
               radialSegments: nat, heightSegments: nat, openEnded: bool, centre: Vec3)
    | Sphere(radius: real, widthSegments: nat, heightSegments: nat, centre: Vec3)

  /** `geometry.translate(v)`: moves every vertex by `v`, and nothing else. */
  function Translated(g: Piece, v: Vec3): (r: Piece)
    ensures r.(centre := g.centre) == g
    ensures r.centre.x - g.centre.x == v.x
    ensures r.centre.y - g.centre.y == v.y
    ensures r.centre.z - g.centre.z == v.z
  {
    g.(centre := Plus(g.centre, v))
  }

  /** Lowest world y a cylinder reaches (it extends half its height each way from its centre). */
  function Bottom(g: Piece): real
    requires g.Cylinder?
  {
    g.centre.y - g.height / 2.0
  }

  /** Highest world y a cylinder reaches. */
  function Top(g: Piece): real
    requires g.Cylinder?
  {
    g.centre.y + g.height / 2.0
  }
}
