/** One island tile: a hexagonal prism standing on the ground plane. */
module Hexagon {
  import opened Geometry
  import opened Biome

  /** The prism a tile of `height` at planar `position` occupies: a closed cylinder of
      radius 1 with 6 radial segments (a hexagon) and one height segment, standing with
      its base on y = 0 and its top at y = height; planar y becomes world z. */
  function TileGeometry(height: real, position: Vec2): (g: Piece)
    ensures g.Cylinder? && g.radiusTop == 1.0 && g.radiusBottom == 1.0
    ensures g.radialSegments == 6 && g.heightSegments == 1 && !g.openEnded
    ensures g.height == height
    ensures Bottom(g) == 0.0 && Top(g) == height
    ensures g.centre.x == position.x && g.centre.z == position.y
  {
    Translated(Cylinder(1.0, 1.0, height, 6, 1, false, ORIGIN), Vec3(position.x, height * 0.5, position.y))
  }

  class Hexagon {
    var kind: HexagonType
    var geometry: Piece

    /** Builds the cylinder centred on the origin, then translates it in place by
        (position.x, height / 2, position.y). */
    constructor (kind: HexagonType, height: real, position: Vec2)
      ensures this.kind == kind
      ensures geometry == TileGeometry(height, position)
    {
      this.kind := kind;
      geometry := Cylinder(1.0, 1.0, height, 6, 1, false, ORIGIN);
      new;
      geometry := Translated(geometry, Vec3(position.x, height * 0.5, position.y));
    }
  }
}
