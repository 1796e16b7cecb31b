/** The per-category batches of island geometry. A JavaScript `Map` from category to
    merged geometry, grown one tile at a time; tiles of the STONE and SAND categories
    may also scatter a small stone sphere, which always goes to the STONE batch.
    A merged geometry is modelled as the sequence of the pieces merged into it, so
    merging is appending; the random source is an explicit sequence of draws. */
module HexagonBox {
  import opened Geometry
  import opened Biome
  import opened Hexagon

  /** The contents of `hexagonGeometries`, key by key. */
  type Batches = map<HexagonType, seq<Piece>>

  /** A draw above this value scatters a stone. */
  const STONE_CHANCE_GATE: real := 0.8

  /** The keys the constructor sets, in the order it sets them (WATER is commented out). */
  const INITIAL_KEYS: seq<HexagonType> := [STONE, DIRT, DIRT2, GRASS, SAND]

  /** The categories whose tiles may carry a stone. */
  predicate Scatters(t: HexagonType)
  {
    t == STONE || t == SAND
  }

  /** The batches right after construction: every key of INITIAL_KEYS holds just the
      seed `BoxGeometry(x, y, z)`. */
  function SeedBatches(x: real, y: real, z: real): (b: Batches)
    ensures b.Keys == {STONE, DIRT, DIRT2, GRASS, SAND}
    ensures forall t :: t in b ==> b[t] == [Box(x, y, z, ORIGIN)]
    ensures HasAllCategories(b) && WATER !in b
  {
    var seed := [Box(x, y, z, ORIGIN)];
    map[STONE := seed, DIRT := seed, DIRT2 := seed, GRASS := seed, SAND := seed]
  }

  /** Every category the classification can produce has a batch. */
  ghost predicate HasAllCategories(b: Batches)
  {
    forall t: HexagonType :: t != WATER ==> t in b
  }

  /** The stone `createStone` builds from three draws, taken in the order x jitter,
      z jitter, radius: a 7x7 sphere of radius in [0.1, 0.4) sitting at the tile's
      height, jittered by [0, 0.4) along both planar axes. */
  function StoneFrom(height: real, position: Vec2, dx: real, dz: real, dr: real): (g: Piece)
    ensures g.Sphere? && g.widthSegments == 7 && g.heightSegments == 7
    ensures 0.0 <= dr < 1.0 ==> 0.1 <= g.radius < 0.4
    ensures 0.0 <= dx < 1.0 ==> position.x <= g.centre.x < position.x + 0.4
    ensures 0.0 <= dz < 1.0 ==> position.y <= g.centre.z < position.y + 0.4
    ensures g.centre.y == height
  {
    Translated(Sphere(dr * 0.3 + 0.1, 7, 7, ORIGIN), Vec3(position.x + dx * 0.4, height, position.y + dz * 0.4))
  }

  /** What one `addHexagon(height, position)` does to the batches and to the random
      source: the tile goes to the batch of its category; if that category has no batch
      nothing happens at all; a STONE or SAND tile then draws once and, above the gate,
      three more draws build a stone merged into the STONE batch (if there is one). */
  function Place(b: Batches, height: real, position: Vec2, draws: seq<real>): (r: (Batches, seq<real>))
    requires |draws| >= 4
    ensures r.0.Keys == b.Keys
    ensures |draws| - 4 <= |r.1| <= |draws| && r.1 == draws[|draws| - |r.1|..]
  {
    var t := Classify(height);
    if t !in b then (b, draws)
    else
      var b1 := b[t := b[t] + [TileGeometry(height, position)]];
      if !Scatters(t) then (b1, draws)
      else if !(draws[0] > STONE_CHANCE_GATE) then (b1, draws[1..])
      else if STONE !in b1 then (b1, draws[1..])
      else (b1[STONE := b1[STONE] + [StoneFrom(height, position, draws[1], draws[2], draws[3])]], draws[4..])
  }

  /** The number of tiles (cylinders) in a batch. */
  function Prisms(s: seq<Piece>): nat
  {
    if s == [] then 0 else Prisms(s[..|s| - 1]) + (if s[|s| - 1].Cylinder? then 1 else 0)
  }

  /** The number of stones (spheres) in a batch. */
  function Spheres(s: seq<Piece>): nat
  {
    if s == [] then 0 else Spheres(s[..|s| - 1]) + (if s[|s| - 1].Sphere? then 1 else 0)
  }

  lemma CountsAppend(s: seq<Piece>, p: Piece)
    ensures Prisms(s + [p]) == Prisms(s) + (if p.Cylinder? then 1 else 0)
    ensures Spheres(s + [p]) == Spheres(s) + (if p.Sphere? then 1 else 0)
  {
    assert (s + [p])[..|s|] == s;
  }

  /** `addHexagon` touches only the batch of the tile's category and the STONE batch,
      and it never shortens a batch: every old batch is a prefix of the new one. The
      tile's batch gains just the tile, unless it is STONE and a stone fires too; STONE
      changes for another category only when a stone fires. */
  lemma PlaceFrame(b: Batches, height: real, position: Vec2, draws: seq<real>)
    requires |draws| >= 4
    ensures var t := Classify(height);
      var r := Place(b, height, position, draws).0;
      var fired := t in b && Scatters(t) && draws[0] > STONE_CHANCE_GATE && STONE in b;
      && (forall k :: k in b ==>
            && b[k] <= r[k]
            && (k != t && k != STONE ==> r[k] == b[k])
            && (k != t && !fired ==> r[k] == b[k]))
      && (t in b && (t != STONE || !fired) ==> r[t] == b[t] + [TileGeometry(height, position)])
  {
  }

  /** A piece already in a batch is still there after `addHexagon`. */
  lemma PlaceKeeps(b: Batches, height: real, position: Vec2, draws: seq<real>, t: HexagonType, g: Piece)
    requires |draws| >= 4
    requires t in b && g in b[t]
    ensures g in Place(b, height, position, draws).0[t]
  {
    PlaceFrame(b, height, position, draws);
  }

  /** A tile whose category has a batch is in that batch after `addHexagon`. */
  lemma PlaceLands(b: Batches, height: real, position: Vec2, draws: seq<real>)
    requires |draws| >= 4
    requires Classify(height) in b
    ensures TileGeometry(height, position) in Place(b, height, position, draws).0[Classify(height)]
  {
    PlaceTile(b, height, position, draws);
  }

  /** A category without a batch makes `addHexagon` a no-op that draws nothing; with a
      batch, the tile's prism is the next piece of that batch, and the last one unless
      a stone is merged into the same (STONE) batch after it. */
  lemma PlaceTile(b: Batches, height: real, position: Vec2, draws: seq<real>)
    requires |draws| >= 4
    ensures var t := Classify(height);
      && (t !in b ==> Place(b, height, position, draws) == (b, draws))
      && (t in b ==>
            var r := Place(b, height, position, draws).0;
            |r[t]| > |b[t]| && r[t][|b[t]|] == TileGeometry(height, position))
      && (t in b && !(t == STONE && draws[0] > STONE_CHANCE_GATE) ==>
            Place(b, height, position, draws).0[t] == b[t] + [TileGeometry(height, position)])
  {
  }

  /** The stone gate: a draw is consumed exactly when the tile has a batch and is STONE
      or SAND; a stone is added exactly when, besides, that draw exceeds 0.8 and there is
      a STONE batch; the stone is then the last piece of the STONE batch, built from the
      next three draws, which are consumed too. */
  lemma PlaceGate(b: Batches, height: real, position: Vec2, draws: seq<real>)
    requires |draws| >= 4
    ensures var t := Classify(height);
      var r := Place(b, height, position, draws);
      var gated := t in b && Scatters(t);
      var fired := gated && draws[0] > STONE_CHANCE_GATE && STONE in b;
      && (|r.1| < |draws| <==> gated)
      && (gated && !fired ==> r.1 == draws[1..])
      && (fired ==> r.1 == draws[4..]
                    && r.0[STONE] == b[STONE] + (if t == STONE then [TileGeometry(height, position)] else [])
                                              + [StoneFrom(height, position, draws[1], draws[2], draws[3])])
  {
  }

  /** Conservation for one call: the tile adds one prism to its own batch and nothing
      else; stones add one sphere to STONE and to no other batch; no other piece is
      merged anywhere. */
  lemma PlaceCounts(b: Batches, height: real, position: Vec2, draws: seq<real>)
    requires |draws| >= 4
    ensures var t := Classify(height);
      var r := Place(b, height, position, draws).0;
      var fired := t in b && Scatters(t) && draws[0] > STONE_CHANCE_GATE && STONE in b;
      forall k :: k in b ==>
        && Prisms(r[k]) == Prisms(b[k]) + (if k == t then 1 else 0)
        && Spheres(r[k]) == Spheres(b[k]) + (if k == STONE && fired then 1 else 0)
        && |r[k]| == |b[k]| + (if k == t then 1 else 0) + (if k == STONE && fired then 1 else 0)
  {
    var t := Classify(height);
    var r := Place(b, height, position, draws).0;
    var fired := t in b && Scatters(t) && draws[0] > STONE_CHANCE_GATE && STONE in b;
    forall k | k in b
      ensures Prisms(r[k]) == Prisms(b[k]) + (if k == t then 1 else 0)
      ensures Spheres(r[k]) == Spheres(b[k]) + (if k == STONE && fired then 1 else 0)
      ensures |r[k]| == |b[k]| + (if k == t then 1 else 0) + (if k == STONE && fired then 1 else 0)
    {
      PlaceCountsAt(b, height, position, draws, k);
    }
  }

  /** With every reachable category present, one call uses one gate draw per STONE or
      SAND tile and three more per stone it adds, so the draws used count the stones. */
  lemma PlaceDraws(b: Batches, height: real, position: Vec2, draws: seq<real>)
    requires |draws| >= 4
    requires HasAllCategories(b)
    ensures var r := Place(b, height, position, draws);
      |draws| - |r.1| == (if Scatters(Classify(height)) then 1 else 0) + 3 * (Spheres(r.0[STONE]) - Spheres(b[STONE]))
  {
    assert STONE in b && Classify(height) in b;
    PlaceGate(b, height, position, draws);
    PlaceCountsAt(b, height, position, draws, STONE);
  }

  /** `PlaceCounts` for the one batch `k`. */
  lemma PlaceCountsAt(b: Batches, height: real, position: Vec2, draws: seq<real>, k: HexagonType)
    requires |draws| >= 4
    requires k in b
    ensures var t := Classify(height);
      var r := Place(b, height, position, draws).0;
      var fired := t in b && Scatters(t) && draws[0] > STONE_CHANCE_GATE && STONE in b;
      && Prisms(r[k]) == Prisms(b[k]) + (if k == t then 1 else 0)
      && Spheres(r[k]) == Spheres(b[k]) + (if k == STONE && fired then 1 else 0)
      && |r[k]| == |b[k]| + (if k == t then 1 else 0) + (if k == STONE && fired then 1 else 0)
  {
    var t := Classify(height);
    var tile := TileGeometry(height, position);
    var fired := t in b && Scatters(t) && draws[0] > STONE_CHANCE_GATE && STONE in b;
    PlaceFrame(b, height, position, draws);
    if !fired {
      if k == t {
        CountsAppend(b[t], tile);
      }
    } else {
      PlaceGate(b, height, position, draws);
      var stone := StoneFrom(height, position, draws[1], draws[2], draws[3]);
      if k == STONE && t == STONE {
        CountsAppend(b[STONE], tile);
        CountsAppend(b[STONE] + [tile], stone);
      } else if k == STONE {
        CountsAppend(b[STONE], stone);
      } else if k == t {
        CountsAppend(b[t], tile);
      }
    }
  }

  class HexagonBox {
    /** The keys of `hexagonGeometries` in insertion order, which is the order a
        JavaScript `Map` iterates in. */
    var keys: seq<HexagonType>
    /** The value stored under each key. */
    var geometries: Batches

    ghost predicate Valid()
      reads this
    {
      && (forall m, n :: 0 <= m < n < |keys| ==> keys[m] != keys[n])
      && (forall t :: t in geometries <==> t in keys)
    }

    /** `Map.prototype.set`: replaces the value of an existing key in place, or appends
        a new key at the end of the iteration order. */
    method Set(t: HexagonType, g: seq<Piece>)
      requires Valid()
      modifies this
      ensures Valid()
      ensures geometries == old(geometries)[t := g]
      ensures t in old(geometries) ==> keys == old(keys)
      ensures t !in old(geometries) ==> keys == old(keys) + [t]
    {
      if t !in geometries {
        keys := keys + [t];
      }
      geometries := geometries[t := g];
    }

    /** Creates the five batches STONE, DIRT, DIRT2, GRASS, SAND, in that order, each
        seeded with `BoxGeometry(x, y, z)`; there is no WATER batch. The five `set`
        calls on the empty map are written as the state they leave. */
    constructor (x: real, y: real, z: real)
      ensures Valid()
      ensures keys == INITIAL_KEYS
      ensures geometries == SeedBatches(x, y, z)
      ensures HasAllCategories(geometries) && WATER !in geometries
    {
      keys := INITIAL_KEYS;
      geometries := SeedBatches(x, y, z);
    }

    /** Classifies the tile, merges its prism into the batch of its category and, for a
        STONE or SAND tile whose gate draw exceeds 0.8, merges a stone into the STONE
        batch. Returns the draws it did not consume. No key is added or removed. */
    method AddHexagon(height: real, position: Vec2, draws: seq<real>) returns (rest: seq<real>)
      requires Valid()
      requires |draws| >= 4
      modifies this
      ensures Valid() && keys == old(keys)
      ensures (geometries, rest) == Place(old(geometries), height, position, draws)
    {
      var t := Classify(height);
      var newHexagon := new Hexagon(t, height, position);
      if t !in geometries {
        return draws;
      }
      var geometry := geometries[t];
      Set(t, geometry + [newHexagon.geometry]);
      rest := draws;
      if Scatters(t) {
        var gate := rest[0];
        rest := rest[1..];
        if gate > STONE_CHANCE_GATE {
          if STONE !in geometries {
            return;
          }
          var stoneGeometry := geometries[STONE];
          var stone;
          stone, rest := CreateStone(height, position, rest);
          Set(STONE, stoneGeometry + [stone]);
        }
      }
    }

    /** `createStone`: three draws, in the order x jitter, z jitter, radius. */
    static method CreateStone(height: real, position: Vec2, draws: seq<real>) returns (stone: Piece, rest: seq<real>)
      requires |draws| >= 3
      ensures stone == StoneFrom(height, position, draws[0], draws[1], draws[2])
      ensures rest == draws[3..]
    {
      var px := draws[0] * 0.4;
      var pz := draws[1] * 0.4;
      stone := Sphere(draws[2] * 0.3 + 0.1, 7, 7, ORIGIN);
      stone := Translated(stone, Vec3(position.x + px, height, position.y + pz));
      rest := draws[3..];
    }
  }

  /** With every category the classification can produce present (as after the
      constructor), `addHexagon` never takes its silent early return: the tile always
      lands in a batch. */
  lemma NoTileDropped(b: Batches, height: real, position: Vec2, draws: seq<real>)
    requires HasAllCategories(b)
    requires |draws| >= 4
    ensures var r := Place(b, height, position, draws).0;
      Prisms(r[Classify(height)]) == Prisms(b[Classify(height)]) + 1
  {
    PlaceCounts(b, height, position, draws);
  }
}
