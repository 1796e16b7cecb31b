/** The tile categories of the island and the height thresholds that choose between
    them (the `HexagonType` enum and the static height constants of HexagonBox). */
module Biome {

  datatype HexagonType = STONE | DIRT | DIRT2 | GRASS | SAND | WATER

  const MAX_HEIGHT: real := 10.0
  const STONE_HEIGHT: real := MAX_HEIGHT * 0.8
  const DIRT2_HEIGHT: real := MAX_HEIGHT * 0.7
  const GRASS_HEIGHT: real := MAX_HEIGHT * 0.5
  const SAND_HEIGHT: real := MAX_HEIGHT * 0.3
  /** Defined, but its branch of the classification is disabled. */
  const WATER_HEIGHT: real := MAX_HEIGHT * 0.2
  const DIRT_HEIGHT: real := MAX_HEIGHT * 0.0

  /** The classification at the top of `addHexagon`: a first-match chain of
      inclusive `>=` tests from the highest threshold down, DIRT as the fallback.
      The WATER test is commented out in the source and so is absent here. */
  function Classify(height: real): (t: HexagonType)
    ensures t == STONE <==> 8.0 <= height
    ensures t == DIRT2 <==> 7.0 <= height < 8.0
    ensures t == GRASS <==> 5.0 <= height < 7.0
    ensures t == SAND <==> 3.0 <= height < 5.0
    ensures t == DIRT <==> height < 3.0
    ensures t != WATER
  {
    if height >= STONE_HEIGHT then STONE
    else if height >= DIRT2_HEIGHT then DIRT2
    else if height >= GRASS_HEIGHT then GRASS
    else if height >= SAND_HEIGHT then SAND
    else DIRT
  }

  /** Position of a category in the threshold order, lowest first. */
  function Rank(t: HexagonType): nat
  {
    match t
    case DIRT => 0
    case WATER => 1
    case SAND => 2
    case GRASS => 3
    case DIRT2 => 4
    case STONE => 5
  }

  /** With MAX_HEIGHT = 10 the thresholds are 8, 7, 5, 3 (and 2, 0), strictly decreasing. */
  lemma ThresholdsStrictlyDecreasing()
    ensures STONE_HEIGHT == 8.0 && DIRT2_HEIGHT == 7.0 && GRASS_HEIGHT == 5.0
    ensures SAND_HEIGHT == 3.0 && WATER_HEIGHT == 2.0 && DIRT_HEIGHT == 0.0
    ensures STONE_HEIGHT > DIRT2_HEIGHT > GRASS_HEIGHT > SAND_HEIGHT > WATER_HEIGHT > DIRT_HEIGHT
  {
  }

  /** A higher tile never gets a lower category. */
  lemma ClassifyMonotone(h1: real, h2: real)
    requires h1 <= h2
    ensures Rank(Classify(h1)) <= Rank(Classify(h2))
  {
  }
}
