/**
 * Start-of-game constants and classification: the quadrant IDs, the layout
 * of the shared (comms) array, and the quadrant a robot starts in.
 */
module Setup {
  import opened Codec

  const Quad1 := 1
  const Quad2 := 2
  const Quad3 := 3
  const Quad4 := 4

  /** First index of each section of the shared array, as the fields define them. */
  const HqSection := 1
  const QuadSection := HqSection + 4
  const AttackSection := QuadSection + 4
  const WellSection := AttackSection + 4
  const IslandSection := WellSection + 12
  const AdamantiumWellSection := WellSection + 4
  const ManaWellSection := AdamantiumWellSection + 4
  const ElixirWellSection := ManaWellSection + 4

  /**
   * The sections are consecutive four-slot blocks from index 1, and the island
   * section starts where the elixir-well section starts, so those two blocks
   * are the same indices.
   */
  lemma SectionLayout()
    ensures HqSection == 1
    ensures QuadSection == HqSection + 4 && AttackSection == QuadSection + 4
    ensures WellSection == AttackSection + 4 && AdamantiumWellSection == WellSection + 4
    ensures ManaWellSection == AdamantiumWellSection + 4 && ElixirWellSection == ManaWellSection + 4
    ensures ElixirWellSection == IslandSection == 25
  {
  }

  /**
   * initialMapQuadrant: the if-chain classifies the start square against the
   * half-width and half-height (Java division). The four results cover these
   * regions: the mid column above the middle row goes to 1, the mid column
   * below it goes to 4, and the middle row right of the mid column goes to 4.
   */
  function InitialMapQuadrant(x: int, y: int, width: int, height: int): (q: int)
    ensures Quad1 <= q <= Quad4
    ensures q == Quad1 <==> x <= JavaDiv(width, 2) && y >= JavaDiv(height, 2)
    ensures q == Quad2 <==> x > JavaDiv(width, 2) && y > JavaDiv(height, 2)
    ensures q == Quad3 <==> x < JavaDiv(width, 2) && y < JavaDiv(height, 2)
    ensures q == Quad4 <==>
              (x > JavaDiv(width, 2) && y <= JavaDiv(height, 2))
              || (x == JavaDiv(width, 2) && y < JavaDiv(height, 2))
  {
    var midX := JavaDiv(width, 2);
    var midY := JavaDiv(height, 2);
    if x <= midX && y >= midY then Quad1
    else if x > midX && y > midY then Quad2
    else if x < midX && y <= midY then Quad3
    else Quad4
  }
}
