/** Level tiles and the hand-written test layout (game/tile.go). Sprites and
    base colours are drawing data and are not modelled. */
module Tiles {
  import opened Geometry
  import opened Collisions

  /** A tile: position, collision hitbox, kind ("grass", "wall"), variant,
      solidity, the source rectangle of its sprite, and whether it is drawn
      from a texture or as a flat rectangle. */
  datatype Tile = Tile(
    position: Vec2,
    hitboxRect: Rect,
    kind: string,
    variant: string,
    isSolid: bool,
    textureRect: Rect,
    hasTexture: bool)

  /** Every tile of the test layout is solid, has an 8x8 hitbox at its
      position and no variant. */
  function SolidTile(kind: string, x: real, y: real, textureRect: Rect, hasTexture: bool): (t: Tile)
    ensures t.position == Vec2(x, y) && t.hitboxRect == Rect(x, y, 8.0, 8.0)
    ensures t.variant == ""
    ensures t.isSolid && t.kind == kind && t.textureRect == textureRect && t.hasTexture == hasTexture
  {
    Tile(Vec2(x, y), Rect(x, y, 8.0, 8.0), kind, "", true, textureRect, hasTexture)
  }

  /** Tile k of the close floating platform: its sprite rectangle is its own
      8x8 cell. */
  function CloseTile(k: int): Tile
  {
    var x := 200.0 + (8 * k) as real;
    SolidTile("grass", x, 124.0, Rect(x, 124.0, 8.0, 8.0), false)
  }

  /** Tile k of the middle floating platform. */
  function MiddleTile(k: int): Tile
  {
    SolidTile("grass", 110.0 + (8 * k) as real, 105.0, Rect(0.0, 0.0, 8.0, 8.0), false)
  }

  /** Tile k of the far floating platform. */
  function FarTile(k: int): Tile
  {
    SolidTile("grass", 20.0 + (8 * k) as real, 90.0, Rect(0.0, 0.0, 8.0, 8.0), false)
  }

  /** Tile k of the right wall, stacked downwards from the top of the screen. */
  function WallTile(k: int): Tile
  {
    var y := (k * 8) as real;
    SolidTile("wall", 312.0, y, Rect(312.0, y, 8.0, 8.0), false)
  }

  /** Tile k of the first (lower) floor row: textured, alternating between two
      sprites of the tileset's second row. */
  function FloorTile(k: int): Tile
  {
    SolidTile("grass", (8 * k) as real, 172.0, Rect((k % 2 * 8) as real, 8.0, 8.0, 8.0), true)
  }

  /** Tile k of the second (upper) floor row: textured, alternating between two
      sprites of the tileset's first row. */
  function FloorTopTile(k: int): Tile
  {
    SolidTile("grass", (8 * k) as real, 164.0, Rect((k % 2 * 8) as real, 0.0, 8.0, 8.0), true)
  }

  // Where each block starts in the layout.
  const MiddleStart := 7
  const FarStart := 14
  const WallStart := 21
  const FloorStart := 42
  const FloorTopStart := 82
  const LayoutSize := 122

  /** The test layout, block by block: close, middle and far platforms (7
      tiles each), the right wall (21), and the two floor rows (40 each). */
  function TestLayout(): seq<Tile>
  {
    seq(7, CloseTile) + seq(7, MiddleTile) + seq(7, FarTile) + seq(21, WallTile)
      + seq(40, FloorTile) + seq(40, FloorTopTile)
  }

  /** Builds the test layout with six appending loops, in block order. */
  method BasicTestLevelLayout() returns (layout: seq<Tile>)
    ensures layout == TestLayout()
  {
    layout := [];
    var y := 0;
    while y < 7
      invariant 0 <= y <= 7
      invariant layout == seq(y, CloseTile)
    {
      layout := layout + [CloseTile(y)];
      y := y + 1;
    }
    ghost var done := layout;
    y := 0;
    while y < 7
      invariant 0 <= y <= 7
      invariant layout == done + seq(y, MiddleTile)
    {
      layout := layout + [MiddleTile(y)];
      y := y + 1;
    }
    done := layout;
    y := 0;
    while y < 7
      invariant 0 <= y <= 7
      invariant layout == done + seq(y, FarTile)
    {
      layout := layout + [FarTile(y)];
      y := y + 1;
    }
    done := layout;
    y := 0;
    while y < 21
      invariant 0 <= y <= 21
      invariant layout == done + seq(y, WallTile)
    {
      layout := layout + [WallTile(y)];
      y := y + 1;
    }
    done := layout;
    y := 0;
    while y < 40
      invariant 0 <= y <= 40
      invariant layout == done + seq(y, FloorTile)
    {
      layout := layout + [FloorTile(y)];
      y := y + 1;
    }
    done := layout;
    y := 0;
    while y < 40
      invariant 0 <= y <= 40
      invariant layout == done + seq(y, FloorTopTile)
    {
      layout := layout + [FloorTopTile(y)];
      y := y + 1;
    }
  }

  /** The test layout has 7 + 7 + 7 + 21 + 40 + 40 tiles, and tile i belongs to
      the block whose start index is the greatest one not above i. */
  lemma TestLayoutBlocks(i: int)
    requires 0 <= i < LayoutSize
    ensures |TestLayout()| == LayoutSize
    ensures i < MiddleStart ==> TestLayout()[i] == CloseTile(i)
    ensures MiddleStart <= i < FarStart ==> TestLayout()[i] == MiddleTile(i - MiddleStart)
    ensures FarStart <= i < WallStart ==> TestLayout()[i] == FarTile(i - FarStart)
    ensures WallStart <= i < FloorStart ==> TestLayout()[i] == WallTile(i - WallStart)
    ensures FloorStart <= i < FloorTopStart ==> TestLayout()[i] == FloorTile(i - FloorStart)
    ensures FloorTopStart <= i ==> TestLayout()[i] == FloorTopTile(i - FloorTopStart)
  {
    var a := seq(7, CloseTile) + seq(7, MiddleTile);
    var b := a + seq(7, FarTile);
    var c := b + seq(21, WallTile);
    var d := c + seq(40, FloorTile);
    assert TestLayout() == d + seq(40, FloorTopTile);
    if i < FloorTopStart {
      assert TestLayout()[i] == d[i];
      if i < FloorStart {
        assert d[i] == c[i];
        if i < WallStart {
          assert c[i] == b[i];
          if i < FarStart {
            assert b[i] == a[i];
          }
        }
      }
    }
  }

  /** Every tile of the test layout is solid and its hitbox is the 8x8 square
      at its position. */
  lemma TestLayoutSolidSquares(i: int)
    requires 0 <= i < LayoutSize
    ensures var t := TestLayout()[i];
            t.isSolid && t.hitboxRect == Rect(t.position.x, t.position.y, 8.0, 8.0)
  {
    TestLayoutBlocks(i);
  }

  /** Only the floor tiles are textured. */
  lemma TestLayoutTexturedIffFloor(i: int)
    requires 0 <= i < LayoutSize
    ensures TestLayout()[i].hasTexture <==> i >= FloorStart
  {
    TestLayoutBlocks(i);
  }

  /** Right-wall tile k sits at (312, 8k). */
  lemma WallTilePosition(k: int)
    requires 0 <= k < 21
    ensures TestLayout()[WallStart + k].position == Vec2(312.0, (8 * k) as real)
    ensures TestLayout()[WallStart + k].kind == "wall"
  {
    TestLayoutBlocks(WallStart + k);
  }

  /** Floor tile k sits at (8k, 172) with sprite ((k mod 2)*8, 8); the tile
      above it sits at (8k, 164) with sprite ((k mod 2)*8, 0). */
  lemma FloorTilePositions(k: int)
    requires 0 <= k < 40
    ensures TestLayout()[FloorStart + k].position == Vec2((8 * k) as real, 172.0)
    ensures TestLayout()[FloorStart + k].textureRect == Rect((k % 2 * 8) as real, 8.0, 8.0, 8.0)
    ensures TestLayout()[FloorTopStart + k].position == Vec2((8 * k) as real, 164.0)
    ensures TestLayout()[FloorTopStart + k].textureRect.y == 0.0
  {
    TestLayoutBlocks(FloorStart + k);
    TestLayoutBlocks(FloorTopStart + k);
  }

  /** A hitbox that straddles the seam between floor tiles 1 and 2 of the upper
      floor row, sunk 3 units into them, hits the right side of tile 1 by only
      1 unit; the ghost-collision correction drops that hit, while tile 2
      reports a Top hit. */
  lemma SeamScenario()
    ensures var body := Rect(15.0, 150.0, 10.0, 17.0);
            CheckRectanglesCollision(body, TestLayout()[FloorTopStart + 1].hitboxRect) == Hit(false, NoFace) &&
            CheckRectanglesCollision(body, TestLayout()[FloorTopStart + 2].hitboxRect) == Hit(true, FaceTop)
  {
    FloorTilePositions(1);
    FloorTilePositions(2);
    TestLayoutSolidSquares(FloorTopStart + 1);
    TestLayoutSolidSquares(FloorTopStart + 2);
  }
}
