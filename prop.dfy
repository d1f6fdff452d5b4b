/** Interactive props created from map entities (game/prop.go). Sprites are
    drawing data and are not modelled. */
module Props {
  import opened Geometry

  /** A prop. The position is the entity's pixel coordinate list, as in the
      source, not a vector. */
  datatype Prop = Prop(
    kind: string,
    pickable: bool,
    walkable: bool,
    pushable: bool,
    textureRect: Rect,
    position: seq<real>,
    isAnimated: bool,
    currentFrame: int,
    animationFramesCounter: int,
    framesCounter: int,
    framesSpeed: int,
    hitboxRect: Rect,
    isSelected: bool)

  /** An entity record of the map source: size and pixel coordinates. */
  datatype LDtkEntity = LDtkEntity(width: int, height: int, px: seq<real>)

  /** Builds a pickable prop with an 8x8 hitbox at the entity's pixel position;
      every other attribute keeps its zero value. The entity needs at least two
      coordinates (the source indexes px[0] and px[1]). */
  function NewPropFromLDtk(entity: LDtkEntity): (p: Prop)
    requires |entity.px| >= 2
    ensures p.hitboxRect == Rect(entity.px[0], entity.px[1], 8.0, 8.0)
    ensures p.position == entity.px
    ensures p.pickable && !p.walkable && !p.pushable
    ensures p.kind == "" && !p.isAnimated && !p.isSelected && p.textureRect == ZeroRect
    ensures p.currentFrame == 0 && p.animationFramesCounter == 0 && p.framesCounter == 0 && p.framesSpeed == 0
  {
    Prop(
      kind := "",
      pickable := true,
      walkable := false,
      pushable := false,
      textureRect := ZeroRect,
      position := entity.px,
      isAnimated := false,
      currentFrame := 0,
      animationFramesCounter := 0,
      framesCounter := 0,
      framesSpeed := 0,
      hitboxRect := Rect(entity.px[0], entity.px[1], 8.0, 8.0),
      isSelected := false)
  }

  /** The entity's width and height play no part: two entities at the same
      pixel position give the same prop. */
  lemma PropIgnoresEntitySize(a: LDtkEntity, b: LDtkEntity)
    requires |a.px| >= 2 && a.px == b.px
    ensures NewPropFromLDtk(a) == NewPropFromLDtk(b)
  {
  }

  /** The prop's hitbox starts at its own position and covers the 8x8 cell
      to its right and below; any other 8x8 box overlaps it exactly when the
      two corners are less than 8 apart on both axes. */
  lemma PropHitboxOverlap(entity: LDtkEntity, x: real, y: real)
    requires |entity.px| >= 2
    ensures var h := NewPropFromLDtk(entity).hitboxRect;
            h.x == NewPropFromLDtk(entity).position[0] && h.y == NewPropFromLDtk(entity).position[1] &&
            (Overlaps(h, Rect(x, y, 8.0, 8.0)) <==>
               (-8.0 < x - entity.px[0] < 8.0 && -8.0 < y - entity.px[1] < 8.0))
  {
  }
}
