/** Visual-effect records and their per-type animation table (game/vfx.go). */
module Vfx {
  import opened Geometry

  /** The source's effect type is a plain integer; two values are named. */
  type VFXType = int

  const PlayerJumpVFX: VFXType := 0
  const PlayerDeathVFX: VFXType := 1

  /** An effect: type, anchor position and animation cursor (frame, pose index,
      frames per pose, frame counter, number of poses, looping). */
  datatype VFX = VFX(
    vfxType: VFXType,
    position: Vec2,
    animationCurrentFrame: int,
    animationCurrentPosition: int,
    animationFramesPerPosition: int,
    animationFramesCounter: int,
    animationPositionsCounter: int,
    loops: bool)

  /** The zero value of the record. Its type field is 0, which is also the
      jump effect's tag. */
  const ZeroVFX := VFX(0, Vec2(0.0, 0.0), 0, 0, 0, 0, 0, false)

  predicate IsKnown(t: VFXType)
  {
    t == PlayerJumpVFX || t == PlayerDeathVFX
  }

  /** Looks the type up in the effect table: a fresh cursor at the given
      position for a known type, the zero record for any other value. */
  function NewVFX(vfxType: VFXType, position: Vec2): (v: VFX)
    ensures vfxType == PlayerJumpVFX ==>
              v.animationFramesPerPosition == 4 && v.animationPositionsCounter == 4 && !v.loops
    ensures vfxType == PlayerDeathVFX ==>
              v.animationFramesPerPosition == 10 && v.animationPositionsCounter == 3 && !v.loops
    ensures IsKnown(vfxType) ==>
              v.vfxType == vfxType && v.position == position &&
              v.animationCurrentFrame == 0 && v.animationCurrentPosition == 0 && v.animationFramesCounter == 0
    ensures !IsKnown(vfxType) ==> v == ZeroVFX
  {
    var inventory := map[
      PlayerJumpVFX := VFX(PlayerJumpVFX, position, 0, 0, 4, 0, 4, false),
      PlayerDeathVFX := VFX(PlayerDeathVFX, position, 0, 0, 10, 0, 3, false)
    ];
    if vfxType in inventory then inventory[vfxType] else ZeroVFX
  }

  /** Number of frames one run of the animation lasts. */
  function AnimationLength(v: VFX): int
  {
    v.animationFramesPerPosition * v.animationPositionsCounter
  }

  /** The result carries the requested type exactly when the type is known,
      and only a known type yields an animation that lasts any frames: 16 for
      the jump, 30 for the death effect. */
  lemma KnownTypesAnimate(t: VFXType, p: Vec2)
    ensures NewVFX(t, p).vfxType == t <==> IsKnown(t)
    ensures AnimationLength(NewVFX(t, p)) > 0 <==> IsKnown(t)
    ensures t == PlayerJumpVFX ==> AnimationLength(NewVFX(t, p)) == 16
    ensures t == PlayerDeathVFX ==> AnimationLength(NewVFX(t, p)) == 30
  {
  }
}
