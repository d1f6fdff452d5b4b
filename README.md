# game3 core, modelled in Dafny

game3 is a small 2D platformer written in Go on top of raylib. This project
models its core:

- the rectangle collision classifier (`collisions/collisions.go`);
- the player's physics tick: gravity with a terminal velocity, position
  integration, running state, sprite animation, and the per-tile collision
  resolution (`game/player.go`);
- the game's bookkeeping: states, level lookup by name and by id, room changes
  driven by the player's exit flags, and the frame counter (`game/game.go`);
- levels and layers (`game/level.go`);
- the hand-written test layout (`game/tile.go`);
- props built from map entities (`game/prop.go`);
- the visual-effect table (`game/vfx.go`);
- container-relative placement of UI elements, their children and their
  listener lists (`ui/ui_element.go`).

Coordinates are 32-bit floats in the source. Here they are `real`, so every
comparison is exact. The unsigned 32-bit frame counter wraps explicitly at
2^32.

Modules, one per file:

- `Geometry`: vectors, rectangles and strict overlap.
- `Collisions`: the face classifier.
- `Tiles`: tiles and the test layout.
- `Props` and `Vfx`: props and visual effects.
- `Levels`: the `Level` and `LevelLayer` classes.
- `PlayerPhysics`: pure step functions over a `Body` value, and a `Player`
  class. Each method of the class is proved equal to its step function.
- `GameLoop`: the `Game` class.
- `UiLayout`: the `UiElement` class and its placement function.
- `Options` and `Search`: the option type, and the first-match search over a list.

The model follows the code as written, including these behaviours:

- Tile resolution in `Player.HandleTileCollisions` tests the tile's sprite
  rectangle, not its hitbox. It takes a running minimum that starts from the
  left overlap labelled RIGHT, and it has no ghost-collision correction.
- The LEFT branch is therefore unreachable (`PickSide`,
  `HorizontalSnapsOnlyRight`).
- A player resting exactly on a tile does not stay grounded: touching edges do
  not overlap, so the ground flag alternates from tick to tick
  (`RestingPlayerAlternatesGround`).
- Loading a level name that no level has dereferences nil. It does not leave
  the level unchanged. The model therefore requires the name to exist
  (`Game.LoadLevel`, `Game.CheckRoomChange`).
- A neighbour link with an empty direction is taken when no exit flag is set
  (`NoExitChangesRoomOnlyThroughEmptyDirection`).

The graphics library's `CheckCollisionRecs` is modelled by assumption as the
strict overlap test that `collisions/collisions.go` writes out
(`Geometry.Overlaps`).

## Model

| member | source | states |
|---|---|---|
| Geometry.OverlapsSymmetric | collisions/collisions.go:28-29 | the strict overlap test does not depend on which rectangle is the moving one |
| Geometry.SharedEdgeDoesNotOverlap | collisions/collisions.go:28-29 | rectangles that only share an edge do not collide |
| Collisions.CheckRectanglesCollision | collisions/collisions.go:24-66 | no overlap gives (false, NoFace); a hit has a real face and vice versa; the reported face has the least overlap depth and is strictly below every earlier face in the order Top, Bottom, Left, Right; a side face survives only when the bottom overlap does not exceed the top overlap |
| Collisions.Abs | collisions/collisions.go:37-40 | the depth taken is non-negative and equals the raw depth or its negation |
| Collisions.DepthsPositiveWhenOverlapping | collisions/collisions.go:28-40 | under an overlap all four raw depths are positive, so the absolute value changes nothing and the `bottomOverlap > 0` guard always holds |
| Collisions.MinFaceIsFirstMinimum | collisions/collisions.go:42-57 | the running minimum finds the face of least depth, ties going to the earliest face |
| Collisions.FirstMinimumUnique | collisions/collisions.go:42-57 | at most one face is the first minimum |
| Collisions.GhostSideHitDiscarded | collisions/collisions.go:59-63 | a least-depth side face with bottom overlap above top overlap yields no hit at all |
| Collisions.FirstMinimumReported | collisions/collisions.go:42-65 | in every other overlapping case the least-depth face is reported as a hit |
| Collisions.TiesGoToEarlierFace | collisions/collisions.go:42-57 | equal top and bottom minima give Top; equal left and right minima never give Right |
| Collisions.GroundedBodyNeverHitsSide | collisions/collisions.go:59-63 | a body that sits less deep from the top than from the bottom is never reported as hitting a side |
| Collisions.CheckRay2DRectangleCollision | collisions/collisions.go:68-70 | the ray test is a stub: time 0, a hit, no face, for every input |
| Tiles.SolidTile | game/tile.go:9-19 | a test-layout tile is solid, has the empty variant (the zero value the layout's literals leave) and an 8x8 hitbox at its position |
| Tiles.BasicTestLevelLayout | game/tile.go:35-140 | the six loops build exactly the block-by-block layout `TestLayout()` |
| Tiles.TestLayoutBlocks | game/tile.go:39-137 | the layout has 122 tiles; tile i is tile i-start of the block it falls in (close 0, middle 7, far 14, wall 21, floor 42, upper floor 82) |
| Tiles.TestLayoutSolidSquares | game/tile.go:39-137 | every tile of the layout is solid with an 8x8 hitbox at its position |
| Tiles.TestLayoutTexturedIffFloor | game/tile.go:104-137 | a tile is textured exactly when it belongs to one of the two floor rows |
| Tiles.WallTilePosition | game/tile.go:88-101 | wall tile k is a "wall" at (312, 8k) |
| Tiles.FloorTilePositions | game/tile.go:104-137 | floor tile k is at (8k, 172) with sprite ((k mod 2)*8, 8); the upper row's tile k is at (8k, 164) with sprite row 0 |
| Tiles.SeamScenario | collisions/collisions.go:59-63 | a body straddling the seam of two upper-floor tiles gets no side hit from the first and a Top hit from the second |
| Props.NewPropFromLDtk | game/prop.go:30-36 | the prop is pickable, not walkable or pushable, has the entity's pixel list as position and an 8x8 hitbox at its first two coordinates; every other field is zero |
| Props.PropIgnoresEntitySize | game/prop.go:30-36 | the entity's width and height play no part in the prop |
| Props.PropHitboxOverlap | game/prop.go:33 | another 8x8 box overlaps the prop's hitbox exactly when both corner offsets are below 8 in magnitude |
| Vfx.NewVFX | game/vfx.go:25-48 | a jump effect has 4 poses of 4 frames, a death effect 3 poses of 10 frames, both non-looping, at the given position with a reset cursor; any other type gives the zero record |
| Vfx.KnownTypesAnimate | game/vfx.go:25-48 | the result carries the requested type, and lasts any frames, exactly when the type is known; the jump lasts 16 frames and the death 30 |
| Levels.LevelLayer.LoadLayout | game/level.go:49-56 | the tile list has one tile per raw record, in order, each built from its record |
| Levels.Level.GetGround | game/level.go:36-47 | returns a fresh copy of the first "Ground" layer, or a fresh empty layer when there is none |
| Levels.GroundCopyIsIndependent | game/level.go:36-47 | loading the tiles of the returned copy leaves every layer of the level unchanged |
| PlayerPhysics.ApplyGravity | game/player.go:84-92 | gravity acts only in the air; the falling speed never exceeds the terminal velocity; only the vertical velocity changes |
| PlayerPhysics.FallApproachesTerminal | game/player.go:84-92 | after n airborne ticks the falling speed is either terminal or the start speed plus n * GRAVITY * delta, never above terminal |
| PlayerPhysics.ReachesTerminal | game/player.go:84-92 | once gravity could have covered the gap, the body falls at exactly the terminal velocity |
| PlayerPhysics.SyncHitbox | game/player.go:114-117 | the hitbox's corner moves to the position and its size is kept |
| PlayerPhysics.Integrate | game/player.go:94-98 | the position advances by velocity times delta; the hitbox's corner moves to the new position and its size is kept; nothing else changes |
| PlayerPhysics.DeriveState | game/player.go:102-112 | the player runs exactly when its horizontal velocity is non-zero; the cadence is 6 running and 2 idle |
| PlayerPhysics.Animate | game/player.go:119-146 | every 60/cadence ticks the counter resets and the frame advances, wrapping to 0 once past the last frame of the current cycle (8 running, 2 idle), also from a running frame left over when the player stops; the sprite points at that frame's cell; otherwise only the counter grows |
| PlayerPhysics.AnimationInvariantKept | game/player.go:102-146 | the cadence stays 2 or 6, the counter below 30 and the frame within 0..7 |
| PlayerPhysics.PickSide | game/player.go:158-174 | the side is never LEFT; TOP, BOTTOM and RIGHT each hold exactly when their overlap wins the running minimum |
| PlayerPhysics.ResolveTile | game/player.go:152-192 | no overlap changes nothing; TOP puts the sprite's bottom on the tile's top, stops the fall and grounds the player; BOTTOM puts the player under the tile and stops vertical motion; RIGHT puts it on the tile's right edge and stops horizontal motion; grounded after iff grounded before or TOP; the hitbox follows |
| PlayerPhysics.ResolveTiles | game/player.go:151-194 | resolving the list changes only position, velocity, ground flag and hitbox corner, and keeps the hitbox synced |
| PlayerPhysics.GroundedIffSomeTopHit | game/player.go:148-194 | after resolution the player is grounded exactly when some tile, met in the state the earlier tiles left, took the TOP branch |
| PlayerPhysics.HorizontalSnapsOnlyRight | game/player.go:184-189 | resolution moves the player horizontally only onto some tile's right edge |
| PlayerPhysics.ResolutionOrderMatters | game/player.go:151-194 | the same two tiles in the other order leave the player at another place and ground flag |
| PlayerPhysics.TickKeepsInvariants | game/player.go:77-82 | a tick keeps the animation invariant and leaves the hitbox at the position |
| PlayerPhysics.RestingPlayerAlternatesGround | game/player.go:149-152 | a player resting exactly on a tile is ungrounded on the next tick and grounded again, at the same place, on the one after |
| PlayerPhysics.RestingPlayerLeavesGround | game/player.go:84-92 | a grounded player at rest, touching the tile below without overlapping it, ends the tick where it was, at rest, with the ground flag cleared and one more tick counted |
| PlayerPhysics.AirbornePlayerSnapsBack | game/player.go:149-180 | on the next tick that player sinks into the tile, takes its TOP branch and is back at its starting place, at rest and grounded |
| PlayerPhysics.Player.Init | game/player.go:40-62 | the player starts at (10, 100), at rest, airborne, not running, on idle frame 0, with a 10x17 hitbox at its position |
| PlayerPhysics.Player.CalculateVelocity | game/player.go:84-92 | the new state is `ApplyGravity` of the old one |
| PlayerPhysics.Player.UpdateState | game/player.go:102-112 | the new state is `DeriveState` of the old one |
| PlayerPhysics.Player.UpdateHitbox | game/player.go:114-117 | the new state is `SyncHitbox` of the old one |
| PlayerPhysics.Player.HandleTileCollisions | game/player.go:148-195 | with the ground flag cleared, the new state is the tiles resolved in order |
| PlayerPhysics.Player.CollideWith | game/player.go:152-192 | one pass of the collision loop: the new state is `ResolveTile` of the old one for that tile |
| PlayerPhysics.Player.UpdatePosition | game/player.go:94-100 | the new state is `Move` of the old one: integrate, then resolve |
| PlayerPhysics.Player.UpdateAnimation | game/player.go:119-146 | the new state is `Animate` of the old one |
| PlayerPhysics.Player.Tick | game/player.go:77-82 | the new state is gravity, state, movement and animation in that order; the animation invariant and the synced hitbox hold after it |
| GameLoop.StateName | game/game.go:29-39 | every state has a non-empty name |
| GameLoop.StateNamesDistinct | game/game.go:29-39 | different states have different names |
| GameLoop.ExitDirection | game/game.go:167-183 | west beats south, south beats east, east beats north; the direction is empty exactly when no flag is set |
| Search.FirstWhere | game/game.go:134-139 | the first-match search used for levels by name, layers by name (game/level.go:39-44) and neighbour links by direction (game/game.go:185-186): the index found matches and no earlier element does; no index means no element matches |
| GameLoop.FindLevelNameFromID | game/game.go:145-153 | the name of the first level with the id, or "" when no level has it |
| GameLoop.NoExitChangesRoomOnlyThroughEmptyDirection | game/game.go:166-194 | with no flag set, a room change happens exactly when the level has a link with an empty direction |
| GameLoop.Game.constructor | game/game.go:58-92 | a new game is playing, with zeroed counters, no exit flags and "Level_1" current and loaded; every other level keeps its loaded flag |
| GameLoop.Game.LoadLevel | game/game.go:132-143 | the first level with the name becomes current and loaded; no other level and no other field changes |
| GameLoop.Game.SetState | game/game.go:94-100 | the state is set; entering Playing makes "Level_0" current and loaded |
| GameLoop.Game.EnterLevel | game/game.go:189-190 | the level left is unloaded, the named level becomes current and loaded, and nothing else changes |
| GameLoop.Game.CheckRoomChange | game/game.go:166-200 | through the first link in the exit direction, the target level becomes current and loaded and the level left is unloaded; without such a link nothing changes; the flags are cleared either way |
| GameLoop.Game.IncreaseFrameCount | game/game.go:223-225 | the absolute frame counts up by one modulo 2^32 and nothing else changes |
| GameLoop.Game.Tick | game/game.go:102-118 | the main menu changes nothing; otherwise the room change is made and the frame counted |
| UiLayout.GetRectanglePosition | ui/ui_element.go:140-164 | before the margin shift, right edges meet for "right", centres for "vcenter", left edges otherwise; bottom edges for "bottom", centres for "hcenter", top edges otherwise; the margin shifts by left-right and top-bottom |
| UiLayout.PlacementStaysInside | ui/ui_element.go:140-164 | an element no larger than its container, without margin, lies inside the container whatever its alignment |
| UiLayout.Placed | ui/ui_element.go:86-91 | placement keeps the element's size |
| UiLayout.PlacedIdempotent | ui/ui_element.go:86-91 | placing an already placed element again changes nothing |
| UiLayout.FiredAfterAdd | ui/ui_element.go:132-134 | after adding a listener, a triggered dispatch of that event calls the old listeners and then the new one; other events are unaffected |
| UiLayout.TextAnchor | ui/ui_element.go:102-109 | the text is drawn a quarter of the way into the element on each axis |
| UiLayout.UiElement.constructor | ui/ui_element.go:54-76 | the element is placed in the 320x180 virtual screen, has no children, and empty "click" and "hover" lists |
| UiLayout.UiElement.ComputePosition | ui/ui_element.go:86-91 | the rectangle becomes its placement in the container, size unchanged |
| UiLayout.UiElement.AddChild | ui/ui_element.go:127-130 | the child's container becomes this element's rectangle and the child is appended |
| UiLayout.UiElement.SetBackgroundColor | ui/ui_element.go:136-138 | the background colour is replaced |
| UiLayout.UiElement.AddEventListener | ui/ui_element.go:132-134 | the listener is appended to the event's list, which is created when missing; every other event keeps its list |

## Left out

- Drawing of every kind (`Draw`, `DrawText`'s text output, `Render`, `DrawGround`, `DrawHitbox`), logging (`LogState`, the debug prints) and texture loading: these are output only.
- `InitGame` and `LoadWorld` read the world from a map file. The world is a parameter of the `Game` constructor, and the player, renderer and file error path are not modelled.
- `Player.Draw` flips the sprite width by facing direction. This is not modelled, nor are the player's health, facing direction, state string and attack fields, which the tick does not touch.
- The `Room` type and its layout are in `game/room.go`, which is not part of this model. `Player.Tick` and `UpdatePosition` take the room's tile list directly.
- `Level.Load`, `Level.Unload`, `Level.Tick` and the level's neighbour list are used by `game/game.go` but not defined in `game/level.go`. Loading is reduced to a `loaded` flag, neighbours are a field of the level, and `Level.Tick` is not modelled.
- GameLoop.Game.Tick: the calls to `Player.Tick`, `Level.Tick`, `Render` and `LogState` are not modelled; only the menu guard, the room change and the frame count are.
- `NewTileFromLDtk` is not part of this model. `LoadLayout` takes the record-to-tile constructor as a parameter.
- `LevelLayer.TilesetPath`, tile sprites, tile base colours and prop sprites are drawing data.
- Particles (`game/particle.go`), rays (`game/ray.go`), the renderer, assets, the menu built in `ui/ui.go` and `main.go` are not part of this model.
- PlayerPhysics.Animate: the 32-bit counters of the source are unbounded integers here. The animation invariant keeps them far from any wrap.
- Coordinates and velocities are `real`, so float32 rounding is not modelled.
- GameLoop.StateName: Go's name for an integer outside the five states (the empty string) is not modelled; the datatype has only the five states.
- Event listeners are closures in the source. Here they are identities, and the model says which listeners a dispatch calls, not what they do.
- UiLayout.TextAnchor: the truncation of the anchor to `int32` when the text is drawn is not modelled.
- GameLoop.Game.LoadLevel and GameLoop.Game.SetState require the level name to exist: with a name no level has, the source dereferences nil and panics, which the model does not represent.
- GameLoop.Game.CheckRoomChange and GameLoop.Game.Tick require `CanChangeRoom`: the level a matching neighbour points to must exist, for the same nil dereference.
- Props.NewPropFromLDtk requires at least two pixel coordinates: the source indexes `Px[0]` and `Px[1]` and panics on a shorter list.
- PlayerPhysics.Player.UpdateAnimation requires a positive frame speed: the source divides 60 by it, which panics on 0. The speed is always 2 or 6 once set (`AnimationInvariant`).
- GameLoop.Game.playerExits stands in for the player's WentNorth, WentEast, WentSouth and WentWest flags that `game/game.go` reads. Those fields are not in `game/player.go`, and what sets them lies outside the modelled files.
- Levels.Level.GetGround: the Go copy of a layer shares the backing array of its tile slice with the original, so writing one tile through the copy would change the level's layer. The model's `seq<Tile>` is a value and does not capture that sharing. Replacing the whole slice, as `LoadLayout` does, leaves the original alone in both.
- Mouse-driven event dispatch (`IsMouseHovering`, `RunPreDrawEvents`, `RunPostDrawEvents`) reads the mouse from the graphics library and calls closures. Only which listeners a triggered dispatch calls (`FiredAfterAdd`) is modelled.
