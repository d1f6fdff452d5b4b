/** The player's physics tick (game/player.go): gravity with a terminal
    velocity, position integration, running state, animation cursor and the
    per-tile collision resolution. The pure step functions over Body say what
    each method of Player does to the player's fields. */
module PlayerPhysics {
  import opened Geometry
  import opened Tiles

  /** Downward acceleration and the largest falling speed (game/game.go). */
  const GRAVITY: real := 900.0
  const FALL_TERMINAL_VELOCITY: real := 600.0

  /** Animation cadence: a frame step every 60 / FramesSpeed ticks. */
  const RUNNING_FRAMES_SPEED := 6
  const IDLE_FRAMES_SPEED := 2

  /** The player's fields that the physics tick reads and writes. */
  datatype Body = Body(
    position: Vec2,
    velocity: Vec2,
    onGround: bool,
    isRunning: bool,
    textureRect: Rect,
    hitboxRect: Rect,
    currentFrame: int,
    framesCounter: int,
    framesSpeed: int)

  /** The animation cursor as the player keeps it: a known cadence, a frame
      counter below the longest step (30 ticks) and a frame of the 8-frame
      running cycle. */
  predicate AnimationInvariant(b: Body)
  {
    (b.framesSpeed == IDLE_FRAMES_SPEED || b.framesSpeed == RUNNING_FRAMES_SPEED) &&
    0 <= b.framesCounter < 30 && 0 <= b.currentFrame <= 7
  }

  /** The hitbox's corner is at the player's position. */
  predicate HitboxSynced(b: Body)
  {
    b.hitboxRect.x == b.position.x && b.hitboxRect.y == b.position.y
  }

  // ---------------------------------------------------------------- gravity

  /** Gravity acts only in the air, and the falling speed is clamped to the
      terminal velocity; nothing else changes. */
  function ApplyGravity(b: Body, delta: real): (r: Body)
    ensures r == b.(velocity := r.velocity) && r.velocity.x == b.velocity.x
    ensures r.velocity.y <= FALL_TERMINAL_VELOCITY
    ensures var pulled := if b.onGround then b.velocity.y else b.velocity.y + GRAVITY * delta;
            r.velocity.y == pulled || (pulled > FALL_TERMINAL_VELOCITY && r.velocity.y == FALL_TERMINAL_VELOCITY)
  {
    var vy := if !b.onGround then b.velocity.y + GRAVITY * delta else b.velocity.y;
    var clamped := if vy > FALL_TERMINAL_VELOCITY then FALL_TERMINAL_VELOCITY else vy;
    b.(velocity := b.velocity.(y := clamped))
  }

  /** Gravity applied n times to a body that stays in the air. */
  function Fall(b: Body, delta: real, n: nat): Body
  {
    if n == 0 then b else ApplyGravity(Fall(b, delta, n - 1), delta)
  }

  /** An airborne body never falls faster than the terminal velocity, and
      after n ticks it falls at least min(terminal, v0 + n * GRAVITY * delta):
      the speed converges to the terminal velocity. */
  lemma {:induction false} FallApproachesTerminal(b: Body, delta: real, n: nat)
    requires !b.onGround && delta >= 0.0 && b.velocity.y <= FALL_TERMINAL_VELOCITY
    ensures !Fall(b, delta, n).onGround
    ensures Fall(b, delta, n).velocity.y <= FALL_TERMINAL_VELOCITY
    ensures Fall(b, delta, n).velocity.y == FALL_TERMINAL_VELOCITY ||
            Fall(b, delta, n).velocity.y == b.velocity.y + (n as real) * (GRAVITY * delta)
  {
    if n > 0 {
      FallApproachesTerminal(b, delta, n - 1);
      var prev := Fall(b, delta, n - 1);
      assert (n as real) * (GRAVITY * delta) == ((n - 1) as real) * (GRAVITY * delta) + GRAVITY * delta;
      assert prev.velocity.y == FALL_TERMINAL_VELOCITY ==> Fall(b, delta, n).velocity.y == FALL_TERMINAL_VELOCITY;
    }
  }

  /** Once enough ticks have passed for gravity to cover the gap, the body
      falls at exactly the terminal velocity. */
  lemma ReachesTerminal(b: Body, delta: real, n: nat)
    requires !b.onGround && delta >= 0.0 && b.velocity.y <= FALL_TERMINAL_VELOCITY
    requires b.velocity.y + (n as real) * (GRAVITY * delta) >= FALL_TERMINAL_VELOCITY
    ensures Fall(b, delta, n).velocity.y == FALL_TERMINAL_VELOCITY
  {
    FallApproachesTerminal(b, delta, n);
  }

  // ----------------------------------------------------- position and state

  /** Moves the hitbox's corner to the player's position, keeping its size. */
  function SyncHitbox(b: Body): (r: Body)
    ensures HitboxSynced(r)
    ensures r == b.(hitboxRect := r.hitboxRect)
    ensures r.hitboxRect.width == b.hitboxRect.width && r.hitboxRect.height == b.hitboxRect.height
  {
    b.(hitboxRect := b.hitboxRect.(x := b.position.x, y := b.position.y))
  }

  /** Advances the position by velocity times the elapsed time and brings the
      hitbox along. */
  function Integrate(b: Body, delta: real): (r: Body)
    ensures r.position == Vec2(b.position.x + b.velocity.x * delta, b.position.y + b.velocity.y * delta)
    ensures r.hitboxRect == b.hitboxRect.(x := r.position.x, y := r.position.y)
    ensures r == b.(position := r.position, hitboxRect := r.hitboxRect)
  {
    SyncHitbox(b.(position := Vec2(b.position.x + b.velocity.x * delta, b.position.y + b.velocity.y * delta)))
  }

  /** The player runs exactly when it moves horizontally; the animation
      cadence follows: fast while running, slow while idle. */
  function DeriveState(b: Body): (r: Body)
    ensures r.isRunning <==> b.velocity.x != 0.0
    ensures r.framesSpeed == (if r.isRunning then RUNNING_FRAMES_SPEED else IDLE_FRAMES_SPEED)
    ensures r == b.(isRunning := r.isRunning, framesSpeed := r.framesSpeed)
  {
    var running := b.velocity.x != 0.0;
    b.(isRunning := running, framesSpeed := if running then 6 else 2)
  }

  // -------------------------------------------------------------- animation

  /** Frames in the idle and in the running cycle of the sprite sheet. */
  function CycleLength(running: bool): nat
  {
    if running then 8 else 2
  }

  /** Counts a tick; every 60 / FramesSpeed ticks it steps to the next frame,
      wrapping to frame 0 once past the last frame of the current cycle (also
      from a running frame left over when the player stops), and points the
      sprite rectangle at that frame. */
  function Animate(b: Body): (r: Body)
    requires b.framesSpeed > 0
    ensures var stepped := b.framesCounter + 1 >= 60 / b.framesSpeed;
            (stepped ==> r.framesCounter == 0 &&
                         r.currentFrame == (if b.currentFrame + 1 < CycleLength(b.isRunning)
                                            then b.currentFrame + 1 else 0) &&
                         (b.currentFrame >= 0 ==> 0 <= r.currentFrame < CycleLength(b.isRunning)) &&
                         r.textureRect == b.textureRect.(x := (r.currentFrame * 16) as real,
                                                          y := if b.isRunning then 31.0 else 0.0)) &&
            (!stepped ==> r == b.(framesCounter := b.framesCounter + 1))
    ensures r == b.(framesCounter := r.framesCounter, currentFrame := r.currentFrame, textureRect := r.textureRect)
  {
    var counter := b.framesCounter + 1;
    if counter >= 60 / b.framesSpeed then
      var next := b.currentFrame + 1;
      var idleWrapped := if !b.isRunning && next > 1 then 0 else next;
      var frame := if b.isRunning && idleWrapped > 7 then 0 else idleWrapped;
      var row := if b.isRunning then 31.0 else 0.0;
      b.(framesCounter := 0, currentFrame := frame,
         textureRect := b.textureRect.(x := (frame * 16) as real, y := row))
    else
      b.(framesCounter := counter)
  }

  /** Deriving the state and then animating keeps the animation invariant. */
  lemma AnimationInvariantKept(b: Body)
    requires AnimationInvariant(b)
    ensures AnimationInvariant(Animate(DeriveState(b)))
  {
    var d := DeriveState(b);
    assert 60 / d.framesSpeed <= 30;
  }

  // ------------------------------------------------------ tile collisions

  /** The four branches of the source's side switch. */
  datatype Side = SideTop | SideBottom | SideLeft | SideRight

  /** The source's running minimum over the overlaps. It starts from the left
      overlap but labels it RIGHT, then lets the right, top and bottom overlaps
      take over on strict improvement. */
  function PickSide(overlapLeft: real, overlapRight: real, overlapTop: real, overlapBottom: real): (s: Side)
    ensures s != SideLeft
    ensures s == SideTop <==>
              overlapTop < overlapLeft && overlapTop < overlapRight && overlapTop <= overlapBottom
    ensures s == SideBottom <==>
              overlapBottom < overlapLeft && overlapBottom < overlapRight && overlapBottom < overlapTop
    ensures s == SideRight <==>
              ((overlapLeft <= overlapTop && overlapLeft <= overlapBottom) ||
               (overlapRight <= overlapTop && overlapRight <= overlapBottom))
  {
    var (min1, side1) := (overlapLeft, SideRight);
    var (min2, side2) := if overlapRight < min1 then (overlapRight, SideRight) else (min1, side1);
    var (min3, side3) := if overlapTop < min2 then (overlapTop, SideTop) else (min2, side2);
    if overlapBottom < min3 then SideBottom else side3
  }

  /** The side picked for a tile, from the player's hitbox and the tile's
      sprite rectangle (the rectangle the source tests against). */
  function TileSide(b: Body, tile: Tile): Side
  {
    var t := tile.textureRect;
    var h := b.hitboxRect;
    PickSide(h.Right() - t.x, t.Right() - h.x, h.Bottom() - t.y, t.Bottom() - h.y)
  }

  /** The tile is resolved with its TOP branch: it grounds the player. */
  predicate TookTop(b: Body, tile: Tile)
  {
    Overlaps(tile.textureRect, b.hitboxRect) && TileSide(b, tile) == SideTop
  }

  /** Resolves one tile: when the tile overlaps the hitbox, the picked side
      snaps the player out of it and stops the matching velocity component,
      and the hitbox is brought along. */
  function ResolveTile(b: Body, tile: Tile): (r: Body)
    ensures !Overlaps(tile.textureRect, b.hitboxRect) ==> r == b
    ensures TookTop(b, tile) ==>
              r.position == Vec2(b.position.x, tile.textureRect.y - b.textureRect.height) &&
              r.velocity == Vec2(b.velocity.x, 0.0) && r.onGround
    ensures r.onGround <==> b.onGround || TookTop(b, tile)
    ensures Overlaps(tile.textureRect, b.hitboxRect) && TileSide(b, tile) == SideBottom ==>
              r.position == Vec2(b.position.x, tile.textureRect.Bottom()) &&
              r.velocity == Vec2(b.velocity.x, 0.0) && r.onGround == b.onGround
    ensures Overlaps(tile.textureRect, b.hitboxRect) && TileSide(b, tile) == SideRight ==>
              r.position == Vec2(tile.textureRect.Right(), b.position.y) &&
              r.velocity == Vec2(0.0, b.velocity.y) && r.onGround == b.onGround
    ensures r.position.x != b.position.x ==> r.position.x == tile.textureRect.Right() && r.velocity.x == 0.0
    ensures r.position.y != b.position.y ==> r.velocity.y == 0.0
    ensures Overlaps(tile.textureRect, b.hitboxRect) ==> HitboxSynced(r)
    ensures r.hitboxRect.width == b.hitboxRect.width && r.hitboxRect.height == b.hitboxRect.height
    ensures r == b.(position := r.position, velocity := r.velocity, onGround := r.onGround, hitboxRect := r.hitboxRect)
  {
    if !Overlaps(tile.textureRect, b.hitboxRect) then b
    else
      var t := tile.textureRect;
      var moved := match TileSide(b, tile)
        case SideTop =>
          b.(position := b.position.(y := t.y - b.textureRect.height),
             velocity := b.velocity.(y := 0.0), onGround := true)
        case SideBottom =>
          b.(position := b.position.(y := t.y + t.height), velocity := b.velocity.(y := 0.0))
        case SideLeft =>
          b.(position := b.position.(x := t.x - b.textureRect.width), velocity := b.velocity.(x := 0.0))
        case SideRight =>
          b.(position := b.position.(x := t.x + t.width), velocity := b.velocity.(x := 0.0));
      SyncHitbox(moved)
  }

  /** The tiles resolved one after another, in list order, each against the
      state the previous ones left. */
  function ResolveTiles(b: Body, tiles: seq<Tile>): (r: Body)
    ensures r == b.(position := r.position, velocity := r.velocity, onGround := r.onGround, hitboxRect := r.hitboxRect)
    ensures r.hitboxRect.width == b.hitboxRect.width && r.hitboxRect.height == b.hitboxRect.height
    ensures HitboxSynced(b) ==> HitboxSynced(r)
    decreases |tiles|
  {
    if tiles == [] then b
    else ResolveTile(ResolveTiles(b, tiles[..|tiles| - 1]), tiles[|tiles| - 1])
  }

  /** The state in which tile k is met: after the tiles before it. */
  function StateBefore(b: Body, tiles: seq<Tile>, k: nat): Body
    requires k <= |tiles|
  {
    ResolveTiles(b, tiles[..k])
  }

  /** Tile k is met in the same state whether the list is cut after tile n or
      not. */
  lemma StateBeforeOfPrefix(b: Body, tiles: seq<Tile>, n: nat, k: nat)
    requires k <= n <= |tiles|
    ensures StateBefore(b, tiles, k) == StateBefore(b, tiles[..n], k)
  {
    assert tiles[..k] == tiles[..n][..k];
  }

  /** After resolving a tile list the player is grounded exactly when it was
      grounded before or some tile, met in the state the earlier tiles left,
      took the TOP branch. */
  lemma {:induction false} GroundedIffSomeTopHit(b: Body, tiles: seq<Tile>)
    ensures ResolveTiles(b, tiles).onGround <==>
              b.onGround || exists k :: 0 <= k < |tiles| && TookTop(StateBefore(b, tiles, k), tiles[k])
  {
    if tiles != [] {
      var n := |tiles| - 1;
      var init := tiles[..n];
      GroundedIffSomeTopHit(b, init);
      var prev := ResolveTiles(b, init);
      assert prev == StateBefore(b, tiles, n);
      assert ResolveTiles(b, tiles).onGround <==> prev.onGround || TookTop(prev, tiles[n]);
      if prev.onGround && !b.onGround {
        var k :| 0 <= k < n && TookTop(StateBefore(b, init, k), init[k]);
        StateBeforeOfPrefix(b, tiles, n, k);
        assert TookTop(StateBefore(b, tiles, k), tiles[k]);
      }
      if k :| 0 <= k < |tiles| && TookTop(StateBefore(b, tiles, k), tiles[k]) {
        if k < n {
          StateBeforeOfPrefix(b, tiles, n, k);
          assert TookTop(StateBefore(b, init, k), init[k]);
        }
      }
    }
  }

  /** Resolution only ever moves the player horizontally onto the right edge
      of a tile, never onto a left edge: the LEFT branch is never taken. */
  lemma {:induction false} HorizontalSnapsOnlyRight(b: Body, tiles: seq<Tile>)
    ensures var r := ResolveTiles(b, tiles);
            r.position.x == b.position.x ||
            exists k :: 0 <= k < |tiles| && r.position.x == tiles[k].textureRect.Right()
  {
    if tiles != [] {
      var n := |tiles| - 1;
      HorizontalSnapsOnlyRight(b, tiles[..n]);
      var prev := ResolveTiles(b, tiles[..n]);
      if ResolveTiles(b, tiles).position.x == prev.position.x && prev.position.x != b.position.x {
        var k :| 0 <= k < n && prev.position.x == tiles[..n][k].textureRect.Right();
        assert tiles[..n][k] == tiles[k];
      }
    }
  }

  /** Resolution is order-sensitive: the same two tiles met in the other order
      leave the player elsewhere. Here the first order grounds the player on
      the lower tile and then pushes it out of the other one; in the second
      order the push comes first and the lower tile no longer overlaps. */
  lemma ResolutionOrderMatters()
    ensures var b := Body(Vec2(0.0, 0.0), Vec2(0.0, 0.0), false, false, Rect(0.0, 0.0, 16.0, 17.0),
                          Rect(0.0, 0.0, 10.0, 17.0), 0, 0, 2);
            var lower := SolidTile("grass", 0.0, 15.0, Rect(0.0, 15.0, 8.0, 8.0), false);
            var side := SolidTile("grass", 8.0, 10.0, Rect(8.0, 10.0, 8.0, 8.0), false);
            ResolveTiles(b, [lower, side]).position == Vec2(16.0, -2.0) &&
            ResolveTiles(b, [lower, side]).onGround &&
            ResolveTiles(b, [side, lower]).position == Vec2(16.0, 0.0) &&
            !ResolveTiles(b, [side, lower]).onGround
  {
    var b := Body(Vec2(0.0, 0.0), Vec2(0.0, 0.0), false, false, Rect(0.0, 0.0, 16.0, 17.0),
                  Rect(0.0, 0.0, 10.0, 17.0), 0, 0, 2);
    var lower := SolidTile("grass", 0.0, 15.0, Rect(0.0, 15.0, 8.0, 8.0), false);
    var side := SolidTile("grass", 8.0, 10.0, Rect(8.0, 10.0, 8.0, 8.0), false);
    assert [lower, side][..1] == [lower];
    assert [side, lower][..1] == [side];
    assert [lower][..0] == [] && [side][..0] == [];
    // lower, then side: grounded at y = 15 - 17, then pushed to x = 16.
    assert TileSide(b, lower) == SideTop;
    var grounded := ResolveTile(b, lower);
    assert ResolveTiles(b, [lower]) == grounded;
    assert grounded.hitboxRect == Rect(0.0, -2.0, 10.0, 17.0);
    assert TileSide(grounded, side) == SideRight;
    // side, then lower: pushed to x = 16 first, after which lower is clear.
    assert TileSide(b, side) == SideRight;
    var pushed := ResolveTile(b, side);
    assert ResolveTiles(b, [side]) == pushed;
    assert pushed.hitboxRect == Rect(16.0, 0.0, 10.0, 17.0);
    assert !Overlaps(lower.textureRect, pushed.hitboxRect);
  }

  // ------------------------------------------------------------------ tick

  /** Moves the player and resolves the tile list; the ground flag starts
      every resolution pass cleared. */
  function Move(b: Body, delta: real, layout: seq<Tile>): Body
  {
    ResolveTiles(Integrate(b, delta).(onGround := false), layout)
  }

  /** One physics tick: gravity, running state, movement with collisions,
      animation, in that order. */
  function TickStep(b: Body, delta: real, layout: seq<Tile>): Body
  {
    Animate(Move(DeriveState(ApplyGravity(b, delta)), delta, layout))
  }

  /** A tick keeps the animation invariant and leaves the hitbox at the
      player's position. */
  lemma TickKeepsInvariants(b: Body, delta: real, layout: seq<Tile>)
    requires AnimationInvariant(b)
    ensures AnimationInvariant(TickStep(b, delta, layout))
    ensures HitboxSynced(TickStep(b, delta, layout))
  {
    AnimationInvariantKept(ApplyGravity(b, delta));
  }

  /** A floor tile, and a player standing exactly on it: its sprite's bottom
      on the tile's top edge, at rest, grounded. */
  const RestTile := SolidTile("grass", 0.0, 172.0, Rect(0.0, 172.0, 8.0, 8.0), true)
  const RestingBody := Body(Vec2(0.0, 155.0), Vec2(0.0, 0.0), true, false, Rect(0.0, 0.0, 16.0, 17.0),
                            Rect(0.0, 155.0, 10.0, 17.0), 0, 0, 2)

  /** The first tick of the resting player: being grounded it feels no
      gravity and does not move, and the tile only touches its hitbox, so no
      tile grounds it again and the ground flag ends up cleared. */
  lemma RestingPlayerLeavesGround()
    ensures TickStep(RestingBody, 1.0 / 60.0, [RestTile]) == RestingBody.(onGround := false, framesCounter := 1)
  {
    var b := RestingBody;
    var still := DeriveState(ApplyGravity(b, 1.0 / 60.0));
    assert still == b;
    var resting := Integrate(still, 1.0 / 60.0).(onGround := false);
    assert resting == b.(onGround := false);
    assert !Overlaps(RestTile.textureRect, resting.hitboxRect);
    assert [RestTile][..0] == [];
    assert ResolveTiles(resting, [RestTile]) == ResolveTile(ResolveTiles(resting, []), RestTile);
    assert Move(still, 1.0 / 60.0, [RestTile]) == resting;
  }

  /** The second tick: in the air, gravity adds 15 to the falling speed, the
      player sinks 0.25 into the tile, takes its TOP branch and is snapped
      back where it started, at rest and grounded. */
  lemma AirbornePlayerSnapsBack()
    ensures var after := TickStep(RestingBody.(onGround := false, framesCounter := 1), 1.0 / 60.0, [RestTile]);
            after.onGround && after.position == RestingBody.position && after.velocity == Vec2(0.0, 0.0)
  {
    var once := RestingBody.(onGround := false, framesCounter := 1);
    var falling := DeriveState(ApplyGravity(once, 1.0 / 60.0));
    assert GRAVITY * (1.0 / 60.0) == 15.0;
    assert falling.velocity == Vec2(0.0, 15.0);
    var sunk := Integrate(falling, 1.0 / 60.0).(onGround := false);
    assert sunk.hitboxRect == Rect(0.0, 155.25, 10.0, 17.0);
    assert TookTop(sunk, RestTile);
    assert [RestTile][..0] == [];
    assert ResolveTiles(sunk, [RestTile]) == ResolveTile(ResolveTiles(sunk, []), RestTile);
    assert Move(falling, 1.0 / 60.0, [RestTile]) == ResolveTile(sunk, RestTile);
  }

  /** A player resting exactly on a tile does not stay grounded: the next tick
      clears the ground flag, and the tick after that grounds it again, with
      the position where it started. */
  lemma RestingPlayerAlternatesGround()
    ensures var once := TickStep(RestingBody, 1.0 / 60.0, [RestTile]);
            var twice := TickStep(once, 1.0 / 60.0, [RestTile]);
            !once.onGround && once.position == RestingBody.position && once.velocity == Vec2(0.0, 0.0) &&
            twice.onGround && twice.position == RestingBody.position && twice.velocity == Vec2(0.0, 0.0)
  {
    RestingPlayerLeavesGround();
    AirbornePlayerSnapsBack();
  }

  // ------------------------------------------------------- the player object

  /** The player as the game holds it: its fields are updated in place by
      each step of the tick. */
  class Player {
    var position: Vec2
    var velocity: Vec2
    var onGround: bool
    var isRunning: bool
    var textureRect: Rect
    var hitboxRect: Rect
    var currentFrame: int
    var framesCounter: int
    var framesSpeed: int

    /** The player's physics fields as one value. */
    function State(): Body
      reads this
    {
      Body(position, velocity, onGround, isRunning, textureRect, hitboxRect,
           currentFrame, framesCounter, framesSpeed)
    }

    ghost predicate Valid()
      reads this
    {
      AnimationInvariant(State())
    }

    /** The numeric part of the initial player: at (10, 100), at rest, in the
        air, showing the first idle frame, with a 10x17 hitbox. */
    constructor Init()
      ensures Valid() && HitboxSynced(State())
      ensures position == Vec2(10.0, 100.0) && velocity == Vec2(0.0, 0.0) && !onGround && !isRunning
      ensures textureRect == Rect(0.0, 0.0, 16.0, 17.0) && hitboxRect == Rect(10.0, 100.0, 10.0, 17.0)
      ensures currentFrame == 0 && framesCounter == 0 && framesSpeed == IDLE_FRAMES_SPEED
    {
      position := Vec2(10.0, 100.0);
      velocity := Vec2(0.0, 0.0);
      onGround := false;
      isRunning := false;
      textureRect := Rect(0.0, 0.0, 16.0, 17.0);
      currentFrame := 0;
      framesCounter := 0;
      framesSpeed := 2;
      hitboxRect := Rect(10.0, 100.0, 10.0, 17.0);
    }

    method CalculateVelocity(delta: real)
      modifies this
      ensures State() == ApplyGravity(old(State()), delta)
      ensures velocity.y <= FALL_TERMINAL_VELOCITY && velocity.x == old(velocity.x)
      ensures old(onGround) && old(velocity.y) <= FALL_TERMINAL_VELOCITY ==> velocity == old(velocity)
    {
      if !onGround {
        velocity := velocity.(y := velocity.y + GRAVITY * delta);
      }
      if velocity.y > FALL_TERMINAL_VELOCITY {
        velocity := velocity.(y := FALL_TERMINAL_VELOCITY);
      }
    }

    method UpdateState()
      modifies this
      ensures State() == DeriveState(old(State()))
      ensures isRunning == (velocity.x != 0.0)
      ensures framesSpeed == if isRunning then RUNNING_FRAMES_SPEED else IDLE_FRAMES_SPEED
    {
      if velocity.x != 0.0 {
        isRunning := true;
        framesSpeed := 6;
      }
      if velocity.x == 0.0 {
        isRunning := false;
        framesSpeed := 2;
      }
    }

    method UpdateHitbox()
      modifies this
      ensures State() == SyncHitbox(old(State()))
      ensures hitboxRect == old(hitboxRect).(x := position.x, y := position.y)
    {
      hitboxRect := hitboxRect.(x := position.x, y := position.y);
    }

    /** Resolves the layout's tiles in order, starting with the ground flag
        cleared and bringing the hitbox along after every resolution. */
    method HandleTileCollisions(layout: seq<Tile>)
      modifies this
      ensures State() == ResolveTiles(old(State()).(onGround := false), layout)
    {
      onGround := false;
      ghost var start := State();
      for i := 0 to |layout|
        invariant State() == ResolveTiles(start, layout[..i])
      {
        assert layout[..i + 1][..i] == layout[..i];
        CollideWith(layout[i]);
      }
      assert layout[..|layout|] == layout;
    }

    /** The body of the collision loop for one tile: when the tile overlaps
        the hitbox, the side with the least overlap (by the source's running
        minimum) decides where the player is pushed out. */
    method CollideWith(tile: Tile)
      modifies this
      ensures State() == ResolveTile(old(State()), tile)
    {
      var t := tile.textureRect;
      if Overlaps(t, hitboxRect) {
        var overlapLeft := (hitboxRect.x + hitboxRect.width) - t.x;
        var overlapRight := (t.x + t.width) - hitboxRect.x;
        var overlapTop := (hitboxRect.y + hitboxRect.height) - t.y;
        var overlapBottom := (t.y + t.height) - hitboxRect.y;

        var minOverlap := overlapLeft;
        var collisionSide := SideRight;
        if overlapRight < minOverlap {
          minOverlap := overlapRight;
          collisionSide := SideRight;
        }
        if overlapTop < minOverlap {
          minOverlap := overlapTop;
          collisionSide := SideTop;
        }
        if overlapBottom < minOverlap {
          minOverlap := overlapBottom;
          collisionSide := SideBottom;
        }
        assert collisionSide == TileSide(State(), tile);

        // The side's push-out is computed first and written back once, so
        // the LEFT branch, which the running minimum never selects, holds no
        // write of its own.
        var newPosition, newVelocity, grounded := position, velocity, onGround;
        match collisionSide {
          case SideTop =>
            newPosition := position.(y := t.y - textureRect.height);
            newVelocity := velocity.(y := 0.0);
            grounded := true;
          case SideBottom =>
            newPosition := position.(y := t.y + t.height);
            newVelocity := velocity.(y := 0.0);
          case SideLeft =>
            newPosition := position.(x := t.x - textureRect.width);
            newVelocity := velocity.(x := 0.0);
          case SideRight =>
            newPosition := position.(x := t.x + t.width);
            newVelocity := velocity.(x := 0.0);
        }
        position, velocity, onGround := newPosition, newVelocity, grounded;
        UpdateHitbox();
      }
    }

    method UpdatePosition(delta: real, layout: seq<Tile>)
      modifies this
      ensures State() == Move(old(State()), delta, layout)
    {
      ghost var before := State();
      position := Vec2(position.x + velocity.x * delta, position.y + velocity.y * delta);
      UpdateHitbox();
      assert State() == Integrate(before, delta);
      HandleTileCollisions(layout);
    }

    method UpdateAnimation()
      requires framesSpeed > 0
      modifies this
      ensures State() == Animate(old(State()))
    {
      framesCounter := framesCounter + 1;
      if framesCounter >= 60 / framesSpeed {
        framesCounter := 0;
        currentFrame := currentFrame + 1;
        if !isRunning && currentFrame > 1 {
          currentFrame := 0;
        }
        if isRunning && currentFrame > 7 {
          currentFrame := 0;
        }
        if !isRunning {
          textureRect := textureRect.(y := 0.0);
        }
        if isRunning {
          textureRect := textureRect.(y := 31.0);
        }
        textureRect := textureRect.(x := (currentFrame * 16) as real);
      }
    }

    /** One tick: gravity, running state, movement with collision resolution
        against the room's tiles, then animation. */
    method Tick(delta: real, layout: seq<Tile>)
      requires Valid()
      modifies this
      ensures Valid() && HitboxSynced(State())
      ensures State() == TickStep(old(State()), delta, layout)
    {
      ghost var before := State();
      CalculateVelocity(delta);
      UpdateState();
      UpdatePosition(delta, layout);
      TickKeepsInvariants(before, delta, layout);
      UpdateAnimation();
    }
  }
}
