/** Game-level bookkeeping (game/game.go): the state enumeration, level lookup
    by name and by id, the room change driven by the player's exit flags, and
    the frame counter. */
module GameLoop {
  import opened Options
  import opened Search
  import opened Levels

  datatype GameState = MainMenu | Playing | TimeStop | Paused | Editing

  /** The display name of each state. */
  function StateName(s: GameState): (name: string)
    ensures |name| > 0
  {
    match s
    case MainMenu => "MainMenu"
    case Playing => "Playing"
    case TimeStop => "TimeStop"
    case Paused => "Paused"
    case Editing => "Editing"
  }

  /** Different states have different names. */
  lemma StateNamesDistinct(a: GameState, b: GameState)
    requires a != b
    ensures StateName(a) != StateName(b)
  {
  }

  /** AbsoluteFrame is an unsigned 32-bit counter. */
  const FRAME_MODULUS: int := 0x1_0000_0000

  /** The level the game opens with, and the one entering Playing reloads. */
  const INITIAL_LEVEL := "Level_1"
  const START_LEVEL := "Level_0"

  /** The player's four one-shot exit flags. */
  datatype Exits = Exits(north: bool, east: bool, south: bool, west: bool)

  const NoExits := Exits(false, false, false, false)

  /** The compass letter of the exit taken. The flags are read north, east,
      south, west, each overwriting the previous letter, so west wins over
      south, south over east, east over north; with no flag the letter is
      empty. */
  function ExitDirection(exits: Exits): (d: string)
    ensures exits.west ==> d == "w"
    ensures !exits.west && exits.south ==> d == "s"
    ensures !exits.west && !exits.south && exits.east ==> d == "e"
    ensures !exits.west && !exits.south && !exits.east && exits.north ==> d == "n"
    ensures d == "" <==> exits == NoExits
  {
    var afterNorth := if exits.north then "n" else "";
    var afterEast := if exits.east then "e" else afterNorth;
    var afterSouth := if exits.south then "s" else afterEast;
    if exits.west then "w" else afterSouth
  }

  /** Index of the first level with the given name, if any. */
  function FirstLevelNamed(levels: seq<Level>, name: string): Option<nat>
  {
    FirstWhere(levels, (level: Level) => level.name == name)
  }

  /** The name of the first level with the given id, or the empty name when
      no level has it. */
  function FindLevelNameFromID(levels: seq<Level>, levelID: string): (name: string)
    ensures (forall j :: 0 <= j < |levels| ==> levels[j].id != levelID) ==> name == ""
    ensures forall k :: (0 <= k < |levels| && levels[k].id == levelID &&
                         (forall j :: 0 <= j < k ==> levels[j].id != levelID)) ==> name == levels[k].name
  {
    if |levels| == 0 then ""
    else if levels[0].id == levelID then levels[0].name
    else FindLevelNameFromID(levels[1..], levelID)
  }

  /** Index of the first neighbour link in the given direction, if any. */
  function FirstNeighbour(neighbours: seq<Neighbour>, direction: string): Option<nat>
  {
    FirstWhere(neighbours, (n: Neighbour) => n.direction == direction)
  }

  /** The name of the level a room change loads: that of the target of the
      first neighbour in the exit direction, or nothing when no neighbour lies
      that way. */
  function RoomChangeTarget(level: Level, exits: Exits, world: seq<Level>): Option<string>
  {
    match FirstNeighbour(level.neighbours, ExitDirection(exits))
    case None => None
    case Some(k) => Some(FindLevelNameFromID(world, level.neighbours[k].levelId))
  }

  /** With no exit flag set, a room change still happens when the level has a
      neighbour link with an empty direction, and only then. */
  lemma NoExitChangesRoomOnlyThroughEmptyDirection(level: Level, world: seq<Level>)
    ensures RoomChangeTarget(level, NoExits, world).Some? <==>
              exists j :: 0 <= j < |level.neighbours| && level.neighbours[j].direction == ""
  {
    if exists j :: 0 <= j < |level.neighbours| && level.neighbours[j].direction == "" {
      assert FirstNeighbour(level.neighbours, "").Some?;
    }
  }

  class Game {
    var currentFrame: int
    var absoluteFrame: int
    var lastActionAbsoluteFrame: int
    var state: GameState
    /** The exit flags the player sets when it leaves the play area. */
    var playerExits: Exits
    const world: seq<Level>
    var currentLevel: Level
    const debugMode: bool

    ghost predicate Valid()
      reads this
    {
      currentLevel in world && 0 <= absoluteFrame < FRAME_MODULUS
    }

    /** The level a room change would load exists in the world (loading a
        name no level has dereferences nil in the source). */
    predicate CanChangeRoom()
      reads this
    {
      match RoomChangeTarget(currentLevel, playerExits, world)
      case None => true
      case Some(name) => FirstLevelNamed(world, name).Some?
    }

    /** A new game over a world read elsewhere: playing, with the initial
        level loaded. */
    constructor (world: seq<Level>, debugMode: bool)
      requires FirstLevelNamed(world, INITIAL_LEVEL).Some?
      modifies world
      ensures Valid() && this.world == world && this.debugMode == debugMode
      ensures state == Playing && playerExits == NoExits
      ensures currentFrame == 0 && absoluteFrame == 0 && lastActionAbsoluteFrame == 0
      ensures currentLevel == world[FirstLevelNamed(world, INITIAL_LEVEL).value] && currentLevel.loaded
      ensures forall j :: 0 <= j < |world| && world[j] != currentLevel ==> world[j].loaded == old(world[j].loaded)
    {
      this.world := world;
      this.debugMode := debugMode;
      currentFrame := 0;
      absoluteFrame := 0;
      lastActionAbsoluteFrame := 0;
      state := Playing;
      playerExits := NoExits;
      currentLevel := world[0];
      new;
      LoadLevel(INITIAL_LEVEL);
    }

    /** Makes the first level with the given name current and loads it. */
    method LoadLevel(levelName: string)
      requires FirstLevelNamed(world, levelName).Some?
      modifies this, world
      ensures currentLevel == world[FirstLevelNamed(world, levelName).value] && currentLevel.loaded
      ensures forall j :: 0 <= j < |world| && world[j] != currentLevel ==> world[j].loaded == old(world[j].loaded)
      ensures state == old(state) && playerExits == old(playerExits)
      ensures currentFrame == old(currentFrame) && absoluteFrame == old(absoluteFrame)
      ensures lastActionAbsoluteFrame == old(lastActionAbsoluteFrame)
    {
      var i := 0;
      while i < |world| && world[i].name != levelName
        invariant 0 <= i <= |world|
        invariant forall j :: 0 <= j < i ==> world[j].name != levelName
      {
        i := i + 1;
      }
      var level := world[i];
      level.Load();
      currentLevel := level;
    }

    /** Sets the state; entering Playing reloads the start level. */
    method SetState(s: GameState)
      requires Valid()
      requires s == Playing ==> FirstLevelNamed(world, START_LEVEL).Some?
      modifies this, world
      ensures Valid() && state == s
      ensures s == Playing ==>
                currentLevel == world[FirstLevelNamed(world, START_LEVEL).value] && currentLevel.loaded &&
                forall j :: 0 <= j < |world| && world[j] != currentLevel ==> world[j].loaded == old(world[j].loaded)
      ensures s != Playing ==>
                currentLevel == old(currentLevel) &&
                forall j :: 0 <= j < |world| ==> world[j].loaded == old(world[j].loaded)
      ensures playerExits == old(playerExits) && absoluteFrame == old(absoluteFrame)
      ensures currentFrame == old(currentFrame) && lastActionAbsoluteFrame == old(lastActionAbsoluteFrame)
    {
      if s == Playing {
        LoadLevel(START_LEVEL);
      }
      state := s;
    }

    /** The room change a call of CheckRoomChange makes, from the level left
        and the exit flags read: the target of the first neighbour in the exit
        direction becomes current and loaded, the level left behind is
        unloaded, no other level changes; without such a neighbour nothing
        changes. */
    twostate predicate RoomChangeDone(left: Level, exits: Exits)
      reads this, world, left
    {
      match RoomChangeTarget(left, exits, world)
      case None =>
        currentLevel == left &&
        forall j :: 0 <= j < |world| ==> world[j].loaded == old(world[j].loaded)
      case Some(name) =>
        FirstLevelNamed(world, name).Some? &&
        currentLevel == world[FirstLevelNamed(world, name).value] && currentLevel.loaded &&
        (left != currentLevel ==> !left.loaded) &&
        forall j :: 0 <= j < |world| && world[j] != currentLevel && world[j] != left ==>
          world[j].loaded == old(world[j].loaded)
    }

    /** Leaves the current level for the first level with the given name:
        the level left is unloaded, the new one becomes current and loaded,
        and no other level or field changes. */
    method EnterLevel(levelName: string)
      requires Valid() && FirstLevelNamed(world, levelName).Some?
      modifies this, world
      ensures Valid()
      ensures currentLevel == world[FirstLevelNamed(world, levelName).value] && currentLevel.loaded
      ensures old(currentLevel) != currentLevel ==> !old(currentLevel).loaded
      ensures forall j :: 0 <= j < |world| && world[j] != currentLevel && world[j] != old(currentLevel) ==>
                world[j].loaded == old(world[j].loaded)
      ensures state == old(state) && playerExits == old(playerExits) && absoluteFrame == old(absoluteFrame)
      ensures currentFrame == old(currentFrame) && lastActionAbsoluteFrame == old(lastActionAbsoluteFrame)
    {
      currentLevel.Unload();
      LoadLevel(levelName);
    }

    /** Acts on the player's exit flags: at most one transition, through the
        first neighbour in the exit direction; the flags are cleared whether
        or not a neighbour matched. */
    method CheckRoomChange()
      requires Valid() && CanChangeRoom()
      modifies this, world
      ensures Valid() && RoomChangeDone(old(currentLevel), old(playerExits))
      ensures playerExits == NoExits
      ensures state == old(state) && absoluteFrame == old(absoluteFrame)
      ensures currentFrame == old(currentFrame) && lastActionAbsoluteFrame == old(lastActionAbsoluteFrame)
    {
      var direction := "";
      if playerExits.north {
        direction := "n";
      }
      if playerExits.east {
        direction := "e";
      }
      if playerExits.south {
        direction := "s";
      }
      if playerExits.west {
        direction := "w";
      }
      assert direction == ExitDirection(playerExits);

      ghost var target := RoomChangeTarget(currentLevel, playerExits, world);
      var neighbours := currentLevel.neighbours;
      var i := 0;
      while i < |neighbours|
        invariant 0 <= i <= |neighbours|
        invariant forall j :: 0 <= j < i ==> neighbours[j].direction != direction
        invariant currentLevel == old(currentLevel) && playerExits == old(playerExits)
        invariant forall j :: 0 <= j < |world| ==> world[j].loaded == old(world[j].loaded)
        invariant state == old(state) && absoluteFrame == old(absoluteFrame)
        invariant currentFrame == old(currentFrame) && lastActionAbsoluteFrame == old(lastActionAbsoluteFrame)
      {
        var neighbour := neighbours[i];
        if neighbour.direction == direction {
          assert FirstNeighbour(neighbours, direction) == Some(i);
          var levelName := FindLevelNameFromID(world, neighbour.levelId);
          assert target == Some(levelName);
          EnterLevel(levelName);
          break;
        }
        i := i + 1;
      }
      if i == |neighbours| {
        assert target == None;
      }

      playerExits := NoExits;
    }

    /** Counts one frame, wrapping at 2^32; no other field changes. */
    method IncreaseFrameCount()
      requires 0 <= absoluteFrame < FRAME_MODULUS
      modifies this`absoluteFrame
      ensures 0 <= absoluteFrame < FRAME_MODULUS
      ensures absoluteFrame == (old(absoluteFrame) + 1) % FRAME_MODULUS
    {
      absoluteFrame := (absoluteFrame + 1) % FRAME_MODULUS;
    }

    /** One game tick. In the main menu nothing happens; otherwise the room
        change is checked and the frame is counted. */
    method Tick(delta: real)
      requires Valid()
      requires state != MainMenu ==> CanChangeRoom()
      modifies this, world
      ensures Valid()
      ensures old(state) == MainMenu ==>
                unchanged(this) && forall j :: 0 <= j < |world| ==> world[j].loaded == old(world[j].loaded)
      ensures old(state) != MainMenu ==>
                RoomChangeDone(old(currentLevel), old(playerExits)) && playerExits == NoExits &&
                absoluteFrame == (old(absoluteFrame) + 1) % FRAME_MODULUS &&
                state == old(state) && currentFrame == old(currentFrame) &&
                lastActionAbsoluteFrame == old(lastActionAbsoluteFrame)
    {
      if state == MainMenu {
        return;
      }
      CheckRoomChange();
      IncreaseFrameCount();
    }
  }
}
