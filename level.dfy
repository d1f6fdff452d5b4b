/** Levels and their layers (game/level.go). A level's identity, layers, props
    and neighbour links are fixed once the map source is read; what changes is
    each layer's materialised tile list and whether the level is loaded. */
module Levels {
  import opened Options
  import opened Search
  import opened Tiles
  import opened Props

  /** A raw tile record of the map source: pixel position and sprite offset. */
  datatype LDtkTile = LDtkTile(px: seq<real>, src: seq<real>)

  /** A directional link to an adjacent level: compass letter and target id. */
  datatype Neighbour = Neighbour(direction: string, levelId: string)

  /** A named layer: raw tile records and the tiles built from them. */
  class LevelLayer {
    const id: string
    const name: string
    const rawLayout: seq<LDtkTile>
    var layout: seq<Tile>

    constructor (id: string, name: string, rawLayout: seq<LDtkTile>, layout: seq<Tile>)
      ensures this.id == id && this.name == name && this.rawLayout == rawLayout && this.layout == layout
    {
      this.id := id;
      this.name := name;
      this.rawLayout := rawLayout;
      this.layout := layout;
    }

    /** Materialises the tile list: one tile per raw record, in order, built by
        the map-format tile constructor, which is given as a parameter. */
    method LoadLayout(newTileFromLDtk: LDtkTile -> Tile)
      modifies this
      ensures |layout| == |rawLayout|
      ensures forall i :: 0 <= i < |rawLayout| ==> layout[i] == newTileFromLDtk(rawLayout[i])
    {
      var tiles: seq<Tile> := [];
      for i := 0 to |rawLayout|
        invariant |tiles| == i
        invariant forall j :: 0 <= j < i ==> tiles[j] == newTileFromLDtk(rawLayout[j])
      {
        tiles := tiles + [newTileFromLDtk(rawLayout[i])];
      }
      layout := tiles;
    }
  }

  /** Index of the first layer with the given name, if any. */
  function FirstLayerNamed(layers: seq<LevelLayer>, name: string): Option<nat>
  {
    FirstWhere(layers, (layer: LevelLayer) => layer.name == name)
  }

  const GroundLayerName := "Ground"

  /** A level: identity, layers, props, neighbour links and its loaded state.
      The load/unload lifecycle is reduced to the flag. */
  class Level {
    const id: string
    const name: string
    const layers: seq<LevelLayer>
    const props: seq<Prop>
    const neighbours: seq<Neighbour>
    var loaded: bool

    constructor (id: string, name: string, layers: seq<LevelLayer>, props: seq<Prop>, neighbours: seq<Neighbour>)
      ensures this.id == id && this.name == name && this.layers == layers
      ensures this.props == props && this.neighbours == neighbours && !loaded
    {
      this.id := id;
      this.name := name;
      this.layers := layers;
      this.props := props;
      this.neighbours := neighbours;
      this.loaded := false;
    }

    method Load()
      modifies this
      ensures loaded
    {
      loaded := true;
    }

    method Unload()
      modifies this
      ensures !loaded
    {
      loaded := false;
    }

    /** Returns a fresh copy of the first layer named "Ground", or a fresh
        empty layer when there is none. The copy is a new object, so changing
        it leaves the level's own layers alone. */
    method GetGround() returns (ground: LevelLayer)
      ensures fresh(ground)
      ensures forall j :: 0 <= j < |layers| ==> layers[j] != ground
      ensures match FirstLayerNamed(layers, GroundLayerName)
        case Some(k) =>
          ground.id == layers[k].id && ground.name == GroundLayerName &&
          ground.rawLayout == layers[k].rawLayout && ground.layout == layers[k].layout
        case None =>
          ground.id == "" && ground.name == "" && ground.rawLayout == [] && ground.layout == []
    {
      var i := 0;
      while i < |layers| && layers[i].name != GroundLayerName
        invariant 0 <= i <= |layers|
        invariant forall j :: 0 <= j < i ==> layers[j].name != GroundLayerName
      {
        i := i + 1;
      }
      if i < |layers| {
        var layer := layers[i];
        ground := new LevelLayer(layer.id, layer.name, layer.rawLayout, layer.layout);
      } else {
        ground := new LevelLayer("", "", [], []);
      }
    }
  }

  /** Loading the tiles of the copy returned by GetGround leaves every layer of
      the level, including its own Ground layer, as it was. */
  method GroundCopyIsIndependent(level: Level, newTileFromLDtk: LDtkTile -> Tile) returns (ground: LevelLayer)
    ensures fresh(ground)
    ensures |ground.layout| == |ground.rawLayout|
    ensures forall j :: 0 <= j < |level.layers| ==> level.layers[j].layout == old(level.layers[j].layout)
  {
    ground := level.GetGround();
    ground.LoadLayout(newTileFromLDtk);
  }
}
