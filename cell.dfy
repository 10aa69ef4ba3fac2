/** A map cell instance built from a tile template of the tileset. */
module Cells {
  import opened Js
  import Units
  import Buildings

  /** A tile template; `typeName` is the tile's name in the tileset. */
  datatype TileTemplate = TileTemplate(
    typeName: string,
    texturePath: Option<string>,
    landPassable: Option<bool>,
    airPassable: Option<bool>,
    overwaterPassable: Option<bool>,
    underwaterPassable: Option<bool>,
    shallowWaterPassable: Option<bool>,
    consumesMovement: Option<int>)

  datatype Entity = UnitEntity(unit: Units.Unit) | BuildingEntity(building: Buildings.Building)

  datatype Cell = Cell(
    typeId: string,
    pos: GridPosition,
    entities: seq<Entity>,
    playerId: Option<int>,
    texture: Option<string>,
    landPassable: Option<bool>,
    airPassable: Option<bool>,
    overwaterPassable: Option<bool>,
    underwaterPassable: Option<bool>,
    shallowWaterPassable: bool,
    consumesMovement: int)

  /** The `Cell` constructor. */
  function NewCell(typeId: string, row: int, col: int, t: TileTemplate): (c: Cell)
    ensures c.typeId == typeId && c.pos == GridPosition(row, col)
    // a new cell holds nothing and belongs to nobody
    ensures c.entities == [] && c.playerId.None?
    // four passability flags are copied as they are, missing stays missing
    ensures c.landPassable == t.landPassable && c.airPassable == t.airPassable
    ensures c.overwaterPassable == t.overwaterPassable && c.underwaterPassable == t.underwaterPassable
    // shallow water is the one flag with a fallback
    ensures c.shallowWaterPassable <==> t.shallowWaterPassable == Some(true)
    // `??`: a movement cost of 0 is kept, only a missing one becomes 1
    ensures t.consumesMovement.Some? ==> c.consumesMovement == t.consumesMovement.value
    ensures t.consumesMovement.None? ==> c.consumesMovement == 1
    ensures c.texture == t.texturePath
  {
    Cell(
      typeId := typeId,
      pos := GridPosition(row, col),
      entities := [],
      playerId := None,
      texture := t.texturePath,
      landPassable := t.landPassable,
      airPassable := t.airPassable,
      overwaterPassable := t.overwaterPassable,
      underwaterPassable := t.underwaterPassable,
      shallowWaterPassable := OrFalse(t.shallowWaterPassable),
      consumesMovement := t.consumesMovement.GetOr(1))
  }
}
