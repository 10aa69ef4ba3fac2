/** A building instance on the map: a snapshot of its template's constant fields
    plus the instance's own state (owner, position, hit points, build progress). */
module Buildings {
  import opened Js

  /** What a template stores in `canMine`: the core city stores `true`, the
      building editor stores the id of a resource (or nothing). */
  datatype MineValue = MineFlag(flag: bool) | MineResource(resourceTypeId: string)

  predicate TruthyMine(x: Option<MineValue>) {
    match x
    case None => false
    case Some(MineFlag(f)) => f
    case Some(MineResource(id)) => id != ""
  }

  /** A building template of a building set; every field but `TypeId` may be missing. */
  datatype BuildingTemplate = BuildingTemplate(
    typeId: string,
    name: Option<string>,
    texturePath: Option<string>,
    requiresResearch: Option<seq<string>>,
    landPositioned: Option<bool>,
    airPositioned: Option<bool>,
    overwaterPositioned: Option<bool>,
    underwaterPositioned: Option<bool>,
    shallowWaterPositioned: Option<bool>,
    canBuild: Option<seq<string>>,
    cost: Option<seq<CostLine>>,
    buildTime: Option<int>,
    attack: Option<int>,
    defense: Option<int>,
    maxHp: Option<int>,
    givesAttackBonus: Option<int>,
    givesDefenseBonus: Option<int>,
    canResearch: Option<seq<string>>,
    canMine: Option<MineValue>,
    converts: Option<seq<string>>,
    isRoad: Option<bool>,
    consumesActionOverride: Option<int>,
    alreadyBuiltCostModifier: Option<real>)

  datatype Building = Building(
    id: int,
    typeId: string,
    playerId: int,
    pos: GridPosition,
    hp: int,
    buildQueue: seq<string>,
    remainingTurnsToBuild: int,
    name: string,
    texture: Option<string>,
    requiresResearch: seq<string>,
    landPositioned: bool,
    airPositioned: bool,
    overwaterPositioned: bool,
    underwaterPositioned: bool,
    canBuild: seq<string>,
    cost: seq<CostLine>,
    buildTime: int,
    attack: int,
    defense: int,
    maxHp: int,
    givesAttackBonus: int,
    givesDefenseBonus: int,
    canResearch: seq<string>,
    canMine: Option<MineValue>,
    converts: seq<string>,
    isRoad: bool,
    consumesActionOverride: int,
    alreadyBuiltCostModifier: real)

  /** The `Building` constructor; `id` stands for the fresh instance id. */
  function NewBuilding(typeId: string, playerId: int, row: int, col: int,
                       t: BuildingTemplate, id: int): (b: Building)
    // identity and position are the arguments themselves
    ensures b.id == id && b.typeId == typeId && b.playerId == playerId
    ensures b.pos == GridPosition(row, col)
    // a new building is at full health, not yet built, with nothing queued
    ensures b.hp == b.maxHp && b.maxHp != 0
    ensures TruthyNum(t.maxHp) ==> b.maxHp == t.maxHp.value
    ensures !TruthyNum(t.maxHp) ==> b.maxHp == 1
    ensures b.remainingTurnsToBuild == b.buildTime && b.buildTime != 0
    ensures TruthyNum(t.buildTime) ==> b.buildTime == t.buildTime.value
    ensures !TruthyNum(t.buildTime) ==> b.buildTime == 1
    ensures b.buildQueue == []
    // combat numbers: attack falls back to 0, defense to 1 (so 0 becomes 1)
    ensures b.defense != 0
    ensures TruthyNum(t.defense) ==> b.defense == t.defense.value
    ensures !TruthyNum(t.defense) ==> b.defense == 1
    ensures t.attack.Some? ==> b.attack == t.attack.value
    ensures t.attack.None? ==> b.attack == 0
    ensures t.givesAttackBonus.Some? ==> b.givesAttackBonus == t.givesAttackBonus.value
    ensures t.givesAttackBonus.None? ==> b.givesAttackBonus == 0
    ensures t.givesDefenseBonus.Some? ==> b.givesDefenseBonus == t.givesDefenseBonus.value
    ensures t.givesDefenseBonus.None? ==> b.givesDefenseBonus == 0
    ensures t.consumesActionOverride.Some? ==> b.consumesActionOverride == t.consumesActionOverride.value
    ensures t.consumesActionOverride.None? ==> b.consumesActionOverride == 0
    // `??`: an explicit 0 survives, only a missing modifier becomes 1
    ensures t.alreadyBuiltCostModifier.Some? ==> b.alreadyBuiltCostModifier == t.alreadyBuiltCostModifier.value
    ensures t.alreadyBuiltCostModifier.None? ==> b.alreadyBuiltCostModifier == 1.0
    // flags: only an explicit true is kept; canMine keeps a truthy value, else null
    ensures b.isRoad <==> t.isRoad == Some(true)
    ensures b.landPositioned <==> t.landPositioned == Some(true)
    ensures b.airPositioned <==> t.airPositioned == Some(true)
    ensures b.overwaterPositioned <==> t.overwaterPositioned == Some(true)
    ensures b.underwaterPositioned <==> t.underwaterPositioned == Some(true)
    ensures b.canMine.Some? <==> TruthyMine(t.canMine)
    ensures b.canMine.Some? ==> b.canMine == t.canMine
    // names: "" and a missing name both become the placeholder
    ensures TruthyStr(t.name) ==> b.name == t.name.value
    ensures !TruthyStr(t.name) ==> b.name == "Unnamed Building"
    ensures b.texture == t.texturePath
    // lists: a missing list becomes empty, a present one (even empty) is kept
    ensures b.requiresResearch == (if t.requiresResearch.Some? then t.requiresResearch.value else [])
    ensures b.canBuild == (if t.canBuild.Some? then t.canBuild.value else [])
    ensures b.cost == (if t.cost.Some? then t.cost.value else [])
    ensures b.canResearch == (if t.canResearch.Some? then t.canResearch.value else [])
    ensures b.converts == (if t.converts.Some? then t.converts.value else [])
  {
    Building(
      id := id,
      typeId := typeId,
      playerId := playerId,
      pos := GridPosition(row, col),
      hp := OrNum(t.maxHp, 1),
      buildQueue := [],
      remainingTurnsToBuild := OrNum(t.buildTime, 1),
      name := OrStr(t.name, "Unnamed Building"),
      texture := t.texturePath,
      requiresResearch := t.requiresResearch.GetOr([]),
      landPositioned := OrFalse(t.landPositioned),
      airPositioned := OrFalse(t.airPositioned),
      overwaterPositioned := OrFalse(t.overwaterPositioned),
      underwaterPositioned := OrFalse(t.underwaterPositioned),
      canBuild := t.canBuild.GetOr([]),
      cost := t.cost.GetOr([]),
      buildTime := OrNum(t.buildTime, 1),
      attack := OrNum(t.attack, 0),
      defense := OrNum(t.defense, 1),
      maxHp := OrNum(t.maxHp, 1),
      givesAttackBonus := OrNum(t.givesAttackBonus, 0),
      givesDefenseBonus := OrNum(t.givesDefenseBonus, 0),
      canResearch := t.canResearch.GetOr([]),
      canMine := if TruthyMine(t.canMine) then t.canMine else None,
      converts := t.converts.GetOr([]),
      isRoad := OrFalse(t.isRoad),
      consumesActionOverride := OrNum(t.consumesActionOverride, 0),
      alreadyBuiltCostModifier := t.alreadyBuiltCostModifier.GetOr(1.0))
  }
}
