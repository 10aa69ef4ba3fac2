/** A unit instance: a snapshot of its unit template plus the unit's own state. */
module Units {
  import opened Js

  /** A unit template of a unit set; every field but `TypeId` may be missing. */
  datatype UnitTemplate = UnitTemplate(
    typeId: string,
    name: Option<string>,
    texturePath: Option<string>,
    requiresResearch: Option<seq<string>>,
    landTraversing: Option<bool>,
    airTraversing: Option<bool>,
    overwaterTraversing: Option<bool>,
    underwaterTraversing: Option<bool>,
    cost: Option<seq<CostLine>>,
    buildTime: Option<int>,
    movementRadius: Option<int>,
    minAttackDistance: Option<int>,
    maxAttackDistance: Option<int>,
    attack: Option<int>,
    defense: Option<int>,
    maxHp: Option<int>,
    carrierCapability: Option<int>,
    canCarryTypeLand: Option<bool>,
    canCarryTypeAir: Option<bool>,
    canCarryTypeOverwater: Option<bool>,
    canCarryTypeUnderwater: Option<bool>)

  datatype Unit = Unit(
    id: int,
    typeId: string,
    playerId: int,
    pos: GridPosition,
    hp: int,
    attackBonus: int,
    defenseBonus: int,
    carrierCarriedHp: int,
    remainingTurnsToBuild: int,
    texture: Option<string>,
    requiresResearch: seq<string>,
    landTraversing: bool,
    airTraversing: bool,
    overwaterTraversing: bool,
    underwaterTraversing: bool,
    cost: seq<CostLine>,
    buildTime: int,
    movementRadius: int,
    minAttackDistance: int,
    maxAttackDistance: int,
    attack: int,
    defense: int,
    maxHp: int,
    carrierCapability: int,
    canCarryTypeLand: bool,
    canCarryTypeAir: bool,
    canCarryTypeOverwater: bool,
    canCarryTypeUnderwater: bool)

  /** The `Unit` constructor; `id` stands for the fresh instance id. */
  function NewUnit(typeId: string, playerId: int, row: int, col: int,
                   t: UnitTemplate, id: int): (u: Unit)
    ensures u.id == id && u.typeId == typeId && u.playerId == playerId
    ensures u.pos == GridPosition(row, col)
    // a new unit is at full health and not yet built
    ensures u.hp == u.maxHp && u.maxHp != 0
    ensures TruthyNum(t.maxHp) ==> u.maxHp == t.maxHp.value
    ensures !TruthyNum(t.maxHp) ==> u.maxHp == 1
    ensures u.remainingTurnsToBuild == u.buildTime && u.buildTime != 0
    ensures TruthyNum(t.buildTime) ==> u.buildTime == t.buildTime.value
    ensures !TruthyNum(t.buildTime) ==> u.buildTime == 1
    // bonuses and carried hit points start at 0 whatever the template holds
    ensures u.attackBonus == 0 && u.defenseBonus == 0 && u.carrierCarriedHp == 0
    // attack and defense fall back to 1, so a template 0 becomes 1
    ensures u.attack != 0 && u.defense != 0
    ensures TruthyNum(t.attack) ==> u.attack == t.attack.value
    ensures !TruthyNum(t.attack) ==> u.attack == 1
    ensures TruthyNum(t.defense) ==> u.defense == t.defense.value
    ensures !TruthyNum(t.defense) ==> u.defense == 1
    // ranges: movement and minimum distance fall back to 0, maximum distance to 1
    ensures t.movementRadius.Some? ==> u.movementRadius == t.movementRadius.value
    ensures t.movementRadius.None? ==> u.movementRadius == 0
    ensures t.minAttackDistance.Some? ==> u.minAttackDistance == t.minAttackDistance.value
    ensures t.minAttackDistance.None? ==> u.minAttackDistance == 0
    ensures u.maxAttackDistance != 0
    ensures TruthyNum(t.maxAttackDistance) ==> u.maxAttackDistance == t.maxAttackDistance.value
    ensures !TruthyNum(t.maxAttackDistance) ==> u.maxAttackDistance == 1
    ensures t.carrierCapability.Some? ==> u.carrierCapability == t.carrierCapability.value
    ensures t.carrierCapability.None? ==> u.carrierCapability == 0
    // flags: only an explicit true is kept
    ensures u.landTraversing <==> t.landTraversing == Some(true)
    ensures u.airTraversing <==> t.airTraversing == Some(true)
    ensures u.overwaterTraversing <==> t.overwaterTraversing == Some(true)
    ensures u.underwaterTraversing <==> t.underwaterTraversing == Some(true)
    ensures u.canCarryTypeLand <==> t.canCarryTypeLand == Some(true)
    ensures u.canCarryTypeAir <==> t.canCarryTypeAir == Some(true)
    ensures u.canCarryTypeOverwater <==> t.canCarryTypeOverwater == Some(true)
    ensures u.canCarryTypeUnderwater <==> t.canCarryTypeUnderwater == Some(true)
    ensures u.texture == t.texturePath
    // lists: a missing list becomes empty, a present one is kept
    ensures u.cost == (if t.cost.Some? then t.cost.value else [])
    ensures u.requiresResearch == (if t.requiresResearch.Some? then t.requiresResearch.value else [])
  {
    Unit(
      id := id,
      typeId := typeId,
      playerId := playerId,
      pos := GridPosition(row, col),
      hp := OrNum(t.maxHp, 1),
      attackBonus := 0,
      defenseBonus := 0,
      carrierCarriedHp := 0,
      remainingTurnsToBuild := OrNum(t.buildTime, 1),
      texture := t.texturePath,
      requiresResearch := t.requiresResearch.GetOr([]),
      landTraversing := OrFalse(t.landTraversing),
      airTraversing := OrFalse(t.airTraversing),
      overwaterTraversing := OrFalse(t.overwaterTraversing),
      underwaterTraversing := OrFalse(t.underwaterTraversing),
      cost := t.cost.GetOr([]),
      buildTime := OrNum(t.buildTime, 1),
      movementRadius := OrNum(t.movementRadius, 0),
      minAttackDistance := OrNum(t.minAttackDistance, 0),
      maxAttackDistance := OrNum(t.maxAttackDistance, 1),
      attack := OrNum(t.attack, 1),
      defense := OrNum(t.defense, 1),
      maxHp := OrNum(t.maxHp, 1),
      carrierCapability := OrNum(t.carrierCapability, 0),
      canCarryTypeLand := OrFalse(t.canCarryTypeLand),
      canCarryTypeAir := OrFalse(t.canCarryTypeAir),
      canCarryTypeOverwater := OrFalse(t.canCarryTypeOverwater),
      canCarryTypeUnderwater := OrFalse(t.canCarryTypeUnderwater))
  }
}
