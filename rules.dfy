/** The game rules as functions of a state snapshot (what `getState` returns):
    placement validation, the setup round, turn passing and turn resolution.
    The engine class in module Engine is proved to compute exactly these. */
module Rules {
  import opened Js
  import opened Buildings
  import Units
  import opened Cells
  import Resources
  import Researches

  datatype Phase = Setup | Planning | Executing

  datatype Player = Player(
    id: int,
    name: string,
    color: string,
    isTurnFinished: bool,
    resources: map<string, int>,
    completedResearch: seq<string>)

  /** One cell of the map as the map file stores it: a tile name and the
      resource ids lying on it (possibly missing). */
  datatype MapCell = MapCell(tile: string, resources: Option<seq<string>>)

  datatype GameMap = GameMap(width: int, height: int, grid: seq<seq<MapCell>>)

  /** The five template catalogs the engine is given and never changes. */
  datatype Catalogs = Catalogs(
    tiles: seq<TileTemplate>,
    resources: seq<Resources.ResourceTemplate>,
    researches: seq<Researches.ResearchTemplate>,
    units: seq<Units.UnitTemplate>,
    buildings: seq<BuildingTemplate>)

  datatype GameState = GameState(
    gameMap: GameMap,
    players: seq<Player>,
    units: seq<Units.Unit>,
    buildings: seq<Building>,
    turn: int,
    currentPlayerId: nat,
    gamePhase: Phase)

  /** One constructor per `{error}` message of the engine. */
  datatype EngineError =
    | BuildingTypeNotFound
    | NotEnoughResources(amount: int, resourceTypeId: string)
    | RoadNotAdjacent
    | NotOwnerOfTile
    | TerrainMismatch
    | CityOnCity
    | RoadOnRoad
    | OneNonRoadPerTile
    | NotSetupPhase
    | CellOccupied

  datatype ActionResult = Ok(state: GameState) | Err(error: EngineError)

  /** CORE_CITY_TEMPLATE: the settlement every player starts with. */
  const CityTemplate := BuildingTemplate(
    typeId := "city",
    name := Some("City"),
    texturePath := Some(""),
    requiresResearch := Some([]),
    landPositioned := Some(true),
    airPositioned := Some(false),
    overwaterPositioned := Some(false),
    underwaterPositioned := Some(false),
    shallowWaterPositioned := Some(false),
    canBuild := Some([]),
    cost := Some([]),
    buildTime := Some(1),
    attack := Some(0),
    defense := Some(10),
    maxHp := Some(100),
    givesAttackBonus := Some(0),
    givesDefenseBonus := Some(1),
    canResearch := Some([]),
    canMine := Some(MineFlag(true)),
    converts := Some([]),
    isRoad := Some(false),
    consumesActionOverride := Some(0),
    alreadyBuiltCostModifier := Some(1.5))

  // ---------------------------------------------------------------------
  // Lookups
  // ---------------------------------------------------------------------

  /** `Array.prototype.findIndex`: the first position whose element satisfies `p`. */
  function FirstIndex<T>(s: seq<T>, p: T -> bool): (r: Option<nat>)
    ensures r.None? ==> forall j :: 0 <= j < |s| ==> !p(s[j])
    ensures r.Some? ==> r.value < |s| && p(s[r.value])
    ensures r.Some? ==> forall j :: 0 <= j < r.value ==> !p(s[j])
  {
    if |s| == 0 then None
    else if p(s[0]) then Some(0)
    else match FirstIndex(s[1..], p)
      case None => None
      case Some(k) => Some(k + 1)
  }

  /** The first building template with the given type id. */
  function BuildingTemplateOf(templates: seq<BuildingTemplate>, typeId: string): (r: Option<BuildingTemplate>)
    ensures r.Some? ==> r.value in templates && r.value.typeId == typeId
    ensures r.None? <==> forall t :: t in templates ==> t.typeId != typeId
  {
    match FirstIndex(templates, (t: BuildingTemplate) => t.typeId == typeId)
    case Some(i) => Some(templates[i])
    case None => None
  }

  /** The first tile template with the given name. */
  function TileNamed(tiles: seq<TileTemplate>, name: string): (r: Option<TileTemplate>)
    ensures r.Some? ==> r.value in tiles && r.value.typeName == name
    ensures r.None? <==> forall t :: t in tiles ==> t.typeName != name
  {
    match FirstIndex(tiles, (t: TileTemplate) => t.typeName == name)
    case Some(i) => Some(tiles[i])
    case None => None
  }

  predicate InGrid(m: GameMap, row: int, col: int) {
    0 <= row < |m.grid| && 0 <= col < |m.grid[row]|
  }

  /** The resource ids listed on a cell (none when the list is missing); off the grid there is nothing. */
  function CellResources(m: GameMap, pos: GridPosition): seq<string> {
    if InGrid(m, pos.row, pos.col) then m.grid[pos.row][pos.col].resources.GetOr([]) else []
  }

  // ---------------------------------------------------------------------
  // Players
  // ---------------------------------------------------------------------

  /** Player ids are their positions in the player list. */
  predicate PlayersIndexed(ps: seq<Player>) {
    forall i :: 0 <= i < |ps| ==> ps[i].id == i
  }

  predicate SomeUnfinished(ps: seq<Player>) {
    exists i :: 0 <= i < |ps| && !ps[i].isTurnFinished
  }

  predicate AllFinished(ps: seq<Player>) {
    forall i :: 0 <= i < |ps| ==> ps[i].isTurnFinished
  }

  /** What holds between actions: ids are positions, the current player is one
      of them, and some player has not finished the turn. */
  predicate WellFormed(s: GameState) {
    PlayersIndexed(s.players) && s.currentPlayerId < |s.players| && SomeUnfinished(s.players)
  }

  /** Every quantity in the resource map is at least 0. */
  predicate NonNegative(res: map<string, int>) {
    forall r :: r in res ==> res[r] >= 0
  }

  // ---------------------------------------------------------------------
  // placeBuilding
  // ---------------------------------------------------------------------

  /** A cost line the holdings do not cover (its holding is below the amount); a
      resource the player has no entry for compares false, as in JavaScript. */
  predicate Unaffordable(res: map<string, int>, c: CostLine) {
    c.resourceTypeId in res && res[c.resourceTypeId] < c.amount
  }

  /** The first cost line the holdings do not cover, if any. */
  function FirstUnaffordable(res: map<string, int>, cost: seq<CostLine>): (r: Option<nat>)
    ensures r.None? <==> forall j :: 0 <= j < |cost| ==> !Unaffordable(res, cost[j])
    ensures r.Some? ==> r.value < |cost| && Unaffordable(res, cost[r.value])
    ensures r.Some? ==> forall j :: 0 <= j < r.value ==> !Unaffordable(res, cost[j])
  {
    FirstIndex(cost, (c: CostLine) => Unaffordable(res, c))
  }

  /** Total amount the cost list charges for resource `r` (lines add up). */
  function CostOf(cost: seq<CostLine>, r: string): int
    decreases |cost|
  {
    if |cost| == 0 then 0
    else CostOf(cost[..|cost| - 1], r)
         + (if cost[|cost| - 1].resourceTypeId == r then cost[|cost| - 1].amount else 0)
  }

  /** The holdings after paying every cost line. */
  function Deducted(res: map<string, int>, cost: seq<CostLine>): map<string, int> {
    map r | r in res :: res[r] - CostOf(cost, r)
  }

  predicate KnownCosts(res: map<string, int>, cost: seq<CostLine>) {
    forall j :: 0 <= j < |cost| ==> cost[j].resourceTypeId in res
  }

  predicate DistinctCostIds(cost: seq<CostLine>) {
    forall i, j :: 0 <= i < j < |cost| ==> cost[i].resourceTypeId != cost[j].resourceTypeId
  }

  predicate IsCity(b: Building) { b.typeId == "city" }
  predicate IsOther(b: Building) { !IsCity(b) && !b.isRoad }
  predicate OnCell(b: Building, row: int, col: int) { b.pos == GridPosition(row, col) }

  function Abs(x: int): nat { if x < 0 then -x else x }

  /** A city or road of `pid` within Chebyshev distance 1 of the cell, the cell included. */
  predicate NearFriendlyCityOrRoad(bs: seq<Building>, pid: int, row: int, col: int) {
    exists b :: b in bs && b.playerId == pid && (IsCity(b) || b.isRoad)
                && Abs(b.pos.row - row) <= 1 && Abs(b.pos.col - col) <= 1
  }

  predicate OwnsBuildingOn(bs: seq<Building>, pid: int, row: int, col: int) {
    exists b :: b in bs && OnCell(b, row, col) && b.playerId == pid
  }

  /** Rule 1: a road needs a friendly city or road nearby; any other
      non-city building needs a building of the player on the cell. */
  predicate OwnershipRule(t: BuildingTemplate, bs: seq<Building>, pid: int, row: int, col: int) {
    if TruthyBool(t.isRoad) then NearFriendlyCityOrRoad(bs, pid, row, col)
    else t.typeId != "city" ==> OwnsBuildingOn(bs, pid, row, col)
  }

  /** Rule 2: some positioning flag of the building meets the matching
      passability flag of the tile; `air_positioned` takes no part. The
      tile is consulted only behind a positioning flag that is set. */
  predicate TerrainMatches(t: BuildingTemplate, tile: Option<TileTemplate>)
    requires Positioned(t) ==> tile.Some?
  {
    || (TruthyBool(t.landPositioned) && TruthyBool(tile.value.landPassable))
    || (TruthyBool(t.overwaterPositioned) && TruthyBool(tile.value.overwaterPassable))
    || (TruthyBool(t.underwaterPositioned) && TruthyBool(tile.value.underwaterPassable))
    || (TruthyBool(t.shallowWaterPositioned) && TruthyBool(tile.value.shallowWaterPassable))
  }

  /** Some positioning flag of the building that takes part in rule 2 is set. */
  predicate Positioned(t: BuildingTemplate) {
    || TruthyBool(t.landPositioned) || TruthyBool(t.overwaterPositioned)
    || TruthyBool(t.underwaterPositioned) || TruthyBool(t.shallowWaterPositioned)
  }

  predicate HasCity(bs: seq<Building>, row: int, col: int) {
    exists b :: b in bs && OnCell(b, row, col) && IsCity(b)
  }
  predicate HasRoad(bs: seq<Building>, row: int, col: int) {
    exists b :: b in bs && OnCell(b, row, col) && b.isRoad
  }
  predicate HasOther(bs: seq<Building>, row: int, col: int) {
    exists b :: b in bs && OnCell(b, row, col) && IsOther(b)
  }

  /** Rules 3 and 4: the first stacking conflict, if any. */
  function StackingConflict(t: BuildingTemplate, bs: seq<Building>, row: int, col: int): Option<EngineError> {
    if t.typeId == "city" && HasCity(bs, row, col) then Some(CityOnCity)
    else if TruthyBool(t.isRoad) && HasRoad(bs, row, col) then Some(RoadOnRoad)
    else if !TruthyBool(t.isRoad) && t.typeId != "city" && HasOther(bs, row, col) then Some(OneNonRoadPerTile)
    else None
  }

  /** Per cell: at most one city, at most one road, at most one other building. */
  predicate StackingOk(bs: seq<Building>) {
    forall i, j :: 0 <= i < j < |bs| && bs[i].pos == bs[j].pos ==>
      && !(IsCity(bs[i]) && IsCity(bs[j]))
      && !(bs[i].isRoad && bs[j].isRoad)
      && !(IsOther(bs[i]) && IsOther(bs[j]))
  }

  /** The affordability loop: the first cost line the player does not cover.
      An empty cost list never reads the player. */
  function Shortfall(s: GameState, pid: int, cost: seq<CostLine>): Option<nat>
    requires |cost| > 0 ==> 0 <= pid < |s.players|
  {
    if |cost| == 0 then None else FirstUnaffordable(s.players[pid].resources, cost)
  }

  /** What the checks of placeBuilding read, each at the stage where the
      source reaches it: a found template needs a cost list to loop over,
      and a known player when that list is not empty; passing affordability
      needs a grid cell; passing ownership with a positioning flag set needs
      the cell's tile in the tileset. */
  predicate ChecksDefined(s: GameState, cat: Catalogs, pid: int, typeId: string, row: int, col: int) {
    match BuildingTemplateOf(cat.buildings, typeId)
    case None => true
    case Some(t) =>
      && t.cost.Some?
      && (|t.cost.value| > 0 ==> 0 <= pid < |s.players|)
      && (Shortfall(s, pid, t.cost.value).None? ==>
            && InGrid(s.gameMap, row, col)
            && (OwnershipRule(t, s.buildings, pid, row, col) && Positioned(t) ==>
                  TileNamed(cat.tiles, s.gameMap.grid[row][col].tile).Some?))
  }

  /** The checks of placeBuilding in their order; the first that fails decides. */
  function CheckPlacement(s: GameState, cat: Catalogs, pid: int, typeId: string, row: int, col: int): (r: Option<EngineError>)
    requires ChecksDefined(s, cat, pid, typeId, row, col)
    // "type not found" is reported exactly for a type the catalog lacks
    ensures r == Some(BuildingTypeNotFound) <==> BuildingTemplateOf(cat.buildings, typeId).None?
    // passing every check needs a covered cost and a cell on the grid
    ensures r.None? ==> && BuildingTemplateOf(cat.buildings, typeId).Some?
                        && Shortfall(s, pid, BuildingTemplateOf(cat.buildings, typeId).value.cost.value).None?
                        && InGrid(s.gameMap, row, col)
  {
    match BuildingTemplateOf(cat.buildings, typeId)
    case None => Some(BuildingTypeNotFound)
    case Some(t) =>
      var cost := t.cost.value;
      match Shortfall(s, pid, cost)
      case Some(i) => Some(NotEnoughResources(cost[i].amount, cost[i].resourceTypeId))
      case None =>
        if TruthyBool(t.isRoad) && !NearFriendlyCityOrRoad(s.buildings, pid, row, col) then Some(RoadNotAdjacent)
        else if !TruthyBool(t.isRoad) && typeId != "city" && !OwnsBuildingOn(s.buildings, pid, row, col) then Some(NotOwnerOfTile)
        else if !TerrainMatches(t, TileNamed(cat.tiles, s.gameMap.grid[row][col].tile)) then Some(TerrainMismatch)
        else StackingConflict(t, s.buildings, row, col)
  }

  /** Everything placeBuilding needs: players found by id at their
      positions, the checks defined, and, once they all pass, a known
      player whose holdings name every resource the cost charges (a
      missing one would turn into NaN when the cost is paid). */
  predicate PlacementDefined(s: GameState, cat: Catalogs, pid: int, typeId: string, row: int, col: int) {
    && PlayersIndexed(s.players)
    && ChecksDefined(s, cat, pid, typeId, row, col)
    && (CheckPlacement(s, cat, pid, typeId, row, col).None? ==>
          && BuildingTemplateOf(cat.buildings, typeId).Some?
          && 0 <= pid < |s.players|
          && KnownCosts(s.players[pid].resources, BuildingTemplateOf(cat.buildings, typeId).value.cost.value))
  }

  /** placeBuilding: check, then pay the cost and append the new building. */
  function PlaceBuilding(s: GameState, cat: Catalogs, pid: int, typeId: string, row: int, col: int, freshId: int): (r: ActionResult)
    requires PlacementDefined(s, cat, pid, typeId, row, col)
    // refused exactly when a check fails, with that check's error
    ensures r.Err? <==> CheckPlacement(s, cat, pid, typeId, row, col).Some?
    ensures r.Err? ==> Some(r.error) == CheckPlacement(s, cat, pid, typeId, row, col)
    // accepted: one building appended, the same number of players
    ensures r.Ok? ==> && |r.state.buildings| == |s.buildings| + 1
                      && r.state.buildings[..|s.buildings|] == s.buildings
                      && |r.state.players| == |s.players|
  {
    match CheckPlacement(s, cat, pid, typeId, row, col)
    case Some(e) => Err(e)
    case None =>
      var t := BuildingTemplateOf(cat.buildings, typeId).value;
      var p := s.players[pid];
      Ok(s.(players := s.players[pid := p.(resources := Deducted(p.resources, t.cost.value))],
            buildings := s.buildings + [NewBuilding(typeId, pid, row, col, t, freshId)]))
  }

  // ---------------------------------------------------------------------
  // placeStartingCity
  // ---------------------------------------------------------------------

  predicate Occupied(bs: seq<Building>, row: int, col: int) {
    exists b :: b in bs && OnCell(b, row, col)
  }

  function PlaceStartingCity(s: GameState, row: int, col: int, freshId: int): (r: ActionResult)
    // the only two refusals
    ensures r.Err? ==> r.error == NotSetupPhase || r.error == CellOccupied
    // accepted: one city appended, the players untouched
    ensures r.Ok? ==> && |r.state.buildings| == |s.buildings| + 1
                      && r.state.buildings[..|s.buildings|] == s.buildings
                      && IsCity(r.state.buildings[|s.buildings|])
                      && r.state.players == s.players
  {
    if s.gamePhase != Setup then Err(NotSetupPhase)
    else if Occupied(s.buildings, row, col) then Err(CellOccupied)
    else
      var city := NewBuilding(CityTemplate.typeId, s.currentPlayerId, row, col, CityTemplate, freshId);
      var next := s.currentPlayerId + 1;
      Ok(s.(buildings := s.buildings + [city],
            gamePhase := if next >= |s.players| then Planning else Setup,
            currentPlayerId := if next >= |s.players| then 0 else next))
  }

  // ---------------------------------------------------------------------
  // switchToNextPlayer and endTurnForCurrentPlayer
  // ---------------------------------------------------------------------

  /** How many steps forward, cyclically, `nxt` lies from `cur` (1 to n). */
  function Offset(cur: int, nxt: int, n: int): int {
    if nxt > cur then nxt - cur else nxt + n - cur
  }

  /** Whether the player k steps after `cur`, cyclically, has finished. */
  predicate FinishedAfter(ps: seq<Player>, cur: nat, k: nat)
    requires |ps| > 0
  {
    ps[(cur + k) % |ps|].isTurnFinished
  }

  /** `nxt` is the first unfinished player strictly after `cur` in cyclic
      order (which is `cur` itself when no one else is unfinished). */
  predicate IsNextUnfinished(ps: seq<Player>, cur: nat, nxt: nat) {
    && nxt < |ps|
    && !ps[nxt].isTurnFinished
    && forall k: nat :: 1 <= k < Offset(cur, nxt, |ps|) ==> FinishedAfter(ps, cur, k)
  }

  lemma OffsetLands(cur: nat, nxt: nat, n: nat)
    requires cur < n && nxt < n
    ensures 1 <= Offset(cur, nxt, n) <= n
    ensures (cur + Offset(cur, nxt, n)) % n == nxt
  {
    if nxt <= cur {
      assert cur + Offset(cur, nxt, n) == nxt + n;
    }
  }

  lemma OffsetOfStep(cur: nat, k: nat, n: nat)
    requires cur < n && 1 <= k <= n
    ensures Offset(cur, (cur + k) % n, n) == k
  {
    if cur + k >= n {
      assert (cur + k) % n == cur + k - n;
    }
  }

  /** Scans forward from offset k; used to name the next unfinished player. */
  function NextUnfinishedFrom(ps: seq<Player>, cur: nat, k: nat): (nxt: nat)
    requires cur < |ps| && 1 <= k <= |ps| && SomeUnfinished(ps)
    requires forall j: nat :: 1 <= j < k ==> FinishedAfter(ps, cur, j)
    ensures IsNextUnfinished(ps, cur, nxt)
    decreases |ps| - k
  {
    var c := (cur + k) % |ps|;
    OffsetOfStep(cur, k, |ps|);
    if !ps[c].isTurnFinished then c
    else
      assert k < |ps| by {
        var i :| 0 <= i < |ps| && !ps[i].isTurnFinished;
        OffsetLands(cur, i, |ps|);
        var seenAt := FinishedAfter(ps, cur, Offset(cur, i, |ps|));
      }
      NextUnfinishedFrom(ps, cur, k + 1)
  }

  function NextUnfinished(ps: seq<Player>, cur: nat): (nxt: nat)
    requires cur < |ps| && SomeUnfinished(ps)
    ensures IsNextUnfinished(ps, cur, nxt)
  {
    NextUnfinishedFrom(ps, cur, 1)
  }

  /** The next unfinished player is determined uniquely. */
  lemma NextUnfinishedUnique(ps: seq<Player>, cur: nat, a: nat, b: nat)
    requires cur < |ps| && IsNextUnfinished(ps, cur, a) && IsNextUnfinished(ps, cur, b)
    ensures a == b
  {
    var n := |ps|;
    OffsetLands(cur, a, n);
    OffsetLands(cur, b, n);
    // whichever of the two lies closer is, by the other's scan, finished
    var atA, atB := FinishedAfter(ps, cur, Offset(cur, a, n)), FinishedAfter(ps, cur, Offset(cur, b, n));
  }

  /** The sole unfinished player passes the turn back to itself. */
  lemma OnlyUnfinishedKeepsTurn(ps: seq<Player>, cur: nat)
    requires cur < |ps| && !ps[cur].isTurnFinished
    requires forall i :: 0 <= i < |ps| && i != cur ==> ps[i].isTurnFinished
    ensures NextUnfinished(ps, cur) == cur
  {
    var n := |ps|;
    forall k: nat | 1 <= k < Offset(cur, cur, n) ensures FinishedAfter(ps, cur, k) {
      OffsetOfStep(cur, k, n);
    }
    NextUnfinishedUnique(ps, cur, cur, NextUnfinished(ps, cur));
  }

  function SwitchToNextPlayer(s: GameState): (r: GameState)
    requires s.currentPlayerId < |s.players| && SomeUnfinished(s.players)
    // only the player to move changes, to the next unfinished one
    ensures r == s.(currentPlayerId := r.currentPlayerId)
    ensures IsNextUnfinished(s.players, s.currentPlayerId, r.currentPlayerId)
  {
    s.(currentPlayerId := NextUnfinished(s.players, s.currentPlayerId))
  }

  /** The players with the one at position `cur` marked finished. */
  function MarkFinished(ps: seq<Player>, cur: nat): (r: seq<Player>)
    ensures |r| == |ps|
    // only the flag of the player at `cur` is raised; everything else stays
    ensures forall i :: 0 <= i < |ps| ==> r[i].isTurnFinished == (i == cur || ps[i].isTurnFinished)
    ensures forall i :: 0 <= i < |ps| ==> r[i] == ps[i].(isTurnFinished := r[i].isTurnFinished)
  {
    seq(|ps|, i requires 0 <= i < |ps| => if i == cur then ps[i].(isTurnFinished := true) else ps[i])
  }

  // ---------------------------------------------------------------------
  // resolveTurn
  // ---------------------------------------------------------------------

  predicate Mines(b: Building, pid: int) {
    b.playerId == pid && TruthyMine(b.canMine)
  }

  /** None of the buildings is a mining building of `pid`. */
  predicate NoMiner(bs: seq<Building>, pid: int) {
    forall k :: 0 <= k < |bs| ==> !Mines(bs[k], pid)
  }

  /** Every resource id lying under the player's mining buildings, with
      repetitions: one entry per listing on a cell, one cell per building. */
  function Mined(bs: seq<Building>, m: GameMap, pid: int): multiset<string>
    decreases |bs|
  {
    if |bs| == 0 then multiset{}
    else Mined(bs[..|bs| - 1], m, pid)
         + (if Mines(bs[|bs| - 1], pid) then multiset(CellResources(m, bs[|bs| - 1].pos)) else multiset{})
  }

  /** The player's holdings after the yield step: each resource r gains its
      number of sources times one roll for (player, r). */
  function Yield(res: map<string, int>, bs: seq<Building>, m: GameMap, pid: int,
                 rolls: (int, string) -> int, i: int): (r: map<string, int>)
    // the same resources, none added or lost
    ensures r.Keys == res.Keys
  {
    map r | r in res :: res[r] + Mined(bs, m, pid)[r] * rolls(i, r)
  }

  /** Every roll is an integer from 1 to 10. */
  ghost predicate RollsInRange(rolls: (int, string) -> int) {
    forall i, r :: 1 <= rolls(i, r) <= 10
  }

  /** What resolveTurn dereferences: the cell under every mining building of
      a player, and a resource entry for every id mined. */
  ghost predicate ResolveDefined(s: GameState) {
    && (forall i, k :: 0 <= i < |s.players| && 0 <= k < |s.buildings|
                      && Mines(s.buildings[k], s.players[i].id)
                      ==> InGrid(s.gameMap, s.buildings[k].pos.row, s.buildings[k].pos.col))
    && (forall i, r :: 0 <= i < |s.players| && Mined(s.buildings, s.gameMap, s.players[i].id)[r] > 0
                      ==> r in s.players[i].resources)
  }

  function ResolveTurn(s: GameState, rolls: (int, string) -> int): (r: GameState)
    // the same players, in order, each keeping its resource keys
    ensures |r.players| == |s.players|
    ensures forall i :: 0 <= i < |s.players| ==>
              r.players[i].id == s.players[i].id && r.players[i].resources.Keys == s.players[i].resources.Keys
  {
    var ps := s.players;
    s.(players := seq(|ps|, i requires 0 <= i < |ps| =>
                        ps[i].(resources := Yield(ps[i].resources, s.buildings, s.gameMap, ps[i].id, rolls, i),
                               isTurnFinished := false)),
       currentPlayerId := 0,
       turn := s.turn + 1,
       gamePhase := Planning)
  }

  ghost predicate EndTurnDefined(s: GameState) {
    && s.currentPlayerId < |s.players|
    && (AllFinished(MarkFinished(s.players, s.currentPlayerId)) ==> ResolveDefined(s))
  }

  function EndTurnForCurrentPlayer(s: GameState, rolls: (int, string) -> int): (r: GameState)
    requires s.currentPlayerId < |s.players|
    // the same players, and the one to move is one of them
    ensures |r.players| == |s.players| && r.currentPlayerId < |r.players|
    ensures forall i :: 0 <= i < |r.players| ==> r.players[i].id == s.players[i].id
  {
    var marked := s.(players := MarkFinished(s.players, s.currentPlayerId));
    if AllFinished(marked.players) then ResolveTurn(marked.(gamePhase := Executing), rolls)
    else SwitchToNextPlayer(marked)
  }
}
