/** What placeBuilding and placeStartingCity guarantee, stated on the rules of
    module Rules. */
module Placement {
  import opened Js
  import opened Buildings
  import opened Rules

  /** A placement is accepted exactly when every check passes, taken in the
      source's order (each later check is only reached past the earlier ones). */
  lemma PlaceBuildingAcceptedIff(s: GameState, cat: Catalogs, pid: int, typeId: string,
                                 row: int, col: int, freshId: int)
    requires PlacementDefined(s, cat, pid, typeId, row, col)
    ensures PlaceBuilding(s, cat, pid, typeId, row, col, freshId).Ok? <==>
      var found := BuildingTemplateOf(cat.buildings, typeId);
      && found.Some?
      && (forall j :: 0 <= j < |found.value.cost.value| ==>
            !Unaffordable(s.players[pid].resources, found.value.cost.value[j]))
      && OwnershipRule(found.value, s.buildings, pid, row, col)
      && TerrainMatches(found.value, TileNamed(cat.tiles, s.gameMap.grid[row][col].tile))
      && StackingConflict(found.value, s.buildings, row, col).None?
  {
  }

  /** Which error a rejected placement reports: the first failing check wins. */
  lemma PlaceBuildingRejections(s: GameState, cat: Catalogs, pid: int, typeId: string,
                                row: int, col: int, freshId: int)
    requires PlacementDefined(s, cat, pid, typeId, row, col)
    ensures BuildingTemplateOf(cat.buildings, typeId).None? ==>
              PlaceBuilding(s, cat, pid, typeId, row, col, freshId) == Err(BuildingTypeNotFound)
    ensures BuildingTemplateOf(cat.buildings, typeId).Some? ==>
              var t := BuildingTemplateOf(cat.buildings, typeId).value;
              forall i :: 0 <= i < |t.cost.value| && Unaffordable(s.players[pid].resources, t.cost.value[i])
                          && (forall j :: 0 <= j < i ==> !Unaffordable(s.players[pid].resources, t.cost.value[j])) ==>
                PlaceBuilding(s, cat, pid, typeId, row, col, freshId)
                  == Err(NotEnoughResources(t.cost.value[i].amount, t.cost.value[i].resourceTypeId))
    // a road far from any friendly city or road is refused whatever else holds
    ensures BuildingTemplateOf(cat.buildings, typeId).Some? &&
            TruthyBool(BuildingTemplateOf(cat.buildings, typeId).value.isRoad) &&
            !NearFriendlyCityOrRoad(s.buildings, pid, row, col) ==>
              PlaceBuilding(s, cat, pid, typeId, row, col, freshId).Err?
    ensures BuildingTemplateOf(cat.buildings, typeId).Some? &&
            Shortfall(s, pid, BuildingTemplateOf(cat.buildings, typeId).value.cost.value).None? &&
            TruthyBool(BuildingTemplateOf(cat.buildings, typeId).value.isRoad) &&
            !NearFriendlyCityOrRoad(s.buildings, pid, row, col) ==>
              PlaceBuilding(s, cat, pid, typeId, row, col, freshId) == Err(RoadNotAdjacent)
    // past the cost: any other non-city building needs one of the player's on the cell
    ensures BuildingTemplateOf(cat.buildings, typeId).Some? &&
            Shortfall(s, pid, BuildingTemplateOf(cat.buildings, typeId).value.cost.value).None? &&
            !TruthyBool(BuildingTemplateOf(cat.buildings, typeId).value.isRoad) && typeId != "city" &&
            !OwnsBuildingOn(s.buildings, pid, row, col) ==>
              PlaceBuilding(s, cat, pid, typeId, row, col, freshId) == Err(NotOwnerOfTile)
    // past ownership: the terrain rule, then the stacking rules in their order
    ensures BuildingTemplateOf(cat.buildings, typeId).Some? &&
            Shortfall(s, pid, BuildingTemplateOf(cat.buildings, typeId).value.cost.value).None? &&
            OwnershipRule(BuildingTemplateOf(cat.buildings, typeId).value, s.buildings, pid, row, col) ==>
              var t := BuildingTemplateOf(cat.buildings, typeId).value;
              var r := PlaceBuilding(s, cat, pid, typeId, row, col, freshId);
              && (!TerrainMatches(t, TileNamed(cat.tiles, s.gameMap.grid[row][col].tile)) ==> r == Err(TerrainMismatch))
              && (TerrainMatches(t, TileNamed(cat.tiles, s.gameMap.grid[row][col].tile)) ==>
                    && (typeId == "city" && HasCity(s.buildings, row, col) ==> r == Err(CityOnCity))
                    && ((typeId != "city" || !HasCity(s.buildings, row, col)) && TruthyBool(t.isRoad) ==>
                          HasRoad(s.buildings, row, col) ==> r == Err(RoadOnRoad))
                    && (!TruthyBool(t.isRoad) && typeId != "city" && HasOther(s.buildings, row, col) ==>
                          r == Err(OneNonRoadPerTile)))
  {
    if BuildingTemplateOf(cat.buildings, typeId).Some? {
      var t := BuildingTemplateOf(cat.buildings, typeId).value;
      forall i | 0 <= i < |t.cost.value| && Unaffordable(s.players[pid].resources, t.cost.value[i])
                 && (forall j :: 0 <= j < i ==> !Unaffordable(s.players[pid].resources, t.cost.value[j]))
        ensures PlaceBuilding(s, cat, pid, typeId, row, col, freshId)
                  == Err(NotEnoughResources(t.cost.value[i].amount, t.cost.value[i].resourceTypeId))
      {
        var first := Shortfall(s, pid, t.cost.value);
        assert first == Some(i);
      }
    }
  }

  /** A successful placement appends exactly one building of the acting
      player on the target cell, pays the cost out of that player's holdings
      and changes nothing else. */
  lemma PlaceBuildingEffect(s: GameState, cat: Catalogs, pid: int, typeId: string,
                            row: int, col: int, freshId: int)
    requires PlacementDefined(s, cat, pid, typeId, row, col)
    requires PlaceBuilding(s, cat, pid, typeId, row, col, freshId).Ok?
    ensures var s' := PlaceBuilding(s, cat, pid, typeId, row, col, freshId).state;
            var t := BuildingTemplateOf(cat.buildings, typeId).value;
            && |s'.buildings| == |s.buildings| + 1
            && s'.buildings[..|s.buildings|] == s.buildings
            && s'.buildings[|s.buildings|].playerId == pid
            && s'.buildings[|s.buildings|].typeId == typeId
            && s'.buildings[|s.buildings|].pos == GridPosition(row, col)
            && s'.buildings[|s.buildings|] == NewBuilding(typeId, pid, row, col, t, freshId)
            && |s'.players| == |s.players|
            && (forall j :: 0 <= j < |s.players| && j != pid ==> s'.players[j] == s.players[j])
            && s'.players[pid] == s.players[pid].(resources := s'.players[pid].resources)
            && s'.players[pid].resources.Keys == s.players[pid].resources.Keys
            && (forall r :: r in s.players[pid].resources ==>
                  s'.players[pid].resources[r] == s.players[pid].resources[r] - CostOf(t.cost.value, r))
            && s'.gameMap == s.gameMap && s'.units == s.units && s'.turn == s.turn
            && s'.currentPlayerId == s.currentPlayerId && s'.gamePhase == s.gamePhase
  {
  }

  /** With distinct resource ids in a cost list, the charge for a resource
      is the amount of its one line, or nothing. */
  lemma {:induction false} CostOfDistinct(cost: seq<CostLine>, r: string)
    requires DistinctCostIds(cost)
    ensures (forall j :: 0 <= j < |cost| ==> cost[j].resourceTypeId != r) ==> CostOf(cost, r) == 0
    ensures forall j :: 0 <= j < |cost| && cost[j].resourceTypeId == r ==> CostOf(cost, r) == cost[j].amount
  {
    if |cost| > 0 {
      var init := cost[..|cost| - 1];
      assert DistinctCostIds(init);
      CostOfDistinct(init, r);
      assert forall j :: 0 <= j < |init| ==> init[j] == cost[j];
    }
  }

  /** Paying a cost list whose lines each pass the affordability check keeps
      every quantity non-negative, provided the lines name distinct resources. */
  lemma DeductedNonNegative(res: map<string, int>, cost: seq<CostLine>)
    requires NonNegative(res) && DistinctCostIds(cost)
    requires forall j :: 0 <= j < |cost| ==> !Unaffordable(res, cost[j])
    ensures NonNegative(Deducted(res, cost))
  {
    forall r | r in res ensures res[r] - CostOf(cost, r) >= 0 {
      CostOfDistinct(cost, r);
      if j :| 0 <= j < |cost| && cost[j].resourceTypeId == r {
        assert !Unaffordable(res, cost[j]);
      }
    }
  }

  /** The same for a whole placement: no player's holding goes negative. */
  lemma PlaceBuildingKeepsResourcesNonNegative(s: GameState, cat: Catalogs, pid: int, typeId: string,
                                               row: int, col: int, freshId: int)
    requires PlacementDefined(s, cat, pid, typeId, row, col)
    requires forall j :: 0 <= j < |s.players| ==> NonNegative(s.players[j].resources)
    requires BuildingTemplateOf(cat.buildings, typeId).Some? ==>
               DistinctCostIds(BuildingTemplateOf(cat.buildings, typeId).value.cost.value)
    requires PlaceBuilding(s, cat, pid, typeId, row, col, freshId).Ok?
    ensures var s' := PlaceBuilding(s, cat, pid, typeId, row, col, freshId).state;
            forall j :: 0 <= j < |s'.players| ==> NonNegative(s'.players[j].resources)
  {
    var t := BuildingTemplateOf(cat.buildings, typeId).value;
    DeductedNonNegative(s.players[pid].resources, t.cost.value);
  }

  /** Without distinct ids the per-line check lets a placement overdraw:
      two lines of 5 wood each pass against a holding of 5 wood. */
  lemma DuplicateCostLinesOverdraw()
    ensures var res := map["wood" := 5];
            var cost := [CostLine("wood", 5), CostLine("wood", 5)];
            && FirstUnaffordable(res, cost).None?
            && Deducted(res, cost)["wood"] == -5
  {
    var cost := [CostLine("wood", 5), CostLine("wood", 5)];
    assert cost[..1] == [CostLine("wood", 5)];
    assert cost[..1][..0] == [];
  }

  /** Accepted placements keep at most one city, one road and one other
      building per cell. */
  lemma PlaceBuildingKeepsStacking(s: GameState, cat: Catalogs, pid: int, typeId: string,
                                   row: int, col: int, freshId: int)
    requires PlacementDefined(s, cat, pid, typeId, row, col)
    requires StackingOk(s.buildings)
    requires PlaceBuilding(s, cat, pid, typeId, row, col, freshId).Ok?
    ensures StackingOk(PlaceBuilding(s, cat, pid, typeId, row, col, freshId).state.buildings)
  {
    var t := BuildingTemplateOf(cat.buildings, typeId).value;
    var b := NewBuilding(typeId, pid, row, col, t, freshId);
    var bs := s.buildings;
    assert StackingConflict(t, bs, row, col).None?;
    AppendKeepsStacking(bs, b);
  }

  /** Appending a building that clashes with nothing on its cell keeps the
      stacking invariant. */
  lemma AppendKeepsStacking(bs: seq<Building>, b: Building)
    requires StackingOk(bs)
    requires IsCity(b) ==> !HasCity(bs, b.pos.row, b.pos.col)
    requires b.isRoad ==> !HasRoad(bs, b.pos.row, b.pos.col)
    requires IsOther(b) ==> !HasOther(bs, b.pos.row, b.pos.col)
    ensures StackingOk(bs + [b])
  {
    var bs' := bs + [b];
    forall i, j | 0 <= i < j < |bs'| && bs'[i].pos == bs'[j].pos
      ensures !(IsCity(bs'[i]) && IsCity(bs'[j]))
      ensures !(bs'[i].isRoad && bs'[j].isRoad)
      ensures !(IsOther(bs'[i]) && IsOther(bs'[j]))
    {
      if j == |bs| {
        assert bs'[i] in bs && OnCell(bs'[i], b.pos.row, b.pos.col);
      }
    }
  }

  /** The terrain check never looks at `air_positioned`, and a building with
      none of the other four flags set fails it whatever the tile. */
  lemma TerrainIgnoresAir(t: BuildingTemplate, tile: Option<Cells.TileTemplate>, air: Option<bool>)
    requires Positioned(t) ==> tile.Some?
    ensures TerrainMatches(t.(airPositioned := air), tile) == TerrainMatches(t, tile)
    ensures !Positioned(t) ==> !TerrainMatches(t, tile)
  {
  }

  // ---------------------------------------------------------------------
  // placeStartingCity
  // ---------------------------------------------------------------------

  /** The core city template, snapshotted: a land-only, non-road, mining
      building with no cost, 100 hp and defense 10. Through placeBuilding it
      could stand exactly on land-passable tiles. */
  lemma StartingCityTemplate(pid: int, row: int, col: int, freshId: int)
    ensures var c := NewBuilding(CityTemplate.typeId, pid, row, col, CityTemplate, freshId);
            && IsCity(c) && c.name == "City" && c.texture == Some("")
            && c.landPositioned && !c.airPositioned && !c.overwaterPositioned && !c.underwaterPositioned
            && c.cost == [] && c.buildTime == 1 && c.attack == 0 && c.defense == 10
            && c.hp == 100 && c.maxHp == 100 && c.givesAttackBonus == 0 && c.givesDefenseBonus == 1
            && c.canBuild == [] && c.canResearch == [] && c.requiresResearch == [] && c.converts == []
            && TruthyMine(c.canMine) && !c.isRoad && c.consumesActionOverride == 0
            && c.alreadyBuiltCostModifier == 1.5
    ensures Positioned(CityTemplate)
    ensures forall tile :: TerrainMatches(CityTemplate, Some(tile)) <==> TruthyBool(tile.landPassable)
  {
  }

  /** A starting city is refused outside the setup phase, then on any
      occupied cell; otherwise one mining city of the current player is
      appended and the turn passes on, ending setup after the last player. */
  lemma PlaceStartingCityOutcome(s: GameState, row: int, col: int, freshId: int)
    ensures s.gamePhase != Setup ==> PlaceStartingCity(s, row, col, freshId) == Err(NotSetupPhase)
    ensures s.gamePhase == Setup && Occupied(s.buildings, row, col) ==>
              PlaceStartingCity(s, row, col, freshId) == Err(CellOccupied)
    ensures PlaceStartingCity(s, row, col, freshId).Ok? <==>
              s.gamePhase == Setup && !Occupied(s.buildings, row, col)
    ensures PlaceStartingCity(s, row, col, freshId).Ok? ==>
              var s' := PlaceStartingCity(s, row, col, freshId).state;
              var c := s'.buildings[|s.buildings|];
              && |s'.buildings| == |s.buildings| + 1
              && s'.buildings[..|s.buildings|] == s.buildings
              && IsCity(c) && !c.isRoad && TruthyMine(c.canMine)
              && c.playerId == s.currentPlayerId && c.pos == GridPosition(row, col)
              && c.hp == 100 && c.defense == 10
              && (s.currentPlayerId + 1 < |s.players| ==>
                    s'.gamePhase == Setup && s'.currentPlayerId == s.currentPlayerId + 1)
              && (s.currentPlayerId + 1 >= |s.players| ==>
                    s'.gamePhase == Planning && s'.currentPlayerId == 0)
              && s'.players == s.players && s'.turn == s.turn && s'.gameMap == s.gameMap
  {
  }

  lemma PlaceStartingCityKeepsStacking(s: GameState, row: int, col: int, freshId: int)
    requires StackingOk(s.buildings)
    requires PlaceStartingCity(s, row, col, freshId).Ok?
    ensures StackingOk(PlaceStartingCity(s, row, col, freshId).state.buildings)
  {
    var c := NewBuilding(CityTemplate.typeId, s.currentPlayerId, row, col, CityTemplate, freshId);
    AppendKeepsStacking(s.buildings, c);
  }

  /** Starting cities placed one after another, stopping at the first refusal. */
  function SetupRun(s: GameState, cells: seq<GridPosition>, ids: seq<int>): ActionResult
    requires |ids| == |cells|
    decreases |cells|
  {
    if |cells| == 0 then Ok(s)
    else match PlaceStartingCity(s, cells[0].row, cells[0].col, ids[0])
      case Err(e) => Err(e)
      case Ok(s') => SetupRun(s', cells[1..], ids[1..])
  }

  /** The k-th city from `base` on is a city of player `first + k` on `cells[k]`. */
  predicate CityInTurn(bs: seq<Building>, base: nat, first: int, cells: seq<GridPosition>, k: int)
    requires base + |cells| <= |bs| && 0 <= k < |cells|
  {
      && IsCity(bs[base + k]) && bs[base + k].playerId == first + k && bs[base + k].pos == cells[k]
  }

  predicate CitiesInTurn(bs: seq<Building>, base: nat, first: int, cells: seq<GridPosition>)
    requires base + |cells| <= |bs|
  {
    forall k :: 0 <= k < |cells| ==> CityInTurn(bs, base, first, cells, k)
  }

  /** The setup round: from player c on, each remaining player in turn places
      one city on a free cell; the k-th of them belongs to player c + k, and
      after the last one the game is in the planning phase with player 0 to move. */
  lemma {:induction false} SetupRound(s: GameState, cells: seq<GridPosition>, ids: seq<int>)
    requires |ids| == |cells| >= 1
    requires s.gamePhase == Setup && s.currentPlayerId + |cells| == |s.players|
    requires forall i, j :: 0 <= i < j < |cells| ==> cells[i] != cells[j]
    requires forall k :: 0 <= k < |cells| ==> !Occupied(s.buildings, cells[k].row, cells[k].col)
    ensures SetupRun(s, cells, ids).Ok?
    ensures var t := SetupRun(s, cells, ids).state;
            && t.gamePhase == Planning && t.currentPlayerId == 0
            && |t.buildings| == |s.buildings| + |cells|
            && t.buildings[..|s.buildings|] == s.buildings
            && CitiesInTurn(t.buildings, |s.buildings|, s.currentPlayerId, cells)
    decreases |cells|
  {
    PlaceStartingCityOutcome(s, cells[0].row, cells[0].col, ids[0]);
    var s' := PlaceStartingCity(s, cells[0].row, cells[0].col, ids[0]).state;
    if |cells| > 1 {
      var rest := cells[1..];
      forall k | 0 <= k < |rest| ensures !Occupied(s'.buildings, rest[k].row, rest[k].col) {
        assert rest[k] == cells[k + 1] && cells[k + 1] != cells[0];
        forall b | b in s'.buildings ensures !OnCell(b, rest[k].row, rest[k].col) {
          if b !in s.buildings {
            assert b == s'.buildings[|s.buildings|];
          }
        }
      }
      SetupRound(s', rest, ids[1..]);
      var t := SetupRun(s', rest, ids[1..]).state;
      assert SetupRun(s, cells, ids) == SetupRun(s', rest, ids[1..]);
      assert t.buildings[..|s'.buildings|] == s'.buildings;
      forall k | 0 <= k < |cells|
        ensures CityInTurn(t.buildings, |s.buildings|, s.currentPlayerId, cells, k)
      {
        if k > 0 {
          assert CityInTurn(t.buildings, |s'.buildings|, s'.currentPlayerId, rest, k - 1);
        }
        if k == 0 {
          assert t.buildings[|s.buildings|] == t.buildings[..|s'.buildings|][|s.buildings|];
        } else {
          assert |s.buildings| + k == |s'.buildings| + (k - 1);
          assert rest[k - 1] == cells[k];
        }
      }
      assert t.buildings[..|s.buildings|] == t.buildings[..|s'.buildings|][..|s.buildings|];
      assert SetupRun(s, cells, ids).state == t;
      assert t.gamePhase == Planning && t.currentPlayerId == 0;
      assert |t.buildings| == |s.buildings| + |cells|;
    } else {
      assert SetupRun(s, cells, ids) == SetupRun(s', cells[1..], ids[1..]) == Ok(s');
    }
  }
}
