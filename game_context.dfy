/** The reducer of the game context: each action is replayed on a fresh
    engine loaded with the current state; an engine error is reported and
    leaves the state as it was. */
module GameContext {
  import opened Js
  import opened Rules
  import opened Engine
  import Placement
  import Turns

  datatype Action =
    | PlaceStartingCityAction(row: int, col: int)
    | PlaceBuildingAction(buildingTypeId: string, row: int, col: int)
    | EndTurnAction
    | SwitchPlayerAction
    | OtherAction(actionType: string)

  /** The context's state: the engine snapshot plus the unchanging catalogs. */
  datatype AppState = AppState(game: GameState, staticData: Catalogs)

  /** The next state and the error notification sent, if any. */
  datatype Reduction = Reduction(next: AppState, notified: Option<EngineError>)

  /** What the engine dereferences for each action. */
  ghost predicate ActionDefined(st: AppState, a: Action) {
    var g := st.game;
    match a
    case PlaceBuildingAction(typeId, row, col) =>
      PlacementDefined(g, st.staticData, g.currentPlayerId, typeId, row, col)
    case EndTurnAction => EndTurnDefined(g)
    case SwitchPlayerAction => g.currentPlayerId < |g.players| && SomeUnfinished(g.players)
    case _ => true
  }

  function FromResult(st: AppState, r: ActionResult): Reduction {
    match r
    case Err(e) => Reduction(st, Some(e))
    case Ok(g) => Reduction(AppState(g, st.staticData), None)
  }

  /** gameReducer as a function of state and action. */
  function Reduce(st: AppState, a: Action, freshId: int, rolls: (int, string) -> int): (r: Reduction)
    requires ActionDefined(st, a)
    // the catalogs never change, and a notified error leaves the state as it was
    ensures r.next.staticData == st.staticData
    ensures r.notified.Some? ==> r.next == st
  {
    var g := st.game;
    match a
    case PlaceStartingCityAction(row, col) => FromResult(st, Rules.PlaceStartingCity(g, row, col, freshId))
    case PlaceBuildingAction(typeId, row, col) =>
      FromResult(st, Rules.PlaceBuilding(g, st.staticData, g.currentPlayerId, typeId, row, col, freshId))
    case EndTurnAction => Reduction(AppState(Rules.EndTurnForCurrentPlayer(g, rolls), st.staticData), None)
    case SwitchPlayerAction => Reduction(AppState(Rules.SwitchToNextPlayer(g), st.staticData), None)
    case OtherAction(_) => Reduction(st, None)
  }

  /** gameReducer: load a new engine with the state, run the action on it. */
  method GameReducer(st: AppState, a: Action, freshId: int, rolls: (int, string) -> int)
    returns (next: AppState, notified: Option<EngineError>)
    requires ActionDefined(st, a)
    ensures Reduction(next, notified) == Reduce(st, a, freshId, rolls)
  {
    var g := st.game;
    var settings := seq(|g.players|, i requires 0 <= i < |g.players| => PlayerSettings(g.players[i].id, g.players[i].name));
    var colors := seq(|g.players|, i requires 0 <= i < |g.players| => g.players[i].color);
    var engine := new GameEngine(g.gameMap, settings, st.staticData, colors);
    engine.units := g.units;
    engine.buildings := g.buildings;
    engine.turn := g.turn;
    engine.currentPlayerId := g.currentPlayerId;
    engine.gamePhase := g.gamePhase;
    engine.players := g.players;
    assert engine.State() == g;

    match a
    case PlaceStartingCityAction(row, col) =>
      var r := engine.PlaceStartingCity(row, col, freshId);
      if r.Err? {
        return st, Some(r.error);
      }
      return AppState(r.state, st.staticData), None;
    case PlaceBuildingAction(typeId, row, col) =>
      var r := engine.PlaceBuilding(g.currentPlayerId, typeId, row, col, freshId);
      if r.Err? {
        return st, Some(r.error);
      }
      return AppState(r.state, st.staticData), None;
    case EndTurnAction =>
      var s' := engine.EndTurnForCurrentPlayer(rolls);
      return AppState(s', st.staticData), None;
    case SwitchPlayerAction =>
      var s' := engine.SwitchToNextPlayer();
      return AppState(s', st.staticData), None;
    case OtherAction(_) =>
      return st, None;
  }

  /** Unknown actions and refused ones leave the state as it was; only the
      two placements can be refused; the catalogs never change. */
  lemma ReduceOutcome(st: AppState, a: Action, freshId: int, rolls: (int, string) -> int)
    requires ActionDefined(st, a)
    ensures var red := Reduce(st, a, freshId, rolls);
            && red.next.staticData == st.staticData
            && (red.notified.Some? ==> red.next == st)
            && (a.OtherAction? ==> red == Reduction(st, None))
            && (red.notified.Some? ==> a.PlaceStartingCityAction? || a.PlaceBuildingAction?)
            && (a.PlaceBuildingAction? ==>
                  var err := CheckPlacement(st.game, st.staticData, st.game.currentPlayerId,
                                            a.buildingTypeId, a.row, a.col);
                  red.notified == err)
  {
  }

  /** Every template's cost names each resource at most once. */
  predicate CostsDistinct(cat: Catalogs) {
    forall t :: t in cat.buildings && t.cost.Some? ==> DistinctCostIds(t.cost.value)
  }

  /** Every building in play is a city or of a type the catalog lists. */
  predicate KnownBuildingTypes(st: AppState) {
    forall b :: b in st.game.buildings ==> IsCity(b) || BuildingTemplateOf(st.staticData.buildings, b.typeId).Some?
  }

  /** What holds of the context's state between actions. */
  predicate GameInvariant(st: AppState) {
    && WellFormed(st.game)
    && StackingOk(st.game.buildings)
    && (forall i :: 0 <= i < |st.game.players| ==> NonNegative(st.game.players[i].resources))
    && KnownBuildingTypes(st)
  }

  /** A game fresh from the engine constructor satisfies the invariant. */
  lemma InitialStateInvariant(m: GameMap, settings: seq<PlayerSettings>, cat: Catalogs, colors: seq<string>)
    requires |colors| == |settings| >= 1
    requires forall i :: 0 <= i < |settings| ==> settings[i].id == i
    ensures GameInvariant(AppState(InitialState(m, settings, cat.resources, colors), cat))
  {
    InitialStateWellFormed(m, settings, cat.resources, colors);
  }

  /** Every action keeps the invariant: player ids at their positions, a
      player to move who is one of them, some player who has not finished
      (not necessarily the one to move, see MoverMayHaveFinished), at most
      one city, road and other building per cell, no negative holding, and
      only buildings of known types. */
  lemma ReducerKeepsInvariant(st: AppState, a: Action, freshId: int, rolls: (int, string) -> int)
    requires GameInvariant(st) && CostsDistinct(st.staticData) && RollsInRange(rolls)
    requires ActionDefined(st, a)
    ensures GameInvariant(Reduce(st, a, freshId, rolls).next)
  {
    match a
    case PlaceStartingCityAction(row, col) => StartingCityKeepsInvariant(st, row, col, freshId);
    case PlaceBuildingAction(typeId, row, col) => BuildingKeepsInvariant(st, typeId, row, col, freshId);
    case EndTurnAction => EndTurnKeepsInvariant(st, rolls);
    case SwitchPlayerAction =>
    case OtherAction(_) =>
  }

  /** The invariant cannot promise that the player to move is still to
      finish: with two players in setup, ending player 0's turn passes to
      player 1, whose starting city then ends setup with player 0 to move
      although player 0 has finished. */
  lemma MoverMayHaveFinished(st: AppState, row: int, col: int, freshId: int, rolls: (int, string) -> int)
    requires GameInvariant(st) && CostsDistinct(st.staticData) && RollsInRange(rolls)
    requires |st.game.players| == 2 && st.game.gamePhase == Setup && st.game.currentPlayerId == 0
    requires !st.game.players[0].isTurnFinished && !st.game.players[1].isTurnFinished
    requires !Occupied(st.game.buildings, row, col)
    ensures var st1 := Reduce(st, EndTurnAction, freshId, rolls).next;
            var st2 := Reduce(st1, PlaceStartingCityAction(row, col), freshId, rolls).next;
            && st1.game.currentPlayerId == 1 && st1.game.gamePhase == Setup
            && st2.game.gamePhase == Planning && st2.game.currentPlayerId == 0
            && st2.game.players[0].isTurnFinished
            && GameInvariant(st2)
  {
    var g := st.game;
    assert !AllFinished(MarkFinished(g.players, 0)) by {
      assert !MarkFinished(g.players, 0)[1].isTurnFinished;
    }
    Turns.EndTurnOutcome(g, rolls);
    ReducerKeepsInvariant(st, EndTurnAction, freshId, rolls);
    var st1 := Reduce(st, EndTurnAction, freshId, rolls).next;
    Placement.PlaceStartingCityOutcome(st1.game, row, col, freshId);
    ReducerKeepsInvariant(st1, PlaceStartingCityAction(row, col), freshId, rolls);
  }

  lemma StartingCityKeepsInvariant(st: AppState, row: int, col: int, freshId: int)
    requires GameInvariant(st)
    ensures GameInvariant(FromResult(st, Rules.PlaceStartingCity(st.game, row, col, freshId)).next)
  {
    var g := st.game;
    Placement.PlaceStartingCityOutcome(g, row, col, freshId);
    if Rules.PlaceStartingCity(g, row, col, freshId).Ok? {
      Placement.PlaceStartingCityKeepsStacking(g, row, col, freshId);
      var g' := Rules.PlaceStartingCity(g, row, col, freshId).state;
      assert g'.buildings == g.buildings + [g'.buildings[|g.buildings|]];
      assert KnownBuildingTypes(AppState(g', st.staticData));
    }
  }

  lemma BuildingKeepsInvariant(st: AppState, typeId: string, row: int, col: int, freshId: int)
    requires GameInvariant(st) && CostsDistinct(st.staticData)
    requires PlacementDefined(st.game, st.staticData, st.game.currentPlayerId, typeId, row, col)
    ensures GameInvariant(FromResult(st, Rules.PlaceBuilding(st.game, st.staticData, st.game.currentPlayerId,
                                                              typeId, row, col, freshId)).next)
  {
    var g := st.game;
    var pid := g.currentPlayerId;
    if Rules.PlaceBuilding(g, st.staticData, pid, typeId, row, col, freshId).Ok? {
      Placement.PlaceBuildingKeepsStacking(g, st.staticData, pid, typeId, row, col, freshId);
      Placement.PlaceBuildingKeepsResourcesNonNegative(g, st.staticData, pid, typeId, row, col, freshId);
      PlaceBuildingKeepsWellFormed(g, st.staticData, typeId, row, col, freshId);
      var g' := Rules.PlaceBuilding(g, st.staticData, pid, typeId, row, col, freshId).state;
      assert g'.buildings == g.buildings + [g'.buildings[|g.buildings|]];
      assert KnownBuildingTypes(AppState(g', st.staticData));
    }
  }

  lemma PlaceBuildingKeepsWellFormed(g: GameState, cat: Catalogs, typeId: string, row: int, col: int, freshId: int)
    requires WellFormed(g)
    requires PlacementDefined(g, cat, g.currentPlayerId, typeId, row, col)
    requires Rules.PlaceBuilding(g, cat, g.currentPlayerId, typeId, row, col, freshId).Ok?
    ensures WellFormed(Rules.PlaceBuilding(g, cat, g.currentPlayerId, typeId, row, col, freshId).state)
  {
    var pid := g.currentPlayerId;
    Placement.PlaceBuildingEffect(g, cat, pid, typeId, row, col, freshId);
    var g' := Rules.PlaceBuilding(g, cat, pid, typeId, row, col, freshId).state;
    var u :| 0 <= u < |g.players| && !g.players[u].isTurnFinished;
    assert !g'.players[u].isTurnFinished;
  }

  lemma EndTurnKeepsInvariant(st: AppState, rolls: (int, string) -> int)
    requires GameInvariant(st) && RollsInRange(rolls)
    ensures GameInvariant(AppState(Rules.EndTurnForCurrentPlayer(st.game, rolls), st.staticData))
  {
    var g := st.game;
    Turns.EndTurnKeepsWellFormed(g, rolls);
    Turns.EndTurnOutcome(g, rolls);
    var marked := MarkFinished(g.players, g.currentPlayerId);
    if AllFinished(marked) {
      Turns.ResolveKeepsNonNegative(g.(players := marked, gamePhase := Executing), rolls);
    }
  }
}
