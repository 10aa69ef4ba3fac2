/** The game engine object: the dynamic state of a game and the actions that
    change it. Each action is proved to leave the engine in exactly the state
    the matching function of module Rules describes. */
module Engine {
  import opened Js
  import opened Buildings
  import Units
  import Resources
  import opened Rules

  /** One entry of the game settings' player list. */
  datatype PlayerSettings = PlayerSettings(id: int, name: string)

  /** Every resource type of the set, with quantity 0. */
  function InitialResources(rs: seq<Resources.ResourceTemplate>): (m: map<string, int>)
    ensures forall t :: t in rs ==> t.typeId in m
    ensures forall r :: r in m ==> exists t :: t in rs && t.typeId == r
    ensures forall r :: r in m ==> m[r] == 0
  {
    map t | t in rs :: t.typeId := 0
  }

  /** initializePlayers: the settings' players, each with its color, an
      unfinished turn, zero of every resource and no research. */
  function InitializePlayers(settings: seq<PlayerSettings>, rs: seq<Resources.ResourceTemplate>,
                             colors: seq<string>): (ps: seq<Player>)
    requires |colors| == |settings|
    ensures |ps| == |settings|
    ensures forall i :: 0 <= i < |ps| ==>
              && ps[i].id == settings[i].id && ps[i].name == settings[i].name
              && ps[i].color == colors[i]
              && !ps[i].isTurnFinished
              && ps[i].resources == InitialResources(rs)
              && ps[i].completedResearch == []
  {
    seq(|settings|, i requires 0 <= i < |settings| =>
      Player(settings[i].id, settings[i].name, colors[i], false, InitialResources(rs), []))
  }

  /** The state every game starts in: turn 1, the setup phase, player 0 to
      place a city, no units and no buildings. */
  function InitialState(m: GameMap, settings: seq<PlayerSettings>, rs: seq<Resources.ResourceTemplate>,
                        colors: seq<string>): (r: GameState)
    requires |colors| == |settings|
    // one player per setting, none finished, nothing on the map yet
    ensures |r.players| == |settings|
    ensures forall i :: 0 <= i < |settings| ==> r.players[i].id == settings[i].id && !r.players[i].isTurnFinished
    // the players as initializePlayers builds them: zero of every resource, no research
    ensures r.players == InitializePlayers(settings, rs, colors)
    ensures r.buildings == [] && r.units == [] && r.gameMap == m
    ensures r.turn == 1 && r.currentPlayerId == 0 && r.gamePhase == Setup
  {
    GameState(m, InitializePlayers(settings, rs, colors), [], [], 1, 0, Setup)
  }

  /** A new game whose players are numbered 0 to n-1 (n >= 1) satisfies the
      invariants every action keeps. */
  lemma InitialStateWellFormed(m: GameMap, settings: seq<PlayerSettings>, rs: seq<Resources.ResourceTemplate>,
                               colors: seq<string>)
    requires |colors| == |settings| >= 1
    requires forall i :: 0 <= i < |settings| ==> settings[i].id == i
    ensures var s := InitialState(m, settings, rs, colors);
            && WellFormed(s) && StackingOk(s.buildings) && s.gamePhase == Setup
            && (forall i :: 0 <= i < |s.players| ==> NonNegative(s.players[i].resources))
  {
    var ps := InitializePlayers(settings, rs, colors);
    assert !ps[0].isTurnFinished;
  }

  /** The sources a player's mining buildings yield agree with the multiset
      of mined resource ids: a key per id mined, counting its listings. */
  ghost predicate Agrees(sources: map<string, int>, mined: multiset<string>) {
    && (forall r :: r in sources <==> mined[r] > 0)
    && (forall r :: r in sources ==> sources[r] == mined[r])
  }

  /** resourceSources of resolveTurn: one count per resource id listed on a
      cell under a mining building of `pid`. */
  method CountMinedResources(bs: seq<Building>, m: GameMap, pid: int) returns (sources: map<string, int>)
    requires forall k :: 0 <= k < |bs| && Mines(bs[k], pid) ==> InGrid(m, bs[k].pos.row, bs[k].pos.col)
    ensures forall r :: r in sources <==> Mined(bs, m, pid)[r] > 0
    ensures forall r :: r in sources ==> sources[r] == Mined(bs, m, pid)[r]
  {
    sources := map[];
    var k := 0;
    while k < |bs|
      invariant 0 <= k <= |bs|
      invariant Agrees(sources, Mined(bs[..k], m, pid))
    {
      var b := bs[k];
      ghost var before := Mined(bs[..k], m, pid);
      MinedStep(bs, m, pid, k);
      if b.playerId == pid && TruthyMine(b.canMine) {
        var cellResources := m.grid[b.pos.row][b.pos.col].resources.GetOr([]);
        assert cellResources == CellResources(m, b.pos);
        sources := CountListings(sources, cellResources, before);
      } else {
        assert Mined(bs[..k + 1], m, pid) == before;
      }
      k := k + 1;
    }
    assert bs[..k] == bs;
  }

  /** The inner loop of resourceSources: one more count per listed id. */
  method CountListings(sources: map<string, int>, ids: seq<string>, ghost before: multiset<string>)
    returns (counted: map<string, int>)
    requires Agrees(sources, before)
    ensures Agrees(counted, before + multiset(ids))
  {
    counted := sources;
    var c := 0;
    while c < |ids|
      invariant 0 <= c <= |ids|
      invariant Agrees(counted, before + multiset(ids[..c]))
    {
      CountOneMore(counted, before, ids, c);
      counted := counted[ids[c] := (if ids[c] in counted then counted[ids[c]] else 0) + 1];
      c := c + 1;
    }
    assert ids[..c] == ids;
  }

  /** One more building considered: its cell's listings join the count if it mines. */
  lemma MinedStep(bs: seq<Building>, m: GameMap, pid: int, k: nat)
    requires k < |bs|
    ensures Mined(bs[..k + 1], m, pid)
            == Mined(bs[..k], m, pid)
               + (if Mines(bs[k], pid) then multiset(CellResources(m, bs[k].pos)) else multiset{})
  {
    assert bs[..k + 1][..k] == bs[..k];
  }

  /** One more listing counted: its id's count goes up by one. */
  lemma CountOneMore(sources: map<string, int>, before: multiset<string>, ids: seq<string>, c: nat)
    requires c < |ids| && Agrees(sources, before + multiset(ids[..c]))
    ensures Agrees(sources[ids[c] := (if ids[c] in sources then sources[ids[c]] else 0) + 1],
                   before + multiset(ids[..c + 1]))
  {
    assert ids[..c + 1] == ids[..c] + [ids[c]];
  }

  /** The gains of resolveTurn: each source id gains its count times one
      roll for (player position, id); every other holding stays. */
  method AddYields(res: map<string, int>, sources: map<string, int>, rolls: (int, string) -> int, i: int)
    returns (newRes: map<string, int>)
    requires forall r :: r in sources ==> r in res
    ensures newRes.Keys == res.Keys
    ensures forall r :: r in res && r !in sources ==> newRes[r] == res[r]
    ensures forall r :: r in sources ==> newRes[r] == res[r] + sources[r] * rolls(i, r)
  {
    newRes := res;
    var remaining := sources.Keys;
    while remaining != {}
      invariant remaining <= sources.Keys
      invariant newRes.Keys == res.Keys
      invariant forall r :: r in res && (r !in sources || r in remaining) ==> newRes[r] == res[r]
      invariant forall r :: r in sources && r !in remaining ==> newRes[r] == res[r] + sources[r] * rolls(i, r)
      decreases |remaining|
    {
      var id :| id in remaining;
      newRes := newRes[id := newRes[id] + sources[id] * rolls(i, id)];
      remaining := remaining - {id};
    }
  }

  /** A player owning no mining building, let alone no building, mines nothing. */
  lemma {:induction false} NothingMinedWithoutBuildings(bs: seq<Building>, m: GameMap, pid: int)
    requires NoMiner(bs, pid)
    ensures Mined(bs, m, pid) == multiset{}
    decreases |bs|
  {
    if |bs| > 0 {
      NothingMinedWithoutBuildings(bs[..|bs| - 1], m, pid);
    }
  }

  lemma ModStep(a: nat, n: nat)
    requires 0 < n && a + 1 < 2 * n
    ensures (a % n + 1) % n == (a + 1) % n
  {
    if a + 1 < n {
      ModBelow(a, n);
      ModBelow(a + 1, n);
    } else if a + 1 == n {
      ModBelow(a, n);
      ModAbove(a + 1, n);
      ModAbove(n, n);
    } else {
      ModAbove(a, n);
      ModAbove(a + 1, n);
      ModBelow(a - n + 1, n);
    }
  }

  lemma ModBelow(x: nat, n: nat)
    requires x < n
    ensures x % n == x
  {
  }

  lemma ModAbove(x: nat, n: nat)
    requires n <= x < 2 * n
    ensures x % n == x - n
  {
    assert x == n + (x - n);
  }

  /** The affordability loop of placeBuilding: the first cost line the
      holdings do not cover. */
  method FindUnaffordable(res: map<string, int>, cost: seq<CostLine>) returns (r: Option<nat>)
    ensures r == FirstUnaffordable(res, cost)
  {
    var i := 0;
    while i < |cost|
      invariant 0 <= i <= |cost|
      invariant forall j :: 0 <= j < i ==> !Unaffordable(res, cost[j])
    {
      if cost[i].resourceTypeId in res && res[cost[i].resourceTypeId] < cost[i].amount {
        return Some(i);
      }
      i := i + 1;
    }
    return None;
  }

  /** The deduction loop of placeBuilding: every cost line subtracted in turn. */
  method DeductCosts(res: map<string, int>, cost: seq<CostLine>) returns (newRes: map<string, int>)
    requires KnownCosts(res, cost)
    ensures newRes == Deducted(res, cost)
  {
    newRes := res;
    var i := 0;
    while i < |cost|
      invariant 0 <= i <= |cost|
      invariant newRes == map r | r in res :: res[r] - CostOf(cost[..i], r)
    {
      var id := cost[i].resourceTypeId;
      assert cost[..i + 1][..i] == cost[..i];
      newRes := newRes[id := newRes[id] - cost[i].amount];
      i := i + 1;
    }
    assert cost[..i] == cost;
  }

  /** The scan of switchToNextPlayer: from the player after `cur`, step
      forward cyclically while the player there has finished. */
  method FindNextUnfinished(ps: seq<Player>, cur: nat) returns (next: nat)
    requires cur < |ps| && SomeUnfinished(ps)
    ensures IsNextUnfinished(ps, cur, next)
    ensures next == NextUnfinished(ps, cur)
  {
    var n := |ps|;
    next := (cur + 1) % n;
    ghost var k := 1;
    while ps[next].isTurnFinished
      invariant 1 <= k <= n
      invariant next == (cur + k) % n
      invariant forall j: nat :: 1 <= j < k ==> FinishedAfter(ps, cur, j)
      decreases n - k
    {
      assert FinishedAfter(ps, cur, k);
      assert k < n by {
        var u :| 0 <= u < n && !ps[u].isTurnFinished;
        OffsetLands(cur, u, n);
        var seenAt := FinishedAfter(ps, cur, Offset(cur, u, n));
      }
      ModStep(cur + k, n);
      next := (next + 1) % n;
      k := k + 1;
    }
    OffsetOfStep(cur, k, n);
    assert IsNextUnfinished(ps, cur, next);
    NextUnfinishedUnique(ps, cur, next, NextUnfinished(ps, cur));
  }

  /** The per-player step of resolveTurn: a player without buildings is
      kept as is, any other gains the yield of its mining buildings. */
  method ResolvePlayer(p: Player, bs: seq<Building>, m: GameMap, rolls: (int, string) -> int, i: int)
    returns (q: Player)
    requires forall k :: 0 <= k < |bs| && Mines(bs[k], p.id) ==> InGrid(m, bs[k].pos.row, bs[k].pos.col)
    requires forall r :: Mined(bs, m, p.id)[r] > 0 ==> r in p.resources
    ensures q == p.(resources := Yield(p.resources, bs, m, p.id, rolls, i))
  {
    var owned := exists k :: 0 <= k < |bs| && bs[k].playerId == p.id;
    if !owned {
      NothingMinedWithoutBuildings(bs, m, p.id);
      YieldOfNothing(p.resources, bs, m, p.id, rolls, i);
      q := p;
    } else {
      var sources := CountMinedResources(bs, m, p.id);
      var newResources := AddYields(p.resources, sources, rolls, i);
      YieldOfSources(p.resources, sources, newResources, bs, m, p.id, rolls, i);
      q := p.(resources := newResources);
    }
  }

  lemma YieldOfNothing(res: map<string, int>, bs: seq<Building>, m: GameMap, pid: int,
                       rolls: (int, string) -> int, i: int)
    requires Mined(bs, m, pid) == multiset{}
    ensures Yield(res, bs, m, pid, rolls, i) == res
  {
  }

  /** Adding count × roll for every source is the reference yield. */
  lemma YieldOfSources(res: map<string, int>, sources: map<string, int>, newRes: map<string, int>,
                       bs: seq<Building>, m: GameMap, pid: int, rolls: (int, string) -> int, i: int)
    requires forall r :: r in sources <==> Mined(bs, m, pid)[r] > 0
    requires forall r :: r in sources ==> sources[r] == Mined(bs, m, pid)[r]
    requires forall r :: r in sources ==> r in res
    requires newRes.Keys == res.Keys
    requires forall r :: r in res && r !in sources ==> newRes[r] == res[r]
    requires forall r :: r in sources ==> newRes[r] == res[r] + sources[r] * rolls(i, r)
    ensures newRes == Yield(res, bs, m, pid, rolls, i)
  {
    var y := Yield(res, bs, m, pid, rolls, i);
    forall r | r in res ensures newRes[r] == y[r] {
      if r !in sources {
        assert Mined(bs, m, pid)[r] == 0;
      }
    }
  }

  class GameEngine {
    const catalogs: Catalogs
    var gameMap: GameMap
    var players: seq<Player>
    var units: seq<Units.Unit>
    var buildings: seq<Building>
    var turn: int
    var currentPlayerId: nat
    var gamePhase: Phase

    /** getState */
    function State(): GameState
      reads this
    {
      GameState(gameMap, players, units, buildings, turn, currentPlayerId, gamePhase)
    }

    constructor(m: GameMap, settings: seq<PlayerSettings>, catalogs: Catalogs, colors: seq<string>)
      requires |colors| == |settings|
      ensures this.catalogs == catalogs
      ensures State() == InitialState(m, settings, catalogs.resources, colors)
    {
      this.catalogs := catalogs;
      gameMap := m;
      players := InitializePlayers(settings, catalogs.resources, colors);
      units := [];
      buildings := [];
      turn := 1;
      currentPlayerId := 0;
      gamePhase := Setup;
    }

    /** placeBuilding: the checks, then the cost deducted and the building
        appended; a refusal changes nothing. */
    method PlaceBuilding(pid: int, typeId: string, row: int, col: int, freshId: int) returns (r: ActionResult)
      requires PlacementDefined(State(), catalogs, pid, typeId, row, col)
      modifies this
      ensures r == Rules.PlaceBuilding(old(State()), catalogs, pid, typeId, row, col, freshId)
      ensures r.Err? ==> State() == old(State())
      ensures r.Ok? ==> State() == r.state
    {
      var found := BuildingTemplateOf(catalogs.buildings, typeId);
      if found.None? {
        return Err(BuildingTypeNotFound);
      }
      var t := found.value;
      var cost := t.cost.value;
      if |cost| > 0 {
        // the loop reads the player's holdings only when there is a line to check
        var short := FindUnaffordable(players[pid].resources, cost);
        if short.Some? {
          return Err(NotEnoughResources(cost[short.value].amount, cost[short.value].resourceTypeId));
        }
      }

      var tile := TileNamed(catalogs.tiles, gameMap.grid[row][col].tile);
      if TruthyBool(t.isRoad) {
        if !NearFriendlyCityOrRoad(buildings, pid, row, col) {
          return Err(RoadNotAdjacent);
        }
      } else if typeId != "city" {
        if !OwnsBuildingOn(buildings, pid, row, col) {
          return Err(NotOwnerOfTile);
        }
      }
      if !TerrainMatches(t, tile) {
        return Err(TerrainMismatch);
      }
      if t.typeId == "city" && HasCity(buildings, row, col) {
        return Err(CityOnCity);
      }
      if TruthyBool(t.isRoad) && HasRoad(buildings, row, col) {
        return Err(RoadOnRoad);
      }
      if !TruthyBool(t.isRoad) && t.typeId != "city" && HasOther(buildings, row, col) {
        return Err(OneNonRoadPerTile);
      }

      var player := players[pid];
      var newResources := DeductCosts(player.resources, cost);
      players := players[pid := player.(resources := newResources)];
      buildings := buildings + [NewBuilding(typeId, pid, row, col, t, freshId)];
      r := Ok(State());
    }

    /** placeStartingCity */
    method PlaceStartingCity(row: int, col: int, freshId: int) returns (r: ActionResult)
      modifies this
      ensures r == Rules.PlaceStartingCity(old(State()), row, col, freshId)
      ensures r.Err? ==> State() == old(State())
      ensures r.Ok? ==> State() == r.state
    {
      if gamePhase != Setup {
        return Err(NotSetupPhase);
      }
      if Occupied(buildings, row, col) {
        return Err(CellOccupied);
      }
      var city := NewBuilding(CityTemplate.typeId, currentPlayerId, row, col, CityTemplate, freshId);
      buildings := buildings + [city];
      var next := currentPlayerId + 1;
      if next >= |players| {
        gamePhase := Planning;
        currentPlayerId := 0;
      } else {
        currentPlayerId := next;
      }
      r := Ok(State());
    }

    /** switchToNextPlayer; the source loops forever when everybody has finished. */
    method SwitchToNextPlayer() returns (r: GameState)
      requires currentPlayerId < |players| && SomeUnfinished(players)
      modifies this
      ensures State() == Rules.SwitchToNextPlayer(old(State())) && r == State()
    {
      var next := FindNextUnfinished(players, currentPlayerId);
      currentPlayerId := next;
      r := State();
    }

    /** resolveTurn: every player gains from its mining buildings, turn flags
        are cleared, player 0 moves next, the turn counter advances. */
    method ResolveTurn(rolls: (int, string) -> int) returns (r: GameState)
      requires ResolveDefined(State())
      modifies this
      ensures State() == Rules.ResolveTurn(old(State()), rolls) && r == State()
    {
      var ps, bs, m := players, buildings, gameMap;
      var updated: seq<Player> := [];
      var i := 0;
      while i < |ps|
        invariant 0 <= i <= |ps| && |updated| == i
        invariant State() == old(State())
        invariant forall j :: 0 <= j < i ==>
                    updated[j] == ps[j].(resources := Yield(ps[j].resources, bs, m, ps[j].id, rolls, j))
      {
        var q := ResolvePlayer(ps[i], bs, m, rolls, i);
        updated := updated + [q];
        i := i + 1;
      }
      players := seq(|updated|, j requires 0 <= j < |updated| => updated[j].(isTurnFinished := false));
      assert players == Rules.ResolveTurn(old(State()), rolls).players;
      currentPlayerId := 0;
      turn := turn + 1;
      gamePhase := Planning;
      r := State();
    }

    /** endTurnForCurrentPlayer: mark the mover finished, then resolve the
        turn if everybody is, or hand over to the next unfinished player. */
    method EndTurnForCurrentPlayer(rolls: (int, string) -> int) returns (r: GameState)
      requires EndTurnDefined(State())
      modifies this
      ensures State() == Rules.EndTurnForCurrentPlayer(old(State()), rolls) && r == State()
    {
      ghost var s := State();
      players := MarkFinished(players, currentPlayerId);
      if AllFinished(players) {
        gamePhase := Executing;
        assert ResolveDefined(State()) by {
          assert forall i :: 0 <= i < |players| ==>
                   players[i].id == s.players[i].id && players[i].resources == s.players[i].resources;
        }
        r := ResolveTurn(rolls);
      } else {
        assert exists i :: 0 <= i < |players| && !players[i].isTurnFinished;
        r := SwitchToNextPlayer();
      }
    }
  }
}
