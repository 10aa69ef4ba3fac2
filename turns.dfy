/** What endTurnForCurrentPlayer and resolveTurn guarantee over a turn. */
module Turns {
  import opened Js
  import opened Buildings
  import opened Rules

  /** Ending the mover's turn either resolves the turn, when that was the
      last unfinished player, or hands over to the next unfinished player
      with everything else as it was. */
  lemma EndTurnOutcome(s: GameState, rolls: (int, string) -> int)
    requires s.currentPlayerId < |s.players|
    ensures var marked := MarkFinished(s.players, s.currentPlayerId);
            var t := EndTurnForCurrentPlayer(s, rolls);
            && (AllFinished(marked) ==>
                  && t.turn == s.turn + 1 && t.currentPlayerId == 0 && t.gamePhase == Planning
                  && (forall i :: 0 <= i < |t.players| ==> !t.players[i].isTurnFinished))
            && (!AllFinished(marked) ==>
                  && t.turn == s.turn && t.gamePhase == s.gamePhase
                  && t.players == marked && t.players[s.currentPlayerId].isTurnFinished
                  && IsNextUnfinished(marked, s.currentPlayerId, t.currentPlayerId))
            && t.buildings == s.buildings && t.units == s.units && t.gameMap == s.gameMap
  {
  }

  /** Rolls of at least 1 never take anything away: each holding gains
      between its number of sources and ten times that. */
  lemma ResolveTurnGains(s: GameState, rolls: (int, string) -> int)
    requires RollsInRange(rolls)
    ensures var t := ResolveTurn(s, rolls);
            && |t.players| == |s.players|
            && forall i, r :: 0 <= i < |s.players| && r in s.players[i].resources ==>
                 && r in t.players[i].resources
                 && var before, count := s.players[i].resources[r], Mined(s.buildings, s.gameMap, s.players[i].id)[r];
                    before + count <= t.players[i].resources[r] <= before + 10 * count
  {
    var t := ResolveTurn(s, rolls);
    forall i, r | 0 <= i < |s.players| && r in s.players[i].resources
      ensures var before, count := s.players[i].resources[r], Mined(s.buildings, s.gameMap, s.players[i].id)[r];
              before + count <= t.players[i].resources[r] <= before + 10 * count
    {
      var count := Mined(s.buildings, s.gameMap, s.players[i].id)[r];
      ScaledBetween(count, rolls(i, r));
    }
  }

  lemma ScaledBetween(count: nat, roll: int)
    requires 1 <= roll <= 10
    ensures count <= count * roll <= 10 * count
  {
  }

  /** Hence resolution keeps every holding non-negative. */
  lemma ResolveKeepsNonNegative(s: GameState, rolls: (int, string) -> int)
    requires RollsInRange(rolls)
    requires forall i :: 0 <= i < |s.players| ==> NonNegative(s.players[i].resources)
    ensures var t := ResolveTurn(s, rolls);
            forall i :: 0 <= i < |t.players| ==> NonNegative(t.players[i].resources)
  {
    ResolveTurnGains(s, rolls);
  }

  /** Resolution starts the next turn: flags cleared, player 0 to move, the
      planning phase, and only the holdings of the players changed. */
  lemma ResolveTurnResets(s: GameState, rolls: (int, string) -> int)
    ensures var t := ResolveTurn(s, rolls);
            && t.turn == s.turn + 1 && t.currentPlayerId == 0 && t.gamePhase == Planning
            && |t.players| == |s.players|
            && (forall i :: 0 <= i < |t.players| ==>
                  && !t.players[i].isTurnFinished
                  && t.players[i] == s.players[i].(resources := t.players[i].resources, isTurnFinished := false))
            && t.buildings == s.buildings && t.units == s.units && t.gameMap == s.gameMap
  {
  }

  /** A well-formed state stays well-formed across the end of a turn. */
  lemma EndTurnKeepsWellFormed(s: GameState, rolls: (int, string) -> int)
    requires WellFormed(s)
    ensures WellFormed(EndTurnForCurrentPlayer(s, rolls))
  {
    var t := EndTurnForCurrentPlayer(s, rolls);
    EndTurnOutcome(s, rolls);
    if AllFinished(MarkFinished(s.players, s.currentPlayerId)) {
      assert !t.players[0].isTurnFinished;
    } else {
      assert !t.players[t.currentPlayerId].isTurnFinished;
    }
  }

  // ---------------------------------------------------------------------
  // A whole round of turns
  // ---------------------------------------------------------------------

  /** k successive endTurnForCurrentPlayer calls. */
  function EndTurns(s: GameState, k: nat, rolls: (int, string) -> int): (t: GameState)
    requires s.currentPlayerId < |s.players|
    ensures |t.players| == |s.players| && t.currentPlayerId < |t.players|
    decreases k
  {
    if k == 0 then s else EndTurns(EndTurnForCurrentPlayer(s, rolls), k - 1, rolls)
  }

  /** The players once those at positions 0, 1, ..., k - 1 have each been
      marked finished in turn. */
  function FinishedBefore(ps: seq<Player>, k: nat): (r: seq<Player>)
    ensures |r| == |ps|
    decreases k
  {
    if k == 0 then ps else MarkFinished(FinishedBefore(ps, k - 1), k - 1)
  }

  /** Marking in turn sets the flags before position k and changes nothing else. */
  lemma {:induction false} FinishedBeforeAt(ps: seq<Player>, k: nat, i: int)
    requires 0 <= i < |ps|
    ensures FinishedBefore(ps, k)[i] == if i < k then ps[i].(isTurnFinished := true) else ps[i]
    decreases k
  {
    if k > 0 {
      FinishedBeforeAt(ps, k - 1, i);
    }
  }

  /** The state k turn ends into a round that began with player 0: players
      before position k have finished and player k moves. */
  function RoundAt(s: GameState, k: nat): GameState {
    s.(players := FinishedBefore(s.players, k), currentPlayerId := k)
  }

  predicate NoneFinished(ps: seq<Player>) {
    forall i :: 0 <= i < |ps| ==> !ps[i].isTurnFinished
  }

  /** Ending a turn that is not the last one just hands over. */
  lemma EndTurnHandsOver(s: GameState, rolls: (int, string) -> int)
    requires s.currentPlayerId < |s.players|
    requires !AllFinished(MarkFinished(s.players, s.currentPlayerId))
    ensures var marked := MarkFinished(s.players, s.currentPlayerId);
            EndTurnForCurrentPlayer(s, rolls)
              == s.(players := marked, currentPlayerId := NextUnfinished(marked, s.currentPlayerId))
  {
  }

  /** One turn end in the middle of a round: player j finishes, player j + 1 moves. */
  lemma EndTurnMidRound(s: GameState, prev: GameState, j: nat, rolls: (int, string) -> int)
    requires NoneFinished(s.players) && j + 1 < |s.players| && prev == RoundAt(s, j)
    ensures EndTurnForCurrentPlayer(prev, rolls) == RoundAt(s, j + 1)
  {
    var marked := MarkFinished(prev.players, j);
    assert marked == FinishedBefore(s.players, j + 1);
    FinishedBeforeAt(s.players, j + 1, j + 1);
    NextAfterIsSuccessor(marked, j);
    EndTurnHandsOver(prev, rolls);
  }

  /** An unfinished player right after `j` is the next to move. */
  lemma NextAfterIsSuccessor(ps: seq<Player>, j: nat)
    requires j + 1 < |ps| && !ps[j + 1].isTurnFinished
    ensures !AllFinished(ps) && NextUnfinished(ps, j) == j + 1
  {
    assert IsNextUnfinished(ps, j, j + 1);
    NextUnfinishedUnique(ps, j, j + 1, NextUnfinished(ps, j));
  }

  /** The last turn end of a round resolves the turn. */
  lemma EndTurnEndsRound(s: GameState, rolls: (int, string) -> int)
    requires 0 < |s.players|
    ensures var n := |s.players|;
            EndTurnForCurrentPlayer(RoundAt(s, n - 1), rolls)
              == ResolveTurn(s.(players := FinishedBefore(s.players, n), currentPlayerId := n - 1,
                                gamePhase := Executing), rolls)
  {
    var n := |s.players|;
    var marked := MarkFinished(RoundAt(s, n - 1).players, n - 1);
    assert marked == FinishedBefore(s.players, n);
    forall i | 0 <= i < n
      ensures marked[i].isTurnFinished
    {
      FinishedBeforeAt(s.players, n, i);
    }
  }

  /** From position j of a round, m more turn ends that stay inside the
      round move the round m positions on. */
  lemma {:induction false} EndTurnsWithinRound(s: GameState, t: GameState, j: nat, m: nat, k: nat,
                                               rolls: (int, string) -> int)
    requires NoneFinished(s.players) && k < |s.players| && j + m == k && 0 < m && t == RoundAt(s, j)
    ensures EndTurns(t, m, rolls) == RoundAt(s, k)
    decreases m
  {
    EndTurnMidRound(s, t, j, rolls);
    if m > 1 {
      EndTurnsWithinRound(s, RoundAt(s, j + 1), j + 1, m - 1, k, rolls);
    }
  }

  /** From position j of a round, the m turn ends left in it resolve the turn. */
  lemma {:induction false} EndTurnsFinishRound(s: GameState, t: GameState, j: nat, m: nat, rolls: (int, string) -> int)
    requires NoneFinished(s.players) && j + m == |s.players| && 0 < m && t == RoundAt(s, j)
    ensures var n := |s.players|;
            EndTurns(t, m, rolls)
              == ResolveTurn(s.(players := FinishedBefore(s.players, n), currentPlayerId := n - 1,
                                gamePhase := Executing), rolls)
    decreases m
  {
    if m == 1 {
      EndTurnEndsRound(s, rolls);
    } else {
      EndTurnMidRound(s, t, j, rolls);
      EndTurnsFinishRound(s, RoundAt(s, j + 1), j + 1, m - 1, rolls);
    }
  }

  /** After k < n turn ends from player 0, players 0..k-1 have finished and
      player k moves; nothing else has changed. */
  lemma EndTurnsPartway(s: GameState, k: nat, rolls: (int, string) -> int)
    requires s.currentPlayerId == 0 && NoneFinished(s.players)
    requires k < |s.players|
    ensures EndTurns(s, k, rolls) == RoundAt(s, k)
  {
    assert s == RoundAt(s, 0);
    if k > 0 {
      EndTurnsWithinRound(s, s, 0, k, k, rolls);
    }
  }

  /** The n-th turn end of such a round resolves the turn. */
  lemma EndTurnsLast(s: GameState, rolls: (int, string) -> int)
    requires s.currentPlayerId == 0 && 0 < |s.players| && NoneFinished(s.players)
    ensures var n := |s.players|;
            EndTurns(s, n, rolls)
              == ResolveTurn(s.(players := FinishedBefore(s.players, n), currentPlayerId := n - 1,
                                gamePhase := Executing), rolls)
  {
    assert s == RoundAt(s, 0);
    EndTurnsFinishRound(s, s, 0, |s.players|, rolls);
  }

  /** A round of turns: starting from player 0 with nobody finished, the
      first n - 1 turn ends resolve nothing, and the n-th resolves the turn
      exactly once, every player gaining the yield of its own buildings. */
  lemma EndTurnRound(s: GameState, rolls: (int, string) -> int)
    requires s.currentPlayerId == 0 && 0 < |s.players| && NoneFinished(s.players)
    ensures forall k :: 0 <= k < |s.players| ==>
              EndTurns(s, k, rolls).turn == s.turn && EndTurns(s, k, rolls).currentPlayerId == k
    ensures var t := EndTurns(s, |s.players|, rolls);
            && t.turn == s.turn + 1 && t.currentPlayerId == 0 && t.gamePhase == Planning
            && NoneFinished(t.players)
            && (forall i :: 0 <= i < |s.players| ==>
                  t.players[i] == s.players[i].(resources :=
                    Yield(s.players[i].resources, s.buildings, s.gameMap, s.players[i].id, rolls, i)))
            && t.buildings == s.buildings && t.units == s.units && t.gameMap == s.gameMap
  {
    var n := |s.players|;
    forall k | 0 <= k < n
      ensures EndTurns(s, k, rolls).turn == s.turn && EndTurns(s, k, rolls).currentPlayerId == k
    {
      EndTurnsPartway(s, k, rolls);
    }
    EndTurnsLast(s, rolls);
    var t := EndTurns(s, n, rolls);
    forall i | 0 <= i < n
      ensures t.players[i] == s.players[i].(resources :=
                Yield(s.players[i].resources, s.buildings, s.gameMap, s.players[i].id, rolls, i))
    {
      FinishedBeforeAt(s.players, n, i);
    }
  }

  // ---------------------------------------------------------------------
  // How sources are counted
  // ---------------------------------------------------------------------

  /** Two mining buildings of one player, on a cell listing iron once and on
      a cell listing it twice, give three sources of iron, all scaled by one
      roll. */
  lemma ListingsAddUp(rolls: (int, string) -> int)
    ensures var m := GameMap(2, 1, [[MapCell("grass", Some(["iron"])), MapCell("hills", Some(["iron", "iron"]))]]);
            var bs := [NewBuilding("city", 0, 0, 0, CityTemplate, 1), NewBuilding("city", 0, 0, 1, CityTemplate, 2)];
            && Mined(bs, m, 0)["iron"] == 3
            && Yield(map["iron" := 4], bs, m, 0, rolls, 0)["iron"] == 4 + 3 * rolls(0, "iron")
  {
    var m := GameMap(2, 1, [[MapCell("grass", Some(["iron"])), MapCell("hills", Some(["iron", "iron"]))]]);
    var bs := [NewBuilding("city", 0, 0, 0, CityTemplate, 1), NewBuilding("city", 0, 0, 1, CityTemplate, 2)];
    assert bs[..1] == [bs[0]] && bs[..1][..0] == [];
    assert Mines(bs[0], 0) && Mines(bs[1], 0);
    assert CellResources(m, bs[0].pos) == ["iron"];
    assert CellResources(m, bs[1].pos) == ["iron", "iron"];
    assert Mined(bs[..1], m, 0) == multiset{"iron"};
    assert Mined(bs, m, 0) == multiset{"iron"} + multiset(["iron", "iron"]);
    assert multiset(["iron", "iron"]) == multiset{"iron", "iron"};
  }

  /** A building mining one named resource still collects whatever its cell
      lists: the value of canMine only decides whether it mines at all. */
  lemma MiningIgnoresNamedResource()
    ensures var m := GameMap(1, 1, [[MapCell("hills", Some(["gold"]))]]);
            var t := CityTemplate.(typeId := "mine", canMine := Some(MineResource("iron")));
            var bs := [NewBuilding("mine", 0, 0, 0, t, 1)];
            Mined(bs, m, 0)["gold"] == 1 && Mined(bs, m, 0)["iron"] == 0
  {
    var m := GameMap(1, 1, [[MapCell("hills", Some(["gold"]))]]);
    var t := CityTemplate.(typeId := "mine", canMine := Some(MineResource("iron")));
    var bs := [NewBuilding("mine", 0, 0, 0, t, 1)];
    assert bs[..0] == [];
    assert CellResources(m, bs[0].pos) == ["gold"];
  }
}
