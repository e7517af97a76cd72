/** The Pinia store itself (src/store/gameStore.js): its saved state as fields and its
    actions as methods that update them in place. Every action is proved to leave the
    store in exactly the state the matching function of module Draft computes. Every
    action but loading a saved record also keeps the step cursor valid. */
module Store {
  import opened Common
  import opened BpRules
  import opened Validators
  import opened Draft

  class GameStore {
    var player1: PlayerInfo
    var player2: PlayerInfo
    var globalBans: seq<PlantId>
    var plantUsage: Usage
    var currentRound: Round
    var gameStatus: Status
    var firstPlayer: Option<Player>
    var roundWinner: Option<Player>

    /** What `saveToLocalStorage` writes. */
    function Snapshot(): MatchState
      reads this
    {
      MatchState(player1, player2, globalBans, plantUsage, currentRound, gameStatus, firstPlayer, roundWinner)
    }

    predicate Valid()
      reads this
    {
      CursorValid(currentRound)
    }

    /** The store's initial state. */
    constructor()
      ensures Snapshot() == INITIAL_STATE
      ensures Valid()
    {
      player1 := PlayerInfo("", 0, None);
      player2 := PlayerInfo("", 0, None);
      globalBans := [];
      plantUsage := map[];
      currentRound := Round(1, 1, 0, None, None, 1, NO_LISTS, NO_LISTS, NO_POSITIONS, None, false, [], None);
      gameStatus := Setup;
      firstPlayer := None;
      roundWinner := None;
    }

    /** `$reset` of `resetGame`; the removal of the saved copy is not modelled. */
    method ResetGame()
      modifies this
      ensures Snapshot() == INITIAL_STATE
      ensures Valid()
    {
      player1 := PlayerInfo("", 0, None);
      player2 := PlayerInfo("", 0, None);
      globalBans := [];
      plantUsage := map[];
      currentRound := Round(1, 1, 0, None, None, 1, NO_LISTS, NO_LISTS, NO_POSITIONS, None, false, [], None);
      gameStatus := Setup;
      firstPlayer := None;
      roundWinner := None;
    }

    /** `initGame`; the random draw of the five global bans is the parameter `bans`. */
    method InitGame(player1Id: string, player2Id: string, first: Option<Player>,
                    player1Road: Option<int>, player2Road: Option<int>, bans: seq<PlantId>)
      modifies this
      ensures Snapshot() == Draft.InitGame(old(Snapshot()), player1Id, player2Id, first, player1Road, player2Road, bans)
      ensures Valid()
    {
      player1 := PlayerInfo(player1Id, 0, NullIfZero(player1Road));
      player2 := PlayerInfo(player2Id, 0, NullIfZero(player2Road));
      firstPlayer := first;
      globalBans := bans;
      plantUsage := map[];
      assert Snapshot() == old(Snapshot()).(player1 := player1, player2 := player2, firstPlayer := first,
                                            globalBans := bans, plantUsage := map[]);
      StartRound(1);
    }

    /** `startRound`. */
    method StartRound(roundNumber: nat)
      modifies this
      ensures Snapshot() == Draft.StartRound(old(Snapshot()), roundNumber)
      ensures Valid()
    {
      var road2 := RoadHolder(Snapshot(), 2);
      var road4 := RoadHolder(Snapshot(), 4);
      var bpSequence := GetBPSequence(road2, road4);
      currentRound := FreshRound(roundNumber, bpSequence);
      UpdateCurrentStep();
      gameStatus := Banning;
      StartRoundEffect(old(Snapshot()), roundNumber);
    }

    /** `updateCurrentStep`: walks the stages and their steps, counting, until the count
        reaches `step`. */
    method UpdateCurrentStep()
      modifies this
      ensures Snapshot() == LocateStep(old(Snapshot()))
      ensures old(Valid()) ==> Valid()
    {
      ghost var before := Snapshot();
      var bpSequence, step := currentRound.bpSequence, currentRound.step;
      var currentStepCount := 0;
      var stepInfo: Option<Step> := None;
      var stageIdx := 0;
      while stageIdx < |bpSequence|
        invariant 0 <= stageIdx <= |bpSequence|
        invariant stepInfo.None?
        invariant currentStepCount == GetTotalSteps(bpSequence[..stageIdx]) <= step
        invariant Snapshot() == old(Snapshot())
      {
        var bpStage := bpSequence[stageIdx];
        var j := 0;
        while j < |bpStage|
          invariant 0 <= j <= |bpStage|
          invariant stepInfo.None?
          invariant currentStepCount == GetTotalSteps(bpSequence[..stageIdx]) + j <= step
        {
          if currentStepCount == step {
            FlattenAt(bpSequence, stageIdx, j);
            stepInfo := Some(bpStage[j]);
            break;
          }
          currentStepCount := currentStepCount + 1;
          j := j + 1;
        }
        if stepInfo.Some? {
          break;
        }
        TotalStepsSnoc(bpSequence, stageIdx);
        stageIdx := stageIdx + 1;
      }
      if stepInfo.None? {
        assert bpSequence[..|bpSequence|] == bpSequence;
      }

      if stepInfo.Some? {
        var info := stepInfo.value;
        currentRound := currentRound.(currentPlayer := Some(info.player));
        currentRound := currentRound.(action := Some(info.action));
        currentRound := currentRound.(pickCount := PickCountOf(info));
        if gameStatus != Banning {
          gameStatus := Banning;
        }
      } else {
        gameStatus := Positioning;
      }
      if CursorValid(before.currentRound) {
        LocateKeepsCursorValid(before);
      }
    }

    /** `moveToNextStep`: sums the stage lengths, then either steps forward and finds the
        stage holding the new step, or switches to positioning. */
    method MoveToNextStep()
      modifies this
      ensures Snapshot() == Advance(old(Snapshot()))
      ensures old(Valid()) ==> Valid()
    {
      ghost var before := Snapshot();
      MoveCursor();
      if CursorValid(before.currentRound) {
        AdvanceKeepsCursorValid(before);
      }
    }

    /** The body of `moveToNextStep`. */
    method MoveCursor()
      modifies this
      ensures Snapshot() == Advance(old(Snapshot()))
    {
      var bpSequence := currentRound.bpSequence;
      var totalSteps := SumStageLengths(bpSequence);
      if currentRound.step + 1 < totalSteps {
        currentRound := currentRound.(step := currentRound.step + 1);
        var stageIdx := FindStage(bpSequence, currentRound.step);
        currentRound := currentRound.(stage := stageIdx + 1);
        ghost var located := old(Snapshot()).(currentRound :=
          old(currentRound).(step := old(currentRound).step + 1, stage := stageIdx + 1));
        assert Snapshot() == located;
        UpdateCurrentStep();
      } else {
        gameStatus := Positioning;
      }
    }

    /** The `for` loop of `moveToNextStep` that adds up the stage lengths. */
    static method SumStageLengths(bpSequence: BpSequence) returns (totalSteps: nat)
      ensures totalSteps == GetTotalSteps(bpSequence)
    {
      totalSteps := 0;
      var i := 0;
      while i < |bpSequence|
        invariant 0 <= i <= |bpSequence|
        invariant totalSteps == GetTotalSteps(bpSequence[..i])
      {
        TotalStepsSnoc(bpSequence, i);
        totalSteps := totalSteps + |bpSequence[i]|;
        i := i + 1;
      }
      assert bpSequence[..|bpSequence|] == bpSequence;
    }

    /** The `for` loop of `moveToNextStep` that finds the stage holding `step`: the
        index of the first stage whose running total passes it. */
    static method FindStage(bpSequence: BpSequence, step: nat) returns (stageIdx: nat)
      requires step < GetTotalSteps(bpSequence)
      ensures stageIdx == StageIndex(bpSequence, step)
      ensures InStage(bpSequence, step, stageIdx)
    {
      assert bpSequence[..|bpSequence|] == bpSequence;
      var stepCount := 0;
      stageIdx := 0;
      while stageIdx < |bpSequence|
        invariant 0 <= stageIdx <= |bpSequence|
        invariant stepCount == GetTotalSteps(bpSequence[..stageIdx]) <= step
      {
        var stageLength := |bpSequence[stageIdx]|;
        TotalStepsSnoc(bpSequence, stageIdx);
        if step < stepCount + stageLength {
          InStageUnique(bpSequence, step, stageIdx, StageIndex(bpSequence, step));
          return;
        }
        stepCount := stepCount + stageLength;
        stageIdx := stageIdx + 1;
      }
      assert false;
    }

    /** `confirmSelection`; the alerts are returned as the notice. */
    method ConfirmSelection() returns (notice: Notice)
      modifies this
      ensures Snapshot() == Confirm(old(Snapshot()))
      ensures notice == ConfirmNotice(old(Snapshot()))
      ensures old(Valid()) ==> Valid()
    {
      ghost var before := Snapshot();
      if currentRound.selectedPlant.None? || currentRound.selectedPlant.value == "" {
        notice := NothingSelected;
      } else {
        var plantId := currentRound.selectedPlant.value;
        var player := currentRound.currentPlayer;
        var action := currentRound.action;
        if action == Some(Ban) && player.Some? {
          notice := Done;
          BanBranch(player.value, plantId);
        } else if action == Some(Pick) && player.Some? {
          notice := PickBranch(player.value, plantId);
        } else {
          notice := Done;
        }
      }
      if CursorValid(before.currentRound) {
        ConfirmKeepsCursorValid(before);
      }
    }

    /** The ban branch of `confirmSelection`: no eligibility check. */
    method BanBranch(p: Player, plantId: PlantId)
      requires currentRound.selectedPlant == Some(plantId) && plantId != ""
      requires currentRound.action == Some(Ban) && currentRound.currentPlayer == Some(p)
      modifies this
      ensures Snapshot() == Confirm(old(Snapshot()))
    {
      ghost var before := Snapshot();
      assert Confirm(before) == Advance(WithBan(before, p, plantId));
      currentRound := currentRound.(bans := currentRound.bans.Set(p, currentRound.bans.Get(p) + [plantId]));
      currentRound := currentRound.(selectedPlant := None);
      assert Snapshot() == WithBan(before, p, plantId);
      MoveToNextStep();
    }

    /** The pick branch of `confirmSelection`: `canPick` first, then the append. */
    method PickBranch(p: Player, plantId: PlantId) returns (notice: Notice)
      requires currentRound.selectedPlant == Some(plantId) && plantId != ""
      requires currentRound.action == Some(Pick) && currentRound.currentPlayer == Some(p)
      modifies this
      ensures Snapshot() == Confirm(old(Snapshot()))
      ensures notice == ConfirmNotice(old(Snapshot()))
    {
      ghost var before := Snapshot();
      var canPickResult := CanPick(plantId, p, View(Snapshot()));
      if canPickResult.Rejected? {
        notice := PickRefused(canPickResult.reason);
        return;
      }
      notice := Done;
      assert Confirm(before) == AfterPick(WithPick(before, p, plantId), p, plantId);
      currentRound := currentRound.(picks := currentRound.picks.Set(p, currentRound.picks.Get(p) + [plantId]));
      currentRound := currentRound.(selectedPlant := None);
      assert Snapshot() == WithPick(before, p, plantId);
      FollowAcceptedPick(p, plantId);
    }

    /** The tail of the pick branch of `confirmSelection`, after the pick is appended. */
    method FollowAcceptedPick(p: Player, plantId: PlantId)
      modifies this
      ensures Snapshot() == AfterPick(old(Snapshot()), p, plantId)
    {
      if plantId == PUMPKIN {
        currentRound := currentRound.(extraPick := Some(ExtraPick(p, 1)));
      } else if currentRound.extraPick.Some? && currentRound.extraPick.value.player == p {
        var extraPick := currentRound.extraPick.value;
        currentRound := currentRound.(extraPick := Some(extraPick.(remaining := extraPick.remaining - 1)));
        if currentRound.extraPick.value.remaining <= 0 {
          currentRound := currentRound.(extraPick := None);
          MoveToNextStep();
        }
      } else {
        MoveToNextStep();
      }
    }

    /** `setPosition`; the alert's messages are returned. */
    method SetPosition(player: Player, road: Option<int>, plants: Option<seq<Slot>>)
      returns (errors: seq<PositionError>)
      modifies this
      ensures errors == PositionErrors(Position(road, plants))
      ensures Snapshot() == Draft.SetPosition(old(Snapshot()), player, road, plants)
      ensures old(Valid()) ==> Valid()
    {
      var valid;
      valid, errors := ValidatePosition(Position(road, plants));
      if !valid {
        return;
      }
      var ownRoad := if player == Player1 then player1.road else player2.road;
      currentRound := currentRound.(positions := currentRound.positions.Set(player, PositionRecord(ownRoad, plants.value)));
    }

    /** `finishRound`. */
    method FinishRound()
      modifies this
      ensures Snapshot() == Draft.FinishRound(old(Snapshot()))
      ensures old(Valid()) ==> Valid()
    {
      gameStatus := Result;
      roundWinner := None;
      currentRound := currentRound.(isRoundComplete := true);
    }

    /** `setRoundWinner`. */
    method SetRoundWinner(winner: Player)
      modifies this
      ensures Snapshot() == Draft.SetRoundWinner(old(Snapshot()), winner)
      ensures old(Valid()) ==> Valid()
    {
      roundWinner := Some(winner);
      if winner == Player1 {
        player1 := player1.(score := player1.score + 1);
      } else {
        player2 := player2.(score := player2.score + 1);
      }
      UpdatePlantUsage();
      if IsGameOver(player1.score, player2.score) {
        gameStatus := Finished;
      } else if IsGrandFinal(player1.score, player2.score) {
        gameStatus := Finished;
      }
    }

    /** `selectRoad`. */
    method SelectRoad(loser: Player, road: Option<int>)
      modifies this
      ensures Snapshot() == Draft.SelectRoad(old(Snapshot()), loser, road)
      ensures Valid()
    {
      ghost var m := Snapshot();
      ghost var m1 := if loser == Player1 then m.(player1 := m.player1.(road := road))
                      else m.(player2 := m.player2.(road := road));
      assert Draft.SelectRoad(m, loser, road) == Draft.StartRound(m1, m.currentRound.roundNumber + 1);
      if loser == Player1 {
        player1 := player1.(road := road);
      } else {
        player2 := player2.(road := road);
      }
      assert Snapshot() == m1;
      var nextRound := currentRound.roundNumber + 1;
      StartRound(nextRound);
    }

    /** `updatePlantUsage`: player 1's picks, then player 2's, one ledger increment each. */
    method UpdatePlantUsage()
      modifies this
      ensures Snapshot() == old(Snapshot()).(plantUsage := Draft.UpdatePlantUsage(old(plantUsage), old(currentRound.picks)))
      ensures old(Valid()) ==> Valid()
    {
      var picks := currentRound.picks;
      var i := 0;
      while i < |picks.player1|
        invariant 0 <= i <= |picks.player1|
        invariant plantUsage == FoldUsage(old(plantUsage), Player1, picks.player1[..i])
        invariant Snapshot() == old(Snapshot()).(plantUsage := plantUsage)
      {
        assert picks.player1[..i + 1][..i] == picks.player1[..i];
        var plantId := picks.player1[i];
        plantUsage := plantUsage[(Player1, plantId) := UsageOf(plantUsage, Player1, plantId) + 1];
        i := i + 1;
      }
      assert picks.player1[..i] == picks.player1;
      ghost var afterFirst := plantUsage;
      i := 0;
      while i < |picks.player2|
        invariant 0 <= i <= |picks.player2|
        invariant plantUsage == FoldUsage(afterFirst, Player2, picks.player2[..i])
        invariant Snapshot() == old(Snapshot()).(plantUsage := plantUsage)
      {
        assert picks.player2[..i + 1][..i] == picks.player2[..i];
        var plantId := picks.player2[i];
        plantUsage := plantUsage[(Player2, plantId) := UsageOf(plantUsage, Player2, plantId) + 1];
        i := i + 1;
      }
      assert picks.player2[..i] == picks.player2;
    }

    /** `migrateLegacyPositions`: each player's formation list, in turn. */
    method MigrateLegacyPositions()
      modifies this
      ensures Snapshot() == MigratePositions(old(Snapshot()))
      ensures old(Valid()) ==> Valid()
    {
      var plants1 := MigratePlants(currentRound.positions.player1.plants, currentRound.picks.player1);
      currentRound := currentRound.(positions := currentRound.positions.(player1 := currentRound.positions.player1.(plants := plants1)));
      var plants2 := MigratePlants(currentRound.positions.player2.plants, currentRound.picks.player2);
      currentRound := currentRound.(positions := currentRound.positions.(player2 := currentRound.positions.player2.(plants := plants2)));
    }

    /** `loadFromLocalStorage`, given the parsed record (None when nothing was saved):
        the saved fields replace the state, then the formations are upgraded. */
    method LoadFromLocalStorage(saved: Option<MatchState>) returns (loaded: bool)
      modifies this
      ensures loaded <==> saved.Some?
      ensures saved.None? ==> Snapshot() == old(Snapshot())
      ensures saved.Some? ==> Snapshot() == MigratePositions(saved.value)
    {
      if saved.None? {
        return false;
      }
      var state := saved.value;
      player1 := state.player1;
      player2 := state.player2;
      globalBans := state.globalBans;
      plantUsage := state.plantUsage;
      currentRound := state.currentRound;
      gameStatus := state.gameStatus;
      firstPlayer := state.firstPlayer;
      roundWinner := state.roundWinner;
      MigrateLegacyPositions();
      return true;
    }
  }

  /** Saving a store and loading the saved record into a store gives back the saved
      state whenever no formation holds a legacy entry (a bare plant id, as older saves
      wrote and as a caller of `setPosition` may still pass in). */
  method SaveThenLoad(source: GameStore, target: GameStore) returns (loaded: bool)
    requires NoLegacyEntries(source.Snapshot())
    modifies target
    ensures loaded
    ensures target.Snapshot() == old(source.Snapshot())
  {
    var saved := source.Snapshot();
    loaded := target.LoadFromLocalStorage(Some(saved));
    LoadAfterSave(saved);
  }
}
