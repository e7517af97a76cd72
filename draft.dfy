/** The draft state machine of the Pinia store (src/store/gameStore.js) on values: the
    persisted state shape, every action as a function from the old state to the new one,
    the getters, and what the actions guarantee. The class GameStore (store.dfy) holds
    the same state in fields and is proved to change it exactly as these functions say. */
module Draft {
  import opened Common
  import opened BpRules
  import opened CustomPlants
  import opened Validators

  datatype PlayerInfo = PlayerInfo(id: string, score: nat, road: Option<int>)

  /** `gameStatus`; 'banning' covers the whole ban/pick walk. */
  datatype Status = Setup | Banning | Positioning | Result | Finished

  /** An entry of a formation: null, a bare plant id (the legacy shape) or a placed
      instance `{plantId, sourceIndex}` pointing into the player's picks. The instance id
      string, built from a clock reading, is not modelled. */
  datatype Slot = Empty | Legacy(plantId: PlantId) | Placed(plantId: PlantId, sourceIndex: nat)

  datatype PositionRecord = PositionRecord(road: Option<int>, plants: seq<Slot>)

  /** The extra-pick window opened by the bonus item. */
  datatype ExtraPick = ExtraPick(player: Player, remaining: int)

  /** `currentRound`. */
  datatype Round = Round(
    roundNumber: nat,
    stage: nat,
    step: nat,
    currentPlayer: Option<Player>,
    action: Option<Action>,
    pickCount: nat,
    bans: PerPlayer<seq<PlantId>>,
    picks: PerPlayer<seq<PlantId>>,
    positions: PerPlayer<PositionRecord>,
    selectedPlant: Option<PlantId>,
    isRoundComplete: bool,
    bpSequence: BpSequence,
    extraPick: Option<ExtraPick>)

  /** The eight fields `saveToLocalStorage` writes, in its order. The drag state of the
      store is UI-only and not saved, so it is not part of the model. */
  datatype MatchState = MatchState(
    player1: PlayerInfo,
    player2: PlayerInfo,
    globalBans: seq<PlantId>,
    plantUsage: Usage,
    currentRound: Round,
    gameStatus: Status,
    firstPlayer: Option<Player>,
    roundWinner: Option<Player>)
  {
    /** `this[player]`. */
    function Info(p: Player): PlayerInfo {
      if p == Player1 then player1 else player2
    }
  }

  const NO_LISTS: PerPlayer<seq<PlantId>> := PerPlayer([], [])
  const NO_POSITIONS: PerPlayer<PositionRecord> := PerPlayer(PositionRecord(None, []), PositionRecord(None, []))

  /** The store's initial `state()`. */
  const INITIAL_STATE: MatchState := MatchState(
    PlayerInfo("", 0, None), PlayerInfo("", 0, None), [], map[],
    Round(1, 1, 0, None, None, 1, NO_LISTS, NO_LISTS, NO_POSITIONS, None, false, [], None),
    Setup, None, None)

  // ---------------------------------------------------------------------------
  // Getters

  /** `road2Player` / `road4Player`: player 1 if it holds the road, else player 2 if it
      does, else null. */
  function RoadHolder(m: MatchState, road: int): (r: Option<Player>)
    ensures r == Some(Player1) <==> m.player1.road == Some(road)
    ensures r == Some(Player2) <==> m.player1.road != Some(road) && m.player2.road == Some(road)
    ensures r.Some? ==> m.Info(r.value).road == Some(road)
  {
    if m.player1.road == Some(road) then Some(Player1)
    else if m.player2.road == Some(road) then Some(Player2)
    else None
  }

  function Road2Player(m: MatchState): Option<Player> { RoadHolder(m, 2) }
  function Road4Player(m: MatchState): Option<Player> { RoadHolder(m, 4) }

  /** `getPlantUsageCount`: ledger entry, 0 when absent. */
  function GetPlantUsageCount(m: MatchState, player: Player, plantId: PlantId): (n: nat)
    ensures (player, plantId) !in m.plantUsage ==> n == 0
    ensures (player, plantId) in m.plantUsage ==> n == m.plantUsage[(player, plantId)]
  {
    UsageOf(m.plantUsage, player, plantId)
  }

  /** The state as the validators see it (`this.$state`). */
  function View(m: MatchState): GameView {
    GameView(m.globalBans, m.currentRound.bans, m.currentRound.picks, m.plantUsage)
  }

  /** `list.filter(plant => keep(plant.id))`. */
  function FilterById(plants: seq<Plant>, keep: PlantId -> bool): (r: seq<Plant>)
    ensures forall x :: x in r <==> x in plants && keep(x.id)
    ensures |r| <= |plants|
  {
    if plants == [] then []
    else
      var rest := FilterById(plants[1..], keep);
      assert forall x :: x in plants <==> x == plants[0] || x in plants[1..];
      if keep(plants[0].id) then [plants[0]] + rest else rest
  }

  /** Filtering a concatenation filters each part in turn, so the entries kept stay in
      catalog order. */
  lemma {:induction false} FilterByIdAppend(a: seq<Plant>, b: seq<Plant>, keep: PlantId -> bool)
    ensures FilterById(a + b, keep) == FilterById(a, keep) + FilterById(b, keep)
  {
    if a != [] {
      assert (a + b)[0] == a[0] && (a + b)[1..] == a[1..] + b;
      FilterByIdAppend(a[1..], b, keep);
      if keep(a[0].id) {
        assert [a[0]] + (FilterById(a[1..], keep) + FilterById(b, keep))
          == ([a[0]] + FilterById(a[1..], keep)) + FilterById(b, keep);
      }
    } else {
      assert a + b == b;
    }
  }

  /** Every entry that passes is kept as often as it occurs in the catalog; the others
      are dropped. */
  lemma {:induction false} FilterByIdCounts(plants: seq<Plant>, keep: PlantId -> bool, x: Plant)
    ensures multiset(FilterById(plants, keep))[x] == if keep(x.id) then multiset(plants)[x] else 0
  {
    if plants != [] {
      FilterByIdCounts(plants[1..], keep, x);
      assert plants == [plants[0]] + plants[1..];
    }
  }

  /** The ban-phase filter of `availablePlants`. */
  predicate ShownForBan(m: MatchState, plantId: PlantId) {
    var r := m.currentRound;
    plantId !in m.globalBans + r.bans.player1 + r.bans.player2
  }

  /** The pick-phase filter of `availablePlants`, its four tests as the getter writes them. */
  predicate ShownForPick(m: MatchState, player: Player, plantId: PlantId) {
    var r := m.currentRound;
    var ownPickCount := Occurrences(r.picks.Get(player), plantId);
    && plantId !in m.globalBans + r.bans.player1 + r.bans.player2
    && plantId !in r.picks.Get(player.Opponent())
    && !(ownPickCount >= 2)
    && !(ownPickCount + UsageOf(m.plantUsage, player, plantId) >= 2)
  }

  /** `availablePlants` over the visible catalog. Outside a ban step with no acting
      player the getter throws (it spreads `picks[null]`); that is None here. During a
      ban step it shows exactly what `canBan` allows, otherwise exactly what `canPick`
      allows for the acting player. */
  function AvailablePlants(m: MatchState, catalog: seq<Plant>): (r: Option<seq<Plant>>)
    ensures m.currentRound.action == Some(Ban) ==>
      r.Some? && forall x :: x in r.value <==> x in catalog && CanBan(x.id, View(m)) == Allowed
    ensures m.currentRound.action != Some(Ban) ==> (r.Some? <==> m.currentRound.currentPlayer.Some?)
    ensures m.currentRound.action != Some(Ban) && m.currentRound.currentPlayer.Some? ==>
      forall x :: x in r.value <==>
        x in catalog && CanPick(x.id, m.currentRound.currentPlayer.value, View(m)) == Allowed
    ensures r.Some? ==> |r.value| <= |catalog|
  {
    if m.currentRound.action == Some(Ban) then
      Some(FilterById(catalog, id => ShownForBan(m, id)))
    else
      match m.currentRound.currentPlayer
      case None => None
      case Some(p) => Some(FilterById(catalog, id => ShownForPick(m, p, id)))
  }

  // ---------------------------------------------------------------------------
  // The step cursor: updateCurrentStep and moveToNextStep

  /** `stepInfo.count || 1`. */
  function PickCountOf(s: Step): nat {
    if s.count == 0 then 1 else s.count
  }

  /** `updateCurrentStep`: the entry at `step` of the flattened sequence becomes the
      acting player and action; past the end the draft moves to positioning. */
  function LocateStep(m: MatchState): MatchState {
    var r := m.currentRound;
    var flat := Flatten(r.bpSequence);
    if r.step < |flat| then
      var s := flat[r.step];
      m.(currentRound := r.(currentPlayer := Some(s.player), action := Some(s.action), pickCount := PickCountOf(s)),
         gameStatus := Banning)
    else
      m.(gameStatus := Positioning)
  }

  /** Locating the step of a valid cursor finds the entry it already holds: the round
      is unchanged and only the status may be reset. */
  lemma LocateKeepsCursorValid(m: MatchState)
    requires CursorValid(m.currentRound)
    ensures LocateStep(m).currentRound == m.currentRound
    ensures CursorValid(LocateStep(m).currentRound)
  {
  }

  /** `moveToNextStep`: one step forward with the stage recomputed, or, at the last
      step, only the switch to positioning. */
  function Advance(m: MatchState): MatchState {
    var r := m.currentRound;
    if r.step + 1 < GetTotalSteps(r.bpSequence) then
      var k := r.step + 1;
      LocateStep(m.(currentRound := r.(step := k, stage := StageIndex(r.bpSequence, k) + 1)))
    else
      m.(gameStatus := Positioning)
  }

  /** Everything except the cursor (stage, step, acting player, action, pick count) and
      the status is the same. */
  predicate SameExceptCursor(m: MatchState, m': MatchState) {
    var r, r' := m.currentRound, m'.currentRound;
    && m'.player1 == m.player1 && m'.player2 == m.player2
    && m'.globalBans == m.globalBans && m'.plantUsage == m.plantUsage
    && m'.firstPlayer == m.firstPlayer && m'.roundWinner == m.roundWinner
    && r'.roundNumber == r.roundNumber && r'.bans == r.bans && r'.picks == r.picks
    && r'.positions == r.positions && r'.selectedPlant == r.selectedPlant
    && r'.isRoundComplete == r.isRoundComplete && r'.bpSequence == r.bpSequence
    && r'.extraPick == r.extraPick
  }

  /** The cursor agrees with the sequence: `step` indexes the flattened sequence (it is
      0 when that is empty), `stage` is the stage holding it, and the acting player,
      action and pick count are that entry's. */
  predicate CursorValid(r: Round) {
    var flat := Flatten(r.bpSequence);
    if |flat| == 0 then
      r.step == 0 && r.currentPlayer.None? && r.action.None?
    else
      && r.step < |flat|
      && r.stage >= 1 && InStage(r.bpSequence, r.step, r.stage - 1)
      && r.currentPlayer == Some(flat[r.step].player)
      && r.action == Some(flat[r.step].action)
      && r.pickCount == PickCountOf(flat[r.step])
  }

  /** Before the last step, the step grows by exactly one, the stage is the one
      holding the new step and the acting player and action are its entry's; at the last
      step only the status changes, to positioning. Nothing else changes. */
  lemma AdvanceEffect(m: MatchState)
    ensures var m', r, bp := Advance(m), m.currentRound, m.currentRound.bpSequence;
      SameExceptCursor(m, m') &&
      (r.step + 1 < GetTotalSteps(bp) ==>
        && m'.currentRound.step == r.step + 1
        && m'.currentRound.stage >= 1
        && InStage(bp, m'.currentRound.step, m'.currentRound.stage - 1)
        && m'.currentRound.currentPlayer == Some(Flatten(bp)[r.step + 1].player)
        && m'.currentRound.action == Some(Flatten(bp)[r.step + 1].action)
        && m'.gameStatus == Banning) &&
      (r.step + 1 >= GetTotalSteps(bp) ==> m' == m.(gameStatus := Positioning))
  {
  }

  /** Advancing keeps the cursor valid, so `step` stays below the number of steps. */
  lemma AdvanceKeepsCursorValid(m: MatchState)
    requires CursorValid(m.currentRound)
    ensures CursorValid(Advance(m).currentRound)
    ensures var r' := Advance(m).currentRound;
      GetTotalSteps(r'.bpSequence) > 0 ==> r'.step < GetTotalSteps(r'.bpSequence)
  {
    AdvanceEffect(m);
  }

  // ---------------------------------------------------------------------------
  // startRound and initGame

  /** The fresh `currentRound` literal of `startRound`. */
  function FreshRound(n: nat, bp: BpSequence): Round {
    Round(n, 1, 0, None, None, 1, NO_LISTS, NO_LISTS, NO_POSITIONS, None, false, bp, None)
  }

  /** `startRound(n)`: a fresh round on the sequence for the current lane holders, the
      first step located, and then 'banning' whatever the sequence. */
  function StartRound(m: MatchState, n: nat): MatchState {
    var bp := GetBPSequence(Road2Player(m), Road4Player(m));
    LocateStep(m.(currentRound := FreshRound(n, bp))).(gameStatus := Banning)
  }

  /** A new round starts at round `n`, stage 1, step 0, with empty bans and picks, no
      selection, no extra pick and status 'banning'; with both lanes held its first step
      is a ban by the road-2 player, and with a lane unheld there is no step at all. */
  lemma StartRoundEffect(m: MatchState, n: nat)
    ensures var m', r' := StartRound(m, n), StartRound(m, n).currentRound;
      && r'.roundNumber == n && r'.stage == 1 && r'.step == 0
      && r'.bans == PerPlayer([], []) && r'.picks == PerPlayer([], [])
      && r'.positions == NO_POSITIONS
      && r'.selectedPlant.None? && r'.extraPick.None? && !r'.isRoundComplete
      && m'.gameStatus == Banning
      && m'.player1 == m.player1 && m'.player2 == m.player2 && m'.globalBans == m.globalBans
      && m'.plantUsage == m.plantUsage && m'.roundWinner == m.roundWinner
      && m'.firstPlayer == m.firstPlayer
      && CursorValid(r')
      && (Road2Player(m).Some? && Road4Player(m).Some? ==>
            r'.currentPlayer == Road2Player(m) && r'.action == Some(Ban) && r'.pickCount == 1 &&
            GetTotalSteps(r'.bpSequence) == 20)
      && (Road2Player(m).None? || Road4Player(m).None? ==>
            r'.currentPlayer.None? && r'.action.None? && GetTotalSteps(r'.bpSequence) == 0)
  {
    var bp := GetBPSequence(Road2Player(m), Road4Player(m));
    if Road2Player(m).Some? && Road4Player(m).Some? {
      var a, b := Road2Player(m).value, Road4Player(m).value;
      SequenceShape(a, b);
      StageOpeners(a, b);
      assert bp[..0] == [];
      TotalStepsSnoc(bp, 0);
    } else {
      NoLaneNoSteps(Road2Player(m), Road4Player(m));
    }
  }

  /** `player1Road || null`: a zero road is no road. */
  function NullIfZero(road: Option<int>): Option<int> {
    if road == Some(0) then None else road
  }

  /** `initGame`, with the five global bans given instead of drawn at random. */
  function InitGame(m: MatchState, player1Id: string, player2Id: string, firstPlayer: Option<Player>,
                    player1Road: Option<int>, player2Road: Option<int>, globalBans: seq<PlantId>): MatchState
  {
    var m1 := m.(player1 := PlayerInfo(player1Id, 0, NullIfZero(player1Road)),
                 player2 := PlayerInfo(player2Id, 0, NullIfZero(player2Road)),
                 firstPlayer := firstPlayer,
                 globalBans := globalBans,
                 plantUsage := map[]);
    StartRound(m1, 1)
  }

  /** A new match: both scores 0, the given bans, an empty ledger, round 1 under way
      as `StartRound` sets it up; with roads 2 and 4 the first step is player 1's
      (respectively player 2's) ban. */
  lemma InitGameEffect(m: MatchState, id1: string, id2: string, first: Option<Player>,
                       road1: Option<int>, road2: Option<int>, bans: seq<PlantId>)
    ensures var m' := InitGame(m, id1, id2, first, road1, road2, bans);
      m'.player1.score == 0 && m'.player2.score == 0 &&
      m'.player1.id == id1 && m'.player2.id == id2 &&
      m'.globalBans == bans && m'.plantUsage == map[] && m'.firstPlayer == first &&
      m'.player1.road == NullIfZero(road1) && m'.player2.road == NullIfZero(road2) &&
      m'.roundWinner == m.roundWinner &&
      m'.currentRound.stage == 1 && m'.currentRound.step == 0 &&
      m'.currentRound.bans == PerPlayer([], []) && m'.currentRound.picks == PerPlayer([], []) &&
      m'.currentRound.roundNumber == 1 && m'.gameStatus == Banning && CursorValid(m'.currentRound) &&
      (road1 == Some(2) && road2 == Some(4) ==> m'.currentRound.currentPlayer == Some(Player1)) &&
      (road1 == Some(4) && road2 == Some(2) ==> m'.currentRound.currentPlayer == Some(Player2))
  {
    var m1 := m.(player1 := PlayerInfo(id1, 0, NullIfZero(road1)),
                 player2 := PlayerInfo(id2, 0, NullIfZero(road2)),
                 firstPlayer := first, globalBans := bans, plantUsage := map[]);
    StartRoundEffect(m1, 1);
  }

  // ---------------------------------------------------------------------------
  // confirmSelection

  /** What `confirmSelection` reports: its two alerts, or nothing. */
  datatype Notice = Done | NothingSelected | PickRefused(reason: Reason)

  /** `if (!selectedPlant)`: null and the empty string are no selection. */
  predicate HasSelection(r: Round) {
    r.selectedPlant.Some? && r.selectedPlant.value != ""
  }

  /** `confirmSelection`. A ban is appended without any check and the cursor advances.
      A pick is checked with `canPick`; once accepted it is appended, and then the bonus
      item opens a one-pick window without advancing, the next pick of that same player
      closes the window and advances, and any other pick advances. A state with an
      action but no acting player (the source's `bans[null].push` throws before any
      change) is left unchanged. */
  function Confirm(m: MatchState): MatchState {
    var r := m.currentRound;
    if !HasSelection(r) then m
    else
      var plantId := r.selectedPlant.value;
      match (r.action, r.currentPlayer)
      case (Some(Ban), Some(p)) => Advance(WithBan(m, p, plantId))
      case (Some(Pick), Some(p)) =>
        if CanPick(plantId, p, View(m)).Rejected? then m
        else AfterPick(WithPick(m, p, plantId), p, plantId)
      case _ => m
  }

  /** The ban appended to the player's list and the selection cleared. */
  function WithBan(m: MatchState, p: Player, plantId: PlantId): MatchState {
    var r := m.currentRound;
    m.(currentRound := r.(bans := r.bans.Set(p, r.bans.Get(p) + [plantId]), selectedPlant := None))
  }

  /** The pick appended to the player's list and the selection cleared. */
  function WithPick(m: MatchState, p: Player, plantId: PlantId): MatchState {
    var r := m.currentRound;
    m.(currentRound := r.(picks := r.picks.Set(p, r.picks.Get(p) + [plantId]), selectedPlant := None))
  }

  /** What follows an accepted pick: the bonus item opens the window, a pick inside the
      player's own window consumes it, anything else advances. */
  function AfterPick(m: MatchState, p: Player, plantId: PlantId): MatchState {
    var r := m.currentRound;
    if plantId == PUMPKIN then
      m.(currentRound := r.(extraPick := Some(ExtraPick(p, 1))))
    else if r.extraPick.Some? && r.extraPick.value.player == p then
      var remaining := r.extraPick.value.remaining - 1;
      if remaining <= 0 then Advance(m.(currentRound := r.(extraPick := None)))
      else m.(currentRound := r.(extraPick := Some(ExtraPick(p, remaining))))
    else
      Advance(m)
  }

  /** Whatever follows an accepted pick keeps the lists, the ledger and the players, and
      keeps the cursor valid. */
  lemma AfterPickEffect(m: MatchState, p: Player, plantId: PlantId)
    ensures var m' := AfterPick(m, p, plantId);
      && m'.currentRound.picks == m.currentRound.picks && m'.currentRound.bans == m.currentRound.bans
      && m'.plantUsage == m.plantUsage && m'.globalBans == m.globalBans
      && m'.player1 == m.player1 && m'.player2 == m.player2
      && (CursorValid(m.currentRound) ==> CursorValid(m'.currentRound))
  {
    var r := m.currentRound;
    if plantId == PUMPKIN {
    } else if r.extraPick.Some? && r.extraPick.value.player == p {
      var closed := m.(currentRound := r.(extraPick := None));
      if r.extraPick.value.remaining - 1 <= 0 {
        AdvanceEffect(closed);
        if CursorValid(m.currentRound) {
          AdvanceKeepsCursorValid(closed);
        }
      }
    } else {
      AdvanceEffect(m);
      if CursorValid(m.currentRound) {
        AdvanceKeepsCursorValid(m);
      }
    }
  }

  function ConfirmNotice(m: MatchState): Notice {
    var r := m.currentRound;
    if !HasSelection(r) then NothingSelected
    else if r.action == Some(Pick) && r.currentPlayer.Some? &&
            CanPick(r.selectedPlant.value, r.currentPlayer.value, View(m)).Rejected? then
      PickRefused(CanPick(r.selectedPlant.value, r.currentPlayer.value, View(m)).reason)
    else Done
  }

  /** Confirming without a selection changes nothing and reports it. */
  lemma ConfirmWithoutSelection(m: MatchState)
    requires !HasSelection(m.currentRound)
    ensures Confirm(m) == m && ConfirmNotice(m) == NothingSelected
  {
  }

  /** A pick that `canPick` refuses changes nothing, not even the selection, and the
      refusal reason is reported. */
  lemma ConfirmRefusedPick(m: MatchState, p: Player)
    requires HasSelection(m.currentRound)
    requires m.currentRound.action == Some(Pick) && m.currentRound.currentPlayer == Some(p)
    requires CanPick(m.currentRound.selectedPlant.value, p, View(m)).Rejected?
    ensures Confirm(m) == m
    ensures ConfirmNotice(m) == PickRefused(CanPick(m.currentRound.selectedPlant.value, p, View(m)).reason)
  {
  }

  /** A confirmed ban is appended to the acting player's bans with no eligibility
      check, even for an id that is already banned; the selection is cleared, picks and
      the other player's bans are untouched, and the cursor advances once. */
  lemma ConfirmBan(m: MatchState, p: Player)
    requires HasSelection(m.currentRound)
    requires m.currentRound.action == Some(Ban) && m.currentRound.currentPlayer == Some(p)
    ensures var id, r, r' := m.currentRound.selectedPlant.value, m.currentRound, Confirm(m).currentRound;
      && r'.bans.Get(p) == r.bans.Get(p) + [id]
      && r'.bans.Get(p.Opponent()) == r.bans.Get(p.Opponent())
      && r'.picks == r.picks && r'.selectedPlant.None?
      && (r.step + 1 < GetTotalSteps(r.bpSequence) ==> r'.step == r.step + 1 && Confirm(m).gameStatus == Banning)
      && (r.step + 1 >= GetTotalSteps(r.bpSequence) ==> r'.step == r.step && Confirm(m).gameStatus == Positioning)
      && ConfirmNotice(m) == Done
  {
    var r := m.currentRound;
    AdvanceEffect(m.(currentRound := r.(bans := r.bans.Set(p, r.bans.Get(p) + [r.selectedPlant.value]), selectedPlant := None)));
  }

  /** Picking the bonus item appends it, clears the selection and opens (or re-opens)
      the window `{player, remaining: 1}` without moving the cursor or the status. */
  lemma ConfirmBonusPick(m: MatchState, p: Player)
    requires m.currentRound.selectedPlant == Some(PUMPKIN)
    requires m.currentRound.action == Some(Pick) && m.currentRound.currentPlayer == Some(p)
    requires CanPick(PUMPKIN, p, View(m)) == Allowed
    ensures var m', r, r' := Confirm(m), m.currentRound, Confirm(m).currentRound;
      && r'.picks.Get(p) == r.picks.Get(p) + [PUMPKIN]
      && r'.picks.Get(p.Opponent()) == r.picks.Get(p.Opponent())
      && r'.extraPick == Some(ExtraPick(p, 1))
      && r'.step == r.step && r'.stage == r.stage && r'.currentPlayer == r.currentPlayer
      && r'.selectedPlant.None? && m'.gameStatus == m.gameStatus
      && r'.bans == r.bans && m'.globalBans == m.globalBans && m'.plantUsage == m.plantUsage
      && m'.player1 == m.player1 && m'.player2 == m.player2
  {
  }

  /** The next accepted non-bonus pick of the window's player appends the pick, closes
      the window and advances the cursor exactly once. */
  lemma ConfirmClosesWindow(m: MatchState, p: Player)
    requires HasSelection(m.currentRound) && m.currentRound.selectedPlant.value != PUMPKIN
    requires m.currentRound.action == Some(Pick) && m.currentRound.currentPlayer == Some(p)
    requires m.currentRound.extraPick == Some(ExtraPick(p, 1))
    requires CanPick(m.currentRound.selectedPlant.value, p, View(m)) == Allowed
    ensures var id, m', r, r' := m.currentRound.selectedPlant.value, Confirm(m), m.currentRound, Confirm(m).currentRound;
      && r'.picks.Get(p) == r.picks.Get(p) + [id]
      && r'.picks.Get(p.Opponent()) == r.picks.Get(p.Opponent())
      && r'.extraPick.None?
      && r'.bans == r.bans && m'.globalBans == m.globalBans && m'.plantUsage == m.plantUsage
      && m'.player1 == m.player1 && m'.player2 == m.player2
      && (r.step + 1 < GetTotalSteps(r.bpSequence) ==> r'.step == r.step + 1 && m'.gameStatus == Banning)
      && (r.step + 1 >= GetTotalSteps(r.bpSequence) ==> r'.step == r.step && m'.gameStatus == Positioning)
  {
    var r := m.currentRound;
    var id := r.selectedPlant.value;
    var r1 := r.(picks := r.picks.Set(p, r.picks.Get(p) + [id]), selectedPlant := None);
    AdvanceEffect(m.(currentRound := r1.(extraPick := None)));
  }

  /** An accepted non-bonus pick outside a window of the acting player appends the
      pick, keeps the window as it is and advances the cursor exactly once. */
  lemma ConfirmPlainPick(m: MatchState, p: Player)
    requires HasSelection(m.currentRound) && m.currentRound.selectedPlant.value != PUMPKIN
    requires m.currentRound.action == Some(Pick) && m.currentRound.currentPlayer == Some(p)
    requires m.currentRound.extraPick.None? || m.currentRound.extraPick.value.player != p
    requires CanPick(m.currentRound.selectedPlant.value, p, View(m)) == Allowed
    ensures var id, m', r, r' := m.currentRound.selectedPlant.value, Confirm(m), m.currentRound, Confirm(m).currentRound;
      && r'.picks.Get(p) == r.picks.Get(p) + [id]
      && r'.picks.Get(p.Opponent()) == r.picks.Get(p.Opponent())
      && r'.bans == r.bans && r'.extraPick == r.extraPick
      && (r.step + 1 < GetTotalSteps(r.bpSequence) ==> r'.step == r.step + 1 && m'.gameStatus == Banning)
      && (r.step + 1 >= GetTotalSteps(r.bpSequence) ==> r'.step == r.step && m'.gameStatus == Positioning)
  {
    var r := m.currentRound;
    var id := r.selectedPlant.value;
    AdvanceEffect(m.(currentRound := r.(picks := r.picks.Set(p, r.picks.Get(p) + [id]), selectedPlant := None)));
  }

  /** For every player and every plant they picked this round, own picks plus history
      stay within the cap of 2. */
  ghost predicate UsageCapHolds(m: MatchState) {
    forall p: Player, x: PlantId :: x in m.currentRound.picks.Get(p) ==> TotalUsage(x, p, View(m)) <= 2
  }

  /** Confirming keeps every player within the usage cap; a third pick of the same
      plant by the same player is refused. */
  lemma ConfirmKeepsUsageCap(m: MatchState)
    requires UsageCapHolds(m)
    ensures UsageCapHolds(Confirm(m))
  {
    var r := m.currentRound;
    if HasSelection(r) && r.action.Some? && r.currentPlayer.Some? {
      var p, id := r.currentPlayer.value, r.selectedPlant.value;
      if r.action == Some(Ban) {
        AdvanceEffect(WithBan(m, p, id));
      } else if CanPick(id, p, View(m)) == Allowed {
        var m1 := WithPick(m, p, id);
        AfterPickEffect(m1, p, id);
        var m' := Confirm(m);
        assert m' == AfterPick(m1, p, id);
        forall q: Player, x: PlantId | x in m'.currentRound.picks.Get(q)
          ensures TotalUsage(x, q, View(m')) <= 2
        {
          if q == p {
            OccurrencesAppend(r.picks.Get(p), id, x);
            if x == id {
              CanPickAllowedStaysWithinCap(id, p, View(m));
            } else {
              assert x in r.picks.Get(p);
            }
          } else {
            assert q == p.Opponent();
          }
        }
      }
    }
  }

  /** Confirming keeps the cursor valid. */
  lemma ConfirmKeepsCursorValid(m: MatchState)
    requires CursorValid(m.currentRound)
    ensures CursorValid(Confirm(m).currentRound)
  {
    var r := m.currentRound;
    if HasSelection(r) && r.action.Some? && r.currentPlayer.Some? {
      var p, id := r.currentPlayer.value, r.selectedPlant.value;
      if r.action == Some(Ban) {
        AdvanceKeepsCursorValid(WithBan(m, p, id));
      } else if CanPick(id, p, View(m)) == Allowed {
        AfterPickEffect(WithPick(m, p, id), p, id);
      }
    }
  }

  /** No plant id occurs twice among the global bans and both round-ban lists. */
  ghost predicate BansDistinct(m: MatchState) {
    var all := m.globalBans + m.currentRound.bans.player1 + m.currentRound.bans.player2;
    forall x :: multiset(all)[x] <= 1
  }

  /** Because a ban is confirmed without a check, the ban lists stay free of repeats
      only when the selected id passed `canBan` (as the ban-phase `availablePlants`
      guarantees for what it offers). */
  lemma ConfirmBanKeepsBansDistinct(m: MatchState)
    requires BansDistinct(m)
    requires m.currentRound.action == Some(Ban) && HasSelection(m.currentRound)
    requires CanBan(m.currentRound.selectedPlant.value, View(m)) == Allowed
    ensures BansDistinct(Confirm(m))
  {
    var r := m.currentRound;
    if r.currentPlayer.Some? {
      var p, id := r.currentPlayer.value, r.selectedPlant.value;
      var m1 := m.(currentRound := r.(bans := r.bans.Set(p, r.bans.Get(p) + [id]), selectedPlant := None));
      AdvanceEffect(m1);
      var all := m.globalBans + r.bans.player1 + r.bans.player2;
      var all' := m.globalBans + m1.currentRound.bans.player1 + m1.currentRound.bans.player2;
      assert multiset(all') == multiset(all) + multiset{id};
      assert multiset(all)[id] == 0;
    }
  }

  /** A ban confirmed for an id that is already banned, globally or in this round,
      leaves a repeat in the ban lists: the state machine does not re-check bans. */
  lemma UncheckedBanCanRepeat(m: MatchState, p: Player)
    requires m.currentRound.action == Some(Ban) && m.currentRound.currentPlayer == Some(p)
    requires HasSelection(m.currentRound)
    requires m.currentRound.selectedPlant.value in
      m.globalBans + m.currentRound.bans.player1 + m.currentRound.bans.player2
    ensures !BansDistinct(Confirm(m))
  {
    var r := m.currentRound;
    var id := r.selectedPlant.value;
    var m1 := m.(currentRound := r.(bans := r.bans.Set(p, r.bans.Get(p) + [id]), selectedPlant := None));
    AdvanceEffect(m1);
    var all := m.globalBans + r.bans.player1 + r.bans.player2;
    var all' := m.globalBans + m1.currentRound.bans.player1 + m1.currentRound.bans.player2;
    assert multiset(all') == multiset(all) + multiset{id};
    assert multiset(all)[id] >= 1;
    assert multiset(all')[id] >= 2;
  }

  // ---------------------------------------------------------------------------
  // setPosition, finishRound, setRoundWinner, selectRoad

  /** `setPosition`: an invalid formation changes nothing; a valid one is stored with
      the player's own assigned road (the road argument is only validated). */
  function SetPosition(m: MatchState, player: Player, road: Option<int>, plants: Option<seq<Slot>>): MatchState {
    var r := m.currentRound;
    if PositionErrors(Position(road, plants)) != [] then m
    else m.(currentRound := r.(positions := r.positions.Set(player, PositionRecord(m.Info(player).road, plants.value))))
  }

  lemma SetPositionEffect(m: MatchState, player: Player, road: Option<int>, plants: Option<seq<Slot>>)
    ensures var m' := SetPosition(m, player, road, plants);
      (!((road == Some(2) || road == Some(4)) && plants.Some? && 1 <= |plants.value| <= 5) ==> m' == m) &&
      ((road == Some(2) || road == Some(4)) && plants.Some? && 1 <= |plants.value| <= 5 ==>
        && m'.currentRound.positions.Get(player) == PositionRecord(m.Info(player).road, plants.value)
        && m'.currentRound.positions.Get(player.Opponent()) == m.currentRound.positions.Get(player.Opponent())
        && m' == m.(currentRound := m.currentRound.(positions := m'.currentRound.positions))
        && m'.currentRound.step == m.currentRound.step && m'.gameStatus == m.gameStatus)
  {
    PositionValidIff(Position(road, plants));
  }

  /** `finishRound`: the result screen, no winner yet, the round marked complete. */
  function FinishRound(m: MatchState): MatchState {
    m.(gameStatus := Result, roundWinner := None, currentRound := m.currentRound.(isRoundComplete := true))
  }

  /** One `forEach` of `updatePlantUsage`: each occurrence in `s` adds 1 to the entry of
      `(p, id)`. */
  function FoldUsage(u: Usage, p: Player, s: seq<PlantId>): Usage {
    if s == [] then u
    else
      var u' := FoldUsage(u, p, s[..|s| - 1]);
      var x := s[|s| - 1];
      u'[(p, x) := UsageOf(u', p, x) + 1]
  }

  /** `updatePlantUsage`: player 1's picks, then player 2's. */
  function UpdatePlantUsage(u: Usage, picks: PerPlayer<seq<PlantId>>): Usage {
    FoldUsage(FoldUsage(u, Player1, picks.player1), Player2, picks.player2)
  }

  lemma {:induction false} FoldUsageCounts(u: Usage, p: Player, s: seq<PlantId>, q: Player, x: PlantId)
    ensures UsageOf(FoldUsage(u, p, s), q, x) == UsageOf(u, q, x) + (if q == p then Occurrences(s, x) else 0)
  {
    if s != [] {
      var s' := s[..|s| - 1];
      FoldUsageCounts(u, p, s', q, x);
      assert s == s' + [s[|s| - 1]];
      OccurrencesAppend(s', s[|s| - 1], x);
    }
  }

  /** Folding adds every occurrence of every pick, uncapped, to the picker's entry. */
  lemma UpdatePlantUsageCounts(u: Usage, picks: PerPlayer<seq<PlantId>>, q: Player, x: PlantId)
    ensures UsageOf(UpdatePlantUsage(u, picks), q, x) == UsageOf(u, q, x) + Occurrences(picks.Get(q), x)
  {
    FoldUsageCounts(u, Player1, picks.player1, q, x);
    FoldUsageCounts(FoldUsage(u, Player1, picks.player1), Player2, picks.player2, q, x);
  }

  function Increment(info: PlayerInfo): PlayerInfo {
    info.(score := info.score + 1)
  }

  /** `setRoundWinner`: the winner scores, the round's picks go into the ledger, and the
      match is finished on reaching 4 or at 3:3 (the tie-break itself is not built). */
  function SetRoundWinner(m: MatchState, winner: Player): MatchState {
    var m1 := m.(roundWinner := Some(winner),
                 player1 := if winner == Player1 then Increment(m.player1) else m.player1,
                 player2 := if winner == Player2 then Increment(m.player2) else m.player2);
    var m2 := m1.(plantUsage := UpdatePlantUsage(m1.plantUsage, m1.currentRound.picks));
    if IsGameOver(m2.player1.score, m2.player2.score) then m2.(gameStatus := Finished)
    else if IsGrandFinal(m2.player1.score, m2.player2.score) then m2.(gameStatus := Finished)
    else m2
  }

  lemma SetRoundWinnerEffect(m: MatchState, w: Player, q: Player, x: PlantId)
    ensures var m' := SetRoundWinner(m, w);
      && m'.Info(w).score == m.Info(w).score + 1
      && m'.Info(w.Opponent()).score == m.Info(w.Opponent()).score
      && m'.Info(w) == m.Info(w).(score := m.Info(w).score + 1)
      && m'.Info(w.Opponent()) == m.Info(w.Opponent())
      && m'.firstPlayer == m.firstPlayer
      && m'.roundWinner == Some(w)
      && GetPlantUsageCount(m', q, x) == GetPlantUsageCount(m, q, x) + Occurrences(m.currentRound.picks.Get(q), x)
      && (m'.gameStatus == Finished <==>
            IsGameOver(m'.player1.score, m'.player2.score) ||
            IsGrandFinal(m'.player1.score, m'.player2.score) || m.gameStatus == Finished)
      && (!IsGameOver(m'.player1.score, m'.player2.score) && !IsGrandFinal(m'.player1.score, m'.player2.score) ==>
            m'.gameStatus == m.gameStatus)
      && m'.currentRound == m.currentRound && m'.globalBans == m.globalBans
  {
    UpdatePlantUsageCounts(m.plantUsage, m.currentRound.picks, q, x);
  }

  /** `selectRoad`: only the loser's road is set; then round `roundNumber + 1` starts. */
  function SelectRoad(m: MatchState, loser: Player, road: Option<int>): MatchState {
    var m1 := if loser == Player1 then m.(player1 := m.player1.(road := road))
              else m.(player2 := m.player2.(road := road));
    StartRound(m1, m.currentRound.roundNumber + 1)
  }

  /** The loser's road is the chosen one, the winner's road is left as it was, and the
      next round is under way. */
  lemma SelectRoadEffect(m: MatchState, loser: Player, road: Option<int>)
    ensures var m' := SelectRoad(m, loser, road);
      && m'.Info(loser).road == road
      && m'.Info(loser) == m.Info(loser).(road := road)
      && m'.Info(loser.Opponent()) == m.Info(loser.Opponent())
      && m'.Info(loser).score == m.Info(loser).score
      && m'.plantUsage == m.plantUsage && m'.globalBans == m.globalBans
      && m'.firstPlayer == m.firstPlayer && m'.roundWinner == m.roundWinner
      && m'.currentRound.roundNumber == m.currentRound.roundNumber + 1
      && m'.currentRound.step == 0 && m'.gameStatus == Banning
      && CursorValid(m'.currentRound)
  {
    var m1 := if loser == Player1 then m.(player1 := m.player1.(road := road))
              else m.(player2 := m.player2.(road := road));
    StartRoundEffect(m1, m.currentRound.roundNumber + 1);
  }

  /** Because only the loser's road changes, a loser who takes the road the winner
      holds leaves both players on that road: the next round has no steps at all and
      sits in 'banning' with no acting player. Taking the other road gives the full
      20-step round. */
  lemma SelectRoadSharedLane(m: MatchState, loser: Player, road: int)
    requires road == 2 || road == 4
    ensures m.Info(loser.Opponent()).road == Some(road) ==>
      var r' := SelectRoad(m, loser, Some(road)).currentRound;
      GetTotalSteps(r'.bpSequence) == 0 && r'.currentPlayer.None? && r'.action.None? &&
      SelectRoad(m, loser, Some(road)).gameStatus == Banning
    ensures m.Info(loser.Opponent()).road == Some(6 - road) ==>
      var r' := SelectRoad(m, loser, Some(road)).currentRound;
      GetTotalSteps(r'.bpSequence) == 20 && r'.action == Some(Ban) &&
      r'.currentPlayer == Some(if road == 2 then loser else loser.Opponent())
  {
    var m1 := if loser == Player1 then m.(player1 := m.player1.(road := Some(road)))
              else m.(player2 := m.player2.(road := Some(road)));
    StartRoundEffect(m1, m.currentRound.roundNumber + 1);
  }

  // ---------------------------------------------------------------------------
  // getAvailablePlantInstances

  /** Source indices already placed in a formation for the plant. */
  function UsedSourceIndices(slots: seq<Slot>, plantId: PlantId): set<nat> {
    set i | 0 <= i < |slots| && slots[i].Placed? && slots[i].plantId == plantId :: slots[i].sourceIndex
  }

  function MatchingIndicesFrom(picks: seq<PlantId>, used: set<nat>, plantId: PlantId, i: nat): (r: seq<nat>)
    requires i <= |picks|
    ensures forall k :: k in r <==> i <= k < |picks| && picks[k] == plantId && k !in used
    ensures forall a, b :: 0 <= a < b < |r| ==> r[a] < r[b]
    ensures forall a :: 0 <= a < |r| ==> i <= r[a]
    decreases |picks| - i
  {
    if i == |picks| then []
    else
      var rest := MatchingIndicesFrom(picks, used, plantId, i + 1);
      if picks[i] == plantId && i !in used then [i] + rest else rest
  }

  /** `getAvailablePlantInstances`: in increasing order, the indices of the player's
      picks of the plant that no formation entry of that player already uses. */
  function AvailablePlantInstances(m: MatchState, player: Player, plantId: PlantId): (r: seq<nat>)
    ensures var picks, used := m.currentRound.picks.Get(player),
                               UsedSourceIndices(m.currentRound.positions.Get(player).plants, plantId);
      (forall k :: k in r <==> 0 <= k < |picks| && picks[k] == plantId && k !in used) &&
      (forall a, b :: 0 <= a < b < |r| ==> r[a] < r[b])
  {
    MatchingIndicesFrom(m.currentRound.picks.Get(player),
                        UsedSourceIndices(m.currentRound.positions.Get(player).plants, plantId), plantId, 0)
  }

  // ---------------------------------------------------------------------------
  // migrateLegacyPositions

  /** `plants.find(p => p !== null && p !== undefined)`. */
  function FirstFilled(plants: seq<Slot>): (r: Option<nat>)
    ensures r.Some? ==> (r.value < |plants| && plants[r.value] != Empty &&
      forall j :: 0 <= j < r.value ==> plants[j] == Empty)
    ensures r.None? ==> forall j :: 0 <= j < |plants| ==> plants[j] == Empty
  {
    if plants == [] then None
    else if plants[0] != Empty then Some(0)
    else
      var k := FirstFilled(plants[1..]);
      if k.None? then None else Some(k.value + 1)
  }

  /** `plants.slice(0, index).filter(p => p === plantId).length`. */
  function LegacyBefore(plants: seq<Slot>, index: nat, plantId: PlantId): nat
    requires index <= |plants|
  {
    if index == 0 then 0
    else LegacyBefore(plants, index - 1, plantId) + (if plants[index - 1] == Legacy(plantId) then 1 else 0)
  }

  /** `picks.findIndex((pid, i) => pid === plantId && i >= from)`. */
  function FindPickFrom(picks: seq<PlantId>, plantId: PlantId, from: nat): (k: int)
    ensures k == -1 || (from <= k < |picks| && picks[k] == plantId)
    ensures k >= 0 ==> forall j :: from <= j < k ==> picks[j] != plantId
    ensures k == -1 ==> forall j :: from <= j < |picks| ==> picks[j] != plantId
    decreases |picks| - from
  {
    if from >= |picks| then -1
    else if picks[from] == plantId then from
    else FindPickFrom(picks, plantId, from + 1)
  }

  /** The upgraded entry at `index` as the code computes it: a bare id becomes
      `{plantId, sourceIndex}` with the first matching pick at or after the number of
      equal bare ids before it (0 when there is none). An entry already structured is
      kept as it is. */
  function MigrateSlotAsWritten(plants: seq<Slot>, picks: seq<PlantId>, index: nat): Slot
    requires index < |plants|
  {
    match plants[index]
    case Empty => Empty
    case Legacy(id) =>
      var sourceIndex := FindPickFrom(picks, id, LegacyBefore(plants, index, id));
      Placed(id, if sourceIndex >= 0 then sourceIndex else 0)
    case Placed(_, _) => plants[index]
  }

  /** The index of occurrence number `n` (counting from 0) of the plant in `picks` at
      or after `from`, or -1 when there are not that many. */
  function NthPick(picks: seq<PlantId>, plantId: PlantId, n: nat, from: nat): (k: int)
    ensures k == -1 || (from <= k < |picks| && picks[k] == plantId)
    decreases |picks| - from
  {
    if from >= |picks| then -1
    else if picks[from] == plantId then
      if n == 0 then from else NthPick(picks, plantId, n - 1, from + 1)
    else NthPick(picks, plantId, n, from + 1)
  }

  /** The search finds an index exactly when at least `n + 1` copies lie at or after
      `from`, and then exactly `n` copies lie between `from` and it. */
  lemma {:induction false} NthPickExact(picks: seq<PlantId>, plantId: PlantId, n: nat, from: nat)
    requires from <= |picks|
    ensures NthPick(picks, plantId, n, from) >= 0 <==> Occurrences(picks[from..], plantId) > n
    ensures var k := NthPick(picks, plantId, n, from);
      k >= 0 ==> Occurrences(picks[from..k], plantId) == n
    decreases |picks| - from
  {
    if from < |picks| {
      NthPickExact(picks, plantId, if picks[from] == plantId && n > 0 then n - 1 else n, from + 1);
      assert picks[from..] == [picks[from]] + picks[from + 1..];
      var k := NthPick(picks, plantId, n, from);
      if k > from {
        assert picks[from..k] == [picks[from]] + picks[from + 1..k];
      }
    }
  }

  /** A later occurrence that exists lies after every earlier one, which exists too. */
  lemma {:induction false} NthPickIncreasing(picks: seq<PlantId>, plantId: PlantId, n: nat, n': nat, from: nat)
    requires n < n' && NthPick(picks, plantId, n', from) >= 0
    ensures 0 <= NthPick(picks, plantId, n, from) < NthPick(picks, plantId, n', from)
    decreases |picks| - from
  {
    if picks[from] == plantId {
      if n > 0 {
        NthPickIncreasing(picks, plantId, n - 1, n' - 1, from + 1);
      }
    } else {
      NthPickIncreasing(picks, plantId, n, n', from + 1);
    }
  }

  /** An equal bare id at an earlier position adds one to the count before a later one. */
  lemma {:induction false} LegacyBeforeGrows(plants: seq<Slot>, i: nat, j: nat, plantId: PlantId)
    requires i < j <= |plants| && plants[i] == Legacy(plantId)
    ensures LegacyBefore(plants, j, plantId) > LegacyBefore(plants, i, plantId)
  {
    if j > i + 1 {
      LegacyBeforeGrows(plants, i, j - 1, plantId);
    }
  }

  /** The upgraded entry at `index`, as the comment "accounting for duplicates" in
      the code intends: the k-th bare copy of a plant takes the k-th pick of it (0 when
      there is none). An entry already structured is kept as it is. */
  function MigrateSlot(plants: seq<Slot>, picks: seq<PlantId>, index: nat): Slot
    requires index < |plants|
  {
    match plants[index]
    case Empty => Empty
    case Legacy(id) =>
      var sourceIndex := NthPick(picks, id, LegacyBefore(plants, index, id), 0);
      Placed(id, if sourceIndex >= 0 then sourceIndex else 0)
    case Placed(_, _) => plants[index]
  }

  /** A formation list is in the legacy shape when its first non-null entry is a bare id. */
  predicate IsLegacyList(plants: seq<Slot>) {
    var first := FirstFilled(plants);
    first.Some? && plants[first.value].Legacy?
  }

  /** The upgrade of one formation list. */
  function MigratePlants(plants: seq<Slot>, picks: seq<PlantId>): (r: seq<Slot>)
    ensures |r| == |plants|
    ensures !IsLegacyList(plants) ==> r == plants
    ensures IsLegacyList(plants) ==> forall i :: 0 <= i < |plants| ==> r[i] == MigrateSlot(plants, picks, i)
  {
    if IsLegacyList(plants) then seq(|plants|, i requires 0 <= i < |plants| => MigrateSlot(plants, picks, i))
    else plants
  }

  /** The upgrade of one formation list as the code computes it. */
  function MigratePlantsAsWritten(plants: seq<Slot>, picks: seq<PlantId>): (r: seq<Slot>)
    ensures |r| == |plants|
    ensures !IsLegacyList(plants) ==> r == plants
    ensures IsLegacyList(plants) ==> forall i :: 0 <= i < |plants| ==> r[i] == MigrateSlotAsWritten(plants, picks, i)
  {
    if IsLegacyList(plants) then seq(|plants|, i requires 0 <= i < |plants| => MigrateSlotAsWritten(plants, picks, i))
    else plants
  }

  /** As written, two bare copies of a plant can be given the same pick: with picks
      `b, a, a` both copies of `a` get index 1, so pick 2 is never placed. The intended
      upgrade gives them picks 1 and 2. */
  lemma MigrateAsWrittenSharesIndex()
    ensures MigratePlantsAsWritten([Legacy("a"), Legacy("a")], ["b", "a", "a"]) == [Placed("a", 1), Placed("a", 1)]
    ensures MigratePlants([Legacy("a"), Legacy("a")], ["b", "a", "a"]) == [Placed("a", 1), Placed("a", 2)]
  {
    var plants: seq<Slot> := [Legacy("a"), Legacy("a")];
    var picks: seq<PlantId> := ["b", "a", "a"];
    assert FirstFilled(plants) == Some(0);
    assert LegacyBefore(plants, 0, "a") == 0;
    assert LegacyBefore(plants, 1, "a") == 1;
    assert FindPickFrom(picks, "a", 1) == 1;
    assert FindPickFrom(picks, "a", 0) == 1;
    assert NthPick(picks, "a", 0, 0) == 1;
    assert NthPick(picks, "a", 1, 0) == 2;
  }

  /** With the intended upgrade, two bare copies of the same plant whose picks exist
      are given different picks of that plant. */
  lemma MigrateIndicesDistinct(plants: seq<Slot>, picks: seq<PlantId>, i: nat, j: nat)
    requires IsLegacyList(plants) && i < j < |plants|
    requires plants[i].Legacy? && plants[j] == plants[i]
    requires NthPick(picks, plants[j].plantId, LegacyBefore(plants, j, plants[j].plantId), 0) >= 0
    ensures var r := MigratePlants(plants, picks);
      && r[i].Placed? && r[j].Placed?
      && r[i].sourceIndex < |picks| && picks[r[i].sourceIndex] == plants[i].plantId
      && r[j].sourceIndex < |picks| && picks[r[j].sourceIndex] == plants[j].plantId
      && r[i].sourceIndex < r[j].sourceIndex
  {
    var id := plants[i].plantId;
    LegacyBeforeGrows(plants, i, j, id);
    NthPickIncreasing(picks, id, LegacyBefore(plants, i, id), LegacyBefore(plants, j, id), 0);
  }

  /** The upgrade keeps the length and every null, turns every bare id into a
      structured entry for the same plant whose source index, when a matching pick
      exists, is such a pick's index, and leaves no bare id behind. */
  lemma MigratePlantsShape(plants: seq<Slot>, picks: seq<PlantId>, i: nat)
    requires IsLegacyList(plants) && i < |plants|
    ensures var r := MigratePlants(plants, picks);
      && (plants[i] == Empty <==> r[i] == Empty)
      && !r[i].Legacy?
      && (plants[i].Legacy? ==> (r[i].Placed? && r[i].plantId == plants[i].plantId &&
            (r[i].sourceIndex != 0 ==> r[i].sourceIndex < |picks| && picks[r[i].sourceIndex] == plants[i].plantId)))
      && (!plants[i].Legacy? ==> r[i] == plants[i])
  {
  }

  /** Migration is idempotent: an upgraded list is no longer in the legacy shape. */
  lemma MigratePlantsIdempotent(plants: seq<Slot>, picks: seq<PlantId>)
    ensures MigratePlants(MigratePlants(plants, picks), picks) == MigratePlants(plants, picks)
  {
    var r := MigratePlants(plants, picks);
    if IsLegacyList(plants) {
      var f := FirstFilled(plants).value;
      var g := FirstFilled(r);
      assert r[f] == MigrateSlot(plants, picks, f);
      assert r[f] != Empty;
      forall j | 0 <= j < f ensures r[j] == Empty {
        assert r[j] == MigrateSlot(plants, picks, j);
      }
      assert g.Some? && g.value == f;
      assert !IsLegacyList(r);
    }
  }

  /** A list without bare ids is kept as it is. */
  predicate NoLegacy(plants: seq<Slot>) {
    forall i :: 0 <= i < |plants| ==> !plants[i].Legacy?
  }

  lemma MigrateWithoutLegacy(plants: seq<Slot>, picks: seq<PlantId>)
    requires NoLegacy(plants)
    ensures MigratePlants(plants, picks) == plants
  {
  }

  function MigrateRecord(rec: PositionRecord, picks: seq<PlantId>): PositionRecord {
    rec.(plants := MigratePlants(rec.plants, picks))
  }

  /** `migrateLegacyPositions`: both players' formation lists upgraded. */
  function MigratePositions(m: MatchState): MatchState {
    var r := m.currentRound;
    m.(currentRound := r.(positions := PerPlayer(
      MigrateRecord(r.positions.player1, r.picks.player1),
      MigrateRecord(r.positions.player2, r.picks.player2))))
  }

  /** No formation entry in the legacy shape. */
  predicate NoLegacyEntries(m: MatchState) {
    NoLegacy(m.currentRound.positions.player1.plants) && NoLegacy(m.currentRound.positions.player2.plants)
  }

  /** Saving and loading again gives back the same state when no legacy entries are
      present, and the upgrade on load touches only the formation lists and is
      idempotent. */
  lemma LoadAfterSave(m: MatchState)
    ensures NoLegacyEntries(m) ==> MigratePositions(m) == m
    ensures MigratePositions(MigratePositions(m)) == MigratePositions(m)
    ensures MigratePositions(m) ==
      m.(currentRound := m.currentRound.(positions := MigratePositions(m).currentRound.positions))
    ensures MigratePositions(m).gameStatus == m.gameStatus
    ensures CursorValid(m.currentRound) ==> CursorValid(MigratePositions(m).currentRound)
  {
    var r := m.currentRound;
    if NoLegacyEntries(m) {
      MigrateWithoutLegacy(r.positions.player1.plants, r.picks.player1);
      MigrateWithoutLegacy(r.positions.player2.plants, r.picks.player2);
    }
    MigratePlantsIdempotent(r.positions.player1.plants, r.picks.player1);
    MigratePlantsIdempotent(r.positions.player2.plants, r.picks.player2);
  }
}
