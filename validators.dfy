/** The eligibility rules of the draft (src/utils/validators.js): whether a plant may be
    banned or picked, whether a formation is acceptable, when the match is over, and
    which plant is the bonus item. */
module Validators {
  import opened Common
  import opened CustomPlants

  /** Why a ban or pick is refused; the source shows the texts of ReasonText. */
  datatype Reason = AlreadyBanned | OpponentHolds | UsageLimitReached(total: nat)

  datatype Verdict = Allowed | Rejected(reason: Reason)

  function DigitText(n: nat): string
    decreases n
  {
    var d := ["0", "1", "2", "3", "4", "5", "6", "7", "8", "9"][n % 10];
    if n < 10 then d else DigitText(n / 10) + d
  }

  function ReasonText(r: Reason): string {
    match r
    case AlreadyBanned => "该植物已被禁用"
    case OpponentHolds => "不能选择对方已选的植物"
    case UsageLimitReached(t) => "该植物已使用" + DigitText(t) + "次，达到上限（2次）"
  }

  /** What the validators read of the store state: the global bans, the round's ban and
      pick lists and the usage ledger. */
  datatype GameView = GameView(
    globalBans: seq<PlantId>,
    bans: PerPlayer<seq<PlantId>>,
    picks: PerPlayer<seq<PlantId>>,
    plantUsage: Usage)

  /** `isBanned`: the id occurs in the global bans or the given round bans. */
  function IsBanned(plantId: PlantId, globalBans: seq<PlantId>, roundBans: seq<PlantId>): (b: bool)
    ensures b <==> plantId in globalBans || plantId in roundBans
  {
    plantId in globalBans + roundBans
  }

  /** `isPicked`: the id occurs in either player's picks. */
  function IsPicked(plantId: PlantId, player1Picks: seq<PlantId>, player2Picks: seq<PlantId>): (b: bool)
    ensures b <==> plantId in player1Picks || plantId in player2Picks
  {
    plantId in player1Picks + player2Picks
  }

  /** `checkUsageLimit`: historical usage strictly below the cap (2 by default). */
  function CheckUsageLimit(plantId: PlantId, player: Player, plantUsage: Usage, maxUsage: int := 2): (ok: bool)
    ensures (player, plantId) !in plantUsage ==> (ok <==> maxUsage > 0)
    ensures (player, plantId) in plantUsage ==> (ok <==> plantUsage[(player, plantId)] < maxUsage)
  {
    UsageOf(plantUsage, player, plantId) < maxUsage
  }

  /** `canPickOpponentPlant`: the opponent's pick list does not hold the id. */
  function CanPickOpponentPlant(plantId: PlantId, currentPlayer: Player,
                                player1Picks: seq<PlantId>, player2Picks: seq<PlantId>): (ok: bool)
    ensures ok <==> plantId !in PerPlayer(player1Picks, player2Picks).Get(currentPlayer.Opponent())
  {
    var opponentPicks := if currentPlayer == Player1 then player2Picks else player1Picks;
    plantId !in opponentPicks
  }

  /** Both bans lists of the round, `[...bans.player1, ...bans.player2]`. */
  function RoundBans(view: GameView): seq<PlantId> {
    view.bans.player1 + view.bans.player2
  }

  /** `canBan`: refused only for an id already banned globally or in this round. */
  function CanBan(plantId: PlantId, view: GameView): (v: Verdict)
    ensures v == Allowed <==>
      plantId !in view.globalBans && plantId !in view.bans.player1 && plantId !in view.bans.player2
    ensures v.Rejected? ==> v.reason == AlreadyBanned
  {
    if IsBanned(plantId, view.globalBans, RoundBans(view)) then Rejected(AlreadyBanned) else Allowed
  }

  /** `ownPickCount + historicalUsage` for a player and a plant. */
  function TotalUsage(plantId: PlantId, player: Player, view: GameView): nat {
    Occurrences(view.picks.Get(player), plantId) + UsageOf(view.plantUsage, player, plantId)
  }

  /** `canPick`: three checks in a fixed order, ban first, then the opponent's picks,
      then own picks this round plus history against the cap of 2. */
  function CanPick(plantId: PlantId, player: Player, view: GameView): (v: Verdict)
    ensures v == Allowed <==>
      !IsBanned(plantId, view.globalBans, RoundBans(view)) &&
      plantId !in view.picks.Get(player.Opponent()) &&
      TotalUsage(plantId, player, view) < 2
  {
    if IsBanned(plantId, view.globalBans, RoundBans(view)) then Rejected(AlreadyBanned)
    else if plantId in view.picks.Get(player.Opponent()) then Rejected(OpponentHolds)
    else
      var totalUsage := TotalUsage(plantId, player, view);
      if totalUsage >= 2 then Rejected(UsageLimitReached(totalUsage)) else Allowed
  }

  /** Banning never looks at picks or usage: only the ban lists decide. */
  lemma CanBanIgnoresPicksAndUsage(plantId: PlantId, view: GameView,
                                   picks: PerPlayer<seq<PlantId>>, usage: Usage)
    ensures CanBan(plantId, view) == CanBan(plantId, view.(picks := picks, plantUsage := usage))
    ensures plantId in view.picks.player1 && CanBan(plantId, view) == Allowed ==>
      CanBan(plantId, view.(plantUsage := usage)) == Allowed
  {
  }

  /** The ban check runs first: whatever the picks and usage, a banned id is refused
      with the ban reason. */
  lemma CanPickBannedFirst(plantId: PlantId, player: Player, view: GameView)
    requires plantId in view.globalBans || plantId in view.bans.player1 || plantId in view.bans.player2
    ensures CanPick(plantId, player, view) == Rejected(AlreadyBanned)
    ensures CanBan(plantId, view) == Rejected(AlreadyBanned)
  {
  }

  /** An id held by the opponent is refused even if the acting player never picked it
      and has no history with it. */
  lemma CanPickOpponentExclusion(plantId: PlantId, player: Player, view: GameView)
    requires plantId in view.picks.Get(player.Opponent())
    ensures CanPick(plantId, player, view).Rejected?
    ensures !IsBanned(plantId, view.globalBans, RoundBans(view)) ==>
      CanPick(plantId, player, view) == Rejected(OpponentHolds)
    ensures CanPick(plantId, player, view).Rejected? ==>
      !CanPickOpponentPlant(plantId, player, view.picks.player1, view.picks.player2) ||
      CanPick(plantId, player, view).reason == AlreadyBanned
  {
  }

  /** Reaching the cap refuses with the usage reason carrying the total; the three
      reasons are told apart. */
  lemma CanPickUsageCap(plantId: PlantId, player: Player, view: GameView)
    requires !IsBanned(plantId, view.globalBans, RoundBans(view))
    requires plantId !in view.picks.Get(player.Opponent())
    requires TotalUsage(plantId, player, view) >= 2
    ensures CanPick(plantId, player, view) == Rejected(UsageLimitReached(TotalUsage(plantId, player, view)))
    ensures ReasonText(AlreadyBanned) != ReasonText(OpponentHolds)
    ensures var usage := ReasonText(UsageLimitReached(TotalUsage(plantId, player, view)));
      usage != ReasonText(AlreadyBanned) && usage != ReasonText(OpponentHolds)
  {
    var prefix := "该植物已使用";
    var usage := ReasonText(UsageLimitReached(TotalUsage(plantId, player, view)));
    assert usage[4] == prefix[4] == '使';
    assert ReasonText(AlreadyBanned)[4] == '被';
    assert ReasonText(OpponentHolds)[0] == '不';
    assert usage[0] == '该';
  }

  /** An allowed pick keeps the player within the cap after the id is appended to
      their picks: at most 2 uses in this round and earlier ones together. */
  lemma {:induction false} CanPickAllowedStaysWithinCap(plantId: PlantId, player: Player, view: GameView)
    requires CanPick(plantId, player, view) == Allowed
    ensures !IsBanned(plantId, view.globalBans, RoundBans(view))
    ensures plantId !in view.picks.Get(player.Opponent())
    ensures Occurrences(view.picks.Get(player), plantId) + UsageOf(view.plantUsage, player, plantId) <= 1
    ensures var after := view.(picks := view.picks.Set(player, view.picks.Get(player) + [plantId]));
      TotalUsage(plantId, player, after) <= 2
  {
    OccurrencesAppend(view.picks.Get(player), plantId, plantId);
  }

  /** The usage check of `canPick` is `checkUsageLimit` applied to the usage this round
      and before: historical usage at the cap alone is already refused. */
  lemma HistoryAtCapRefused(plantId: PlantId, player: Player, view: GameView)
    requires !CheckUsageLimit(plantId, player, view.plantUsage)
    ensures CanPick(plantId, player, view).Rejected?
  {
  }

  // ---------------------------------------------------------------------------
  // validatePosition

  /** The argument of `validatePosition`: `road` and `plants` may be missing. */
  datatype Position<T> = Position(road: Option<int>, plants: Option<seq<T>>)

  datatype PositionError = RoadRequired | NoPlants | TooManyPlants

  function PositionErrorText(e: PositionError): string {
    match e
    case RoadRequired => "必须选择2路或4路"
    case NoPlants => "至少需要一个植物"
    case TooManyPlants => "最多只能有5个植物"
  }

  /** The errors `validatePosition` collects, in its order. */
  function PositionErrors<T>(position: Position<T>): (errors: seq<PositionError>)
    ensures |errors| <= 2
    ensures !(NoPlants in errors && TooManyPlants in errors)
  {
    (if position.road == Some(2) || position.road == Some(4) then [] else [RoadRequired]) +
    (if position.plants.None? || |position.plants.value| == 0 then [NoPlants] else []) +
    (if position.plants.Some? && |position.plants.value| > 5 then [TooManyPlants] else [])
  }

  /** `validatePosition`: pushes one error per failed check. */
  method ValidatePosition<T>(position: Position<T>) returns (valid: bool, errors: seq<PositionError>)
    ensures errors == PositionErrors(position)
    ensures valid <==> errors == []
  {
    errors := [];
    if position.road.None? || (position.road.value != 2 && position.road.value != 4) {
      errors := errors + [RoadRequired];
    }
    if position.plants.None? || |position.plants.value| == 0 {
      errors := errors + [NoPlants];
    }
    if position.plants.Some? && |position.plants.value| > 5 {
      errors := errors + [TooManyPlants];
    }
    valid := |errors| == 0;
  }

  /** A formation is accepted exactly on road 2 or 4 with one to five plants. */
  lemma PositionValidIff<T>(position: Position<T>)
    ensures PositionErrors(position) == [] <==>
      (position.road == Some(2) || position.road == Some(4)) &&
      position.plants.Some? && 1 <= |position.plants.value| <= 5
  {
  }

  /** Each violated condition adds exactly one error, in the order road, empty, too
      many; "empty" and "too many" never both occur. */
  lemma PositionErrorsExact<T>(position: Position<T>)
    ensures var e := PositionErrors(position);
      (RoadRequired in e <==> !(position.road == Some(2) || position.road == Some(4))) &&
      (NoPlants in e <==> position.plants.None? || |position.plants.value| == 0) &&
      (TooManyPlants in e <==> position.plants.Some? && |position.plants.value| > 5) &&
      |e| <= 2 &&
      (RoadRequired in e ==> e[0] == RoadRequired)
  {
  }

  // ---------------------------------------------------------------------------
  // Match end and the bonus item

  /** `isGameOver`: either score reached the threshold (4 unless given). */
  function IsGameOver(score1: int, score2: int, maxScore: int := 4): bool {
    score1 >= maxScore || score2 >= maxScore
  }

  /** `isGrandFinal`: the fixed 3:3 tie. */
  function IsGrandFinal(score1: int, score2: int): bool {
    score1 == 3 && score2 == 3
  }

  /** The threshold examples, and the 3:3 tie detected only while the match (to 4) is
      not over. */
  lemma MatchEndFacts(s1: int, s2: int)
    ensures IsGameOver(5, 3, 5) && !IsGameOver(3, 3, 5) && IsGameOver(4, 0) && !IsGameOver(3, 3)
    ensures IsGameOver(s1, s2) <==> s1 >= 4 || s2 >= 4
    ensures IsGrandFinal(s1, s2) ==> !IsGameOver(s1, s2)
  {
  }

  /** `isPumpkin`: the id 'pumpkin', or (given a non-empty plant list) the first entry
      with that id is named '南瓜头'. */
  function IsPumpkin(plantId: PlantId, allPlants: Option<seq<Plant>> := None): (b: bool)
    ensures plantId == PUMPKIN ==> b
    ensures allPlants.None? ==> (b <==> plantId == PUMPKIN)
  {
    if plantId == PUMPKIN then true
    else if allPlants.Some? && |allPlants.value| > 0 then
      var plant := FindById(allPlants.value, plantId);
      plant.Some? && plant.value.name == "南瓜头"
    else false
  }

  /** With a list, a non-'pumpkin' id is the bonus item exactly when its first entry in
      the list is named '南瓜头'; an id absent from the list is not. */
  lemma IsPumpkinByName(plantId: PlantId, plants: seq<Plant>)
    requires plantId != PUMPKIN
    ensures IsPumpkin(plantId, Some(plants)) <==>
      exists k :: 0 <= k < |plants| && plants[k].id == plantId && plants[k].name == "南瓜头" &&
        forall j :: 0 <= j < k ==> plants[j].id != plantId
    ensures (forall p :: p in plants ==> p.id != plantId) ==> !IsPumpkin(plantId, Some(plants))
  {
    var k := FindIndex(plants, plantId);
    if IsPumpkin(plantId, Some(plants)) {
      assert plants[k].id == plantId && plants[k].name == "南瓜头";
    }
    if exists k' :: 0 <= k' < |plants| && plants[k'].id == plantId && plants[k'].name == "南瓜头" &&
        forall j :: 0 <= j < k' ==> plants[j].id != plantId {
      var k' :| 0 <= k' < |plants| && plants[k'].id == plantId && plants[k'].name == "南瓜头" &&
        forall j :: 0 <= j < k' ==> plants[j].id != plantId;
      assert k == k';
    }
    if forall p :: p in plants ==> p.id != plantId {
      if k >= 0 { assert plants[k] in plants; }
    }
  }
}
